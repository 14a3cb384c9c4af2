/** The inductive invariant of the machine. */
module Invariants {
  import opened Options
  import opened Resources
  import opened ExternalIPs
  import opened Clusters
  import opened Sync
  import opened Machine

  // ---- One stored Tunnel -----------------------------------------------------

  predicate ClientRefOk(key: Key, ref: Option<ResourceRef>) {
    ref.None? || ref == Some(ResourceRef("", "")) || ref == Some(ClientRef(key))
  }

  /** The fields of every stored Tunnel agree with its HostStatus. */
  predicate FieldsOk(t: Tunnel) {
    var st := t.status;
    && SpecOk(t.key, t.spec)
    && (st.authTokenRef.Some? ==>
          t.spec.authTokenRef.None? && st.authTokenRef.value == ResourceRef(t.key.name, t.key.namespace))
    && ClientRefOk(t.key, st.clientDeploymentRef)
    && match st.hostStatus
       case NotStarted => st.hostID == "" && st.hostIP == "" && st.clientDeploymentRef.None?
       case Provisioning =>
         st.hostID != "" && st.hostIP == "" && st.clientDeploymentRef.None?
         && SecretName(t) != "" && t.spec.serviceRef.Some?
       case Active => st.hostID != "" && st.hostIP != "" && SecretName(t) != "" && t.spec.serviceRef.Some?
       case Other(_) => false
  }

  function Phase(s: HostStatus): nat {
    match s case NotStarted => 0 case Provisioning => 1 case Active => 2 case Other(_) => 3
  }

  /** `b` is a later version of the incarnation `a`: what is set once never changes. */
  predicate Evolves(a: Tunnel, b: Tunnel) {
    && a.uid == b.uid && a.key == b.key && a.spec == b.spec && a.owners == b.owners
    && Phase(a.status.hostStatus) <= Phase(b.status.hostStatus)
    && (SecretName(a) != "" ==> SecretName(b) == SecretName(a))
    && (a.status.hostID != "" ==> b.status.hostID == a.status.hostID)
    && (a.status.hostIP != "" ==> b.status.hostIP == a.status.hostIP)
    && (Named(a.status.clientDeploymentRef) ==> b.status.clientDeploymentRef == a.status.clientDeploymentRef)
    && (a.status.generated ==> b.status.generated)
  }

  // ---- Versions and snapshots --------------------------------------------------

  predicate StoredOk(c: Cluster) {
    && (forall k <- c.tunnels ::
          && c.tunnels[k].key == k
          && c.tunnels[k].rv in c.versions && c.versions[c.tunnels[k].rv] == c.tunnels[k]
          && c.tunnels[k].uid !in c.deleteEvents)
    && (forall u <- c.deleteEvents ::
          && c.deleteEvents[u].uid == u
          && c.deleteEvents[u].rv in c.versions && c.versions[c.deleteEvents[u].rv] == c.deleteEvents[u])
    && (forall r <- c.versions ::
          c.versions[r].rv == r && r < c.nextRv && c.versions[r].uid < c.nextUid && FieldsOk(c.versions[r]))
  }

  predicate StoredIsLatest(c: Cluster) {
    forall k <- c.tunnels, r <- c.versions ::
      c.versions[r].uid == c.tunnels[k].uid ==> r <= c.tunnels[k].rv
  }

  predicate VersionsEvolve(c: Cluster) {
    forall r <- c.versions, q <- c.versions ::
      r <= q && c.versions[r].uid == c.versions[q].uid ==> Evolves(c.versions[r], c.versions[q])
  }

  predicate Exact(c: Cluster, t: Tunnel) { t.rv in c.versions && c.versions[t.rv] == t }

  /** A snapshot read through the cache: the version it claims to be, except that an
      active Tunnel without a named client may show a reference written through the pointer. */
  predicate Close(c: Cluster, t: Tunnel) {
    && t.rv in c.versions
    && var v := c.versions[t.rv];
    && t == v.(status := v.status.(clientDeploymentRef := t.status.clientDeploymentRef))
    && (t == v ||
        (v.status.hostStatus.Active? && !Named(v.status.clientDeploymentRef)
         && t.status.clientDeploymentRef.Some? && ClientRefOk(t.key, t.status.clientDeploymentRef)))
  }

  predicate CacheOk(c: Cluster) {
    forall k <- c.tunnelCache ::
      c.tunnelCache[k].tunnel.key == k && c.tunnelCache[k].obj < c.nextObj && Close(c, c.tunnelCache[k].tunnel)
  }

  /** The pointer `obj` was handed out with version `rv`; objects are never reused. */
  predicate PointsTo(c: Cluster, obj: nat, rv: nat) {
    obj < c.nextObj
    && forall k <- c.tunnelCache :: c.tunnelCache[k].obj == obj ==> c.tunnelCache[k].tunnel.rv == rv
  }

  predicate ObjectsDiffer(c: Cluster) {
    forall j <- c.tunnelCache, k <- c.tunnelCache :: c.tunnelCache[j].obj == c.tunnelCache[k].obj ==> j == k
  }

  // ---- Hosts ---------------------------------------------------------------

  predicate HostIdsUnique(c: Cluster) {
    forall r <- c.versions, q <- c.versions ::
      c.versions[r].status.hostID != "" && c.versions[r].status.hostID == c.versions[q].status.hostID
      ==> c.versions[r].uid == c.versions[q].uid
  }

  predicate VersionHostsKnown(c: Cluster) {
    forall r <- c.versions :: c.versions[r].status.hostID != "" ==>
      && c.versions[r].status.hostID in c.hosts && !c.hosts[c.versions[r].status.hostID].place.InFlight?
      && c.hosts[c.versions[r].status.hostID].uid == c.versions[r].uid
  }

  predicate Disposing(pc: Pc, id: string) { pc.Dispose? && pc.t.status.hostID == id }

  /** From the books to the facts ... */
  predicate Stands(c: Cluster, threads: map<nat, Thread>, id: string, p: Place) {
    match p
    case InFlight(i) =>
      i in threads && threads[i].pc.Provision? && threads[i].pc.prov == WriteProvisioning(id)
    case Recorded(k) => k in c.tunnels && c.tunnels[k].status.hostID == id
    case Awaiting(u) => u in c.deleteEvents && c.deleteEvents[u].status.hostID == id
    case Handling(i) => i in threads && Disposing(threads[i].pc, id)
    case Gone => true
    case Orphaned => true
  }

  predicate PlaceOk(s: State, id: string)
    requires id in s.c.hosts
  {
    Stands(s.c, s.threads, id, s.c.hosts[id].place)
  }

  predicate PlacesOk(s: State) {
    forall id <- s.c.hosts :: id != "" && PlaceOk(s, id)
  }

  /** ... and from the facts to the books. */
  predicate RecordedOk(c: Cluster) {
    && (forall k <- c.tunnels :: c.tunnels[k].status.hostID != "" ==>
          c.tunnels[k].status.hostID in c.hosts
          && c.hosts[c.tunnels[k].status.hostID].place == Recorded(k))
    && (forall u <- c.deleteEvents :: c.deleteEvents[u].status.hostID != "" ==>
          c.deleteEvents[u].status.hostID in c.hosts
          && c.hosts[c.deleteEvents[u].status.hostID].place == Awaiting(u))
  }

  // ---- Tokens ----------------------------------------------------------------

  /** The name under which syncTunnelLicense keeps its copies is the one secret
      name whose content the operator overwrites. */
  predicate HasToken(c: Cluster, t: Tunnel, token: string) {
    SecretName(t) == LICENSE_SECRET
    || (SecretKey(t) in c.secrets && Token(c.secrets[SecretKey(t)]) == token)
  }

  predicate TokensOk(c: Cluster) {
    forall r <- c.versions :: c.versions[r].status.hostID != "" ==>
      c.versions[r].status.hostID in c.hosts
      && HasToken(c, c.versions[r], c.hosts[c.versions[r].status.hostID].token)
  }

  // ---- Services --------------------------------------------------------------

  predicate ServicesOk(c: Cluster) {
    forall k <- c.services ::
      c.services[k].key == k && c.services[k].rv < c.nextRv && c.services[k].externalIPs == Fold(c.edits, k)
  }

  /** A publication names an active version, its address and its Service. */
  predicate PublicationOk(c: Cluster, e: Edit) {
    e.op.Publish? ==>
      && e.op.rv in c.versions
      && var v := c.versions[e.op.rv];
      && v.uid == e.op.uid && v.status.hostStatus.Active? && v.status.hostIP == e.op.ip
      && e.service == ServiceKey(v) && OwnsService(v)
  }

  predicate PublicationsOk(c: Cluster) { forall i :: 0 <= i < |c.edits| ==> PublicationOk(c, c.edits[i]) }

  predicate SameTunnelPublishes(a: Edit, b: Edit) {
    a.op.Publish? && b.op.Publish? && a.op.uid == b.op.uid
  }

  predicate PublishedOnce(edits: seq<Edit>) {
    forall i, j :: 0 <= i < j < |edits| ==> !SameTunnelPublishes(edits[i], edits[j])
  }

  predicate Unpublished(c: Cluster, uid: nat) {
    forall i :: 0 <= i < |c.edits| ==> !(c.edits[i].op.Publish? && c.edits[i].op.uid == uid)
  }

  /** A thread that may still append the address of its Tunnel. */
  predicate Publishing(pc: Pc) { pc.Expose? && pc.ip != "" && !pc.exp.WriteIngress? }

  predicate PublishersDiffer(s: State) {
    forall i <- s.threads, j <- s.threads ::
      i != j && Publishing(s.threads[i].pc) && Publishing(s.threads[j].pc) ==>
        s.threads[i].pc.t.uid != s.threads[j].pc.t.uid
  }

  // ---- Deployments -------------------------------------------------------------

  /** `d` was built from version `v`. */
  predicate BuiltFrom(d: Deployment, v: Tunnel) {
    && v.status.hostStatus.Active?
    && d.owner == Some(v.uid)
    && d.key.namespace == v.key.namespace
    && d.urlHost == v.status.hostIP
    && v.spec.serviceRef.Some? && d.upstream == v.spec.serviceRef.value.name
    && d.secretName == SecretName(v)
    && d.annotations == Some(map[PORTS_ANNOTATION := d.portsArg])
  }

  predicate DeploymentOk(c: Cluster, d: Deployment) {
    d.owner.Some? ==> exists r :: r in c.versions && BuiltFrom(d, c.versions[r])
  }

  predicate DeploymentsOk(c: Cluster) {
    forall k <- c.deployments :: c.deployments[k].key == k && DeploymentOk(c, c.deployments[k])
  }

  // ---- Threads ---------------------------------------------------------------

  predicate AuthOk(c: Cluster, t: Tunnel) {
    Exact(c, t) && t.status.hostStatus.NotStarted? && SecretName(t) == ""
  }

  predicate ProvisionOk(c: Cluster, i: nat, t: Tunnel, call: ProvisionCall) {
    && Exact(c, t) && t.status.hostStatus.NotStarted? && SecretName(t) != "" && t.spec.serviceRef.Some?
    && match call
       case ProvisionHost(token) => token != "" && HasToken(c, t, token)
       case WriteProvisioning(id) =>
         id in c.hosts && c.hosts[id].place == InFlight(i) && c.hosts[id].uid == t.uid
         && HasToken(c, t, c.hosts[id].token)
       case _ => true
  }

  predicate PollOk(c: Cluster, t: Tunnel, call: PollCall) {
    && Exact(c, t) && t.status.hostStatus.Provisioning?
    && (call.WriteActive? ==> call.address != "")
  }

  /** The edited copy is the stored Service with one edit, unless somebody wrote it since. */
  predicate EditedOk(c: Cluster, t: Tunnel, ip: string, copy: Service) {
    && copy.rv < c.nextRv && copy.key == ServiceKey(t)
    && (ServiceMatches(c, copy) ==> copy == EditService(t, ip, c.services[copy.key]))
  }

  predicate MirroredOk(c: Cluster, copy: Service) {
    && copy.rv < c.nextRv && copy.ingress == copy.externalIPs
    && (ServiceMatches(c, copy) ==> c.services[copy.key].externalIPs == copy.externalIPs)
  }

  predicate ExposeOk(c: Cluster, t: Tunnel, ip: string, call: ExposeCall) {
    && (ip != "" && !call.WriteIngress? ==>
          Exact(c, t) && t.status.hostStatus.Active? && ip == t.status.hostIP && OwnsService(t)
          && Unpublished(c, t.uid))
    && match call
       case GetService => true
       case WriteService(copy) => EditedOk(c, t, ip, copy)
       case WriteIngress(copy) => MirroredOk(c, copy)
  }

  predicate ActiveOk(c: Cluster, t: Tunnel) { Close(c, t) && t.status.hostStatus.Active? }

  predicate ClientOk(c: Cluster, t: Tunnel, call: ClientCall) {
    && ActiveOk(c, t)
    && match call
       case GetPorts => !Named(t.status.clientDeploymentRef)
       case NewClient(d) =>
         !Named(t.status.clientDeploymentRef)
         && d.key == Key(t.key.namespace, t.key.name + "-client") && BuiltFrom(d, c.versions[t.rv])
       case WriteClientRef =>
         t.status.clientDeploymentRef.Some? && !Named(c.versions[t.rv].status.clientDeploymentRef)
  }

  predicate RedeployOk(c: Cluster, t: Tunnel, call: RedeployCall) {
    && ActiveOk(c, t) && t.status.clientDeploymentRef == Some(ClientRef(t.key))
    && match call
       case GetClient => true
       case GetClientPorts(found) => found.key == ClientKey(t)
       case UpdateClient(d) => d.key == ClientKey(t) && BuiltFrom(d, c.versions[t.rv])
  }

  predicate DisposeOk(c: Cluster, i: nat, t: Tunnel) {
    t.status.hostID in c.hosts && c.hosts[t.status.hostID].place == Handling(i)
  }

  predicate PcOk(c: Cluster, i: nat, pc: Pc) {
    match pc
    case Done(_) => true
    case Begin(_, _) => true
    case Generate(_, call) =>
      call.MarkGenerated? ==> Exact(c, call.created) && call.created.status == NEW_STATUS
    case Auth(t, call) => AuthOk(c, t)
    case Provision(t, call) => ProvisionOk(c, i, t, call)
    case Poll(t, call) => PollOk(c, t, call)
    case Expose(t, ip, call) => ExposeOk(c, t, ip, call)
    case License(t, obj, _) => ActiveOk(c, t) && PointsTo(c, obj, t.rv)
    case Client(t, obj, call) => ClientOk(c, t, call) && PointsTo(c, obj, t.rv)
    case Redeploy(t, call) => RedeployOk(c, t, call)
    case Dispose(t, call) => DisposeOk(c, i, t)
  }

  predicate ThreadsOk(s: State) {
    forall i <- s.threads :: PcOk(s.c, i, s.threads[i].pc)
  }

  // ---- Together ----------------------------------------------------------------

  predicate TunnelsOk(c: Cluster) { StoredOk(c) && StoredIsLatest(c) && VersionsEvolve(c) }

  predicate ClusterOk(c: Cluster) {
    && TunnelsOk(c)
    && CacheOk(c) && ObjectsDiffer(c)
    && HostIdsUnique(c) && VersionHostsKnown(c) && RecordedOk(c)
    && TokensOk(c)
    && ServicesOk(c) && PublicationsOk(c) && PublishedOnce(c.edits)
    && DeploymentsOk(c)
  }

  predicate Inv(s: State) {
    ClusterOk(s.c) && PlacesOk(s) && ThreadsOk(s) && PublishersDiffer(s)
  }
}
