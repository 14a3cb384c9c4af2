/** What the operator's calls act on: the API server, the informer caches and
    the cloud provider, as one value, and one function per call.

    A call answers in one of three modes. `Refused` leaves the server as it was
    and returns an error; `Lost` takes effect but the reply never arrives, so
    the caller sees an error all the same. */
module Clusters {
  import opened Options
  import opened Resources
  import opened ExternalIPs

  datatype Mode = Success | Refused | Lost

  /** Everything the outside world decides about one call: whether it works and,
      where they matter, the generated password, the id of a newly provisioned
      host, and the state and address the provider reports. */
  datatype Answer = Answer(
    mode: Mode, password: string, hostId: string, hostStatus: HostStatus, hostIP: string)

  /** Where a provisioned host stands in the books (history only: no call reads it). */
  datatype Place =
    | InFlight(thread: nat)    // Provision returned, status write not yet attempted
    | Recorded(tunnel: Key)    // HostID of a stored Tunnel
    | Awaiting(uid: nat)       // its Tunnel was deleted, the delete event is not delivered
    | Handling(thread: nat)    // the delete handler is working on it
    | Gone                     // the provider confirmed the deletion
    | Orphaned                 // nothing will ever delete it

  /** `uid` is the Tunnel incarnation the host was provisioned for. */
  datatype Host = Host(token: string, uid: nat, place: Place)

  /** A pointer in the informer's store and the object it points to. */
  datatype CachedTunnel = CachedTunnel(obj: nat, tunnel: Tunnel)

  datatype Config = Config(annotatedOnly: bool, operatorNamespace: string)

  /** `versions`, `edits` and the places of hosts record history. */
  datatype Cluster = Cluster(
    config: Config,
    tunnels: map<Key, Tunnel>,
    services: map<Key, Service>,
    secrets: map<Key, Secret>,
    deployments: map<Key, Deployment>,
    nextRv: nat,
    nextUid: nat,
    tunnelCache: map<Key, CachedTunnel>,
    serviceCache: map<Key, Service>,
    nextObj: nat,
    hosts: map<string, Host>,
    deleteEvents: map<nat, Tunnel>,
    versions: map<nat, Tunnel>,
    edits: seq<Edit>)

  function Book(c: Cluster, id: string, p: Place): Cluster {
    if id in c.hosts then c.(hosts := c.hosts[id := c.hosts[id].(place := p)]) else c
  }

  // ---- Tunnels -----------------------------------------------------------

  /** The compare-and-swap test: the stored object is the version the caller read. */
  predicate Matches(c: Cluster, t: Tunnel) {
    t.key in c.tunnels && c.tunnels[t.key].rv == t.rv
  }

  predicate Writes(c: Cluster, t: Tunnel, m: Mode) { !m.Refused? && Matches(c, t) }

  function Reply<T>(m: Mode, value: T): Option<T> { if m.Success? then Some(value) else None }

  function StoreTunnel(c: Cluster, t: Tunnel): Cluster {
    c.(tunnels := c.tunnels[t.key := t], versions := c.versions[t.rv := t], nextRv := c.nextRv + 1)
  }

  /** Tunnels(ns).UpdateStatus(t): only the status changes, and an identical
      status is no new version. */
  function UpdateTunnelStatus(c: Cluster, t: Tunnel, m: Mode): (Cluster, Option<Tunnel>) {
    if !Writes(c, t, m) then (c, None)
    else
      var cur := c.tunnels[t.key];
      if cur.status == t.status then (c, Reply(m, cur))
      else
        var next := cur.(status := t.status, rv := c.nextRv);
        (StoreTunnel(c, next), Reply(m, next))
  }

  /** Tunnels(ns).Create(t): a new incarnation with an empty status. */
  function CreateTunnel(c: Cluster, key: Key, owners: seq<OwnerReference>, spec: TunnelSpec, m: Mode)
    : (Cluster, Option<Tunnel>)
  {
    if m.Refused? || key in c.tunnels then (c, None)
    else
      var next := Tunnel(key, c.nextUid, c.nextRv, owners, spec, NEW_STATUS);
      (StoreTunnel(c, next).(nextUid := c.nextUid + 1), Reply(m, next))
  }

  /** Tunnels(ns).Delete(name): the last version becomes a pending delete event. */
  function DeleteTunnel(c: Cluster, key: Key): Cluster {
    if key !in c.tunnels then c
    else
      var t := c.tunnels[key];
      Book(c, t.status.hostID, Awaiting(t.uid)).(
        tunnels := c.tunnels - {key},
        deleteEvents := c.deleteEvents[t.uid := t])
  }

  // ---- Services ----------------------------------------------------------

  predicate ServiceMatches(c: Cluster, s: Service) {
    s.key in c.services && c.services[s.key].rv == s.rv
  }

  /** Services(ns).Update(s): everything but the status, here the ingress.
      `op` is the edit of ExternalIPs that the write carries. */
  function UpdateService(c: Cluster, s: Service, op: EditOp, m: Mode): (Cluster, Option<Service>) {
    if m.Refused? || !ServiceMatches(c, s) then (c, None)
    else
      var cur := c.services[s.key];
      var same := s.(ingress := cur.ingress);
      var next := if same == cur then cur else same.(rv := c.nextRv);
      (c.(services := c.services[s.key := next], nextRv := c.nextRv + 1,
          edits := c.edits + [Edit(s.key, op)]),
       Reply(m, next))
  }

  /** Services(ns).UpdateStatus(s): only the ingress. */
  function UpdateServiceStatus(c: Cluster, s: Service, m: Mode): (Cluster, Option<Service>) {
    if m.Refused? || !ServiceMatches(c, s) then (c, None)
    else
      var cur := c.services[s.key];
      var next := if cur.ingress == s.ingress then cur else cur.(ingress := s.ingress, rv := c.nextRv);
      (c.(services := c.services[s.key := next], nextRv := c.nextRv + 1), Reply(m, next))
  }

  // ---- Secrets and Deployments -------------------------------------------

  datatype Created = Made | Exists | Failed

  function CreateSecret(c: Cluster, key: Key, data: map<string, string>, m: Mode): (Cluster, Created) {
    if m.Refused? then (c, Failed)
    else if key in c.secrets then (c, if m.Lost? then Failed else Exists)
    else
      (c.(secrets := c.secrets[key := Secret(c.nextRv, data)], nextRv := c.nextRv + 1),
       if m.Lost? then Failed else Made)
  }

  function UpdateSecret(c: Cluster, key: Key, s: Secret, m: Mode): (Cluster, bool) {
    if m.Refused? || key !in c.secrets || c.secrets[key].rv != s.rv then (c, false)
    else
      (c.(secrets := c.secrets[key := s.(rv := c.nextRv)], nextRv := c.nextRv + 1), m.Success?)
  }

  function CreateDeployment(c: Cluster, d: Deployment, m: Mode): (Cluster, bool) {
    if m.Refused? || d.key in c.deployments then (c, false)
    else (c.(deployments := c.deployments[d.key := d]), m.Success?)
  }

  /** Deployments(ns).Update of an object without a resourceVersion: unconditional. */
  function UpdateDeployment(c: Cluster, d: Deployment, m: Mode): Cluster {
    if m.Refused? || d.key !in c.deployments then c
    else c.(deployments := c.deployments[d.key := d])
  }

  // ---- The shared cache ---------------------------------------------------

  /** `tunnel.Status.ClientDeploymentRef = &ref` through the pointer `obj` that the
      lister returned: visible in the cache as long as the cache still holds it. */
  function WriteThrough(c: Cluster, key: Key, obj: nat, ref: ResourceRef): Cluster {
    if key in c.tunnelCache && c.tunnelCache[key].obj == obj then
      var t := c.tunnelCache[key].tunnel;
      c.(tunnelCache := c.tunnelCache[key :=
        CachedTunnel(obj, t.(status := t.status.(clientDeploymentRef := Some(ref))))])
    else c
  }
}
