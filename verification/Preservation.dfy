/** Every action of the machine keeps the invariant. */
module Preservation {
  import opened Options
  import opened Resources
  import opened Ports
  import opened ExternalIPs
  import opened Clusters
  import opened Sync
  import opened Machine
  import opened Invariants
  import opened StatusWrites
  import opened Stability
  import opened ClusterSteps

  function Moved(s: State, i: nat, c': Cluster, pc: Pc): State
    requires i in s.threads
  {
    State(c', s.threads[i := s.threads[i].(pc := pc)])
  }

  /** A thread that has no host in its hands. */
  predicate HoldsNothing(pc: Pc) { !pc.Dispose? && !(pc.Provision? && pc.prov.WriteProvisioning?) }

  /** The books still describe the same facts. */
  predicate KeepsFacts(c: Cluster, c': Cluster) {
    && c'.hosts == c.hosts && c'.deleteEvents == c.deleteEvents
    && forall k <- c.tunnels :: k in c'.tunnels && c'.tunnels[k].status.hostID == c.tunnels[k].status.hostID
  }

  predicate OthersUndisturbed(s: State, i: nat, c': Cluster, pc: Pc) {
    forall j <- s.threads :: j != i && Publishing(s.threads[j].pc) ==>
      && Silent(s.c, c', s.threads[j].pc.t.uid)
      && (Publishing(pc) ==> pc.t.uid != s.threads[j].pc.t.uid)
  }

  lemma PlacesKept(s: State, i: nat, c': Cluster, pc: Pc)
    requires PlacesOk(s) && i in s.threads && HoldsNothing(s.threads[i].pc) && KeepsFacts(s.c, c')
    ensures PlacesOk(Moved(s, i, c', pc))
  {
    var s' := Moved(s, i, c', pc);
    forall id <- s'.c.hosts ensures id != "" && PlaceOk(s', id) {
      assert PlaceOk(s, id);
    }
  }

  lemma PublishersStayApart(s: State, i: nat, c': Cluster, pc: Pc)
    requires PublishersDiffer(s) && i in s.threads && OthersUndisturbed(s, i, c', pc)
    ensures PublishersDiffer(Moved(s, i, c', pc))
  {}

  /** Thread `i`, with no host in its hands, makes a call. */
  lemma ThreadMoves(s: State, i: nat, c': Cluster, pc: Pc)
    requires Inv(s) && i in s.threads && HoldsNothing(s.threads[i].pc)
    requires ClusterOk(c') && Grows(s.c, c') && KeepsFacts(s.c, c')
    requires PcOk(c', i, pc) && OthersUndisturbed(s, i, c', pc)
    ensures Inv(Moved(s, i, c', pc))
  {
    hide ClusterOk, Grows, PcOk, Publishing, Silent;
    PlacesKept(s, i, c', pc);
    PublishersStayApart(s, i, c', pc);
    OthersStable(s, Moved(s, i, c', pc), i);
  }

  /** The call only reads. */
  lemma ThreadReads(s: State, i: nat, pc: Pc)
    requires Inv(s) && i in s.threads && HoldsNothing(s.threads[i].pc) && PcOk(s.c, i, pc)
    requires Publishing(pc) ==> Publishing(s.threads[i].pc) && s.threads[i].pc.t.uid == pc.t.uid
    ensures Inv(Moved(s, i, s.c, pc))
  {
    hide ClusterOk, PcOk;
    GrowsReflexive(s.c);
    ThreadMoves(s, i, s.c, pc);
  }

  // ---- Status writes -----------------------------------------------------------

  /** The version a status write asks for, if it is written now. */
  function Written(c: Cluster, t: Tunnel): Tunnel
    requires t.key in c.tunnels
  {
    c.tunnels[t.key].(status := t.status, rv := c.nextRv)
  }

  /** A new version is stored as it is. */
  lemma StoredExactly(c: Cluster, next: Tunnel)
    requires next.key in c.tunnels && next.status.hostID == c.tunnels[next.key].status.hostID
    ensures var c' := StoreTunnel(c, next); KeepsFacts(c, c') && c'.edits == c.edits && Exact(c', next)
  {}

  lemma StoredIsExact(c: Cluster, k: Key)
    requires StoredOk(c) && k in c.tunnels
    ensures Exact(c, c.tunnels[k]) && c.tunnels[k].key == k
  {}

  lemma UpdateStatusOk(c: Cluster, t: Tunnel, m: Mode)
    requires ClusterOk(c)
    requires Matches(c, t) ==>
               && Successor(c.tunnels[t.key], Written(c, t))
               && t.status.hostID == c.tunnels[t.key].status.hostID
    ensures var (c', r) := UpdateTunnelStatus(c, t, m);
            && ClusterOk(c') && Grows(c, c') && KeepsFacts(c, c') && c'.edits == c.edits
            && (r.Some? ==> Exact(c', r.value) && r.value == c.tunnels[t.key].(status := t.status, rv := r.value.rv))
  {
    if Matches(c, t) { StoredIsExact(c, t.key); }
    hide ClusterOk, Grows, Successor;
    if Writes(c, t, m) && c.tunnels[t.key].status != t.status {
      var next := Written(c, t);
      assert UpdateTunnelStatus(c, t, m) == (StoreTunnel(c, next), Reply(m, next));
      hide UpdateTunnelStatus;
      StatusWriteOk(c, next);
      StoredExactly(c, next);
      hide StoreTunnel, KeepsFacts, Exact;
    } else {
      assert UpdateTunnelStatus(c, t, m).0 == c;
      GrowsReflexive(c);
    }
  }

  /** A successful compare-and-swap from an exact snapshot writes over that snapshot. */
  lemma ExactMatches(c: Cluster, t: Tunnel, asked: Tunnel)
    requires StoredOk(c) && Exact(c, t) && asked.key == t.key && asked.rv == t.rv
    ensures Matches(c, asked) ==> c.tunnels[asked.key] == t
  {}

  // ---- The functions of the controller, one by one --------------------------------

  lemma BeginKeeps(s: State, i: nat, a: Answer)
    requires Inv(s) && i in s.threads && s.threads[i].pc.Begin?
    ensures var (c', pc) := Step(s.c, i, s.threads[i].pc, a); Inv(Moved(s, i, c', pc))
  {
    hide TunnelsOk, HostIdsUnique, VersionHostsKnown, RecordedOk, TokensOk, ServicesOk, PublicationsOk,
         PublishedOnce, DeploymentsOk;
    var pc := Step(s.c, i, s.threads[i].pc, a).1;
    assert PcOk(s.c, i, pc);
    ThreadReads(s, i, pc);
  }

  /** Ending a thread without a host in its hands. */
  lemma DoneKeeps(s: State, i: nat, err: bool)
    requires Inv(s) && i in s.threads && HoldsNothing(s.threads[i].pc)
    ensures Inv(Moved(s, i, s.c, Done(err)))
  {
    hide ClusterOk;
    ThreadReads(s, i, Done(err));
  }

  lemma NewTunnelKeeps(s: State, i: nat, a: Answer)
    requires Inv(s) && i in s.threads && s.threads[i].pc.Generate? && s.threads[i].pc.gen.NewTunnel?
    ensures var (c', pc) := Step(s.c, i, s.threads[i].pc, a); Inv(Moved(s, i, c', pc))
  {
    hide ClusterOk;
    var svc := s.threads[i].pc.s;
    var (c', pc') := Step(s.c, i, s.threads[i].pc, a);
    CreateTunnelOk(s.c, TunnelKeyFor(svc.key), GeneratedOwners(svc), GeneratedSpec(svc), a.mode);
    ThreadMoves(s, i, c', pc');
  }

  lemma SilentWhenUnedited(s: State, i: nat, c': Cluster, pc: Pc)
    requires c'.edits == s.c.edits && !Publishing(pc)
    ensures OthersUndisturbed(s, i, c', pc)
  {}

  lemma MarkGeneratedKeeps(s: State, i: nat, a: Answer)
    requires Inv(s) && i in s.threads && s.threads[i].pc.Generate? && s.threads[i].pc.gen.MarkGenerated?
    ensures var (c', pc) := Step(s.c, i, s.threads[i].pc, a); Inv(Moved(s, i, c', pc))
  {
    hide Grows, Silent;
    var t := s.threads[i].pc.gen.created;
    var (c', pc') := Step(s.c, i, s.threads[i].pc, a);
    ExactMatches(s.c, t, WithGenerated(t));
    UpdateStatusOk(s.c, WithGenerated(t), a.mode);
    SilentWhenUnedited(s, i, c', pc');
    ThreadMoves(s, i, c', pc');
  }

  // ---- Removing a Tunnel -------------------------------------------------------

  lemma PublishersUnmoved(s: State, c': Cluster)
    requires PublishersDiffer(s)
    ensures PublishersDiffer(s.(c := c'))
  {}

  /** A change made by nobody's thread. */
  lemma OutsideKeeps(s: State, c': Cluster)
    requires Inv(s) && ClusterOk(c') && Grows(s.c, c') && PlacesOk(s.(c := c'))
    requires forall j <- s.threads :: KeepsPlaces(s.c, c', j)
    requires forall u: nat :: Silent(s.c, c', u)
    ensures Inv(s.(c := c'))
  {
    hide ClusterOk, Grows, KeepsPlaces, Silent, PlacesOk;
    AllStable(s, c');
    PublishersUnmoved(s, c');
  }

  lemma RemovedStands(c: Cluster, key: Key, threads: map<nat, Thread>)
    requires key in c.tunnels && c.tunnels[key].status.hostID in c.hosts
    ensures var id, c' := c.tunnels[key].status.hostID, DeleteTunnel(c, key);
            id in c'.hosts && Stands(c', threads, id, c'.hosts[id].place)
  {}

  lemma StandsAfterRemoval(c: Cluster, c': Cluster, threads: map<nat, Thread>, id: string, p: Place, key: Key)
    requires Stands(c, threads, id, p) && p != Recorded(key)
    requires c'.tunnels == c.tunnels - {key}
    requires forall u <- c.deleteEvents :: u in c'.deleteEvents && c'.deleteEvents[u] == c.deleteEvents[u]
    ensures Stands(c', threads, id, p)
  {}

  lemma RemovalKeepsPlace(s: State, key: Key, id: string)
    requires key in s.c.tunnels && s.c.tunnels[key].uid !in s.c.deleteEvents
    requires id in s.c.hosts && PlaceOk(s, id)
    ensures PlaceOk(s.(c := DeleteTunnel(s.c, key)), id)
  {
    var t, c' := s.c.tunnels[key], DeleteTunnel(s.c, key);
    if id == t.status.hostID {
      RemovedStands(s.c, key, s.threads);
    } else {
      assert s.c.hosts[id].place != Recorded(key);
      hide Stands;
      StandsAfterRemoval(s.c, c', s.threads, id, c'.hosts[id].place, key);
    }
  }

  lemma RemovalKeepsPlaces(s: State, key: Key)
    requires PlacesOk(s) && ClusterOk(s.c)
    ensures PlacesOk(s.(c := DeleteTunnel(s.c, key)))
  {
    hide RecordedOk, TokensOk, HostIdsUnique, VersionHostsKnown, CacheOk, DeploymentsOk, PublicationsOk,
         VersionsEvolve, StoredIsLatest, PublishedOnce, ServicesOk, StoredOk, PlaceOk;
    var s' := s.(c := DeleteTunnel(s.c, key));
    if key in s.c.tunnels {
      StoredUidNotDeleted(s.c, key);
      forall id <- s'.c.hosts ensures id != "" && PlaceOk(s', id) {
        RemovalKeepsPlace(s, key, id);
      }
    }
  }

  lemma RemovalKeepsHands(s: State, key: Key, j: nat)
    requires PlacesOk(s) && ClusterOk(s.c)
    ensures KeepsPlaces(s.c, DeleteTunnel(s.c, key), j)
  {
    hide TokensOk, HostIdsUnique, VersionHostsKnown, CacheOk, DeploymentsOk, PublicationsOk,
         VersionsEvolve, StoredIsLatest, PublishedOnce, ServicesOk, StoredOk;
  }

  lemma TunnelRemovedKeeps(s: State, key: Key)
    requires Inv(s)
    ensures Inv(s.(c := DeleteTunnel(s.c, key)))
  {
    hide ClusterOk, PcOk, Publishing, ThreadsOk, PublishersDiffer;
    var c' := DeleteTunnel(s.c, key);
    DeleteTunnelOk(s.c, key);
    RemovalKeepsPlaces(s, key);
    forall j <- s.threads ensures KeepsPlaces(s.c, c', j) {
      RemovalKeepsHands(s, key, j);
    }
    OutsideKeeps(s, c');
  }

  lemma GenerateKeeps(s: State, i: nat, a: Answer)
    requires Inv(s) && i in s.threads && s.threads[i].pc.Generate?
    ensures var (c', pc) := Step(s.c, i, s.threads[i].pc, a); Inv(Moved(s, i, c', pc))
  {
    var pc := s.threads[i].pc;
    var (c', pc') := Step(s.c, i, pc, a);
    match pc.gen
    case GetTunnel => ThreadReads(s, i, pc');
    case NewTunnel => NewTunnelKeeps(s, i, a);
    case MarkGenerated(t) => MarkGeneratedKeeps(s, i, a);
    case DropTunnel =>
      if a.mode.Refused? { ThreadReads(s, i, pc'); }
      else { TunnelRemovedKeeps(s, TunnelKeyFor(pc.s.key)); DoneKeeps(s.(c := c'), i, false); }
  }

  // ---- Auth secrets ------------------------------------------------------------

  lemma CreateSecretOk(c: Cluster, key: Key, data: map<string, string>, m: Mode)
    requires ClusterOk(c)
    ensures var c' := CreateSecret(c, key, data, m).0;
            ClusterOk(c') && Grows(c, c') && KeepsFacts(c, c') && c'.edits == c.edits
  {
    hide ClusterOk, Grows;
    if m.Refused? || key in c.secrets {
      GrowsReflexive(c);
    } else {
      SecretWriteOk(c, key, Secret(c.nextRv, data));
    }
  }

  lemma NewAuthKeeps(s: State, i: nat, a: Answer)
    requires Inv(s) && i in s.threads && s.threads[i].pc.Auth? && s.threads[i].pc.auth.NewAuth?
    ensures var (c', pc) := Step(s.c, i, s.threads[i].pc, a); Inv(Moved(s, i, c', pc))
  {
    hide ClusterOk;
    var t := s.threads[i].pc.t;
    var (c', pc') := Step(s.c, i, s.threads[i].pc, a);
    CreateSecretOk(s.c, t.key, map["token" := a.password], a.mode);
    ThreadMoves(s, i, c', pc');
  }

  lemma WriteAuthRefKeeps(s: State, i: nat, a: Answer)
    requires Inv(s) && i in s.threads && s.threads[i].pc.Auth? && s.threads[i].pc.auth.WriteAuthRef?
    ensures var (c', pc) := Step(s.c, i, s.threads[i].pc, a); Inv(Moved(s, i, c', pc))
  {
    hide Grows, Silent;
    var t := s.threads[i].pc.t;
    var (c', pc') := Step(s.c, i, s.threads[i].pc, a);
    ExactMatches(s.c, t, WithAuthRef(t));
    UpdateStatusOk(s.c, WithAuthRef(t), a.mode);
    SilentWhenUnedited(s, i, c', pc');
    ThreadMoves(s, i, c', pc');
  }

  lemma AuthKeeps(s: State, i: nat, a: Answer)
    requires Inv(s) && i in s.threads && s.threads[i].pc.Auth?
    ensures var (c', pc) := Step(s.c, i, s.threads[i].pc, a); Inv(Moved(s, i, c', pc))
  {
    hide ClusterOk;
    var pc := s.threads[i].pc;
    var (c', pc') := Step(s.c, i, pc, a);
    match pc.auth
    case GetAuth => ThreadReads(s, i, pc');
    case NewAuth => NewAuthKeeps(s, i, a);
    case WriteAuthRef => WriteAuthRefKeeps(s, i, a);
  }

  // ---- Provisioning ------------------------------------------------------------

  lemma NewHostPlaces(s: State, i: nat, id: string, h: Host, pc: Pc)
    requires PlacesOk(s) && i in s.threads && HoldsNothing(s.threads[i].pc)
    requires id != "" && id !in s.c.hosts
    requires h.place.Orphaned? || (h.place == InFlight(i) && pc.Provision? && pc.prov == WriteProvisioning(id))
    ensures PlacesOk(Moved(s, i, WithHostAt(s.c, id, h), pc))
  {
    var s' := Moved(s, i, WithHostAt(s.c, id, h), pc);
    forall h <- s'.c.hosts ensures h != "" && PlaceOk(s', h) {
      if h != id { assert PlaceOk(s, h); }
    }
  }

  lemma HostProvisioned(s: State, i: nat, a: Answer)
    requires Inv(s) && i in s.threads && s.threads[i].pc.Provision? && s.threads[i].pc.prov.ProvisionHost?
    requires AnswerOk(s.c, s.threads[i].pc, a) && a.mode.Success?
    ensures var (c', pc) := Step(s.c, i, s.threads[i].pc, a); Inv(Moved(s, i, c', pc))
  {
    hide ClusterOk;
    var (c', pc') := Step(s.c, i, s.threads[i].pc, a);
    var s' := Moved(s, i, c', pc');
    ProvisionHostOk(s.c, a.hostId, c'.hosts[a.hostId]);
    NewHostPlaces(s, i, a.hostId, c'.hosts[a.hostId], pc');
    PublishersStayApart(s, i, c', pc');
    hide KeepsObjects;
    OthersStable(s, s', i);
  }

  /** The reply is lost: a host that nobody holds. */
  lemma HostLost(s: State, i: nat, a: Answer)
    requires Inv(s) && i in s.threads && s.threads[i].pc.Provision? && s.threads[i].pc.prov.ProvisionHost?
    requires AnswerOk(s.c, s.threads[i].pc, a) && a.mode.Lost?
    ensures var (c', pc) := Step(s.c, i, s.threads[i].pc, a); Inv(Moved(s, i, c', pc))
  {
    hide ClusterOk;
    var (c', pc') := Step(s.c, i, s.threads[i].pc, a);
    var s' := Moved(s, i, c', pc');
    ProvisionHostOk(s.c, a.hostId, c'.hosts[a.hostId]);
    NewHostPlaces(s, i, a.hostId, c'.hosts[a.hostId], pc');
    PublishersStayApart(s, i, c', pc');
    hide KeepsObjects;
    OthersStable(s, s', i);
  }

  /** The one host that thread `pc` has in its hands. */
  predicate Holds(pc: Pc, id: string) {
    (pc.Provision? && pc.prov == WriteProvisioning(id)) || Disposing(pc, id)
  }

  /** Thread `i` lets go of its host. */
  predicate LetsGo(s: State, i: nat, c': Cluster, id: string) {
    && i in s.threads && Holds(s.threads[i].pc, id)
    && id in s.c.hosts && (s.c.hosts[id].place == InFlight(i) || s.c.hosts[id].place == Handling(i))
    && id in c'.hosts && c'.hosts == s.c.hosts[id := s.c.hosts[id].(place := c'.hosts[id].place)]
    && c'.deleteEvents == s.c.deleteEvents
    && (forall k <- s.c.tunnels :: s.c.tunnels[k].status.hostID != "" ==>
          k in c'.tunnels && c'.tunnels[k].status.hostID == s.c.tunnels[k].status.hostID)
  }

  lemma ReleasePlaces(s: State, i: nat, c': Cluster, pc: Pc, id: string)
    requires PlacesOk(s) && LetsGo(s, i, c', id) && HoldsNothing(pc)
    requires match c'.hosts[id].place
             case Recorded(k) => k in c'.tunnels && c'.tunnels[k].status.hostID == id
             case Gone => true
             case Orphaned => true
             case _ => false
    ensures PlacesOk(Moved(s, i, c', pc))
  {
    var s' := Moved(s, i, c', pc);
    forall h <- c'.hosts ensures h != "" && PlaceOk(s', h) {
      assert h != "" && PlaceOk(s, h);
    }
  }

  lemma ReleaseKeepsOthers(s: State, i: nat, c': Cluster, id: string, j: nat)
    requires LetsGo(s, i, c', id) && j != i
    ensures KeepsPlaces(s.c, c', j)
  {}

  lemma HostReleased(s: State, i: nat, c': Cluster, pc: Pc, id: string)
    requires Inv(s) && i in s.threads && LetsGo(s, i, c', id)
    requires ClusterOk(c') && Grows(s.c, c') && c'.edits == s.c.edits
    requires PlacesOk(Moved(s, i, c', pc)) && PcOk(c', i, pc) && !Publishing(pc)
    ensures Inv(Moved(s, i, c', pc))
  {
    hide ClusterOk, Grows, PcOk, PlacesOk, LetsGo, KeepsPlaces;
    forall j <- s.threads | j != i ensures KeepsPlaces(s.c, c', j) {
      ReleaseKeepsOthers(s, i, c', id, j);
    }
    SilentWhenUnedited(s, i, c', pc);
    PublishersStayApart(s, i, c', pc);
    OthersStable(s, Moved(s, i, c', pc), i);
  }

  /** A host in somebody's hands is named by no stored Tunnel and no pending event. */
  lemma NobodyNames(s: State, i: nat, id: string)
    requires Inv(s) && id in s.c.hosts && (s.c.hosts[id].place == InFlight(i) || s.c.hosts[id].place == Handling(i))
    ensures forall k <- s.c.tunnels :: s.c.tunnels[k].status.hostID != id
    ensures forall u <- s.c.deleteEvents :: s.c.deleteEvents[u].status.hostID != id
  {
    hide TokensOk, HostIdsUnique, VersionHostsKnown, CacheOk, DeploymentsOk, PublicationsOk, StoredOk,
         VersionsEvolve, StoredIsLatest, PublishedOnce, ServicesOk, PcOk, PlaceOk;
    assert id != "";
  }

  lemma HostOrphaned(s: State, i: nat, a: Answer)
    requires Inv(s) && i in s.threads && s.threads[i].pc.Provision? && s.threads[i].pc.prov.WriteProvisioning?
    requires !Writes(s.c, WithHost(s.threads[i].pc.t, Provisioning, s.threads[i].pc.prov.id, ""), a.mode)
    ensures var (c', pc) := Step(s.c, i, s.threads[i].pc, a); Inv(Moved(s, i, c', pc))
  {
    hide ClusterOk, Grows;
    var id := s.threads[i].pc.prov.id;
    var (c', pc') := Step(s.c, i, s.threads[i].pc, a);
    NobodyNames(s, i, id);
    BookOk(s.c, id, Orphaned);
    ReleasePlaces(s, i, c', pc', id);
    HostReleased(s, i, c', pc', id);
  }

  /** What the compare-and-swap of the provisioning write found. */
  lemma ProvisioningWritten(s: State, i: nat)
    requires Inv(s) && i in s.threads && s.threads[i].pc.Provision? && s.threads[i].pc.prov.WriteProvisioning?
    requires var asked := WithHost(s.threads[i].pc.t, Provisioning, s.threads[i].pc.prov.id, "");
             Matches(s.c, asked)
    ensures var t, id := s.threads[i].pc.t, s.threads[i].pc.prov.id;
            var next := Written(s.c, WithHost(t, Provisioning, id, ""));
            && s.c.tunnels[t.key] == t && t.status.hostID == "" && id != ""
            && Successor(t, next)
            && id in s.c.hosts && s.c.hosts[id].place == InFlight(i) && s.c.hosts[id].uid == next.uid
            && HasToken(s.c, next, s.c.hosts[id].token)
  {
    hide TokensOk, HostIdsUnique, VersionHostsKnown, CacheOk, DeploymentsOk, PublicationsOk,
         VersionsEvolve, StoredIsLatest, PublishedOnce, ServicesOk, PlaceOk;
    var t, id := s.threads[i].pc.t, s.threads[i].pc.prov.id;
    assert PcOk(s.c, i, s.threads[i].pc);
    ExactMatches(s.c, t, WithHost(t, Provisioning, id, ""));
  }

  lemma HostRecorded(s: State, i: nat, a: Answer)
    requires Inv(s) && i in s.threads && s.threads[i].pc.Provision? && s.threads[i].pc.prov.WriteProvisioning?
    requires Writes(s.c, WithHost(s.threads[i].pc.t, Provisioning, s.threads[i].pc.prov.id, ""), a.mode)
    ensures var (c', pc) := Step(s.c, i, s.threads[i].pc, a); Inv(Moved(s, i, c', pc))
  {
    hide ClusterOk, Grows, PlacesOk;
    var t, id := s.threads[i].pc.t, s.threads[i].pc.prov.id;
    var (c', pc') := Step(s.c, i, s.threads[i].pc, a);
    ProvisioningWritten(s, i);
    RecordHostOk(s.c, Written(s.c, WithHost(t, Provisioning, id, "")), id);
    ReleasePlaces(s, i, c', pc', id);
    HostReleased(s, i, c', pc', id);
  }

  lemma ProvisionKeeps(s: State, i: nat, a: Answer)
    requires Inv(s) && i in s.threads && s.threads[i].pc.Provision? && AnswerOk(s.c, s.threads[i].pc, a)
    ensures var (c', pc) := Step(s.c, i, s.threads[i].pc, a); Inv(Moved(s, i, c', pc))
  {
    hide ClusterOk;
    var pc := s.threads[i].pc;
    var (c', pc') := Step(s.c, i, pc, a);
    match pc.prov
    case InitProvision => ThreadReads(s, i, pc');
    case LookupBackend => ThreadReads(s, i, pc');
    case ReadToken => ThreadReads(s, i, pc');
    case ProvisionHost(token) =>
      match a.mode {
        case Success => HostProvisioned(s, i, a);
        case Refused => ThreadReads(s, i, pc');
        case Lost => HostLost(s, i, a);
      }
    case WriteProvisioning(id) =>
      if Writes(s.c, WithHost(pc.t, Provisioning, id, ""), a.mode) { HostRecorded(s, i, a); }
      else { HostOrphaned(s, i, a); }
  }

  // ---- Polling and activating ----------------------------------------------------

  lemma PollFacts(s: State, i: nat)
    requires Inv(s) && i in s.threads && s.threads[i].pc.Poll?
    ensures ClusterOk(s.c) && PollOk(s.c, s.threads[i].pc.t, s.threads[i].pc.poll)
  {
    hide ClusterOk, PlacesOk, PublishersDiffer;
    assert PcOk(s.c, i, s.threads[i].pc);
  }

  /** No version of a Tunnel stored as provisioning is active, so nothing was published for it. */
  lemma NotYetActive(c: Cluster, t: Tunnel)
    requires TunnelsOk(c) && PublicationsOk(c)
    requires t.key in c.tunnels && c.tunnels[t.key] == t && t.status.hostStatus.Provisioning?
    ensures forall r <- c.versions :: c.versions[r].uid == t.uid ==> !c.versions[r].status.hostStatus.Active?
    ensures Unpublished(c, t.uid)
  {
    forall r <- c.versions | c.versions[r].uid == t.uid ensures !c.versions[r].status.hostStatus.Active? {
      assert r <= t.rv && Evolves(c.versions[r], c.versions[t.rv]);
    }
    forall n | 0 <= n < |c.edits| ensures !(c.edits[n].op.Publish? && c.edits[n].op.uid == t.uid) {
      assert PublicationOk(c, c.edits[n]);
    }
  }

  /** The successor that an activation asks for. */
  lemma ActivationAsks(c: Cluster, t: Tunnel, ip: string)
    requires TunnelsOk(c) && PublicationsOk(c) && PollOk(c, t, WriteActive(ip)) && Matches(c, t)
    ensures var asked := WithHost(t, Active, t.status.hostID, ip);
            && c.tunnels[t.key] == t && Successor(t, Written(c, asked)) && Unpublished(c, t.uid)
  {
    ExactMatches(c, t, t);
    NotYetActive(c, t);
  }

  /** Where the thread goes on. */
  lemma ActivationGoesOn(c: Cluster, i: nat, t: Tunnel, ip: string)
    requires Exact(c, t) && t.status.hostStatus.Active? && t.status.hostIP == ip && Unpublished(c, t.uid)
    ensures PcOk(c, i, StartExpose(t, ip))
  {
    hide OwnsService, Exact, Unpublished;
  }

  lemma SameEditsUnpublished(c: Cluster, c': Cluster, uid: nat)
    requires c'.edits == c.edits && Unpublished(c, uid)
    ensures Unpublished(c', uid)
  {}

  lemma DoneIsOk(c: Cluster, i: nat, err: bool)
    ensures PcOk(c, i, Done(err))
  {}

  lemma ReplyMatches(c: Cluster, t: Tunnel, m: Mode)
    requires UpdateTunnelStatus(c, t, m).1.Some?
    ensures Matches(c, t)
  {}

  /** What the activation leaves. */
  lemma ActivationWrite(c: Cluster, i: nat, t: Tunnel, ip: string, a: Answer)
    requires ClusterOk(c) && PollOk(c, t, WriteActive(ip))
    ensures var (c', pc) := StepPoll(c, t, WriteActive(ip), a);
            ClusterOk(c') && Grows(c, c') && KeepsFacts(c, c') && PcOk(c', i, pc)
  {
    var asked := WithHost(t, Active, t.status.hostID, ip);
    if Matches(c, t) { ActivationAsks(c, t, ip); }
    assert Matches(c, asked) == Matches(c, t);
    hide ClusterOk, PollOk, Successor, Written, Unpublished, Grows, KeepsFacts, PcOk, Exact, StartExpose;
    UpdateStatusOk(c, asked, a.mode);
    var (c', r) := UpdateTunnelStatus(c, asked, a.mode);
    if r.Some? {
      ReplyMatches(c, asked, a.mode);
      SameEditsUnpublished(c, c', t.uid);
      hide UpdateTunnelStatus, Matches;
      ActivationGoesOn(c', i, r.value, ip);
    } else {
      hide UpdateTunnelStatus, Matches;
      DoneIsOk(c', i, true);
    }
  }

  /** The activation edits no Service; only where it takes effect does its thread go on to publish. */
  lemma ActivationKeepsEdits(c: Cluster, t: Tunnel, ip: string, a: Answer)
    requires StoredOk(c) && Exact(c, t)
    ensures var (c', pc) := StepPoll(c, t, WriteActive(ip), a);
            c'.edits == c.edits && (Publishing(pc) ==> Matches(c, t) && pc.t.uid == t.uid)
  {
    var asked := WithHost(t, Active, t.status.hostID, ip);
    ExactMatches(c, t, asked);
    hide StoredOk, Exact, OwnsService;
    if Writes(c, asked, a.mode) {
      var next := t.(status := asked.status, rv := c.nextRv);
      if asked.status == t.status {
        assert UpdateTunnelStatus(c, asked, a.mode) == (c, Reply(a.mode, t));
      } else {
        assert UpdateTunnelStatus(c, asked, a.mode) == (StoreTunnel(c, next), Reply(a.mode, next));
      }
    } else {
      assert UpdateTunnelStatus(c, asked, a.mode) == (c, None);
    }
    hide UpdateTunnelStatus, Writes;
  }

  /** Nobody publishes for a Tunnel that is stored as provisioning. */
  lemma OthersPublishOthers(s: State, i: nat, t: Tunnel)
    requires Inv(s) && t.key in s.c.tunnels && s.c.tunnels[t.key] == t && t.status.hostStatus.Provisioning?
    ensures forall j <- s.threads :: j != i && Publishing(s.threads[j].pc) ==> s.threads[j].pc.t.uid != t.uid
  {
    hide TokensOk, HostIdsUnique, VersionHostsKnown, RecordedOk, CacheOk, ServicesOk, PublishedOnce, DeploymentsOk,
         PlacesOk, ObjectsDiffer;
    NotYetActive(s.c, t);
    hide TunnelsOk, PublicationsOk;
    forall j <- s.threads | j != i && Publishing(s.threads[j].pc) ensures s.threads[j].pc.t.uid != t.uid {
      assert ExposeOk(s.c, s.threads[j].pc.t, s.threads[j].pc.ip, s.threads[j].pc.exp);
    }
  }

  lemma PollExact(c: Cluster, t: Tunnel, call: PollCall)
    requires ClusterOk(c) && PollOk(c, t, call)
    ensures StoredOk(c) && Exact(c, t) && t.status.hostStatus.Provisioning?
  {}

  /** The activating thread is the only publisher of its Tunnel. */
  lemma ActivationUndisturbed(s: State, i: nat, a: Answer)
    requires Inv(s) && i in s.threads && s.threads[i].pc.Poll? && s.threads[i].pc.poll.WriteActive?
    ensures var (c', pc) := Step(s.c, i, s.threads[i].pc, a); OthersUndisturbed(s, i, c', pc)
  {
    hide Inv;
    var t, ip := s.threads[i].pc.t, s.threads[i].pc.poll.address;
    PollFacts(s, i);
    PollExact(s.c, t, s.threads[i].pc.poll);
    ActivationKeepsEdits(s.c, t, ip, a);
    if Matches(s.c, t) {
      ExactMatches(s.c, t, t);
      OthersPublishOthers(s, i, t);
    }
    hide StepPoll, PollOk, ClusterOk, StoredOk, Exact;
  }

  lemma WriteActiveKeeps(s: State, i: nat, a: Answer)
    requires Inv(s) && i in s.threads && s.threads[i].pc.Poll? && s.threads[i].pc.poll.WriteActive?
    ensures var (c', pc) := Step(s.c, i, s.threads[i].pc, a); Inv(Moved(s, i, c', pc))
  {
    hide Inv;
    var t, ip := s.threads[i].pc.t, s.threads[i].pc.poll.address;
    var asked := WithHost(t, Active, t.status.hostID, ip);
    PollFacts(s, i);
    ActivationUndisturbed(s, i, a);
    ActivationWrite(s.c, i, t, ip, a);
    hide ClusterOk, Grows, KeepsFacts, OthersUndisturbed, PollOk, PcOk;
    var (c', pc') := Step(s.c, i, s.threads[i].pc, a);
    hide Step;
    ThreadMoves(s, i, c', pc');
  }

  lemma PollKeeps(s: State, i: nat, a: Answer)
    requires Inv(s) && i in s.threads && s.threads[i].pc.Poll?
    ensures var (c', pc) := Step(s.c, i, s.threads[i].pc, a); Inv(Moved(s, i, c', pc))
  {
    hide ClusterOk;
    var pc := s.threads[i].pc;
    var (c', pc') := Step(s.c, i, pc, a);
    match pc.poll
    case InitPoll => ThreadReads(s, i, pc');
    case PollHost => ThreadReads(s, i, pc');
    case WriteActive(_) => WriteActiveKeeps(s, i, a);
  }

  // ---- Services ----------------------------------------------------------------

  lemma GetServiceKeeps(s: State, i: nat, a: Answer)
    requires Inv(s) && i in s.threads && s.threads[i].pc.Expose? && s.threads[i].pc.exp.GetService?
    ensures var (c', pc) := Step(s.c, i, s.threads[i].pc, a); Inv(Moved(s, i, c', pc))
  {
    hide TunnelsOk, TokensOk, HostIdsUnique, VersionHostsKnown, RecordedOk, CacheOk, PublicationsOk,
         PublishedOnce, DeploymentsOk, PlacesOk, ObjectsDiffer, Unpublished;
    var pc := s.threads[i].pc;
    var pc' := Step(s.c, i, pc, a).1;
    assert ExposeOk(s.c, pc.t, pc.ip, pc.exp);
    assert PcOk(s.c, i, pc');
    hide PcOk, ServicesOk;
    ThreadReads(s, i, pc');
  }

  lemma ServiceWritten(s: State, i: nat, m: Mode)
    requires Inv(s) && i in s.threads && s.threads[i].pc.Expose? && s.threads[i].pc.exp.WriteService?
    requires !m.Refused? && ServiceMatches(s.c, s.threads[i].pc.exp.edited)
    ensures var pc := s.threads[i].pc;
            var (c', r) := UpdateService(s.c, pc.exp.edited, ServiceEdit(pc.t, pc.ip), m);
            && ClusterOk(c') && Grows(s.c, c') && KeepsFacts(s.c, c')
            && (r.Some? ==> MirroredOk(c', Mirror(r.value)))
  {
    hide TunnelsOk, TokensOk, HostIdsUnique, VersionHostsKnown, RecordedOk, CacheOk, PublicationsOk,
         PublishedOnce, DeploymentsOk, PlacesOk, ObjectsDiffer, Grows;
    var pc := s.threads[i].pc;
    var copy, op := pc.exp.edited, ServiceEdit(pc.t, pc.ip);
    assert ExposeOk(s.c, pc.t, pc.ip, pc.exp);
    var (c', r) := UpdateService(s.c, copy, op, m);
    var next := c'.services[copy.key];
    hide ServicesOk;
    ServiceEditOk(s.c, next, op);
  }

  /** An edit for one Tunnel is silent for every other. */
  lemma ServiceEditUndisturbed(s: State, i: nat, a: Answer)
    requires Inv(s) && i in s.threads && s.threads[i].pc.Expose? && s.threads[i].pc.exp.WriteService?
    ensures var (c', pc) := Step(s.c, i, s.threads[i].pc, a); OthersUndisturbed(s, i, c', pc)
  {
    hide ClusterOk, PlacesOk, ThreadsOk;
  }

  lemma WriteServiceKeeps(s: State, i: nat, a: Answer)
    requires Inv(s) && i in s.threads && s.threads[i].pc.Expose? && s.threads[i].pc.exp.WriteService?
    ensures var (c', pc) := Step(s.c, i, s.threads[i].pc, a); Inv(Moved(s, i, c', pc))
  {
    hide ClusterOk, Grows, Silent;
    var pc := s.threads[i].pc;
    var (c', pc') := Step(s.c, i, pc, a);
    if a.mode.Refused? || !ServiceMatches(s.c, pc.exp.edited) {
      DoneKeeps(s, i, true);
    } else {
      ServiceWritten(s, i, a.mode);
      ServiceEditUndisturbed(s, i, a);
      ThreadMoves(s, i, c', pc');
    }
  }

  lemma IngressWritten(c: Cluster, copy: Service, m: Mode)
    requires ClusterOk(c) && !m.Refused? && ServiceMatches(c, copy)
    ensures var c' := UpdateServiceStatus(c, copy, m).0;
            ClusterOk(c') && Grows(c, c') && KeepsFacts(c, c') && c'.edits == c.edits
  {
    hide TunnelsOk, TokensOk, HostIdsUnique, VersionHostsKnown, RecordedOk, CacheOk, PublicationsOk,
         PublishedOnce, DeploymentsOk, ObjectsDiffer, Grows;
    ServiceRewriteOk(c, UpdateServiceStatus(c, copy, m).0.services);
  }

  lemma WriteIngressKeeps(s: State, i: nat, a: Answer)
    requires Inv(s) && i in s.threads && s.threads[i].pc.Expose? && s.threads[i].pc.exp.WriteIngress?
    ensures var (c', pc) := Step(s.c, i, s.threads[i].pc, a); Inv(Moved(s, i, c', pc))
  {
    hide ClusterOk, Grows, Silent;
    var copy := s.threads[i].pc.exp.mirrored;
    var (c', pc') := Step(s.c, i, s.threads[i].pc, a);
    if a.mode.Refused? || !ServiceMatches(s.c, copy) {
      DoneKeeps(s, i, true);
    } else {
      IngressWritten(s.c, copy, a.mode);
      SilentWhenUnedited(s, i, c', pc');
      ThreadMoves(s, i, c', pc');
    }
  }

  lemma ExposeKeeps(s: State, i: nat, a: Answer)
    requires Inv(s) && i in s.threads && s.threads[i].pc.Expose?
    ensures var (c', pc) := Step(s.c, i, s.threads[i].pc, a); Inv(Moved(s, i, c', pc))
  {
    var pc := s.threads[i].pc;
    match pc.exp
    case GetService => GetServiceKeeps(s, i, a);
    case WriteService(_) => WriteServiceKeeps(s, i, a);
    case WriteIngress(_) => WriteIngressKeeps(s, i, a);
  }

  // ---- Licenses ----------------------------------------------------------------

  /** Entering createClientDeployment. */
  lemma StartClientOk(c: Cluster, i: nat, t: Tunnel, obj: nat)
    requires StoredOk(c) && ActiveOk(c, t) && PointsTo(c, obj, t.rv)
    ensures PcOk(c, i, StartClient(t, obj))
  {
    assert FieldsOk(c.versions[t.rv]);
  }

  lemma LicenseHandsOver(c: Cluster, c': Cluster, i: nat, t: Tunnel, obj: nat)
    requires ActiveOk(c, t) && PointsTo(c, obj, t.rv) && Grows(c, c') && ClusterOk(c')
    ensures PcOk(c', i, StartClient(t, obj)) && ActiveOk(c', t) && PointsTo(c', obj, t.rv)
  {
    hide TokensOk, HostIdsUnique, VersionHostsKnown, RecordedOk, CacheOk, PublicationsOk,
         PublishedOnce, DeploymentsOk, ObjectsDiffer, ServicesOk;
    StartClientOk(c', i, t, obj);
  }

  lemma NothingChanged(c: Cluster)
    ensures Grows(c, c) && KeepsFacts(c, c)
  {
    GrowsReflexive(c);
  }

  lemma LicenseKeyIsIts(t: Tunnel)
    ensures LicenseKey(t).name == LICENSE_SECRET
  {}

  lemma UpdateSecretOk(c: Cluster, key: Key, secret: Secret, m: Mode)
    requires ClusterOk(c) && key.name == LICENSE_SECRET
    ensures var c' := UpdateSecret(c, key, secret, m).0;
            ClusterOk(c') && Grows(c, c') && KeepsFacts(c, c') && c'.edits == c.edits
  {
    hide ClusterOk, Grows;
    var c' := UpdateSecret(c, key, secret, m).0;
    if m.Refused? || key !in c.secrets || c.secrets[key].rv != secret.rv {
      assert c' == c;
      NothingChanged(c);
    } else {
      assert c' == c.(secrets := c.secrets[key := secret.(rv := c.nextRv)], nextRv := c.nextRv + 1);
      hide UpdateSecret;
      SecretWriteOk(c, key, secret.(rv := c.nextRv));
    }
  }

  lemma LicenseWritten(c: Cluster, t: Tunnel, obj: nat, call: LicenseCall, a: Answer)
    requires ClusterOk(c)
    ensures var c' := StepLicense(c, t, obj, call, a).0;
            ClusterOk(c') && Grows(c, c') && KeepsFacts(c, c') && c'.edits == c.edits
  {
    hide ClusterOk, Grows, KeepsFacts, UpdateSecret, CreateSecret, StartClient, LicenseKey;
    NothingChanged(c);
    match call
    case GetLicense =>
    case GetLicenseCopy(_) =>
    case NewLicense(data) => CreateSecretOk(c, LicenseKey(t), data, a.mode);
    case UpdateLicense(secret) => LicenseKeyIsIts(t); UpdateSecretOk(c, LicenseKey(t), secret, a.mode);
  }

  lemma LicenseKeeps(s: State, i: nat, a: Answer)
    requires Inv(s) && i in s.threads && s.threads[i].pc.License?
    ensures var (c', pc) := Step(s.c, i, s.threads[i].pc, a); Inv(Moved(s, i, c', pc))
  {
    hide ClusterOk, Grows, PlacesOk, Silent, ActiveOk, PointsTo;
    var pc := s.threads[i].pc;
    var (c', pc') := Step(s.c, i, pc, a);
    assert PcOk(s.c, i, pc);
    LicenseWritten(s.c, pc.t, pc.obj, pc.lic, a);
    LicenseHandsOver(s.c, c', i, pc.t, pc.obj);
    hide PcOk;
    SilentWhenUnedited(s, i, c', pc');
    ThreadMoves(s, i, c', pc');
  }

  // ---- Client deployments --------------------------------------------------------

  lemma WriteClientRefKeeps(s: State, i: nat, a: Answer)
    requires Inv(s) && i in s.threads && s.threads[i].pc.Client? && s.threads[i].pc.cli.WriteClientRef?
    ensures var (c', pc) := Step(s.c, i, s.threads[i].pc, a); Inv(Moved(s, i, c', pc))
  {
    hide TokensOk, HostIdsUnique, VersionHostsKnown, RecordedOk, CacheOk, PublicationsOk, Grows,
         PublishedOnce, DeploymentsOk, ObjectsDiffer, ServicesOk, PlacesOk, Silent, VersionsEvolve, StoredIsLatest;
    var t := s.threads[i].pc.t;
    var (c', pc') := Step(s.c, i, s.threads[i].pc, a);
    assert PcOk(s.c, i, s.threads[i].pc);
    if Matches(s.c, t) { MatchIsCurrent(s.c, t); }
    hide ClusterOk;
    UpdateStatusOk(s.c, t, a.mode);
    SilentWhenUnedited(s, i, c', pc');
    ThreadMoves(s, i, c', pc');
  }

  lemma DeploymentCreated(c: Cluster, t: Tunnel, d: Deployment, m: Mode)
    requires ClusterOk(c) && t.rv in c.versions && BuiltFrom(d, c.versions[t.rv])
    ensures var c' := CreateDeployment(c, d, m).0;
            ClusterOk(c') && Grows(c, c') && KeepsFacts(c, c') && c'.edits == c.edits
  {
    hide ClusterOk, Grows;
    if m.Refused? || d.key in c.deployments { GrowsReflexive(c); }
    else { DeploymentWriteOk(c, d); }
  }

  lemma ChangedIsClose(c: Cluster, t: Tunnel, entry: Tunnel, ref: ResourceRef)
    requires ActiveOk(c, t) && Close(c, entry) && entry.rv == t.rv
    requires !Named(t.status.clientDeploymentRef) && ClientRefOk(t.key, Some(ref))
    ensures Close(c, entry.(status := entry.status.(clientDeploymentRef := Some(ref))))
  {}

  lemma CacheEntryChanged(c: Cluster, c': Cluster, key: Key, obj: nat, t: Tunnel)
    requires CacheOk(c) && ObjectsDiffer(c) && key in c.tunnelCache && c.tunnelCache[key].obj == obj
    requires c' == c.(tunnelCache := c.tunnelCache[key := CachedTunnel(obj, t)])
    requires t.rv == c.tunnelCache[key].tunnel.rv && t.key == key && Close(c, t)
    ensures CacheOk(c') && ObjectsDiffer(c') && KeepsObjects(c, c')
    ensures forall rv: nat :: PointsTo(c, obj, rv) ==> PointsTo(c', obj, rv)
  {
    forall k <- c'.tunnelCache ensures Close(c', c'.tunnelCache[k].tunnel) {
      if k != key { assert Close(c, c.tunnelCache[k].tunnel); }
    }
  }

  lemma ThroughCaches(c: Cluster, t: Tunnel, obj: nat, ref: ResourceRef)
    requires CacheOk(c) && ObjectsDiffer(c) && ActiveOk(c, t) && PointsTo(c, obj, t.rv)
    requires !Named(t.status.clientDeploymentRef) && ClientRefOk(t.key, Some(ref))
    ensures var c' := WriteThrough(c, t.key, obj, ref);
            && c' == c.(tunnelCache := c'.tunnelCache)
            && CacheOk(c') && ObjectsDiffer(c') && KeepsObjects(c, c') && PointsTo(c', obj, t.rv)
  {
    var key := t.key;
    var c' := WriteThrough(c, key, obj, ref);
    if key in c.tunnelCache && c.tunnelCache[key].obj == obj {
      var entry := c.tunnelCache[key].tunnel;
      var changed := entry.(status := entry.status.(clientDeploymentRef := Some(ref)));
      assert c' == c.(tunnelCache := c.tunnelCache[key := CachedTunnel(obj, changed)]);
      hide WriteThrough;
      assert Close(c, entry) && entry.rv == t.rv && entry.key == key;
      ChangedIsClose(c, t, entry, ref);
      hide Close;
      CacheEntryChanged(c, c', key, obj, changed);
    } else {
      assert c' == c;
    }
  }

  /** The write through the cached pointer leaves a close snapshot behind. */
  lemma WrittenThrough(c: Cluster, t: Tunnel, obj: nat, ref: ResourceRef)
    requires ClusterOk(c) && ActiveOk(c, t) && PointsTo(c, obj, t.rv) && !Named(t.status.clientDeploymentRef)
    requires ClientRefOk(t.key, Some(ref))
    ensures var c' := WriteThrough(c, t.key, obj, ref);
            && ClusterOk(c') && Grows(c, c') && KeepsFacts(c, c') && c'.edits == c.edits
            && ActiveOk(c', WithClientRef(t, ref)) && PointsTo(c', obj, t.rv)
            && !Named(c'.versions[t.rv].status.clientDeploymentRef)
  {
    hide TunnelsOk, TokensOk, HostIdsUnique, VersionHostsKnown, RecordedOk, PublicationsOk, Grows,
         PublishedOnce, DeploymentsOk, ServicesOk;
    var c' := WriteThrough(c, t.key, obj, ref);
    if c' == c {
      GrowsReflexive(c);
    } else {
      ThroughCaches(c, t, obj, ref);
      hide WriteThrough, CacheOk, ObjectsDiffer, KeepsObjects;
      CacheWriteOk(c, c');
    }
  }

  lemma NewClientKeeps(s: State, i: nat, a: Answer)
    requires Inv(s) && i in s.threads && s.threads[i].pc.Client? && s.threads[i].pc.cli.NewClient?
    ensures var (c', pc) := Step(s.c, i, s.threads[i].pc, a); Inv(Moved(s, i, c', pc))
  {
    hide TunnelsOk, TokensOk, HostIdsUnique, VersionHostsKnown, RecordedOk, CacheOk, PublicationsOk, Grows,
         PublishedOnce, DeploymentsOk, ObjectsDiffer, ServicesOk, PlacesOk, Silent;
    var pc := s.threads[i].pc;
    var c1 := CreateDeployment(s.c, pc.cli.d, a.mode).0;
    var (c', pc') := Step(s.c, i, pc, a);
    assert PcOk(s.c, i, pc);
    DeploymentCreated(s.c, pc.t, pc.cli.d, a.mode);
    PcStable(s.c, c1, i, pc);
    WrittenThrough(c1, pc.t, pc.obj, pc'.t.status.clientDeploymentRef.value);
    GrowsTransitive(s.c, c1, c');
    SilentWhenUnedited(s, i, c', pc');
    ThreadMoves(s, i, c', pc');
  }

  lemma ClientKeeps(s: State, i: nat, a: Answer)
    requires Inv(s) && i in s.threads && s.threads[i].pc.Client?
    ensures var (c', pc) := Step(s.c, i, s.threads[i].pc, a); Inv(Moved(s, i, c', pc))
  {
    var pc := s.threads[i].pc;
    match pc.cli
    case GetPorts =>
      var pc' := Step(s.c, i, pc, a).1;
      assert PcOk(s.c, i, pc);
      assert PcOk(s.c, i, pc');
      hide ClusterOk, PlacesOk, PcOk;
      ThreadReads(s, i, pc');
    case NewClient(_) => NewClientKeeps(s, i, a);
    case WriteClientRef => WriteClientRefKeeps(s, i, a);
  }

  lemma BuiltIsOk(c: Cluster, t: Tunnel, d: Deployment)
    requires t.rv in c.versions && BuiltFrom(d, c.versions[t.rv])
    ensures DeploymentOk(c, d)
  {}

  lemma ActiveHasReference(s: State, t: Tunnel)
    requires Inv(s) && ActiveOk(s.c, t)
    ensures t.spec.serviceRef.Some? && s.c.versions[t.rv].spec.serviceRef == t.spec.serviceRef
  {}

  lemma RedeployReads(s: State, i: nat, a: Answer)
    requires Inv(s) && i in s.threads && s.threads[i].pc.Redeploy? && !s.threads[i].pc.red.UpdateClient?
    ensures var (c', pc) := Step(s.c, i, s.threads[i].pc, a); Inv(Moved(s, i, c', pc))
  {
    assert PcOk(s.c, i, s.threads[i].pc);
    ActiveHasReference(s, s.threads[i].pc.t);
    hide TunnelsOk, TokensOk, HostIdsUnique, VersionHostsKnown, RecordedOk, CacheOk, PublicationsOk,
         PublishedOnce, ObjectsDiffer, ServicesOk, PlacesOk, DeploymentOk;
    var pc' := Step(s.c, i, s.threads[i].pc, a).1;
    assert PcOk(s.c, i, pc');
    hide PcOk;
    ThreadReads(s, i, pc');
  }

  lemma RedeployKeeps(s: State, i: nat, a: Answer)
    requires Inv(s) && i in s.threads && s.threads[i].pc.Redeploy?
    ensures var (c', pc) := Step(s.c, i, s.threads[i].pc, a); Inv(Moved(s, i, c', pc))
  {
    hide TunnelsOk, TokensOk, HostIdsUnique, VersionHostsKnown, RecordedOk, CacheOk, PublicationsOk, Grows,
         PublishedOnce, ObjectsDiffer, ServicesOk, PlacesOk, Silent, DeploymentOk;
    var pc := s.threads[i].pc;
    var (c', pc') := Step(s.c, i, pc, a);
    assert PcOk(s.c, i, pc);
    match pc.red
    case GetClient => RedeployReads(s, i, a);
    case GetClientPorts(_) => RedeployReads(s, i, a);
    case UpdateClient(d) =>
      if c' == s.c { DoneKeeps(s, i, false); }
      else {
        assert DeploymentOk(s.c, d) by { BuiltIsOk(s.c, pc.t, d); }
        DeploymentWriteOk(s.c, d);
        SilentWhenUnedited(s, i, c', pc');
        ThreadMoves(s, i, c', pc');
      }
  }

  // ---- The delete handler --------------------------------------------------------

  lemma DisposeWaits(s: State, i: nat, pc: Pc)
    requires Inv(s) && i in s.threads && s.threads[i].pc.Dispose? && pc == Dispose(s.threads[i].pc.t, DeleteHost)
    ensures Inv(Moved(s, i, s.c, pc))
  {
    hide ClusterOk;
    var s' := Moved(s, i, s.c, pc);
    forall id <- s.c.hosts ensures id != "" && PlaceOk(s', id) { assert PlaceOk(s, id); }
    assert PcOk(s.c, i, s.threads[i].pc);
  }

  lemma DisposeKeeps(s: State, i: nat, a: Answer)
    requires Inv(s) && i in s.threads && s.threads[i].pc.Dispose?
    ensures var (c', pc) := Step(s.c, i, s.threads[i].pc, a); Inv(Moved(s, i, c', pc))
  {
    hide ClusterOk, Grows;
    var pc := s.threads[i].pc;
    var id := pc.t.status.hostID;
    var (c', pc') := Step(s.c, i, pc, a);
    assert PcOk(s.c, i, pc);
    if a.mode.Success? && pc.dis.InitDispose? {
      DisposeWaits(s, i, pc');
    } else {
      NobodyNames(s, i, id);
      BookOk(s.c, id, c'.hosts[id].place);
      ReleasePlaces(s, i, c', pc', id);
      HostReleased(s, i, c', pc', id);
    }
  }

  // ---- Everything else -----------------------------------------------------------

  lemma CallKeeps(s: State, i: nat, a: Answer)
    requires Inv(s) && Enabled(s, Call(i, a))
    ensures Inv(Machine.Apply(s, Call(i, a)))
  {
    hide Inv;
    match s.threads[i].pc
    case Begin(_, _) => BeginKeeps(s, i, a);
    case Generate(_, _) => GenerateKeeps(s, i, a);
    case Auth(_, _) => AuthKeeps(s, i, a);
    case Provision(_, _) => ProvisionKeeps(s, i, a);
    case Poll(_, _) => PollKeeps(s, i, a);
    case Expose(_, _, _) => ExposeKeeps(s, i, a);
    case License(_, _, _) => LicenseKeeps(s, i, a);
    case Client(_, _, _) => ClientKeeps(s, i, a);
    case Redeploy(_, _) => RedeployKeeps(s, i, a);
    case Dispose(_, _) => DisposeKeeps(s, i, a);
  }

  lemma StartSyncKeeps(s: State, i: nat, key: Key)
    requires Inv(s) && Enabled(s, StartSync(i, key))
    ensures Inv(Machine.Apply(s, StartSync(i, key)))
  {
    hide ClusterOk;
    ThreadReads(s, i, Begin(key, LookupService));
    var s' := Moved(s, i, s.c, Begin(key, LookupService));
    var s'' := Machine.Apply(s, StartSync(i, key));
    forall id <- s.c.hosts ensures id != "" && PlaceOk(s'', id) { assert PlaceOk(s', id); }
  }

  /** The cluster after the event of `uid` has left the pending ones. */
  function Dequeued(c: Cluster, uid: nat, p: Place): Cluster
    requires uid in c.deleteEvents
  {
    Book(c.(deleteEvents := c.deleteEvents - {uid}), c.deleteEvents[uid].status.hostID, p)
  }

  lemma EventRemovalGrows(c: Cluster, uid: nat)
    ensures Grows(c, c.(deleteEvents := c.deleteEvents - {uid}))
  {}

  lemma EventRemovedTunnels(c: Cluster, uid: nat)
    requires TunnelsOk(c)
    ensures TunnelsOk(c.(deleteEvents := c.deleteEvents - {uid}))
  {}

  lemma EventRemovedHosts(c: Cluster, uid: nat)
    requires HostIdsUnique(c) && VersionHostsKnown(c) && RecordedOk(c) && TokensOk(c)
    ensures var c' := c.(deleteEvents := c.deleteEvents - {uid});
            HostIdsUnique(c') && VersionHostsKnown(c') && RecordedOk(c') && TokensOk(c')
  {}

  lemma EventRemoved(c: Cluster, uid: nat)
    requires ClusterOk(c) && uid in c.deleteEvents
    ensures var c' := c.(deleteEvents := c.deleteEvents - {uid}); ClusterOk(c') && Grows(c, c')
  {
    hide VersionsEvolve, StoredIsLatest, PublishedOnce, HasToken, StoredOk, Grows;
    var c' := c.(deleteEvents := c.deleteEvents - {uid});
    EventRemovalGrows(c, uid);
    EventRemovedTunnels(c, uid);
    CacheStable(c, c');
    DeploymentsStable(c, c');
    PublicationsStable(c, c');
    hide CacheOk, DeploymentsOk, PublicationsOk, TunnelsOk;
    EventRemovedHosts(c, uid);
  }

  lemma DequeuedOk(c: Cluster, uid: nat, p: Place)
    requires ClusterOk(c) && uid in c.deleteEvents && c.deleteEvents[uid].status.hostID != "" && !p.InFlight?
    ensures ClusterOk(Dequeued(c, uid, p)) && Grows(c, Dequeued(c, uid, p))
  {
    hide TunnelsOk, TokensOk, HostIdsUnique, VersionHostsKnown, CacheOk, PublicationsOk, Grows,
         PublishedOnce, DeploymentsOk, ObjectsDiffer, ServicesOk;
    var c1 := c.(deleteEvents := c.deleteEvents - {uid});
    EventRemoved(c, uid);
    assert c.hosts[c.deleteEvents[uid].status.hostID].place == Awaiting(uid);
    BookOk(c1, c.deleteEvents[uid].status.hostID, p);
    GrowsTransitive(c, c1, Dequeued(c, uid, p));
  }

  lemma EventKeepsHands(s: State, uid: nat, p: Place, j: nat)
    requires PlacesOk(s) && RecordedOk(s.c) && uid in s.c.deleteEvents && s.c.deleteEvents[uid].status.hostID != ""
    ensures KeepsPlaces(s.c, Dequeued(s.c, uid, p), j)
  {
    assert s.c.hosts[s.c.deleteEvents[uid].status.hostID].place == Awaiting(uid);
  }

  lemma SilentWhenSame(c: Cluster, c': Cluster, u: nat)
    requires c'.edits == c.edits
    ensures Silent(c, c', u)
  {}

  lemma DequeuedCluster(c: Cluster, uid: nat, p: Place, id: string)
    requires uid in c.deleteEvents && id in c.hosts && id != c.deleteEvents[uid].status.hostID
    ensures var c' := Dequeued(c, uid, p);
            && c'.tunnels == c.tunnels && c'.deleteEvents == c.deleteEvents - {uid}
            && id in c'.hosts && c'.hosts[id] == c.hosts[id]
  {}

  lemma StandsWithoutEvent(c: Cluster, c': Cluster, threads: map<nat, Thread>, threads': map<nat, Thread>,
                           id: string, p: Place, uid: nat)
    requires Stands(c, threads, id, p) && p != Awaiting(uid)
    requires c'.tunnels == c.tunnels && c'.deleteEvents == c.deleteEvents - {uid}
    requires forall j <- threads :: threads[j].pc.Done? || (j in threads' && threads'[j] == threads[j])
    ensures Stands(c', threads', id, p)
  {}

  lemma DequeuedPlace(s: State, uid: nat, p: Place, threads: map<nat, Thread>, id: string)
    requires id in s.c.hosts && PlaceOk(s, id) && uid in s.c.deleteEvents
    requires id != s.c.deleteEvents[uid].status.hostID
    requires forall j <- s.threads :: s.threads[j].pc.Done? || (j in threads && threads[j] == s.threads[j])
    ensures id in Dequeued(s.c, uid, p).hosts
            && Stands(Dequeued(s.c, uid, p), threads, id, Dequeued(s.c, uid, p).hosts[id].place)
  {
    var c', was := Dequeued(s.c, uid, p), s.c.deleteEvents[uid].status.hostID;
    assert s.c.hosts[id].place != Awaiting(uid);
    DequeuedCluster(s.c, uid, p, id);
    hide Stands, Dequeued;
    StandsWithoutEvent(s.c, c', s.threads, threads, id, s.c.hosts[id].place, uid);
  }

  lemma DequeuedStands(s: State, uid: nat, threads: map<nat, Thread>, id: string)
    requires id in s.c.hosts && PlaceOk(s, id) && uid in s.c.deleteEvents
    requires forall j <- s.threads :: s.threads[j].pc.Done? || (j in threads && threads[j] == s.threads[j])
    ensures var c' := Dequeued(s.c, uid, Orphaned);
            id in c'.hosts && Stands(c', threads, id, c'.hosts[id].place)
  {
    if id != s.c.deleteEvents[uid].status.hostID { DequeuedPlace(s, uid, Orphaned, threads, id); }
  }

  /** A tombstone, or the handler giving up before its first call. */
  lemma EventOrphaned(s: State, uid: nat)
    requires Inv(s) && uid in s.c.deleteEvents && s.c.deleteEvents[uid].status.hostID != ""
    ensures Inv(s.(c := Dequeued(s.c, uid, Orphaned)))
  {
    hide Grows, TunnelsOk, TokensOk, HostIdsUnique, VersionHostsKnown, CacheOk, PublicationsOk, Silent,
         PublishedOnce, DeploymentsOk, ObjectsDiffer, ServicesOk, KeepsPlaces, PcOk, Stands;
    var c' := Dequeued(s.c, uid, Orphaned);
    DequeuedOk(s.c, uid, Orphaned);
    forall j <- s.threads { EventKeepsHands(s, uid, Orphaned, j); }
    hide RecordedOk, ClusterOk;
    forall id <- c'.hosts ensures id != "" && PlaceOk(s.(c := c'), id) {
      assert id != "" && PlaceOk(s, id);
      DequeuedStands(s, uid, s.threads, id);
    }
    forall u: nat ensures Silent(s.c, c', u) { SilentWhenSame(s.c, c', u); }
    OutsideKeeps(s, c');
  }

  lemma TakenStands(s: State, uid: nat)
    requires Enabled(s, Deliver(uid, false))
    requires s.c.deleteEvents[uid].status.hostID != "" && s.c.deleteEvents[uid].status.hostID in s.c.hosts
    ensures PlaceOk(Machine.Apply(s, Deliver(uid, false)), s.c.deleteEvents[uid].status.hostID)
  {}

  lemma EventTakenPlaces(s: State, uid: nat)
    requires Inv(s) && Enabled(s, Deliver(uid, false)) && s.c.deleteEvents[uid].status.hostID != ""
    ensures PlacesOk(Machine.Apply(s, Deliver(uid, false)))
    ensures s.c.deleteEvents[uid].status.hostID in s.c.hosts
  {
    hide Grows, TunnelsOk, TokensOk, HostIdsUnique, VersionHostsKnown, CacheOk, PublicationsOk, Silent,
         PublishedOnce, DeploymentsOk, ObjectsDiffer, ServicesOk, PcOk, Stands;
    var s' := Machine.Apply(s, Deliver(uid, false));
    var taken := s.c.deleteEvents[uid].status.hostID;
    forall id <- s'.c.hosts ensures id != "" && PlaceOk(s', id) {
      assert id != "" && PlaceOk(s, id);
      if id == taken { TakenStands(s, uid); }
      else { DequeuedPlace(s, uid, Handling(HANDLER), s'.threads, id); }
    }
  }

  /** The handler picks the event up. */
  lemma EventTaken(s: State, uid: nat)
    requires Inv(s) && Enabled(s, Deliver(uid, false)) && s.c.deleteEvents[uid].status.hostID != ""
    ensures Inv(Machine.Apply(s, Deliver(uid, false)))
  {
    hide Grows, TunnelsOk, TokensOk, HostIdsUnique, VersionHostsKnown, CacheOk, PublicationsOk, Silent,
         PublishedOnce, DeploymentsOk, ObjectsDiffer, ServicesOk, KeepsPlaces, PlaceOk;
    var c' := Dequeued(s.c, uid, Handling(HANDLER));
    var s' := Machine.Apply(s, Deliver(uid, false));
    DequeuedOk(s.c, uid, Handling(HANDLER));
    forall j <- s.threads { EventKeepsHands(s, uid, Handling(HANDLER), j); }
    EventTakenPlaces(s, uid);
    hide ClusterOk;
    forall u: nat ensures Silent(s.c, c', u) { SilentWhenSame(s.c, c', u); }
    assert PcOk(c', HANDLER, s'.threads[HANDLER].pc);
    hide PcOk, PlacesOk;
    OthersStable(s, s', HANDLER);
  }

  /** A delete event without a host. */
  lemma EventDropped(s: State, uid: nat)
    requires Inv(s) && uid in s.c.deleteEvents && s.c.deleteEvents[uid].status.hostID == ""
    ensures Inv(s.(c := s.c.(deleteEvents := s.c.deleteEvents - {uid})))
  {
    hide ClusterOk, Grows, ThreadsOk, PublishersDiffer, PcOk;
    var c' := s.c.(deleteEvents := s.c.deleteEvents - {uid});
    var s' := s.(c := c');
    EventRemoved(s.c, uid);
    forall id <- s.c.hosts ensures id != "" && PlaceOk(s', id) { assert PlaceOk(s, id); }
    hide PlacesOk;
    OutsideKeeps(s, c');
  }

  lemma DeliverKeeps(s: State, uid: nat, tombstone: bool)
    requires Inv(s) && Enabled(s, Deliver(uid, tombstone))
    ensures Inv(Machine.Apply(s, Deliver(uid, tombstone)))
  {
    hide ClusterOk, ThreadsOk, PublishersDiffer;
    if s.c.deleteEvents[uid].status.hostID == "" {
      assert "" !in s.c.hosts;
      EventDropped(s, uid);
    } else if tombstone {
      EventOrphaned(s, uid);
    } else {
      EventTaken(s, uid);
    }
  }

  // ---- Other users and the informers ------------------------------------------------

  /** A change outside the threads that leaves hosts, Tunnels' hosts and the edit log alone. */
  lemma QuietKeeps(s: State, c': Cluster)
    requires Inv(s) && ClusterOk(c') && Grows(s.c, c') && KeepsFacts(s.c, c')
    requires forall u: nat :: Silent(s.c, c', u)
    ensures Inv(s.(c := c'))
  {
    hide ClusterOk, Grows, PcOk, Silent;
    forall id <- c'.hosts ensures id != "" && PlaceOk(s.(c := c'), id) { assert PlaceOk(s, id); }
    OutsideKeeps(s, c');
  }

  lemma AddTunnelKeeps(s: State, key: Key, owners: seq<OwnerReference>, spec: TunnelSpec)
    requires Inv(s) && Enabled(s, AddTunnel(key, owners, spec))
    ensures Inv(Machine.Apply(s, AddTunnel(key, owners, spec)))
  {
    hide ClusterOk, Grows;
    var c' := CreateTunnel(s.c, key, owners, spec, Success).0;
    CreateTunnelOk(s.c, key, owners, spec, Success);
    QuietKeeps(s, c');
  }

  lemma PutServiceKeeps(s: State, svc: Service)
    requires Inv(s)
    ensures Inv(Machine.Apply(s, PutService(svc)))
  {
    hide ClusterOk, Grows;
    var c' := StoreService(s.c, svc);
    ServiceEditOk(s.c, svc.(rv := s.c.nextRv), Put(svc.externalIPs));
    QuietKeeps(s, c');
  }

  lemma RemoveServiceKeeps(s: State, key: Key)
    requires Inv(s)
    ensures Inv(Machine.Apply(s, RemoveService(key)))
  {
    hide ClusterOk, Grows;
    RemoveServiceOk(s.c, key);
    QuietKeeps(s, s.c.(services := s.c.services - {key}));
  }

  lemma AddSecretKeeps(s: State, key: Key, data: map<string, string>)
    requires Inv(s)
    ensures Inv(s.(c := CreateSecret(s.c, key, data, Success).0))
  {
    hide ClusterOk, Grows;
    CreateSecretOk(s.c, key, data, Success);
    QuietKeeps(s, CreateSecret(s.c, key, data, Success).0);
  }

  lemma DeploymentsChange(s: State, act: Action)
    requires Inv(s) && Enabled(s, act) && (act.AddDeployment? || act.RemoveDeployment?)
    ensures Inv(Machine.Apply(s, act))
  {
    hide ClusterOk, Grows;
    if act.AddDeployment? { DeploymentWriteOk(s.c, act.d); } else { RemoveDeploymentOk(s.c, act.key); }
    QuietKeeps(s, Machine.Apply(s, act).c);
  }

  lemma InvCluster(s: State)
    requires Inv(s)
    ensures ClusterOk(s.c)
  {}

  lemma SilentSame(c: Cluster, c': Cluster)
    requires c'.edits == c.edits
    ensures forall u: nat :: Silent(c, c', u)
  {}

  lemma RefreshOk(c: Cluster, key: Key, rv: nat)
    requires ClusterOk(c) && rv in c.versions && c.versions[rv].key == key
    ensures var c' := c.(tunnelCache := c.tunnelCache[key := CachedTunnel(c.nextObj, c.versions[rv])],
                         nextObj := c.nextObj + 1);
            CacheOk(c') && ObjectsDiffer(c') && KeepsObjects(c, c')
  {
    hide TokensOk, HostIdsUnique, VersionHostsKnown, RecordedOk, PublicationsOk, ServicesOk,
         PublishedOnce, DeploymentsOk, VersionsEvolve, StoredIsLatest;
    assert c.versions[rv].rv == rv;
  }

  lemma CachesFollow(c: Cluster, c': Cluster, act: Action)
    requires ClusterOk(c)
    requires match act
             case RefreshTunnel(key, rv) =>
               rv in c.versions && c.versions[rv].key == key
               && c' == c.(tunnelCache := c.tunnelCache[key := CachedTunnel(c.nextObj, c.versions[rv])],
                           nextObj := c.nextObj + 1)
             case ForgetTunnel(key) => c' == c.(tunnelCache := c.tunnelCache - {key})
             case RefreshService(svc) => c' == c.(serviceCache := c'.serviceCache)
             case ForgetService(key) => c' == c.(serviceCache := c'.serviceCache)
             case _ => false
    ensures CacheOk(c') && ObjectsDiffer(c') && KeepsObjects(c, c') && KeepsFacts(c, c') && c'.edits == c.edits
    ensures c' == c.(tunnelCache := c'.tunnelCache, serviceCache := c'.serviceCache, nextObj := c'.nextObj)
  {
    hide TunnelsOk, TokensOk, HostIdsUnique, VersionHostsKnown, RecordedOk, PublicationsOk, ServicesOk,
         PublishedOnce, DeploymentsOk;
    if act.RefreshTunnel? { RefreshOk(c, act.key, act.rv); }
  }

  lemma CachesChange(s: State, act: Action)
    requires Inv(s) && Enabled(s, act)
    requires act.RefreshTunnel? || act.ForgetTunnel? || act.RefreshService? || act.ForgetService?
    ensures Inv(Machine.Apply(s, act))
  {
    hide Inv;
    var c' := Machine.Apply(s, act).c;
    InvCluster(s);
    CachesFollow(s.c, c', act);
    hide ClusterOk, CacheOk, ObjectsDiffer, KeepsObjects, Grows, KeepsFacts;
    CacheWriteOk(s.c, c');
    SilentSame(s.c, c');
    QuietKeeps(s, c');
  }

  // ---- Every action, every run ------------------------------------------------------

  lemma ActionKeeps(s: State, act: Action)
    requires Inv(s) && Enabled(s, act)
    ensures Inv(Machine.Apply(s, act))
  {
    hide Inv;
    match act
    case Call(i, a) => CallKeeps(s, i, a);
    case StartSync(i, key) => StartSyncKeeps(s, i, key);
    case Deliver(uid, tombstone) => DeliverKeeps(s, uid, tombstone);
    case AddTunnel(key, owners, spec) => AddTunnelKeeps(s, key, owners, spec);
    case RemoveTunnel(key) => TunnelRemovedKeeps(s, key);
    case PutService(svc) => PutServiceKeeps(s, svc);
    case RemoveService(key) => RemoveServiceKeeps(s, key);
    case AddSecret(key, data) => AddSecretKeeps(s, key, data);
    case AddDeployment(_) => DeploymentsChange(s, act);
    case RemoveDeployment(_) => DeploymentsChange(s, act);
    case RefreshTunnel(_, _) => CachesChange(s, act);
    case ForgetTunnel(_) => CachesChange(s, act);
    case RefreshService(_) => CachesChange(s, act);
    case ForgetService(_) => CachesChange(s, act);
  }

  lemma InitialOk(s: State)
    requires Initial(s)
    ensures Inv(s)
  {}

  /** Every state of every run satisfies the invariant. */
  lemma {:induction false} RunKeeps(states: seq<State>, acts: seq<Action>, n: nat)
    requires IsRun(states, acts) && n < |states|
    ensures Inv(states[n])
  {
    if n == 0 {
      InitialOk(states[0]);
    } else {
      RunKeeps(states, acts, n - 1);
      assert Follows(states[n - 1], acts[n - 1], states[n]);
      ActionKeeps(states[n - 1], acts[n - 1]);
    }
  }
}
