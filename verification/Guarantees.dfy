/** What holds in every state of every run, and across the states of one run. */
module Guarantees {
  import opened Options
  import opened Resources
  import opened Ports
  import opened ExternalIPs
  import opened Clusters
  import opened Sync
  import opened Machine
  import opened Invariants
  import opened Stability
  import opened StatusWrites
  import opened Preservation
  import opened Frames

  // ---- The host ledger -----------------------------------------------------------

  /** Hosts named by a stored Tunnel. */
  function RecordedHosts(s: State): set<string> {
    set k <- s.c.tunnels | s.c.tunnels[k].status.hostID != "" :: s.c.tunnels[k].status.hostID
  }

  /** Hosts of deleted Tunnels whose event waits, or is being handled. */
  function HostsToDelete(s: State): set<string> {
    (set u <- s.c.deleteEvents | s.c.deleteEvents[u].status.hostID != "" :: s.c.deleteEvents[u].status.hostID)
    + (set i <- s.threads | s.threads[i].pc.Dispose? :: s.threads[i].pc.t.status.hostID)
  }

  /** Hosts between Provision and the status write. */
  function HostsInFlight(s: State): set<string> {
    set i <- s.threads | s.threads[i].pc.Provision? && s.threads[i].pc.prov.WriteProvisioning? ::
      s.threads[i].pc.prov.id
  }

  function HostsGone(s: State): set<string> { set id <- s.c.hosts | s.c.hosts[id].place.Gone? }

  function Orphans(s: State): set<string> { set id <- s.c.hosts | s.c.hosts[id].place.Orphaned? }

  datatype Column = InTunnel | ToDelete | Flying | Deleted | Abandoned

  function ColumnOf(p: Place): Column {
    match p
    case Recorded(_) => InTunnel
    case Awaiting(_) => ToDelete
    case Handling(_) => ToDelete
    case InFlight(_) => Flying
    case Gone => Deleted
    case Orphaned => Abandoned
  }

  function Booked(s: State, col: Column): set<string> { set id <- s.c.hosts | ColumnOf(s.c.hosts[id].place) == col }

  lemma RecordedAreBooked(s: State)
    requires Inv(s)
    ensures RecordedHosts(s) == Booked(s, InTunnel)
  {
    hide StoredOk, StoredIsLatest, VersionsEvolve, CacheOk, HostIdsUnique, VersionHostsKnown, TokensOk,
         ServicesOk, PublicationsOk, PublishedOnce, DeploymentsOk, ThreadsOk, PublishersDiffer, ObjectsDiffer;
    forall id | id in Booked(s, InTunnel) ensures id in RecordedHosts(s) {
      assert id != "" && PlaceOk(s, id);
      assert s.c.tunnels[s.c.hosts[id].place.tunnel].status.hostID == id;
    }
  }

  lemma DueAreBooked(s: State)
    requires Inv(s)
    ensures HostsToDelete(s) == Booked(s, ToDelete)
  {
    hide StoredOk, StoredIsLatest, VersionsEvolve, CacheOk, HostIdsUnique, VersionHostsKnown, TokensOk,
         ServicesOk, PublicationsOk, PublishedOnce, DeploymentsOk, PublishersDiffer, ObjectsDiffer;
    forall id | id in Booked(s, ToDelete) ensures id in HostsToDelete(s) {
      assert id != "" && PlaceOk(s, id);
    }
    forall i <- s.threads | s.threads[i].pc.Dispose? ensures s.threads[i].pc.t.status.hostID in Booked(s, ToDelete) {
      assert PcOk(s.c, i, s.threads[i].pc);
    }
  }

  lemma FlyingAreBooked(s: State)
    requires Inv(s)
    ensures HostsInFlight(s) == Booked(s, Flying)
  {
    hide StoredOk, StoredIsLatest, VersionsEvolve, CacheOk, HostIdsUnique, VersionHostsKnown, TokensOk,
         ServicesOk, PublicationsOk, PublishedOnce, DeploymentsOk, PublishersDiffer, ObjectsDiffer;
    forall id | id in Booked(s, Flying) ensures id in HostsInFlight(s) {
      assert PlaceOk(s, id);
    }
    forall i <- s.threads | s.threads[i].pc.Provision? && s.threads[i].pc.prov.WriteProvisioning?
      ensures s.threads[i].pc.prov.id in Booked(s, Flying)
    {
      assert PcOk(s.c, i, s.threads[i].pc);
    }
  }

  predicate Split(whole: set<string>, a: set<string>, b: set<string>, c: set<string>, d: set<string>, e: set<string>) {
    whole == a + b + c + d + e && a !! b !! c !! d !! e
  }

  lemma ColumnsSplit(s: State)
    ensures Split(s.c.hosts.Keys, Booked(s, InTunnel), Booked(s, ToDelete), Booked(s, Flying),
                  Booked(s, Deleted), Booked(s, Abandoned))
  {
    forall id <- s.c.hosts
      ensures id in Booked(s, InTunnel) + Booked(s, ToDelete) + Booked(s, Flying) + Booked(s, Deleted)
                    + Booked(s, Abandoned)
    {
      assert id in Booked(s, ColumnOf(s.c.hosts[id].place));
    }
  }

  lemma OthersAreBooked(s: State)
    ensures HostsGone(s) == Booked(s, Deleted) && Orphans(s) == Booked(s, Abandoned)
  {}

  /** Every host ever provisioned is in exactly one of five places. */
  lemma HostLedger(states: seq<State>, acts: seq<Action>, n: nat)
    requires IsRun(states, acts) && n < |states|
    ensures var s := states[n];
            Split(s.c.hosts.Keys, RecordedHosts(s), HostsToDelete(s), HostsInFlight(s), HostsGone(s), Orphans(s))
  {
    hide Inv, IsRun, Split, RecordedHosts, HostsToDelete, HostsInFlight, HostsGone, Orphans, Booked;
    var s := states[n];
    RunKeeps(states, acts, n);
    RecordedAreBooked(s);
    DueAreBooked(s);
    FlyingAreBooked(s);
    OthersAreBooked(s);
    ColumnsSplit(s);
    hide *;
  }

  // ---- Orphans -------------------------------------------------------------------

  /** Four of the ways to lose a host: the provisioning write does not take effect, a
      tombstone arrives instead of the Tunnel, no provisioner can be built, or the
      provider's Delete fails. */
  predicate Abandons(s: State, act: Action, id: string)
    requires Enabled(s, act)
  {
    match act
    case Call(i, a) =>
      var pc := s.threads[i].pc;
      if pc.Provision? then pc.prov == WriteProvisioning(id) && !Writes(s.c, pc.t, a.mode)
      else pc.Dispose? && pc.t.status.hostID == id && !a.mode.Success?
    case Deliver(uid, tombstone) => tombstone && s.c.deleteEvents[uid].status.hostID == id && id != ""
    case _ => false
  }

  /** The fifth way: the reply to Provision never arrives. */
  predicate LosesReply(s: State, act: Action)
    requires Enabled(s, act)
  {
    act.Call? && var pc := s.threads[act.i].pc; pc.Provision? && pc.prov.ProvisionHost? && act.a.mode.Lost?
  }

  function Lost(s: State, act: Action): set<string>
    requires Enabled(s, act)
  {
    (set id <- s.c.hosts | Abandons(s, act, id)) + (if LosesReply(s, act) then {act.a.hostId} else {})
  }

  /** The books of one host, not orphaned so far, are rewritten. */
  lemma OrphansAfterBook(s: State, s': State, id: string, p: Place)
    requires s'.c.hosts == Book(s.c, id, p).hosts && (id in s.c.hosts ==> !s.c.hosts[id].place.Orphaned?)
    ensures Orphans(s') == Orphans(s) + (if p.Orphaned? && id in s.c.hosts then {id} else {})
  {}

  lemma OrphansAfterDelete(s: State, s': State, key: Key)
    requires Inv(s) && s'.c == DeleteTunnel(s.c, key)
    ensures Orphans(s') == Orphans(s)
  {
    hide StoredOk, StoredIsLatest, VersionsEvolve, CacheOk, HostIdsUnique, VersionHostsKnown, TokensOk, ThreadsOk,
         ServicesOk, PublicationsOk, PublishedOnce, DeploymentsOk, PublishersDiffer, ObjectsDiffer, PlaceOk;
    if key in s.c.tunnels {
      OrphansAfterBook(s, s', s.c.tunnels[key].status.hostID, Awaiting(s.c.tunnels[key].uid));
    }
  }

  lemma EventAwaits(s: State, uid: nat)
    requires Inv(s) && uid in s.c.deleteEvents
    ensures "" !in s.c.hosts
    ensures var id := s.c.deleteEvents[uid].status.hostID;
            id != "" ==> id in s.c.hosts && s.c.hosts[id].place == Awaiting(uid)
  {
    hide StoredOk, StoredIsLatest, VersionsEvolve, CacheOk, HostIdsUnique, VersionHostsKnown, TokensOk, ThreadsOk,
         ServicesOk, PublicationsOk, PublishedOnce, DeploymentsOk, PublishersDiffer, ObjectsDiffer, PlaceOk;
  }

  lemma LostByDelivery(s: State, uid: nat, tombstone: bool)
    requires Enabled(s, Deliver(uid, tombstone)) && "" !in s.c.hosts
    ensures var id := s.c.deleteEvents[uid].status.hostID;
            Lost(s, Deliver(uid, tombstone)) == if tombstone && id in s.c.hosts then {id} else {}
  {}

  lemma HostsAfterDelivery(s: State, uid: nat, tombstone: bool)
    requires Enabled(s, Deliver(uid, tombstone))
    ensures var id := s.c.deleteEvents[uid].status.hostID;
            Machine.Apply(s, Deliver(uid, tombstone)).c.hosts
              == if tombstone then Book(s.c, id, Orphaned).hosts
                 else if id == "" then s.c.hosts else Book(s.c, id, Handling(HANDLER)).hosts
  {}

  lemma OrphansAfterSame(s: State, s': State)
    requires s'.c.hosts == s.c.hosts
    ensures Orphans(s') == Orphans(s)
  {}

  lemma OrphansAfterDeliver(s: State, uid: nat, tombstone: bool)
    requires Inv(s) && Enabled(s, Deliver(uid, tombstone))
    ensures Orphans(Machine.Apply(s, Deliver(uid, tombstone))) == Orphans(s) + Lost(s, Deliver(uid, tombstone))
  {
    hide Inv;
    var id := s.c.deleteEvents[uid].status.hostID;
    var s' := Machine.Apply(s, Deliver(uid, tombstone));
    EventAwaits(s, uid);
    LostByDelivery(s, uid, tombstone);
    HostsAfterDelivery(s, uid, tombstone);
    hide Lost, Orphans, Machine.Apply;
    if tombstone { OrphansAfterBook(s, s', id, Orphaned); }
    else if id != "" { OrphansAfterBook(s, s', id, Handling(HANDLER)); }
    else { OrphansAfterSame(s, s'); }
  }

  lemma OrphansAfterNewHost(s: State, i: nat, a: Answer)
    requires Enabled(s, Call(i, a)) && s.threads[i].pc.Provision? && s.threads[i].pc.prov.ProvisionHost?
    ensures Orphans(Machine.Apply(s, Call(i, a))) == Orphans(s) + Lost(s, Call(i, a))
  {
    var pc := s.threads[i].pc;
    var c' := StepProvisionHost(s.c, i, pc.t, pc.prov.token, a).0;
    match a.mode {
      case Refused => assert c' == s.c;
      case Lost => assert c'.hosts == s.c.hosts[a.hostId := Host(pc.prov.token, pc.t.uid, Orphaned)];
      case Success => assert c'.hosts == s.c.hosts[a.hostId := Host(pc.prov.token, pc.t.uid, InFlight(i))];
    }
    hide StepProvisionHost;
    assert Lost(s, Call(i, a)) == if a.mode.Lost? then {a.hostId} else {};
  }

  lemma OrphansAfterProvision(s: State, i: nat, a: Answer)
    requires Inv(s) && Enabled(s, Call(i, a)) && s.threads[i].pc.Provision?
    ensures Orphans(Machine.Apply(s, Call(i, a))) == Orphans(s) + Lost(s, Call(i, a))
  {
    hide ClusterOk, PlacesOk, PublishersDiffer;
    var pc, s' := s.threads[i].pc, Machine.Apply(s, Call(i, a));
    assert PcOk(s.c, i, pc);
    hide Inv;
    match pc.prov
    case ProvisionHost(_) => OrphansAfterNewHost(s, i, a);
    case WriteProvisioning(id) =>
      var next := WithHost(pc.t, Provisioning, id, "");
      assert Writes(s.c, next, a.mode) == Writes(s.c, pc.t, a.mode);
      assert Lost(s, Call(i, a)) == if Writes(s.c, pc.t, a.mode) then {} else {id};
      OrphansAfterBook(s, s', id, if Writes(s.c, next, a.mode) then Recorded(pc.t.key) else Orphaned);
    case _ => assert s'.c == s.c; assert Lost(s, Call(i, a)) == {};
  }

  lemma OrphansAfterDispose(s: State, i: nat, a: Answer)
    requires Inv(s) && Enabled(s, Call(i, a)) && s.threads[i].pc.Dispose?
    ensures Orphans(Machine.Apply(s, Call(i, a))) == Orphans(s) + Lost(s, Call(i, a))
  {
    hide ClusterOk, PlacesOk, PublishersDiffer;
    var pc, s' := s.threads[i].pc, Machine.Apply(s, Call(i, a));
    assert PcOk(s.c, i, pc);
    hide Inv;
    var id := pc.t.status.hostID;
    assert Lost(s, Call(i, a)) == if a.mode.Success? then {} else {id};
    if !a.mode.Success? { OrphansAfterBook(s, s', id, Orphaned); }
    else if pc.dis.DeleteHost? { OrphansAfterBook(s, s', id, Gone); }
  }

  lemma DropOrphans(s: State, i: nat, a: Answer)
    requires Inv(s) && Enabled(s, Call(i, a)) && s.threads[i].pc.Generate? && s.threads[i].pc.gen.DropTunnel?
    ensures Orphans(Machine.Apply(s, Call(i, a))) == Orphans(s)
  {
    hide Inv, DeleteTunnel;
    if !a.mode.Refused? { OrphansAfterDelete(s, Machine.Apply(s, Call(i, a)), TunnelKeyFor(s.threads[i].pc.s.key)); }
  }

  lemma OrphansAfterCall(s: State, i: nat, a: Answer)
    requires Inv(s) && Enabled(s, Call(i, a))
    ensures Orphans(Machine.Apply(s, Call(i, a))) == Orphans(s) + Lost(s, Call(i, a))
  {
    hide Inv;
    var pc, s' := s.threads[i].pc, Machine.Apply(s, Call(i, a));
    if pc.Provision? { OrphansAfterProvision(s, i, a); }
    else if pc.Dispose? { OrphansAfterDispose(s, i, a); }
    else {
      assert Lost(s, Call(i, a)) == {};
      if TouchesHosts(pc) {
        DropOrphans(s, i, a);
      } else {
        InvRvFresh(s);
        CallFrame(s.c, i, pc, a);
        hide Step;
      }
    }
  }

  /** The orphans of the next state are those of this one and the host this action loses. */
  lemma OrphansExactly(s: State, act: Action)
    requires Inv(s) && Enabled(s, act)
    ensures Orphans(Machine.Apply(s, act)) == Orphans(s) + Lost(s, act)
  {
    hide Inv;
    var s' := Machine.Apply(s, act);
    match act
    case Call(i, a) => OrphansAfterCall(s, i, a);
    case Deliver(uid, tombstone) => OrphansAfterDeliver(s, uid, tombstone);
    case RemoveTunnel(key) => OrphansAfterDelete(s, s', key);
    case _ => assert s'.c.hosts == s.c.hosts;
  }

  /** Along a run, orphans accumulate, one lossy action at a time. */
  lemma OrphansGrowOnlyByLoss(states: seq<State>, acts: seq<Action>, n: nat)
    requires IsRun(states, acts) && n < |acts|
    ensures Enabled(states[n], acts[n])
    ensures Orphans(states[n + 1]) == Orphans(states[n]) + Lost(states[n], acts[n])
  {
    assert Follows(states[n], acts[n], states[n + 1]);
    RunKeeps(states, acts, n);
    hide Inv;
    OrphansExactly(states[n], acts[n]);
  }

  // ---- Identity and monotonicity ---------------------------------------------------

  /** No two stored Tunnels record the same host, in any state. */
  lemma HostIdentity(states: seq<State>, acts: seq<Action>, n: nat, j: Key, k: Key)
    requires IsRun(states, acts) && n < |states|
    requires j in states[n].c.tunnels && k in states[n].c.tunnels
    requires states[n].c.tunnels[j].status.hostID == states[n].c.tunnels[k].status.hostID != ""
    ensures j == k
  {
    RunKeeps(states, acts, n);
    assert RecordedOk(states[n].c);
  }

  lemma VersionsOfOne(c: Cluster, c': Cluster, k: Key)
    requires StoredOk(c) && TunnelsOk(c') && Extends(c, c')
    requires k in c.tunnels && k in c'.tunnels && c.tunnels[k].uid == c'.tunnels[k].uid
    ensures Evolves(c.tunnels[k], c'.tunnels[k])
  {
    var t, t' := c.tunnels[k], c'.tunnels[k];
    assert c'.versions[t.rv] == t && c'.versions[t'.rv] == t';
  }

  /** Two sightings of one incarnation: nothing that was set has changed, and the
      HostStatus has not gone back. */
  lemma IncarnationsOnlyEvolve(states: seq<State>, acts: seq<Action>, m: nat, n: nat, k: Key)
    requires IsRun(states, acts) && m <= n < |states|
    requires k in states[m].c.tunnels && k in states[n].c.tunnels
    requires states[m].c.tunnels[k].uid == states[n].c.tunnels[k].uid
    ensures Evolves(states[m].c.tunnels[k], states[n].c.tunnels[k])
  {
    RunKeeps(states, acts, m);
    RunKeeps(states, acts, n);
    RunExtends(states, acts, m, n);
    hide IsRun;
    VersionsOfOne(states[m].c, states[n].c, k);
  }

  /** A host id names one incarnation for ever, even after that incarnation is gone. */
  lemma HostIdForOneIncarnation(states: seq<State>, acts: seq<Action>, m: nat, n: nat, j: Key, k: Key)
    requires IsRun(states, acts) && m <= n < |states|
    requires j in states[m].c.tunnels && k in states[n].c.tunnels
    requires states[m].c.tunnels[j].status.hostID == states[n].c.tunnels[k].status.hostID != ""
    ensures states[m].c.tunnels[j].uid == states[n].c.tunnels[k].uid
  {
    RunKeeps(states, acts, m);
    RunKeeps(states, acts, n);
    RunExtends(states, acts, m, n);
    var t, t' := states[m].c.tunnels[j], states[n].c.tunnels[k];
    assert states[n].c.versions[t.rv] == t && states[n].c.versions[t'.rv] == t';
  }

  /** The fields of every stored Tunnel agree with its HostStatus. */
  lemma StoredFieldsAgree(states: seq<State>, acts: seq<Action>, n: nat, k: Key)
    requires IsRun(states, acts) && n < |states| && k in states[n].c.tunnels
    ensures FieldsOk(states[n].c.tunnels[k])
  {
    RunKeeps(states, acts, n);
    assert states[n].c.versions[states[n].c.tunnels[k].rv] == states[n].c.tunnels[k];
  }

  // ---- The cache -------------------------------------------------------------------

  /** A cached Tunnel is the stored version of its resourceVersion, except for the client
      reference of an active Tunnel that has no named client in that version. */
  lemma CacheCoherence(states: seq<State>, acts: seq<Action>, n: nat, k: Key)
    requires IsRun(states, acts) && n < |states| && k in states[n].c.tunnelCache
    ensures Close(states[n].c, states[n].c.tunnelCache[k].tunnel)
  {
    RunKeeps(states, acts, n);
  }

  /** What a status write may change of the version it replaces. */
  predicate IntendedChange(pc: Pc, cur: Tunnel, next: Tunnel) {
    match pc
    case Generate(_, _) => next == WithGenerated(cur).(rv := next.rv)
    case Auth(_, _) => next == WithAuthRef(cur).(rv := next.rv)
    case Provision(_, call) =>
      call.WriteProvisioning? && next == WithHost(cur, Provisioning, call.id, "").(rv := next.rv)
    case Poll(_, call) =>
      call.WriteActive? && next == WithHost(cur, Active, cur.status.hostID, call.address).(rv := next.rv)
    case Client(t, _, _) =>
      t.status.clientDeploymentRef.Some?
      && next == WithClientRef(cur, t.status.clientDeploymentRef.value).(rv := next.rv)
    case _ => false
  }

  lemma InvFacts(s: State)
    requires Inv(s)
    ensures StoredOk(s.c) && RvFresh(s.c)
    ensures forall i <- s.threads :: PcOk(s.c, i, s.threads[i].pc)
  {
    InvRvFresh(s);
  }

  lemma StatusChange(c: Cluster, asked: Tunnel, m: Mode, k: Key)
    requires StoredOk(c) && k in c.tunnels
    requires var c' := UpdateTunnelStatus(c, asked, m).0; k in c'.tunnels && c'.tunnels[k] != c.tunnels[k]
    ensures k == asked.key && Matches(c, asked)
    ensures UpdateTunnelStatus(c, asked, m).0.tunnels[k] == c.tunnels[k].(status := asked.status, rv := c.nextRv)
  {}

  lemma GenerateChanges(c: Cluster, s: Service, call: GenerateCall, a: Answer, k: Key)
    requires StoredOk(c) && k in c.tunnels && (call.MarkGenerated? ==> Exact(c, call.created))
    requires var c' := StepGenerate(c, s, call, a).0; k in c'.tunnels && c'.tunnels[k] != c.tunnels[k]
    ensures IntendedChange(Generate(s, call), c.tunnels[k], StepGenerate(c, s, call, a).0.tunnels[k])
  {
    match call
    case MarkGenerated(t) =>
      StatusChange(c, WithGenerated(t), a.mode, k);
      ExactMatches(c, t, WithGenerated(t));
    case NewTunnel =>
    case GetTunnel =>
    case DropTunnel =>
  }

  lemma AuthChanges(c: Cluster, t: Tunnel, call: AuthCall, a: Answer, k: Key)
    requires StoredOk(c) && k in c.tunnels && Exact(c, t)
    requires var c' := StepAuth(c, t, call, a).0; k in c'.tunnels && c'.tunnels[k] != c.tunnels[k]
    ensures IntendedChange(Auth(t, call), c.tunnels[k], StepAuth(c, t, call, a).0.tunnels[k])
  {
    match call
    case WriteAuthRef =>
      StatusChange(c, WithAuthRef(t), a.mode, k);
      ExactMatches(c, t, WithAuthRef(t));
    case NewAuth => SecretFrame(c, t.key, map["token" := a.password], a.mode);
    case GetAuth =>
  }

  lemma ProvisionChanges(c: Cluster, i: nat, t: Tunnel, call: ProvisionCall, a: Answer, k: Key)
    requires StoredOk(c) && k in c.tunnels && Exact(c, t)
    requires var c' := StepProvision(c, i, t, call, a).0; k in c'.tunnels && c'.tunnels[k] != c.tunnels[k]
    ensures IntendedChange(Provision(t, call), c.tunnels[k], StepProvision(c, i, t, call, a).0.tunnels[k])
  {
    if call.WriteProvisioning? {
      var asked := WithHost(t, Provisioning, call.id, "");
      var p := if Writes(c, asked, a.mode) then Recorded(t.key) else Orphaned;
      ExactMatches(c, t, asked);
      hide Exact;
      BookFrame(UpdateTunnelStatus(c, asked, a.mode).0, call.id, p);
      hide Book, Extends;
      StatusChange(c, asked, a.mode, k);
      hide UpdateTunnelStatus, Writes, StoredOk;
    } else if call.ProvisionHost? {
      HostCall(c, i, t, call.token, a);
      hide StepProvisionHost, StoredOk;
    }
  }

  lemma PollChanges(c: Cluster, t: Tunnel, call: PollCall, a: Answer, k: Key)
    requires StoredOk(c) && k in c.tunnels && Exact(c, t)
    requires var c' := StepPoll(c, t, call, a).0; k in c'.tunnels && c'.tunnels[k] != c.tunnels[k]
    ensures IntendedChange(Poll(t, call), c.tunnels[k], StepPoll(c, t, call, a).0.tunnels[k])
  {
    if call.WriteActive? {
      var asked := WithHost(t, Active, t.status.hostID, call.address);
      StatusChange(c, asked, a.mode, k);
      ExactMatches(c, t, asked);
    }
  }

  lemma ClientChanges(c: Cluster, t: Tunnel, obj: nat, call: ClientCall, a: Answer, k: Key)
    requires StoredOk(c) && k in c.tunnels && Close(c, t)
    requires call.WriteClientRef? ==> t.status.clientDeploymentRef.Some?
    requires var c' := StepClient(c, t, obj, call, a).0; k in c'.tunnels && c'.tunnels[k] != c.tunnels[k]
    ensures IntendedChange(Client(t, obj, call), c.tunnels[k], StepClient(c, t, obj, call, a).0.tunnels[k])
  {
    match call
    case WriteClientRef =>
      StatusChange(c, t, a.mode, k);
      MatchIsCurrent(c, t);
    case NewClient(d) => NewClientFrame(c, t, obj, d, a);
    case GetPorts =>
  }

  /** However stale the cache and whatever was written through its pointers, a write that
      replaces a version changes only what that call means to change. */
  lemma StaleReadsNeverLeak(s: State, i: nat, a: Answer, k: Key)
    requires Inv(s) && Enabled(s, Call(i, a)) && k in s.c.tunnels
    requires var c' := Machine.Apply(s, Call(i, a)).c;
             k in c'.tunnels && c'.tunnels[k] != s.c.tunnels[k]
    ensures IntendedChange(s.threads[i].pc, s.c.tunnels[k], Machine.Apply(s, Call(i, a)).c.tunnels[k])
  {
    hide Inv, IntendedChange, FieldsOk;
    InvFacts(s);
    var pc := s.threads[i].pc;
    assert PcOk(s.c, i, pc);
    match pc
    case Begin(_, _) =>
    case Generate(_, _) => GenerateChanges(s.c, pc.s, pc.gen, a, k);
    case Auth(t, call) => AuthChanges(s.c, t, call, a, k);
    case Provision(t, call) => ProvisionChanges(s.c, i, t, call, a, k);
    case Poll(t, call) => PollChanges(s.c, t, call, a, k);
    case Client(t, obj, call) => ClientChanges(s.c, t, obj, call, a, k);
    case Expose(t, ip, call) => ExposeFrame(s.c, t, ip, call, a);
    case License(t, obj, call) => LicenseStepFrame(s.c, t, obj, call, a);
    case Redeploy(t, call) => RedeployFrame(s.c, t, call, a);
    case Dispose(t, call) => DisposeFrame(s.c, t, call, a);
  }

  // ---- Tokens ----------------------------------------------------------------------

  /** The host a Tunnel records was provisioned with the token that its secret holds now. */
  lemma TokenAgreement(states: seq<State>, acts: seq<Action>, n: nat, k: Key)
    requires IsRun(states, acts) && n < |states| && k in states[n].c.tunnels
    requires var t := states[n].c.tunnels[k];
             !t.status.hostStatus.NotStarted? && SecretName(t) != LICENSE_SECRET
    ensures var c := states[n].c; var t := c.tunnels[k];
            && t.status.hostID in c.hosts && SecretKey(t) in c.secrets
            && c.hosts[t.status.hostID].token == Token(c.secrets[SecretKey(t)])
  {
    RunKeeps(states, acts, n);
    var c := states[n].c;
    assert c.versions[c.tunnels[k].rv] == c.tunnels[k];
  }

  /** An auth secret, once there, is never changed or removed. */
  lemma AuthSecretsFixed(states: seq<State>, acts: seq<Action>, m: nat, n: nat, k: Key)
    requires IsRun(states, acts) && m <= n < |states|
    requires k in states[m].c.secrets && k.name != LICENSE_SECRET
    ensures k in states[n].c.secrets && states[n].c.secrets[k] == states[m].c.secrets[k]
  {
    RunExtends(states, acts, m, n);
  }

  /** The call that copies the license over secret `k`. */
  predicate OverwritesSecret(s: State, act: Action, k: Key)
    requires Enabled(s, act)
  {
    act.Call? && var pc := s.threads[act.i].pc;
    pc.License? && pc.lic.UpdateLicense? && k == LicenseKey(pc.t) && k in s.c.secrets
    && !act.a.mode.Refused? && s.c.secrets[k].rv == pc.lic.secret.rv
  }

  /** What an action makes of secret `k`. */
  function SecretAfter(s: State, act: Action, k: Key): Secret
    requires Enabled(s, act) && k in s.c.secrets
  {
    if OverwritesSecret(s, act, k) then s.threads[act.i].pc.lic.secret.(rv := s.c.nextRv) else s.c.secrets[k]
  }

  lemma SameSecrets(c: Cluster, c': Cluster)
    requires c'.secrets == c.secrets
    ensures KeepsSecrets(c, c')
  {}

  lemma OutsideKeepsSecrets(s: State, act: Action)
    requires Enabled(s, act) && !act.Call?
    ensures KeepsSecrets(s.c, Machine.Apply(s, act).c)
  {
    hide KeepsSecrets;
    var c' := Machine.Apply(s, act).c;
    match act
    case AddSecret(key, data) => SecretFrame(s.c, key, data, Success);
    case _ => SameSecrets(s.c, c');
  }

  lemma OutsideSecretAfter(s: State, act: Action, k: Key)
    requires Enabled(s, act) && !act.Call? && k in s.c.secrets
    ensures var secrets := Machine.Apply(s, act).c.secrets;
            k in secrets && secrets[k] == SecretAfter(s, act, k)
  {
    OutsideKeepsSecrets(s, act);
    hide Machine.Apply;
  }

  lemma UpdatedSecret(c: Cluster, key: Key, secret: Secret, m: Mode, k: Key)
    requires k in c.secrets
    ensures var c' := UpdateSecret(c, key, secret, m).0;
            && k in c'.secrets
            && c'.secrets[k] ==
               if k == key && !m.Refused? && c.secrets[k].rv == secret.rv
               then secret.(rv := c.nextRv) else c.secrets[k]
  {
    var c' := UpdateSecret(c, key, secret, m).0;
    if m.Refused? || key !in c.secrets || c.secrets[key].rv != secret.rv {
      assert c' == c;
    } else {
      assert c'.secrets == c.secrets[key := secret.(rv := c.nextRv)];
    }
  }

  lemma LicenseCopied(c: Cluster, me: nat, pc: Pc, a: Answer, k: Key)
    requires pc.License? && pc.lic.UpdateLicense? && k in c.secrets
    ensures var c' := Step(c, me, pc, a).0;
            && k in c'.secrets
            && c'.secrets[k] ==
               if k == LicenseKey(pc.t) && !a.mode.Refused? && c.secrets[k].rv == pc.lic.secret.rv
               then pc.lic.secret.(rv := c.nextRv) else c.secrets[k]
  {
    hide LicenseKey, UpdateSecret;
    UpdatedSecret(c, LicenseKey(pc.t), pc.lic.secret, a.mode, k);
  }

  lemma CallChangesSecrets(s: State, i: nat, a: Answer, k: Key)
    requires Inv(s) && Enabled(s, Call(i, a)) && k in s.c.secrets
    ensures var secrets := Step(s.c, i, s.threads[i].pc, a).0.secrets;
            k in secrets && secrets[k] == SecretAfter(s, Call(i, a), k)
  {
    hide Inv, LicenseKey;
    var pc := s.threads[i].pc;
    if pc.License? && pc.lic.UpdateLicense? {
      LicenseCopied(s.c, i, pc, a, k);
    } else {
      InvRvFresh(s);
      CallFrame(s.c, i, pc, a);
    }
    hide Step;
  }

  /** A secret changes exactly when the license is copied over it: an auth secret that
      bears the license's name is not safe. */
  lemma SecretsChangeExactly(s: State, act: Action, k: Key)
    requires Inv(s) && Enabled(s, act) && k in s.c.secrets
    ensures var secrets := Machine.Apply(s, act).c.secrets;
            k in secrets && secrets[k] == SecretAfter(s, act, k)
  {
    hide Inv, SecretAfter;
    if act.Call? {
      CallChangesSecrets(s, act.i, act.a, k);
      hide Step;
    } else {
      OutsideSecretAfter(s, act, k);
    }
  }

  /** So a token is lost exactly when the license data brings another one, or none. */
  lemma TokenLostExactly(s: State, act: Action, k: Key)
    requires Inv(s) && Enabled(s, act) && k in s.c.secrets
    ensures k in Machine.Apply(s, act).c.secrets
    ensures Token(Machine.Apply(s, act).c.secrets[k]) != Token(s.c.secrets[k])
            <==> OverwritesSecret(s, act, k) && Token(s.threads[act.i].pc.lic.secret) != Token(s.c.secrets[k])
  {
    hide Inv, Enabled, OverwritesSecret;
    SecretsChangeExactly(s, act, k);
    hide Machine.Apply;
  }

  // ---- Published addresses -----------------------------------------------------------

  /** Over any run a Tunnel incarnation appends its address to a Service at most once. */
  lemma PublishedAtMostOnce(states: seq<State>, acts: seq<Action>, n: nat, i: nat, j: nat)
    requires IsRun(states, acts) && n < |states| && i < j < |states[n].c.edits|
    requires states[n].c.edits[i].op.Publish? && states[n].c.edits[j].op.Publish?
    ensures states[n].c.edits[i].op.uid != states[n].c.edits[j].op.uid
  {
    RunKeeps(states, acts, n);
    assert !SameTunnelPublishes(states[n].c.edits[i], states[n].c.edits[j]);
  }

  /** What was published for a stored Tunnel is its recorded address, on the Service it refers to
      in its own namespace, and only if an owner of the Tunnel is a Service. */
  lemma PublishedIsRecorded(states: seq<State>, acts: seq<Action>, n: nat, i: nat, k: Key)
    requires IsRun(states, acts) && n < |states| && i < |states[n].c.edits| && k in states[n].c.tunnels
    requires states[n].c.edits[i].op.Publish? && states[n].c.edits[i].op.uid == states[n].c.tunnels[k].uid
    ensures var e, t := states[n].c.edits[i], states[n].c.tunnels[k];
            && t.status.hostStatus.Active? && t.status.hostIP == e.op.ip
            && t.spec.serviceRef.Some? && e.service == Key(k.namespace, t.spec.serviceRef.value.name)
            && exists o <- t.owners :: o.kind == "Service"
  {
    RunKeeps(states, acts, n);
    var c := states[n].c;
    assert PublicationOk(c, c.edits[i]);
    var v, t := c.versions[c.edits[i].op.rv], c.tunnels[k];
    assert c.versions[t.rv] == t && FieldsOk(t) && FieldsOk(v);
    assert Evolves(v, t);
  }

  /** No edit is lost: a Service's list is the fold of every edit ever made to it. */
  lemma ExternalIPsAreTheFold(states: seq<State>, acts: seq<Action>, n: nat, k: Key)
    requires IsRun(states, acts) && n < |states| && k in states[n].c.services
    ensures states[n].c.services[k].externalIPs == Fold(states[n].c.edits, k)
  {
    RunKeeps(states, acts, n);
  }

  /** An ingress write that takes effect mirrors the list as it stands. */
  lemma IngressMirrorsList(s: State, i: nat, a: Answer)
    requires Inv(s) && Enabled(s, Call(i, a))
    requires s.threads[i].pc.Expose? && s.threads[i].pc.exp.WriteIngress? && !a.mode.Refused?
    requires ServiceMatches(s.c, s.threads[i].pc.exp.mirrored)
    ensures var k, c' := s.threads[i].pc.exp.mirrored.key, Machine.Apply(s, Call(i, a)).c;
            k in c'.services && c'.services[k].ingress == c'.services[k].externalIPs
            && c'.services[k].externalIPs == s.c.services[k].externalIPs
  {
    hide ClusterOk, PlacesOk, PublishersDiffer;
    assert PcOk(s.c, i, s.threads[i].pc);
  }

  // ---- Clients -----------------------------------------------------------------------

  lemma DeploymentAgrees(c: Cluster, k: Key, d: Key)
    requires TunnelsOk(c) && DeploymentsOk(c) && k in c.tunnels && d in c.deployments
    requires c.deployments[d].owner == Some(c.tunnels[k].uid)
    ensures BuiltFrom(c.deployments[d], c.tunnels[k]) && c.tunnels[k].status.hostIP != ""
  {
    var t, dep := c.tunnels[k], c.deployments[d];
    assert DeploymentOk(c, dep);
    var r :| r in c.versions && BuiltFrom(dep, c.versions[r]);
    assert c.versions[t.rv] == t && Evolves(c.versions[r], t) && FieldsOk(t) && FieldsOk(c.versions[r]);
  }

  /** Every Deployment the operator made for a stored, active Tunnel connects to the recorded
      address with the Tunnel's secret, forwards to the Service that the Tunnel refers to, and
      says which ports. */
  lemma ClientAgreement(states: seq<State>, acts: seq<Action>, n: nat, k: Key, d: Key)
    requires IsRun(states, acts) && n < |states|
    requires k in states[n].c.tunnels && d in states[n].c.deployments
    requires states[n].c.deployments[d].owner == Some(states[n].c.tunnels[k].uid)
    ensures var t, dep := states[n].c.tunnels[k], states[n].c.deployments[d];
            && t.status.hostStatus.Active?
            && dep.urlHost == t.status.hostIP && dep.urlHost != ""
            && t.spec.serviceRef.Some? && dep.upstream == t.spec.serviceRef.value.name
            && Key(dep.key.namespace, dep.secretName) == SecretKey(t)
            && dep.annotations == Some(map["inlets.dev/ports" := dep.portsArg])
  {
    RunKeeps(states, acts, n);
    DeploymentAgrees(states[n].c, k, d);
  }

  /** A rewrite of the client goes to the very Deployment that was read. */
  lemma RewriteHitsWhatWasRead(s: State, i: nat, a: Answer)
    requires Inv(s) && Enabled(s, Call(i, a)) && s.threads[i].pc.Redeploy? && s.threads[i].pc.red.GetClientPorts?
    requires var pc' := Machine.Apply(s, Call(i, a)).threads[i].pc; pc'.Redeploy?
    ensures var pc' := Machine.Apply(s, Call(i, a)).threads[i].pc;
            pc'.red.UpdateClient? && pc'.red.rebuilt.key == s.threads[i].pc.red.found.key
  {
    hide ClusterOk, PlacesOk, PublishersDiffer;
    assert PcOk(s.c, i, s.threads[i].pc);
  }

  /** A client built by the operator is rewritten exactly when the Service's port list has
      become another one. */
  lemma RewritesExactly(t: Tunnel, ports: seq<int>, s: Service)
    ensures PortsDiffer(MakeClientDeployment(t, PortsString(ports)), s) <==> s.ports != ports
  {
    PortsStringInjective(ports, s.ports);
    hide PortsString;
  }
}
