/** How many hosts one Tunnel gets: at most one that it ever records, and a second one
    exactly after a stale read or a wasted attempt. */
module TunnelHosts {
  import opened Options
  import opened Resources
  import opened ExternalIPs
  import opened Clusters
  import opened Sync
  import opened Machine
  import opened Invariants
  import opened StatusWrites
  import opened Preservation
  import opened Frames

  // ---- One worker per key ------------------------------------------------------------

  /** The thread works on the Tunnel its work item names. */
  predicate WorksOn(pc: Pc, key: Key) {
    match pc
    case Done(_) => true
    case Begin(k, _) => k == key
    case Generate(_, _) => true
    case Auth(t, _) => t.key == key
    case Provision(t, _) => t.key == key
    case Poll(t, _) => t.key == key
    case Expose(t, _, _) => t.key == key
    case License(t, _, _) => t.key == key
    case Client(t, _, _) => t.key == key
    case Redeploy(t, _) => t.key == key
    case Dispose(t, _) => t.key == key
  }

  predicate KeysOk(s: State) {
    && (forall i <- s.threads :: WorksOn(s.threads[i].pc, s.threads[i].key))
    && (forall i <- s.threads, j <- s.threads ::
          i != j && i != HANDLER && j != HANDLER && !s.threads[i].pc.Done? && !s.threads[j].pc.Done?
          ==> s.threads[i].key != s.threads[j].key)
    && (HANDLER in s.threads ==>
          s.threads[HANDLER].pc.Done? || s.threads[HANDLER].pc.Expose? || s.threads[HANDLER].pc.Dispose?)
  }

  lemma StatusReplyKey(c: Cluster, t: Tunnel, m: Mode)
    requires StoredOk(c)
    ensures var r := UpdateTunnelStatus(c, t, m).1; r.Some? ==> r.value.key == t.key
  {}

  lemma PollKeepsKey(c: Cluster, t: Tunnel, call: PollCall, a: Answer)
    requires StoredOk(c)
    ensures WorksOn(StepPoll(c, t, call, a).1, t.key)
  {
    hide StoredOk, UpdateTunnelStatus;
    if call.WriteActive? { StatusReplyKey(c, WithHost(t, Active, t.status.hostID, call.address), a.mode); }
  }

  lemma StepKeepsKey(c: Cluster, me: nat, pc: Pc, a: Answer, key: Key)
    requires StoredOk(c) && CacheOk(c) && WorksOn(pc, key)
    ensures WorksOn(Step(c, me, pc, a).1, key)
  {
    hide StoredOk, UpdateTunnelStatus, UpdateService, UpdateServiceStatus, UpdateSecret, CreateSecret, CreateTunnel,
         CreatedRef, MakeClientDeployment, PortsDiffer, Close;
    match pc
    case Poll(t, call) => PollKeepsKey(c, t, call, a);
    case _ =>
  }

  lemma HandlerStays(c: Cluster, pc: Pc, a: Answer)
    requires pc.Expose? || pc.Dispose?
    ensures var pc' := Step(c, HANDLER, pc, a).1; pc'.Done? || pc'.Expose? || pc'.Dispose?
  {}

  /** A thread ends its work or goes on with the same item. */
  lemma CallKeepsKeys(s: State, i: nat, a: Answer)
    requires StoredOk(s.c) && CacheOk(s.c) && KeysOk(s) && Enabled(s, Call(i, a))
    ensures KeysOk(Machine.Apply(s, Call(i, a)))
  {
    hide StoredOk, CacheOk;
    var pc := s.threads[i].pc;
    StepKeepsKey(s.c, i, pc, a, s.threads[i].key);
    if i == HANDLER { HandlerStays(s.c, pc, a); }
    hide Step, WorksOn;
  }

  lemma InvCaches(s: State)
    requires Inv(s)
    ensures StoredOk(s.c) && CacheOk(s.c)
    ensures forall u <- s.c.deleteEvents :: s.c.deleteEvents[u].rv in s.c.versions
  {}

  lemma OutsideKeepsKeys(s: State, act: Action)
    requires KeysOk(s) && Enabled(s, act) && !act.Call?
    ensures KeysOk(Machine.Apply(s, act))
  {
    hide DeleteTunnel, CreateTunnel, CreateSecret, CreateDeployment, StoreService, Book;
  }

  lemma ActionKeepsKeys(s: State, act: Action)
    requires Inv(s) && KeysOk(s) && Enabled(s, act)
    ensures KeysOk(Machine.Apply(s, act))
  {
    InvCaches(s);
    hide Inv, StoredOk, CacheOk;
    match act
    case Call(i, a) => CallKeepsKeys(s, i, a);
    case _ => OutsideKeepsKeys(s, act);
  }

  lemma {:induction false} RunKeepsKeys(states: seq<State>, acts: seq<Action>, n: nat)
    requires IsRun(states, acts) && n < |states|
    ensures KeysOk(states[n])
  {
    if n > 0 {
      RunKeepsKeys(states, acts, n - 1);
      RunKeeps(states, acts, n - 1);
      assert Follows(states[n - 1], acts[n - 1], states[n]);
      hide Inv, KeysOk;
      ActionKeepsKeys(states[n - 1], acts[n - 1]);
    }
  }

  // ---- Hosts provisioned for one incarnation ----------------------------------------------

  function HostsOf(c: Cluster, uid: nat): set<string> { set id <- c.hosts | c.hosts[id].uid == uid }

  /** Some version names the host. */
  predicate EverRecorded(c: Cluster, id: string) {
    exists r :: r in c.versions && c.versions[r].status.hostID == id
  }

  /** The incarnation has left the empty HostStatus. */
  predicate HasHost(c: Cluster, uid: nat) {
    exists r :: r in c.versions && c.versions[r].uid == uid && !c.versions[r].status.hostStatus.NotStarted?
  }

  /** A Provision for `uid` that makes a host. */
  predicate Provisions(s: State, act: Action, uid: nat)
    requires Enabled(s, act)
  {
    act.Call? && var pc := s.threads[act.i].pc;
    pc.Provision? && pc.prov.ProvisionHost? && pc.t.uid == uid && !act.a.mode.Refused?
  }

  /** A provisioning attempt for `uid` comes to nothing: the status write does not take effect,
      or the reply of Provision is lost. */
  predicate Wastes(s: State, act: Action, uid: nat)
    requires Enabled(s, act)
  {
    act.Call? && var pc := s.threads[act.i].pc;
    pc.Provision? && pc.t.uid == uid
    && ((pc.prov.WriteProvisioning? && !Writes(s.c, pc.t, act.a.mode)) || (pc.prov.ProvisionHost? && act.a.mode.Lost?))
  }

  lemma RecordedHostsAgree(s: State, id: string, id': string)
    requires Inv(s) && id in s.c.hosts && id' in s.c.hosts && s.c.hosts[id].uid == s.c.hosts[id'].uid
    requires EverRecorded(s.c, id) && EverRecorded(s.c, id')
    ensures id == id'
  {
    hide CacheOk, ServicesOk, PublicationsOk, PublishedOnce, DeploymentsOk, TokensOk, ThreadsOk, PublishersDiffer;
    var c := s.c;
    assert id != "" && id' != "";
    var r :| r in c.versions && c.versions[r].status.hostID == id;
    var q :| q in c.versions && c.versions[q].status.hostID == id';
    assert c.versions[r].uid == c.versions[q].uid;
    assert Evolves(c.versions[r], c.versions[q]) || Evolves(c.versions[q], c.versions[r]);
  }

  /** Of all hosts ever provisioned for an incarnation at most one was ever recorded. */
  lemma OneRecordedHost(states: seq<State>, acts: seq<Action>, n: nat, id: string, id': string)
    requires IsRun(states, acts) && n < |states|
    requires id in states[n].c.hosts && id' in states[n].c.hosts
    requires states[n].c.hosts[id].uid == states[n].c.hosts[id'].uid
    requires EverRecorded(states[n].c, id) && EverRecorded(states[n].c, id')
    ensures id == id'
  {
    RunKeeps(states, acts, n);
    RecordedHostsAgree(states[n], id, id');
  }

  // ---- What a step does to the hosts ---------------------------------------------------------

  /** A host stays, for the same Tunnel; a host in flight lands or is wasted. */
  predicate HostCarriedOver(s: State, act: Action, s': State, id: string)
    requires Enabled(s, act) && id in s.c.hosts
  {
    && id in s'.c.hosts && s'.c.hosts[id].uid == s.c.hosts[id].uid
    && (s.c.hosts[id].place.InFlight? && s'.c.hosts[id].place != s.c.hosts[id].place ==>
          EverRecorded(s'.c, id) || Wastes(s, act, s.c.hosts[id].uid))
  }

  /** A new host is in flight or wasted already. */
  predicate HostArises(s: State, act: Action, s': State, id: string)
    requires Enabled(s, act) && id in s'.c.hosts
  {
    && Provisions(s, act, s'.c.hosts[id].uid)
    && (s'.c.hosts[id].place.InFlight? || Wastes(s, act, s'.c.hosts[id].uid))
  }

  predicate HostsFollow(s: State, act: Action, s': State)
    requires Enabled(s, act)
  {
    && (forall id <- s.c.hosts :: HostCarriedOver(s, act, s', id))
    && (forall id <- s'.c.hosts :: id !in s.c.hosts ==> HostArises(s, act, s', id))
  }

  lemma SameHostsFollow(s: State, act: Action, s': State)
    requires Enabled(s, act) && s'.c.hosts == s.c.hosts
    ensures HostsFollow(s, act, s')
  {
    hide Wastes, Provisions, Enabled;
  }

  /** The books of one host, not in flight, change. */
  lemma BookedHostsFollow(s: State, act: Action, s': State, id: string, p: Place)
    requires Enabled(s, act) && s'.c.hosts == Book(s.c, id, p).hosts
    requires id in s.c.hosts ==> !s.c.hosts[id].place.InFlight?
    ensures HostsFollow(s, act, s')
  {
    hide Wastes, Provisions, Enabled;
    if id in s.c.hosts {
      assert s'.c.hosts == s.c.hosts[id := s.c.hosts[id].(place := p)];
    }
  }

  lemma NewHostFollows(s: State, i: nat, a: Answer)
    requires Enabled(s, Call(i, a)) && s.threads[i].pc.Provision? && s.threads[i].pc.prov.ProvisionHost?
    ensures HostsFollow(s, Call(i, a), Machine.Apply(s, Call(i, a)))
  {
    var pc := s.threads[i].pc;
    var c' := StepProvisionHost(s.c, i, pc.t, pc.prov.token, a).0;
    match a.mode {
      case Refused => assert c' == s.c;
      case Lost => assert c'.hosts == s.c.hosts[a.hostId := Host(pc.prov.token, pc.t.uid, Orphaned)];
      case Success => assert c'.hosts == s.c.hosts[a.hostId := Host(pc.prov.token, pc.t.uid, InFlight(i))];
    }
    hide StepProvisionHost;
  }

  /** A host in flight lands. */
  lemma LandedHostFollows(s: State, act: Action, s': State, id: string, p: Place)
    requires Enabled(s, act) && id in s.c.hosts && s'.c.hosts == s.c.hosts[id := s.c.hosts[id].(place := p)]
    requires EverRecorded(s'.c, id) || Wastes(s, act, s.c.hosts[id].uid)
    ensures HostsFollow(s, act, s')
  {
    hide Wastes, Provisions, Enabled, EverRecorded;
  }

  lemma HeldHostIsItsTunnels(s: State, i: nat)
    requires Inv(s) && i in s.threads && s.threads[i].pc.Provision? && s.threads[i].pc.prov.WriteProvisioning?
    ensures var id := s.threads[i].pc.prov.id; id in s.c.hosts && s.c.hosts[id].uid == s.threads[i].pc.t.uid
  {
    hide ClusterOk, PlacesOk, PublishersDiffer;
    assert PcOk(s.c, i, s.threads[i].pc);
  }

  lemma StoredWithHost(c: Cluster, t: Tunnel, id: string, a: Answer)
    requires Writes(c, t, a.mode) && c.tunnels[t.key] == t && t.status.hostStatus.NotStarted? && id in c.hosts
    ensures var c' := StepWriteProvisioning(c, t, id, a).0;
            c'.hosts == c.hosts[id := c.hosts[id].(place := Recorded(t.key))] && EverRecorded(c', id)
  {
    var asked := WithHost(t, Provisioning, id, "");
    var next := Written(c, asked);
    var c1 := StoreTunnel(c, next);
    assert UpdateTunnelStatus(c, asked, a.mode).0 == c1 && Writes(c, asked, a.mode);
    hide UpdateTunnelStatus, Writes;
    var c' := Book(c1, id, Recorded(t.key));
    assert c' == StepWriteProvisioning(c, t, id, a).0;
    assert next.rv in c'.versions && c'.versions[next.rv].status.hostID == id;
  }

  lemma NotWritten(c: Cluster, t: Tunnel, id: string, a: Answer)
    requires !Writes(c, t, a.mode) && id in c.hosts
    ensures var c' := StepWriteProvisioning(c, t, id, a).0;
            c'.hosts == c.hosts[id := c.hosts[id].(place := Orphaned)]
  {
    var asked := WithHost(t, Provisioning, id, "");
    assert UpdateTunnelStatus(c, asked, a.mode).0 == c && !Writes(c, asked, a.mode);
    hide UpdateTunnelStatus, Writes;
  }

  /** The provisioning write lands the host, in a version if it takes effect. */
  lemma WrittenProvisioning(s: State, i: nat, a: Answer)
    requires Inv(s) && Enabled(s, Call(i, a)) && s.threads[i].pc.Provision? && s.threads[i].pc.prov.WriteProvisioning?
    requires s.threads[i].pc.prov.id in s.c.hosts
    ensures var t, id := s.threads[i].pc.t, s.threads[i].pc.prov.id;
            var c', p := Machine.Apply(s, Call(i, a)).c, if Writes(s.c, t, a.mode) then Recorded(t.key) else Orphaned;
            && c'.hosts == s.c.hosts[id := s.c.hosts[id].(place := p)]
            && (Writes(s.c, t, a.mode) ==> EverRecorded(c', id))
  {
    hide Inv;
    var t, id := s.threads[i].pc.t, s.threads[i].pc.prov.id;
    var asked := WithHost(t, Provisioning, id, "");
    if Writes(s.c, asked, a.mode) {
      ProvisioningWritten(s, i);
      StoredWithHost(s.c, t, id, a);
    } else {
      NotWritten(s.c, t, id, a);
    }
    hide StepWriteProvisioning, EverRecorded;
  }

  lemma WrittenHostFollows(s: State, i: nat, a: Answer)
    requires Inv(s) && Enabled(s, Call(i, a)) && s.threads[i].pc.Provision? && s.threads[i].pc.prov.WriteProvisioning?
    ensures HostsFollow(s, Call(i, a), Machine.Apply(s, Call(i, a)))
  {
    hide Inv;
    var t, id := s.threads[i].pc.t, s.threads[i].pc.prov.id;
    var s' := Machine.Apply(s, Call(i, a));
    var p := if Writes(s.c, t, a.mode) then Recorded(t.key) else Orphaned;
    HeldHostIsItsTunnels(s, i);
    WrittenProvisioning(s, i, a);
    hide Machine.Apply, Enabled, HostsFollow;
    assert !Writes(s.c, t, a.mode) ==> Wastes(s, Call(i, a), t.uid);
    hide Wastes, Writes;
    LandedHostFollows(s, Call(i, a), s', id, p);
  }

  lemma ProvisionHostsFollow(s: State, i: nat, a: Answer)
    requires Inv(s) && Enabled(s, Call(i, a)) && s.threads[i].pc.Provision?
    ensures HostsFollow(s, Call(i, a), Machine.Apply(s, Call(i, a)))
  {
    var s' := Machine.Apply(s, Call(i, a));
    var pc := s.threads[i].pc;
    match pc.prov
    case ProvisionHost(token) => NewHostFollows(s, i, a);
    case WriteProvisioning(id) => WrittenHostFollows(s, i, a);
    case InitProvision => SameHostsFollow(s, Call(i, a), s');
    case LookupBackend => SameHostsFollow(s, Call(i, a), s');
    case ReadToken => SameHostsFollow(s, Call(i, a), s');
  }

  /** Hosts of stored Tunnels and of pending events are not in flight, nor are those being disposed of. */
  lemma StoredHostsStand(s: State)
    requires Inv(s)
    ensures forall k <- s.c.tunnels :: s.c.tunnels[k].status.hostID in s.c.hosts ==>
              !s.c.hosts[s.c.tunnels[k].status.hostID].place.InFlight?
    ensures forall u <- s.c.deleteEvents :: s.c.deleteEvents[u].status.hostID in s.c.hosts ==>
              !s.c.hosts[s.c.deleteEvents[u].status.hostID].place.InFlight?
    ensures forall i <- s.threads :: s.threads[i].pc.Dispose? && s.threads[i].pc.t.status.hostID in s.c.hosts ==>
              !s.c.hosts[s.threads[i].pc.t.status.hostID].place.InFlight?
  {
    hide StoredOk, StoredIsLatest, VersionsEvolve, CacheOk, HostIdsUnique, VersionHostsKnown, TokensOk,
         ServicesOk, PublicationsOk, PublishedOnce, DeploymentsOk, PublishersDiffer, ObjectsDiffer, PlaceOk;
    assert "" !in s.c.hosts;
    forall i <- s.threads | s.threads[i].pc.Dispose? ensures DisposeOk(s.c, i, s.threads[i].pc.t) {
      assert PcOk(s.c, i, s.threads[i].pc);
    }
  }

  lemma DeletionHostsFollow(s: State, act: Action, key: Key)
    requires Inv(s) && Enabled(s, act) && Machine.Apply(s, act).c == DeleteTunnel(s.c, key)
    ensures HostsFollow(s, act, Machine.Apply(s, act))
  {
    StoredHostsStand(s);
    hide Inv, HostsFollow;
    var s' := Machine.Apply(s, act);
    hide Machine.Apply;
    if key in s.c.tunnels {
      BookedHostsFollow(s, act, s', s.c.tunnels[key].status.hostID, Awaiting(s.c.tunnels[key].uid));
    } else {
      SameHostsFollow(s, act, s');
    }
  }

  lemma DeliveryHostsFollow(s: State, uid: nat, tombstone: bool)
    requires Inv(s) && Enabled(s, Deliver(uid, tombstone))
    ensures HostsFollow(s, Deliver(uid, tombstone), Machine.Apply(s, Deliver(uid, tombstone)))
  {
    StoredHostsStand(s);
    hide Inv, HostsFollow;
    var act := Deliver(uid, tombstone);
    var id := s.c.deleteEvents[uid].status.hostID;
    var s' := Machine.Apply(s, act);
    if tombstone { BookedHostsFollow(s, act, s', id, Orphaned); }
    else if id != "" { BookedHostsFollow(s, act, s', id, Handling(HANDLER)); }
    else { SameHostsFollow(s, act, s'); }
  }

  lemma DropHostsFollow(s: State, i: nat, a: Answer)
    requires Inv(s) && Enabled(s, Call(i, a)) && s.threads[i].pc.Generate? && s.threads[i].pc.gen.DropTunnel?
    ensures HostsFollow(s, Call(i, a), Machine.Apply(s, Call(i, a)))
  {
    hide Inv, HostsFollow, DeleteTunnel;
    if a.mode.Refused? { SameHostsFollow(s, Call(i, a), Machine.Apply(s, Call(i, a))); }
    else { DeletionHostsFollow(s, Call(i, a), TunnelKeyFor(s.threads[i].pc.s.key)); }
  }

  lemma DisposalHostsFollow(s: State, i: nat, a: Answer)
    requires Enabled(s, Call(i, a)) && s.threads[i].pc.Dispose?
    requires var id := s.threads[i].pc.t.status.hostID; id in s.c.hosts ==> !s.c.hosts[id].place.InFlight?
    ensures HostsFollow(s, Call(i, a), Machine.Apply(s, Call(i, a)))
  {
    hide HostsFollow, Book;
    var pc, act, s' := s.threads[i].pc, Call(i, a), Machine.Apply(s, Call(i, a));
    var id := pc.t.status.hostID;
    if !a.mode.Success? { BookedHostsFollow(s, act, s', id, Orphaned); }
    else if pc.dis.DeleteHost? { BookedHostsFollow(s, act, s', id, Gone); }
    else { SameHostsFollow(s, act, s'); }
  }

  lemma CallHostsFollow(s: State, i: nat, a: Answer)
    requires Inv(s) && Enabled(s, Call(i, a))
    ensures HostsFollow(s, Call(i, a), Machine.Apply(s, Call(i, a)))
  {
    hide Inv, HostsFollow;
    var pc, act, s' := s.threads[i].pc, Call(i, a), Machine.Apply(s, Call(i, a));
    if pc.Provision? {
      ProvisionHostsFollow(s, i, a);
    } else if pc.Dispose? {
      StoredHostsStand(s);
      DisposalHostsFollow(s, i, a);
    } else if TouchesHosts(pc) {
      DropHostsFollow(s, i, a);
    } else {
      InvRvFresh(s);
      CallFrame(s.c, i, pc, a);
      hide Step;
      SameHostsFollow(s, act, s');
    }
  }

  lemma HostsFollowAction(s: State, act: Action)
    requires Inv(s) && Enabled(s, act)
    ensures HostsFollow(s, act, Machine.Apply(s, act))
  {
    hide Inv, HostsFollow;
    var s' := Machine.Apply(s, act);
    match act
    case Call(i, a) => CallHostsFollow(s, i, a);
    case Deliver(uid, tombstone) => DeliveryHostsFollow(s, uid, tombstone);
    case RemoveTunnel(key) => DeletionHostsFollow(s, act, key);
    case _ => SameHostsFollow(s, act, s');
  }

  // ---- Over a run ------------------------------------------------------------------------------

  /** Before action `n` an attempt for `uid` was wasted. */
  predicate WastedBefore(states: seq<State>, acts: seq<Action>, n: nat, uid: nat)
    requires IsRun(states, acts) && n <= |acts|
  {
    exists m :: 0 <= m < n && Follows(states[m], acts[m], states[m + 1]) && Wastes(states[m], acts[m], uid)
  }

  /** A host not in flight was recorded, or an attempt for its Tunnel was wasted. */
  predicate Explained(states: seq<State>, acts: seq<Action>, n: nat, id: string)
    requires IsRun(states, acts) && n <= |acts| && id in states[n].c.hosts
  {
    || states[n].c.hosts[id].place.InFlight?
    || EverRecorded(states[n].c, id)
    || WastedBefore(states, acts, n, states[n].c.hosts[id].uid)
  }

  lemma RecordedForEver(states: seq<State>, acts: seq<Action>, n: nat, id: string)
    requires IsRun(states, acts) && n < |acts| && EverRecorded(states[n].c, id)
    ensures EverRecorded(states[n + 1].c, id)
  {
    RunExtends(states, acts, n, n + 1);
    hide IsRun;
    var r :| r in states[n].c.versions && states[n].c.versions[r].status.hostID == id;
    assert r in states[n + 1].c.versions && states[n + 1].c.versions[r].status.hostID == id;
  }

  lemma RunHostsFollow(states: seq<State>, acts: seq<Action>, n: nat)
    requires IsRun(states, acts) && n < |acts|
    ensures Follows(states[n], acts[n], states[n + 1]) && HostsFollow(states[n], acts[n], states[n + 1])
  {
    assert Follows(states[n], acts[n], states[n + 1]);
    RunKeeps(states, acts, n);
    hide Inv, HostsFollow;
    HostsFollowAction(states[n], acts[n]);
  }

  lemma NoHostsAtFirst(states: seq<State>, acts: seq<Action>)
    requires IsRun(states, acts)
    ensures states[0].c.hosts == map[]
  {}

  lemma {:induction false} HostsExplained(states: seq<State>, acts: seq<Action>, n: nat, id: string)
    requires IsRun(states, acts) && n <= |acts| && id in states[n].c.hosts
    ensures Explained(states, acts, n, id)
  {
    hide Initial, Wastes, Provisions, EverRecorded;
    assert |states| == |acts| + 1;
    hide IsRun;
    if n == 0 {
      NoHostsAtFirst(states, acts);
    } else {
      RunHostsFollow(states, acts, n - 1);
      var u := states[n].c.hosts[id].uid;
      if id in states[n - 1].c.hosts {
        assert HostCarriedOver(states[n - 1], acts[n - 1], states[n], id);
        HostsExplained(states, acts, n - 1, id);
        if EverRecorded(states[n - 1].c, id) { RecordedForEver(states, acts, n - 1, id); }
      } else {
        assert HostArises(states[n - 1], acts[n - 1], states[n], id);
      }
    }
  }

  lemma HostStays(states: seq<State>, acts: seq<Action>, n: nat, id: string)
    requires IsRun(states, acts) && n < |acts| && id in states[n].c.hosts
    ensures id in states[n + 1].c.hosts && states[n + 1].c.hosts[id].uid == states[n].c.hosts[id].uid
  {
    RunHostsFollow(states, acts, n);
    hide IsRun, Follows, Enabled, Wastes, EverRecorded, Provisions;
    assert HostCarriedOver(states[n], acts[n], states[n + 1], id);
  }

  /** A host once made for a Tunnel stays its. */
  lemma {:induction false} HostsStay(states: seq<State>, acts: seq<Action>, m: nat, n: nat, id: string)
    requires IsRun(states, acts) && m <= n <= |acts| && id in states[m].c.hosts
    ensures id in states[n].c.hosts && states[n].c.hosts[id].uid == states[m].c.hosts[id].uid
    decreases n - m
  {
    hide IsRun;
    if m < n {
      HostsStay(states, acts, m, n - 1, id);
      HostStays(states, acts, n - 1, id);
    }
  }

  /** A wasted attempt leaves a host. */
  lemma WasteLeavesAHost(s: State, act: Action, uid: nat)
    requires Inv(s) && Enabled(s, act) && Wastes(s, act, uid)
    ensures HostsOf(Machine.Apply(s, act).c, uid) != {}
  {
    var pc, s' := s.threads[act.i].pc, Machine.Apply(s, act);
    assert PcOk(s.c, act.i, pc);
    HostsFollowAction(s, act);
    hide Inv;
    match pc.prov
    case WriteProvisioning(id) =>
      assert HostCarriedOver(s, act, s', id);
      assert id in HostsOf(s'.c, uid);
    case ProvisionHost(_) => assert act.a.hostId in HostsOf(s'.c, uid);
  }

  lemma HostedHasAHost(s: State, uid: nat)
    requires Inv(s) && HasHost(s.c, uid)
    ensures HostsOf(s.c, uid) != {}
  {
    hide CacheOk, ServicesOk, PublicationsOk, PublishedOnce, DeploymentsOk, TokensOk, ThreadsOk, PublishersDiffer,
         VersionsEvolve, StoredIsLatest, PlacesOk;
    var r :| r in s.c.versions && s.c.versions[r].uid == uid && !s.c.versions[r].status.hostStatus.NotStarted?;
    assert FieldsOk(s.c.versions[r]);
    assert s.c.versions[r].status.hostID in HostsOf(s.c, uid);
  }

  lemma RecordedMeansHosted(s: State, id: string)
    requires Inv(s) && id in s.c.hosts && EverRecorded(s.c, id)
    ensures HasHost(s.c, s.c.hosts[id].uid)
  {
    hide CacheOk, ServicesOk, PublicationsOk, PublishedOnce, DeploymentsOk, TokensOk, ThreadsOk, PublishersDiffer,
         VersionsEvolve, StoredIsLatest;
    assert id != "";
    var r :| r in s.c.versions && s.c.versions[r].status.hostID == id;
    assert FieldsOk(s.c.versions[r]);
  }

  lemma OneProvisionerPerKey(s: State, i: nat, j: nat)
    requires KeysOk(s) && i in s.threads && j in s.threads && s.threads[i].pc.Provision? && s.threads[j].pc.Provision?
    requires s.threads[i].pc.t.key == s.threads[j].pc.t.key
    ensures i == j
  {
    assert WorksOn(s.threads[i].pc, s.threads[i].key) && WorksOn(s.threads[j].pc, s.threads[j].key);
  }

  lemma FlyingThread(s: State, id: string)
    requires Inv(s) && id in s.c.hosts && s.c.hosts[id].place.InFlight?
    ensures var j := s.c.hosts[id].place.thread;
            && j in s.threads && s.threads[j].pc.Provision? && s.threads[j].pc.prov == WriteProvisioning(id)
            && s.threads[j].pc.t.uid == s.c.hosts[id].uid
  {
    hide ClusterOk, PublishersDiffer;
    assert PlaceOk(s, id);
    var j := s.c.hosts[id].place.thread;
    assert PcOk(s.c, j, s.threads[j].pc);
  }

  lemma SameUidSameKey(s: State, i: nat, j: nat)
    requires Inv(s) && i in s.threads && j in s.threads && s.threads[i].pc.Provision? && s.threads[j].pc.Provision?
    requires s.threads[i].pc.t.uid == s.threads[j].pc.t.uid
    ensures s.threads[i].pc.t.key == s.threads[j].pc.t.key
  {
    hide CacheOk, ServicesOk, PublicationsOk, PublishedOnce, DeploymentsOk, TokensOk, PublishersDiffer,
         PlacesOk, HostIdsUnique, VersionHostsKnown, RecordedOk;
    var t, u := s.threads[i].pc.t, s.threads[j].pc.t;
    assert PcOk(s.c, i, s.threads[i].pc) && PcOk(s.c, j, s.threads[j].pc);
    assert t.rv <= u.rv ==> Evolves(t, u);
    assert u.rv <= t.rv ==> Evolves(u, t);
  }

  /** While one worker is about to provision for a Tunnel, no other host of it is in flight. */
  lemma NoOtherInFlight(s: State, i: nat, id: string)
    requires Inv(s) && KeysOk(s) && i in s.threads && s.threads[i].pc.Provision? && s.threads[i].pc.prov.ProvisionHost?
    requires id in s.c.hosts && s.c.hosts[id].uid == s.threads[i].pc.t.uid
    ensures !s.c.hosts[id].place.InFlight?
  {
    if s.c.hosts[id].place.InFlight? {
      var j := s.c.hosts[id].place.thread;
      FlyingThread(s, id);
      SameUidSameKey(s, i, j);
      hide Inv;
      OneProvisionerPerKey(s, i, j);
    }
  }

  /** The incarnation has its host already, or an attempt for it was wasted. */
  predicate Provided(states: seq<State>, acts: seq<Action>, n: nat, uid: nat)
    requires IsRun(states, acts) && n <= |acts|
  {
    HasHost(states[n].c, uid) || WastedBefore(states, acts, n, uid)
  }

  lemma WastedHostStays(states: seq<State>, acts: seq<Action>, n: nat, uid: nat)
    requires IsRun(states, acts) && n <= |acts| && WastedBefore(states, acts, n, uid)
    ensures HostsOf(states[n].c, uid) != {}
  {
    var m :| 0 <= m < n && Follows(states[m], acts[m], states[m + 1]) && Wastes(states[m], acts[m], uid);
    RunKeeps(states, acts, m);
    hide Inv, Wastes;
    WasteLeavesAHost(states[m], acts[m], uid);
    var id :| id in HostsOf(states[m + 1].c, uid);
    HostsStay(states, acts, m + 1, n, id);
    assert id in HostsOf(states[n].c, uid);
  }

  /** A call of Provision makes one more host for a Tunnel that has one exactly when a version of
      the Tunnel has left the empty HostStatus (the caller's snapshot is stale), or when an
      earlier attempt for it was wasted. */
  lemma SecondHostExactly(states: seq<State>, acts: seq<Action>, n: nat, uid: nat)
    requires IsRun(states, acts) && n < |acts| && Follows(states[n], acts[n], states[n + 1])
    requires Provisions(states[n], acts[n], uid)
    ensures HostsOf(states[n].c, uid) != {} <==> Provided(states, acts, n, uid)
  {
    RunKeeps(states, acts, n);
    RunKeepsKeys(states, acts, n);
    hide Inv, IsRun, Follows, EverRecorded, HasHost;
    if id :| id in HostsOf(states[n].c, uid) {
      HostsExplained(states, acts, n, id);
      NoOtherInFlight(states[n], acts[n].i, id);
      if EverRecorded(states[n].c, id) { RecordedMeansHosted(states[n], id); }
    }
    if HasHost(states[n].c, uid) {
      HostedHasAHost(states[n], uid);
    } else if WastedBefore(states, acts, n, uid) {
      WastedHostStays(states, acts, n, uid);
    }
  }

  /** Provision is called once more for a Tunnel provided for. */
  predicate Again(states: seq<State>, acts: seq<Action>, m: nat, uid: nat)
    requires IsRun(states, acts) && m < |acts|
  {
    && Follows(states[m], acts[m], states[m + 1])
    && Provisions(states[m], acts[m], uid) && Provided(states, acts, m, uid)
  }

  lemma OfNone(c: Cluster, uid: nat)
    requires c.hosts == map[]
    ensures HostsOf(c, uid) == {}
  {}

  lemma NewOnlyByProvision(s: State, act: Action, s': State, id: string)
    requires Enabled(s, act) && HostsFollow(s, act, s') && id in s'.c.hosts
    ensures id in s.c.hosts || Provisions(s, act, s'.c.hosts[id].uid)
  {
    hide Wastes, Enabled, Provisions;
    if id !in s.c.hosts { assert HostArises(s, act, s', id); }
  }

  lemma OldHostsOf(s: State, act: Action, s': State, uid: nat)
    requires Enabled(s, act) && HostsFollow(s, act, s') && !Provisions(s, act, uid)
    ensures HostsOf(s'.c, uid) == HostsOf(s.c, uid)
  {
    hide Wastes, Enabled, EverRecorded;
    forall id <- s'.c.hosts | s'.c.hosts[id].uid == uid ensures id in HostsOf(s.c, uid) {
      NewOnlyByProvision(s, act, s', id);
      assert HostCarriedOver(s, act, s', id);
    }
    forall id <- s.c.hosts | s.c.hosts[id].uid == uid ensures id in HostsOf(s'.c, uid) {
      assert HostCarriedOver(s, act, s', id);
    }
  }

  lemma NewHostOf(s: State, act: Action, uid: nat)
    requires Enabled(s, act) && Provisions(s, act, uid)
    ensures act.a.hostId !in HostsOf(s.c, uid)
    ensures HostsOf(Machine.Apply(s, act).c, uid) == HostsOf(s.c, uid) + {act.a.hostId}
  {
    var pc := s.threads[act.i].pc;
    var c' := StepProvisionHost(s.c, act.i, pc.t, pc.prov.token, act.a).0;
    match act.a.mode {
      case Lost => assert c'.hosts == s.c.hosts[act.a.hostId := Host(pc.prov.token, uid, Orphaned)];
      case Success => assert c'.hosts == s.c.hosts[act.a.hostId := Host(pc.prov.token, uid, InFlight(act.i))];
    }
    hide StepProvisionHost;
  }

  lemma HostCount(states: seq<State>, acts: seq<Action>, n: nat, uid: nat)
    requires IsRun(states, acts) && n < |acts|
    ensures var before, after := HostsOf(states[n].c, uid), HostsOf(states[n + 1].c, uid);
            && |before| <= |after|
            && (|after| <= 1 <==> |before| <= 1 && !Again(states, acts, n, uid))
  {
    RunHostsFollow(states, acts, n);
    var s, act, s' := states[n], acts[n], states[n + 1];
    if Provisions(s, act, uid) {
      SecondHostExactly(states, acts, n, uid);
      NewHostOf(s, act, uid);
    } else {
      OldHostsOf(s, act, s', uid);
    }
  }

  /** At most one host per Tunnel holds exactly as long as Provision is not called again for a
      Tunnel provided for. */
  lemma {:induction false} OneHostExactly(states: seq<State>, acts: seq<Action>, n: nat, uid: nat)
    requires IsRun(states, acts) && n <= |acts|
    ensures |HostsOf(states[n].c, uid)| <= 1 <==> forall m :: 0 <= m < n ==> !Again(states, acts, m, uid)
  {
    hide Initial, Follows, Again, HostsOf;
    assert |states| == |acts| + 1;
    hide IsRun;
    if n == 0 {
      NoHostsAtFirst(states, acts);
      assert HostsOf(states[0].c, uid) == {} by { OfNone(states[0].c, uid); }
    } else {
      OneHostExactly(states, acts, n - 1, uid);
      HostCount(states, acts, n - 1, uid);
    }
  }

  lemma StoredShowsHost(c: Cluster, k: Key)
    requires TunnelsOk(c) && k in c.tunnels
    ensures HasHost(c, c.tunnels[k].uid) <==> !c.tunnels[k].status.hostStatus.NotStarted?
  {
    var t := c.tunnels[k];
    assert t.rv in c.versions && c.versions[t.rv] == t;
    forall r <- c.versions | c.versions[r].uid == t.uid && t.status.hostStatus.NotStarted?
      ensures c.versions[r].status.hostStatus.NotStarted?
    {
      assert r <= t.rv;
      assert Evolves(c.versions[r], t);
    }
  }

  /** As long as the incarnation is stored, `HasHost` can be read off its HostStatus. */
  lemma HasHostWhileStored(states: seq<State>, acts: seq<Action>, n: nat, k: Key)
    requires IsRun(states, acts) && n < |states| && k in states[n].c.tunnels
    ensures var t := states[n].c.tunnels[k];
            HasHost(states[n].c, t.uid) <==> !t.status.hostStatus.NotStarted?
  {
    RunKeeps(states, acts, n);
    StoredShowsHost(states[n].c, k);
  }
}
