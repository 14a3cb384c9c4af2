/** When the address of a Tunnel incarnation can still be published. */
module Publication {
  import opened Options
  import opened Resources
  import opened ExternalIPs
  import opened Clusters
  import opened Sync
  import opened Machine
  import opened Invariants
  import opened Stability
  import opened StatusWrites
  import opened Preservation
  import opened Frames
  import opened Lifecycle
  import opened Solo

  // ---- Who can still publish --------------------------------------------------------------

  /** Worker `w` has yet to read the Service, or read it as it still is, in order to append the
      address of incarnation `uid`. */
  predicate CanPublish(s: State, w: nat, uid: nat) {
    && w in s.threads && Publishing(s.threads[w].pc) && s.threads[w].pc.t.uid == uid
    && (s.threads[w].pc.exp.WriteService? ==> ServiceMatches(s.c, s.threads[w].pc.exp.edited))
  }

  /** The incarnation exists or existed, and while it is stored it is active. */
  predicate PastActivation(c: Cluster, uid: nat) {
    && uid in Born(c)
    && forall k <- c.tunnels :: c.tunnels[k].uid == uid ==> c.tunnels[k].status.hostStatus.Active?
  }

  predicate Closed(s: State, uid: nat) {
    PastActivation(s.c, uid) && forall w <- s.threads :: !CanPublish(s, w, uid)
  }

  // ---- Stored Tunnels ---------------------------------------------------------------------

  predicate AliveActive(w: World, uid: nat) {
    && uid in w.born
    && forall k <- w.alive :: w.alive[k].uid == uid ==> w.alive[k].life.Activated? || w.alive[k].life.Connected?
  }

  lemma DoKeepsActive(w: World, e: Event, uid: nat)
    requires Can(w, e) && AliveActive(w, uid)
    ensures AliveActive(Do(w, e), uid)
  {}

  lemma ActiveIsAlive(c: Cluster, uid: nat)
    requires StoredOk(c)
    ensures AliveActive(Abstract(c), uid) <==> PastActivation(c, uid)
  {
    var w := Abstract(c);
    forall k <- c.tunnels
      ensures w.alive[k].uid == c.tunnels[k].uid
      ensures w.alive[k].life.Activated? || w.alive[k].life.Connected? <==> c.tunnels[k].status.hostStatus.Active?
    {
      assert FieldsOk(c.versions[c.tunnels[k].rv]);
    }
    hide StoredOk, Born;
  }

  lemma ActionKeepsPastActivation(s: State, act: Action, uid: nat)
    requires Inv(s) && Enabled(s, act) && PastActivation(s.c, uid)
    ensures PastActivation(Machine.Apply(s, act).c, uid)
  {
    StepRefines(s, act);
    ActionKeeps(s, act);
    InvStored(s);
    InvStored(Machine.Apply(s, act));
    hide Inv, StoredOk, VersionHostsKnown, Abstract, AliveActive, PastActivation, Can, Do, Machine.Apply;
    ActiveIsAlive(s.c, uid);
    ActiveIsAlive(Machine.Apply(s, act).c, uid);
    DoKeepsActive(Abstract(s.c), EventOf(s, act), uid);
  }

  // ---- Services -------------------------------------------------------------------------------

  /** A Service with a resourceVersion given out before `c'` is as it was in `c`. */
  predicate ServicesGrow(c: Cluster, c': Cluster) {
    forall k <- c'.services :: (k in c.services && c'.services[k] == c.services[k]) || c'.services[k].rv >= c.nextRv
  }

  /** No edit, or one that publishes nothing for `uid`. */
  predicate Quiet(c: Cluster, c': Cluster, uid: nat) { ServicesGrow(c, c') && Silent(c, c', uid) }

  lemma SameServicesQuiet(c: Cluster, c': Cluster, uid: nat)
    requires c'.services == c.services && c'.edits == c.edits
    ensures Quiet(c, c', uid)
  {}

  /** The calls that touch Services. */
  predicate TouchesServices(pc: Pc) { pc.Expose? && !pc.exp.GetService? }

  predicate SameServices(c: Cluster, c': Cluster) { c'.services == c.services && c'.edits == c.edits }

  lemma StatusSameServices(c: Cluster, t: Tunnel, m: Mode)
    ensures SameServices(c, UpdateTunnelStatus(c, t, m).0)
  {}

  lemma BookSameServices(c: Cluster, id: string, p: Place)
    ensures SameServices(c, Book(c, id, p))
  {}

  lemma CreateSameServices(c: Cluster, key: Key, owners: seq<OwnerReference>, spec: TunnelSpec, m: Mode)
    ensures SameServices(c, CreateTunnel(c, key, owners, spec, m).0)
  {}

  lemma SecretSameServices(c: Cluster, key: Key, data: map<string, string>, m: Mode)
    ensures SameServices(c, CreateSecret(c, key, data, m).0)
  {}

  lemma SecretUpdateSameServices(c: Cluster, key: Key, secret: Secret, m: Mode)
    ensures SameServices(c, UpdateSecret(c, key, secret, m).0)
  {}

  lemma DeleteSameServices(c: Cluster, key: Key)
    ensures SameServices(c, DeleteTunnel(c, key))
  {}

  lemma GenerateSameServices(c: Cluster, s: Service, call: GenerateCall, a: Answer)
    ensures SameServices(c, StepGenerate(c, s, call, a).0)
  {
    hide ManageService, DeleteTunnel, UpdateTunnelStatus, CreateTunnel;
    match call
    case MarkGenerated(t) => StatusSameServices(c, WithGenerated(t), a.mode);
    case DropTunnel => DeleteSameServices(c, TunnelKeyFor(s.key));
    case GetTunnel =>
    case NewTunnel => CreateSameServices(c, TunnelKeyFor(s.key), GeneratedOwners(s), GeneratedSpec(s), a.mode);
  }

  lemma AuthSameServices(c: Cluster, t: Tunnel, call: AuthCall, a: Answer)
    ensures SameServices(c, StepAuth(c, t, call, a).0)
  {
    hide UpdateTunnelStatus, CreateSecret;
    match call
    case WriteAuthRef => StatusSameServices(c, WithAuthRef(t), a.mode);
    case GetAuth =>
    case NewAuth => SecretSameServices(c, t.key, map["token" := a.password], a.mode);
  }

  lemma ProvisionSameServices(c: Cluster, me: nat, t: Tunnel, call: ProvisionCall, a: Answer)
    ensures SameServices(c, StepProvision(c, me, t, call, a).0)
  {
    hide UpdateTunnelStatus, Writes, Book, StepProvisionHost;
    match call
    case ProvisionHost(token) => HostCall(c, me, t, token, a);
    case WriteProvisioning(id) =>
      var next := WithHost(t, Provisioning, id, "");
      var c1 := UpdateTunnelStatus(c, next, a.mode).0;
      StatusSameServices(c, next, a.mode);
      BookSameServices(c1, id, if Writes(c, next, a.mode) then Recorded(t.key) else Orphaned);
    case InitProvision =>
    case LookupBackend =>
    case ReadToken =>
  }

  lemma PollSameServices(c: Cluster, t: Tunnel, call: PollCall, a: Answer)
    ensures SameServices(c, StepPoll(c, t, call, a).0)
  {
    hide UpdateTunnelStatus;
    if call.WriteActive? { StatusSameServices(c, WithHost(t, Active, t.status.hostID, call.address), a.mode); }
  }

  lemma LicenseSameServices(c: Cluster, t: Tunnel, obj: nat, call: LicenseCall, a: Answer)
    ensures SameServices(c, StepLicense(c, t, obj, call, a).0)
  {
    hide StartClient, UpdateSecret, CreateSecret, LicenseKey;
    match call
    case UpdateLicense(secret) => SecretUpdateSameServices(c, LicenseKey(t), secret, a.mode);
    case NewLicense(data) => SecretSameServices(c, LicenseKey(t), data, a.mode);
    case GetLicense =>
    case GetLicenseCopy(_) =>
  }

  lemma NewDeploymentSameServices(c: Cluster, d: Deployment, m: Mode)
    ensures SameServices(c, CreateDeployment(c, d, m).0)
  {}

  lemma ThroughSameServices(c: Cluster, key: Key, obj: nat, ref: ResourceRef)
    ensures SameServices(c, WriteThrough(c, key, obj, ref))
  {}

  lemma ClientSameServices(c: Cluster, t: Tunnel, obj: nat, call: ClientCall, a: Answer)
    ensures SameServices(c, StepClient(c, t, obj, call, a).0)
  {
    hide UpdateTunnelStatus, CreatedRef, CreateDeployment, WriteThrough;
    match call
    case WriteClientRef => StatusSameServices(c, t, a.mode);
    case GetPorts =>
    case NewClient(d) =>
      var c1 := CreateDeployment(c, d, a.mode).0;
      NewDeploymentSameServices(c, d, a.mode);
      ThroughSameServices(c1, t.key, obj, CreatedRef(c, d, a.mode));
  }

  lemma DisposeSameServices(c: Cluster, t: Tunnel, call: DisposeCall, a: Answer)
    ensures SameServices(c, StepDispose(c, t, call, a).0)
  {
    hide Book;
    BookSameServices(c, t.status.hostID, Gone);
    BookSameServices(c, t.status.hostID, Orphaned);
  }

  lemma NothingTouched(c: Cluster)
    ensures SameServices(c, c)
  {}

  lemma RedeploySameServices(c: Cluster, t: Tunnel, call: RedeployCall, a: Answer)
    ensures SameServices(c, StepRedeploy(c, t, call, a).0)
  {
    hide PortsDiffer, MakeClientDeployment;
  }

  lemma CallSameServices(c: Cluster, me: nat, pc: Pc, a: Answer)
    requires !TouchesServices(pc)
    ensures SameServices(c, Step(c, me, pc, a).0)
  {
    hide SameServices;
    match pc
    case Done(_) => NothingTouched(c);
    case Begin(_, _) => NothingTouched(c);
    case Generate(s, call) => GenerateSameServices(c, s, call, a);
    case Auth(t, call) => AuthSameServices(c, t, call, a);
    case Provision(t, call) => ProvisionSameServices(c, me, t, call, a);
    case Poll(t, call) => PollSameServices(c, t, call, a);
    case Expose(t, ip, call) => NothingTouched(c);
    case License(t, obj, call) => LicenseSameServices(c, t, obj, call, a);
    case Client(t, obj, call) => ClientSameServices(c, t, obj, call, a);
    case Redeploy(t, call) => RedeploySameServices(c, t, call, a);
    case Dispose(t, call) => DisposeSameServices(c, t, call, a);
  }

  /** A write of the list publishes for `uid` only from a worker that can. */
  lemma WriteServiceQuiet(c: Cluster, t: Tunnel, ip: string, copy: Service, a: Answer, uid: nat)
    requires ip != "" && ServiceMatches(c, copy) ==> t.uid != uid
    ensures Quiet(c, StepExpose(c, t, ip, WriteService(copy), a).0, uid)
  {
    var op := ServiceEdit(t, ip);
    var c' := UpdateService(c, copy, op, a.mode).0;
    if a.mode.Refused? || !ServiceMatches(c, copy) {
      assert c' == c;
    } else {
      assert c'.edits == c.edits + [Edit(copy.key, op)];
      var next := c'.services[copy.key];
      assert c'.services == c.services[copy.key := next];
      assert next == c.services[copy.key] || next.rv == c.nextRv;
    }
    hide UpdateService;
  }

  lemma WriteIngressQuiet(c: Cluster, t: Tunnel, ip: string, copy: Service, a: Answer, uid: nat)
    ensures Quiet(c, StepExpose(c, t, ip, WriteIngress(copy), a).0, uid)
  {
    var c' := UpdateServiceStatus(c, copy, a.mode).0;
    if a.mode.Refused? || !ServiceMatches(c, copy) {
      assert c' == c;
    } else {
      var next := c'.services[copy.key];
      assert c'.services == c.services[copy.key := next] && c'.edits == c.edits;
      assert next == c.services[copy.key] || next.rv == c.nextRv;
    }
    hide UpdateServiceStatus;
  }

  lemma ExposeQuiet(s: State, i: nat, a: Answer, uid: nat)
    requires Enabled(s, Call(i, a)) && s.threads[i].pc.Expose? && !CanPublish(s, i, uid)
    ensures Quiet(s.c, Step(s.c, i, s.threads[i].pc, a).0, uid)
  {
    hide Quiet;
    var pc := s.threads[i].pc;
    match pc.exp
    case GetService => SameServicesQuiet(s.c, s.c, uid);
    case WriteService(copy) => WriteServiceQuiet(s.c, pc.t, pc.ip, copy, a, uid);
    case WriteIngress(copy) => WriteIngressQuiet(s.c, pc.t, pc.ip, copy, a, uid);
  }

  lemma CallQuiet(s: State, i: nat, a: Answer, uid: nat)
    requires Enabled(s, Call(i, a)) && !CanPublish(s, i, uid)
    ensures Quiet(s.c, Step(s.c, i, s.threads[i].pc, a).0, uid)
  {
    var pc := s.threads[i].pc;
    hide CanPublish;
    if TouchesServices(pc) {
      ExposeQuiet(s, i, a, uid);
    } else {
      CallSameServices(s.c, i, pc, a);
      hide Step;
    }
  }

  lemma PutQuiet(c: Cluster, svc: Service, uid: nat)
    ensures Quiet(c, StoreService(c, svc), uid)
  {}

  lemma RemoveQuiet(c: Cluster, key: Key, uid: nat)
    ensures Quiet(c, c.(services := c.services - {key}), uid)
  {}

  lemma DeliverQuiet(s: State, u: nat, tombstone: bool, uid: nat)
    requires u in s.c.deleteEvents
    ensures Quiet(s.c, DeliverEvent(s, u, tombstone).c, uid)
  {
    hide Quiet, Book;
    var id := s.c.deleteEvents[u].status.hostID;
    var c1 := s.c.(deleteEvents := s.c.deleteEvents - {u});
    BookSameServices(c1, id, Orphaned);
    BookSameServices(c1, id, Handling(HANDLER));
    SameServicesQuiet(s.c, DeliverEvent(s, u, tombstone).c, uid);
  }

  /** No action publishes for an incarnation that no worker can publish. */
  lemma ActionQuiet(s: State, act: Action, uid: nat)
    requires Enabled(s, act) && forall w <- s.threads :: !CanPublish(s, w, uid)
    ensures Quiet(s.c, Machine.Apply(s, act).c, uid)
  {
    hide Quiet, CanPublish, Book;
    var c' := Machine.Apply(s, act).c;
    match act
    case Call(i, a) => CallQuiet(s, i, a, uid);
    case PutService(svc) => PutQuiet(s.c, svc, uid);
    case RemoveService(key) => RemoveQuiet(s.c, key, uid);
    case RemoveTunnel(key) => DeleteSameServices(s.c, key); SameServicesQuiet(s.c, c', uid);
    case Deliver(u, tombstone) => DeliverQuiet(s, u, tombstone, uid);
    case _ => SameServicesQuiet(s.c, c', uid);
  }

  // ---- Closed for good ------------------------------------------------------------------------

  lemma ReplyKeepsUid(c: Cluster, t: Tunnel, m: Mode)
    ensures var r := UpdateTunnelStatus(c, t, m).1;
            r.Some? ==> Matches(c, t) && r.value.uid == c.tunnels[t.key].uid
  {}

  lemma ActivatesOnlyProvisioned(c: Cluster, t: Tunnel, ip: string, a: Answer, uid: nat)
    requires StoredOk(c) && PollOk(c, t, WriteActive(ip)) && PastActivation(c, uid)
    ensures var pc' := StepPoll(c, t, WriteActive(ip), a).1; Publishing(pc') ==> pc'.t.uid != uid
  {
    var asked := WithHost(t, Active, t.status.hostID, ip);
    if Matches(c, asked) {
      ExactMatches(c, t, asked);
      assert c.tunnels[t.key] == t && t.uid != uid;
    }
    hide StoredOk, PastActivation, PollOk;
    ReplyKeepsUid(c, asked, a.mode);
    hide UpdateTunnelStatus;
  }

  lemma OnlyExposePublishes(c: Cluster, me: nat, pc: Pc, a: Answer)
    requires !(pc.Poll? && pc.poll.WriteActive?)
    requires var pc' := Step(c, me, pc, a).1; Publishing(pc')
    ensures Publishing(pc) && pc.exp.GetService? && Step(c, me, pc, a).1.t.uid == pc.t.uid
  {
    hide UpdateTunnelStatus, UpdateService, UpdateServiceStatus, UpdateSecret, CreateSecret, CreateTunnel,
         CreatedRef, MakeClientDeployment, PortsDiffer, ManageService, OwnsService, EditService;
  }

  /** A thread that may publish after its call could before it, or has just activated its Tunnel. */
  lemma NewPublisher(s: State, i: nat, a: Answer, uid: nat)
    requires Inv(s) && Enabled(s, Call(i, a)) && PastActivation(s.c, uid)
    requires var pc' := Step(s.c, i, s.threads[i].pc, a).1; Publishing(pc') && pc'.t.uid == uid
    ensures Publishing(s.threads[i].pc) && s.threads[i].pc.exp.GetService? && s.threads[i].pc.t.uid == uid
  {
    var pc := s.threads[i].pc;
    InvStored(s);
    hide Inv, VersionHostsKnown;
    if pc.Poll? && pc.poll.WriteActive? {
      assert PcOk(s.c, i, pc);
      ActivatesOnlyProvisioned(s.c, pc.t, pc.poll.address, a, uid);
      hide PcOk;
    } else {
      hide PcOk, StoredOk, PastActivation;
      OnlyExposePublishes(s.c, i, pc, a);
    }
  }

  /** A stale copy stays stale. */
  lemma StaleStaysStale(c: Cluster, c': Cluster, copy: Service)
    requires ServicesGrow(c, c') && copy.rv < c.nextRv && ServiceMatches(c', copy)
    ensures ServiceMatches(c, copy)
  {}

  lemma CopyIsOld(s: State, w: nat)
    requires Inv(s) && w in s.threads && Publishing(s.threads[w].pc) && s.threads[w].pc.exp.WriteService?
    ensures s.threads[w].pc.exp.edited.rv < s.c.nextRv
  {
    hide ClusterOk, PlacesOk, PublishersDiffer;
    assert PcOk(s.c, w, s.threads[w].pc);
  }

  /** A thread that does not move cannot publish if it could not before. */
  lemma IdleStaysUnable(s: State, s': State, w: nat, uid: nat)
    requires Inv(s) && w in s.threads && w in s'.threads && s'.threads[w].pc == s.threads[w].pc
    requires ServicesGrow(s.c, s'.c) && CanPublish(s', w, uid)
    ensures CanPublish(s, w, uid)
  {
    if s.threads[w].pc.exp.WriteService? {
      CopyIsOld(s, w);
      hide Inv;
      StaleStaysStale(s.c, s'.c, s.threads[w].pc.exp.edited);
    }
  }

  lemma CallStaysUnable(s: State, i: nat, a: Answer, uid: nat)
    requires Inv(s) && Enabled(s, Call(i, a)) && PastActivation(s.c, uid)
    ensures CanPublish(Machine.Apply(s, Call(i, a)), i, uid) ==> CanPublish(s, i, uid)
  {
    hide Inv;
    if CanPublish(Machine.Apply(s, Call(i, a)), i, uid) { NewPublisher(s, i, a, uid); }
  }

  lemma ThreadsMoveAlone(s: State, act: Action, w: nat)
    requires Enabled(s, act) && !(act.Call? && act.i == w) && w in Machine.Apply(s, act).threads
    ensures var pc' := Machine.Apply(s, act).threads[w].pc;
            w in s.threads && (pc' == s.threads[w].pc || pc'.Begin? || pc'.Dispose?)
  {
    hide Step, Book, DeleteTunnel, CreateTunnel, CreateSecret, CreateDeployment, StoreService;
  }

  lemma ThreadStaysUnable(s: State, act: Action, w: nat, uid: nat)
    requires Inv(s) && Enabled(s, act) && Closed(s, uid) && ServicesGrow(s.c, Machine.Apply(s, act).c)
    requires w in Machine.Apply(s, act).threads
    ensures !CanPublish(Machine.Apply(s, act), w, uid)
  {
    hide Inv, PastActivation;
    var s' := Machine.Apply(s, act);
    if act.Call? && act.i == w {
      CallStaysUnable(s, w, act.a, uid);
    } else {
      ThreadsMoveAlone(s, act, w);
      hide Machine.Apply;
      if s'.threads[w].pc.Begin? || s'.threads[w].pc.Dispose? {
      } else if CanPublish(s', w, uid) {
        IdleStaysUnable(s, s', w, uid);
      }
    }
  }

  /** Once an incarnation is past its activation and no worker can publish its address, no action
      of anybody publishes it, nor makes a worker able to. */
  lemma ActionKeepsClosed(s: State, act: Action, uid: nat)
    requires Inv(s) && Enabled(s, act) && Closed(s, uid)
    ensures Closed(Machine.Apply(s, act), uid) && Silent(s.c, Machine.Apply(s, act).c, uid)
  {
    hide Inv, PastActivation, CanPublish;
    var s' := Machine.Apply(s, act);
    ActionQuiet(s, act, uid);
    ActionKeepsPastActivation(s, act, uid);
    forall w <- s'.threads ensures !CanPublish(s', w, uid) {
      ThreadStaysUnable(s, act, w, uid);
    }
  }

  /** From `c` to `c'` the address of `uid` was published. */
  predicate Publishes(c: Cluster, c': Cluster, uid: nat) {
    exists n :: |c.edits| <= n < |c'.edits| && c'.edits[n].op.Publish? && c'.edits[n].op.uid == uid
  }

  lemma {:induction false} ClosedForGood(s: State, acts: seq<Action>, s': State, uid: nat)
    requires Inv(s) && Closed(s, uid) && Leads(s, acts, s')
    ensures Closed(s', uid) && Silent(s.c, s'.c, uid)
    decreases |acts|
  {
    hide Inv, Closed, Enabled, Machine.Apply;
    if acts != [] {
      var s1 := Machine.Apply(s, acts[0]);
      ActionKeeps(s, acts[0]);
      ActionKeepsClosed(s, acts[0], uid);
      ClosedForGood(s1, acts[1..], s', uid);
    }
  }

  // ---- And only then ------------------------------------------------------------------------------

  const DONE := Answer(Success, "x", "x", NotStarted, "")

  /** The write of the list takes effect. */
  lemma WriteNow(s: State, w: nat, uid: nat) returns (s': State)
    requires CanPublish(s, w, uid) && s.threads[w].pc.exp.WriteService?
    ensures Enabled(s, Call(w, DONE)) && s' == Machine.Apply(s, Call(w, DONE)) && Publishes(s.c, s'.c, uid)
  {
    var pc := s.threads[w].pc;
    s' := Machine.Apply(s, Call(w, DONE));
    var op := ServiceEdit(pc.t, pc.ip);
    assert UpdateService(s.c, pc.exp.edited, op, Success).0.edits == s.c.edits + [Edit(pc.exp.edited.key, op)];
    hide UpdateService;
    assert s'.c.edits[|s.c.edits|] == Edit(pc.exp.edited.key, op);
  }

  lemma ServiceKeys(s: State, k: Key)
    requires Inv(s) && k in s.c.services
    ensures s.c.services[k].key == k
  {}

  /** The read of a Service that exists makes the write possible. */
  lemma ReadNow(s: State, w: nat, uid: nat) returns (s': State)
    requires Inv(s) && CanPublish(s, w, uid) && s.threads[w].pc.exp.GetService?
    requires ServiceKey(s.threads[w].pc.t) in s.c.services
    ensures Enabled(s, Call(w, DONE)) && s' == Machine.Apply(s, Call(w, DONE)) && s'.c == s.c
    ensures CanPublish(s', w, uid) && s'.threads[w].pc.exp.WriteService?
  {
    hide Inv, ServiceKey;
    ServiceKeys(s, ServiceKey(s.threads[w].pc.t));
    s' := Machine.Apply(s, Call(w, DONE));
  }

  /** Somebody creates the Service if need be. */
  lemma PutNow(s: State, w: nat, uid: nat, svc: Service) returns (s': State)
    requires CanPublish(s, w, uid) && s.threads[w].pc.exp.GetService? && svc.key == ServiceKey(s.threads[w].pc.t)
    ensures s' == Machine.Apply(s, PutService(svc)) && CanPublish(s', w, uid) && s'.threads == s.threads
    ensures svc.key in s'.c.services && |s'.c.edits| >= |s.c.edits|
  {
    hide ServiceKey;
    s' := Machine.Apply(s, PutService(svc));
  }

  lemma PublishesFrom(c: Cluster, b: Cluster, c': Cluster, uid: nat)
    requires |c.edits| <= |b.edits| && Publishes(b, c', uid)
    ensures Publishes(c, c', uid)
  {}

  lemma LeadsOne(s: State, act: Action)
    requires Enabled(s, act)
    ensures Leads(s, [act], Machine.Apply(s, act))
  {
    hide Enabled, Machine.Apply;
    assert [act][1..] == [] && Leads(Machine.Apply(s, act), [], Machine.Apply(s, act));
  }

  lemma LeadsMore(s: State, act: Action, acts: seq<Action>, s': State)
    requires Enabled(s, act) && Leads(Machine.Apply(s, act), acts, s')
    ensures Leads(s, [act] + acts, s')
  {
    hide Enabled, Machine.Apply;
    assert ([act] + acts)[1..] == acts;
  }

  lemma AbleFromService(s: State, w: nat, uid: nat) returns (acts: seq<Action>, s': State)
    requires Inv(s) && CanPublish(s, w, uid)
    requires s.threads[w].pc.exp.GetService? ==> ServiceKey(s.threads[w].pc.t) in s.c.services
    ensures Leads(s, acts, s') && Publishes(s.c, s'.c, uid)
  {
    if s.threads[w].pc.exp.WriteService? {
      s' := WriteNow(s, w, uid);
      hide Inv, CanPublish, Publishes, Machine.Apply, Enabled;
      LeadsOne(s, Call(w, DONE));
      acts := [Call(w, DONE)];
    } else {
      var s1 := ReadNow(s, w, uid);
      s' := WriteNow(s1, w, uid);
      hide Inv, CanPublish, Publishes, Machine.Apply, Enabled;
      LeadsOne(s1, Call(w, DONE));
      LeadsMore(s, Call(w, DONE), [Call(w, DONE)], s');
      acts := [Call(w, DONE)] + [Call(w, DONE)];
    }
  }

  /** A worker that can publish does so in some continuation. */
  lemma AblePublishes(s: State, w: nat, uid: nat) returns (acts: seq<Action>, s': State)
    requires Inv(s) && CanPublish(s, w, uid)
    ensures Leads(s, acts, s') && Publishes(s.c, s'.c, uid)
  {
    var key := ServiceKey(s.threads[w].pc.t);
    if s.threads[w].pc.exp.GetService? && key !in s.c.services {
      var svc := Service(key, 0, map[], [], [], []);
      var s1 := PutNow(s, w, uid, svc);
      ActionKeeps(s, PutService(svc));
      hide Inv, CanPublish, Publishes, Machine.Apply, Leads;
      var rest;
      rest, s' := AbleFromService(s1, w, uid);
      LeadsMore(s, PutService(svc), rest, s');
      PublishesFrom(s.c, s1.c, s'.c, uid);
      acts := [PutService(svc)] + rest;
    } else {
      acts, s' := AbleFromService(s, w, uid);
    }
  }

  lemma SilentMeansNot(c: Cluster, c': Cluster, uid: nat)
    requires Silent(c, c', uid)
    ensures !Publishes(c, c', uid)
  {}

  /** For an incarnation that is past its activation, or deleted: some continuation publishes its
      address exactly if some worker can publish it in this state. So a withdrawal that takes
      effect is final, and a publication that was missed is missed for good, exactly if none can. */
  lemma PublishedLaterExactly(s: State, uid: nat)
    requires Inv(s) && PastActivation(s.c, uid)
    ensures (exists acts, s' :: Leads(s, acts, s') && Publishes(s.c, s'.c, uid))
            <==> exists w :: w in s.threads && CanPublish(s, w, uid)
  {
    hide Inv, PastActivation, CanPublish, Publishes, Leads;
    if w :| w in s.threads && CanPublish(s, w, uid) {
      var acts, s' := AblePublishes(s, w, uid);
    } else {
      forall acts, s' | Leads(s, acts, s') ensures !Publishes(s.c, s'.c, uid) {
        ClosedForGood(s, acts, s', uid);
        SilentMeansNot(s.c, s'.c, uid);
      }
    }
  }
}
