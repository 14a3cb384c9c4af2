/** Runs from an initial state in which properties that one might expect of the operator fail. */
module Witnesses {
  import opened Options
  import opened Resources
  import opened ExternalIPs
  import opened Clusters
  import opened Sync
  import opened Machine
  import opened Invariants
  import opened Preservation
  import opened SyncRuns
  import opened Outcomes
  import opened Convergence
  import opened Exposure
  import opened Solo
  import opened Races
  import opened TokenLoss
  import opened SecondHosts
  import opened TunnelHosts

  // ---- A Tunnel that is ready for its host ---------------------------------------------------

  const WORKER: nat := 1
  const TUNNEL := Key("ns", "t")
  const SERVICE := Key("ns", "web")
  const MASTER := Key("op", LICENSE_SECRET)
  const BACKEND := Service(SERVICE, 1, map[], [80], [], [])

  /** Nothing but the operator's license and the Tunnel's own auth secret, called `secret`. */
  function Start(secret: string): State {
    State(
      Cluster(
        Config(false, "op"), map[], map[],
        map[MASTER := Secret(0, map["license" := "L"]), Key("ns", secret) := Secret(0, map["token" := "T"])],
        map[], 1, 0, map[], map[], 0, map[], map[], map[], []),
      map[HANDLER := Thread(Key("", ""), Done(false)), WORKER := Thread(Key("", ""), Done(false))])
  }

  function Spec(secret: string): TunnelSpec {
    TunnelSpec(Some(ResourceRef("web", "ns")), Some(ResourceRef(secret, "ns")), None, false)
  }

  const OWNERS := [OwnerReference("Service", "web")]

  function Newborn(secret: string): Tunnel { Tunnel(TUNNEL, 0, 2, OWNERS, Spec(secret), NEW_STATUS) }

  /** The Service and the Tunnel are created and the caches show them. */
  function Prepared(secret: string): State {
    var s := Start(secret);
    var t := Newborn(secret);
    s.(c := s.c.(
      services := map[SERVICE := BACKEND], edits := [Edit(SERVICE, Put([]))],
      tunnels := map[TUNNEL := t], versions := map[2 := t], nextRv := 3, nextUid := 1,
      serviceCache := map[SERVICE := BACKEND], tunnelCache := map[TUNNEL := CachedTunnel(0, t)], nextObj := 1))
  }

  lemma StartIsInitial(secret: string)
    ensures Initial(Start(secret))
  {}

  function Preparation(secret: string): seq<Action> {
    [PutService(BACKEND), AddTunnel(TUNNEL, OWNERS, Spec(secret)), RefreshTunnel(TUNNEL, 2), RefreshService(BACKEND)]
  }

  lemma LeadsFour(s: State, a: Action, b: Action, c: Action, d: Action)
    requires Enabled(s, a) && Enabled(Machine.Apply(s, a), b)
    requires var s2 := Machine.Apply(Machine.Apply(s, a), b); Enabled(s2, c) && Enabled(Machine.Apply(s2, c), d)
    ensures Leads(s, [a, b, c, d], Machine.Apply(Machine.Apply(Machine.Apply(Machine.Apply(s, a), b), c), d))
  {
    hide Machine.Apply, Enabled;
    var s2 := Machine.Apply(Machine.Apply(s, a), b);
    LeadsTwo(s, a, b);
    LeadsTwo(s2, c, d);
    LeadsOn(s, [a, b], s2, [c, d], Machine.Apply(Machine.Apply(s2, c), d));
    assert [a, b] + [c, d] == [a, b, c, d];
  }

  lemma PreparedIsReached(secret: string)
    requires secret != ""
    ensures Leads(Start(secret), Preparation(secret), Prepared(secret))
  {
    var s0, t := Start(secret), Newborn(secret);
    var acts := Preparation(secret);
    var s1 := s0.(c := s0.c.(services := map[SERVICE := BACKEND], edits := [Edit(SERVICE, Put([]))], nextRv := 2));
    assert Machine.Apply(s0, acts[0]) == s1;
    var s2 := s1.(c := s1.c.(tunnels := map[TUNNEL := t], versions := map[2 := t], nextRv := 3, nextUid := 1));
    assert Machine.Apply(s1, acts[1]) == s2;
    var s3 := s2.(c := s2.c.(tunnelCache := map[TUNNEL := CachedTunnel(0, t)], nextObj := 1));
    assert Machine.Apply(s2, acts[2]) == s3;
    assert Machine.Apply(s3, acts[3]) == Prepared(secret);
    LeadsFour(s0, acts[0], acts[1], acts[2], acts[3]);
  }

  lemma PreparedIsReady(secret: string)
    requires secret != ""
    ensures var c := Prepared(secret).c;
            ReadyAt(c, TUNNEL, 3) && SecretKey(c.tunnels[TUNNEL]) == Key("ns", secret)
            && Token(c.secrets[Key("ns", secret)]) == "T"
  {}

  lemma StartInv(secret: string)
    ensures Inv(Start(secret))
  {
    StartIsInitial(secret);
    hide Inv;
    RunKeeps([Start(secret)], [], 0);
  }

  lemma PreparedInv(secret: string)
    requires secret != ""
    ensures Inv(Prepared(secret))
  {
    PreparedIsReached(secret);
    StartInv(secret);
    hide Inv;
    LeadsKeeps(Start(secret), Preparation(secret), Prepared(secret));
  }

  // ---- One round as a path of the machine -------------------------------------------------------

  /** The ids that a Provision could return are new. */
  predicate FreshIds(c: Cluster, answers: seq<Answer>) {
    forall i :: 0 <= i < |answers| ==> answers[i].hostId != "" && answers[i].hostId !in c.hosts
  }

  lemma TailFresh(c: Cluster, answers: seq<Answer>)
    requires FreshIds(c, answers)
    ensures FreshIds(c, Tail(answers))
  {}

  lemma HarmlessStep(c: Cluster, me: nat, pc: Pc, a: Answer)
    requires pc.Poll? || pc.Expose? || pc.License? || pc.Client? || pc.Redeploy?
    ensures var pc' := Step(c, me, pc, a).1;
            pc'.Poll? || pc'.Expose? || pc'.License? || pc'.Client? || pc'.Redeploy? || pc'.Done?
    ensures AnswerOk(c, pc, a)
  {
    hide UpdateTunnelStatus, UpdateService, UpdateServiceStatus, UpdateSecret, CreateSecret, CreatedRef,
         MakeClientDeployment, PortsDiffer, OwnsService, EditService, CreateDeployment, WriteThrough;
  }

  lemma {:induction false} HarmlessAnswers(c: Cluster, me: nat, pc: Pc, answers: seq<Answer>)
    requires pc.Poll? || pc.Expose? || pc.License? || pc.Client? || pc.Redeploy? || pc.Done?
    ensures AnswersOk(c, me, pc, answers)
    decreases Rank(pc)
  {
    if !pc.Done? {
      var (c', pc') := Step(c, me, pc, Head(answers));
      StepDescends(c, me, pc, Head(answers));
      HarmlessStep(c, me, pc, Head(answers));
      hide Step;
      HarmlessAnswers(c', me, pc', Tail(answers));
    }
  }

  lemma {:induction false} ProvisionAnswers(c: Cluster, me: nat, t: Tunnel, call: ProvisionCall, answers: seq<Answer>)
    requires FreshIds(c, answers) || call.WriteProvisioning?
    ensures AnswersOk(c, me, Provision(t, call), answers)
    decreases Rank(Provision(t, call))
  {
    var pc, a := Provision(t, call), Head(answers);
    var (c', pc') := Step(c, me, pc, a);
    StepDescends(c, me, pc, a);
    if pc'.Provision? {
      if !call.ProvisionHost? { TailFresh(c, answers); }
      ProvisionAnswers(c', me, t, pc'.prov, Tail(answers));
    } else {
      HarmlessAnswers(c', me, pc', Tail(answers));
    }
  }

  lemma BeginAnswers(c: Cluster, me: nat, k: Key, call: BeginCall, answers: seq<Answer>)
    requires AnswersOk(c, me, StepBegin(c, k, call, Head(answers)), Tail(answers))
    ensures AnswersOk(c, me, Begin(k, call), answers)
  {
    hide StepBegin;
  }

  lemma SyncAnswers(c: Cluster, me: nat, k: Key, answers: seq<Answer>)
    requires k in c.tunnelCache && k !in c.serviceCache && SecretName(c.tunnelCache[k].tunnel) != ""
    requires FreshIds(c, answers)
    ensures AnswersOk(c, me, Begin(k, LookupService), answers)
  {
    hide AnswersOk;
    TailFresh(c, answers);
    TailFresh(c, Tail(answers));
    var next := Dispatch(c.tunnelCache[k]);
    if next.Provision? { ProvisionAnswers(c, me, next.t, next.prov, Tail(Tail(answers))); }
    else { HarmlessAnswers(c, me, next, Tail(Tail(answers))); }
    HarmlessAnswers(c, me, Done(true), Tail(answers));
    HarmlessAnswers(c, me, Done(true), Tail(Tail(answers)));
    BeginAnswers(c, me, k, LookupTunnel, Tail(answers));
    BeginAnswers(c, me, k, LookupService, answers);
  }

  /** All threads but the handler and worker `w` are at rest and `w` is free. */
  predicate Resting(s: State, w: nat) {
    && w != HANDLER && w in s.threads && HANDLER in s.threads
    && forall i <- s.threads :: s.threads[i].pc.Done?
  }

  function AfterRound(s: State, w: nat, k: Key, answers: seq<Answer>): State {
    var end := SyncOnce(s.c, w, k, answers);
    State(Refreshed(end.c, k), s.threads[w := Thread(k, Done(end.err))])
  }

  function AfterSync(s: State, w: nat, k: Key, answers: seq<Answer>): State {
    var end := SyncOnce(s.c, w, k, answers);
    State(end.c, s.threads[w := Thread(k, Done(end.err))])
  }

  lemma StartPath(s: State, act: Action, s': State)
    requires Enabled(s, act) && s' == Machine.Apply(s, act)
    ensures Leads(s, [act], s')
  {
    hide Enabled, Machine.Apply;
    assert [act][1..] == [] && Leads(s', [], s');
  }

  lemma SyncPath(s: State, w: nat, k: Key, answers: seq<Answer>) returns (acts: seq<Action>)
    requires Resting(s, w) && k in s.c.tunnelCache && k !in s.c.serviceCache
    requires SecretName(s.c.tunnelCache[k].tunnel) != "" && FreshIds(s.c, answers)
    ensures Leads(s, acts, AfterSync(s, w, k, answers))
  {
    SyncAnswers(s.c, w, k, answers);
    hide FreshIds, AnswersOk, Run;
    var s1 := Machine.Apply(s, StartSync(w, k));
    SoloRunIsAPath(s1, w, answers);
    var calls := Calls(s1.c, w, s1.threads[w].pc, answers);
    assert Finished(s1, w, answers) == AfterSync(s, w, k, answers) by {
      assert Finished(s1, w, answers).threads == AfterSync(s, w, k, answers).threads;
    }
    StartPath(s, StartSync(w, k), s1);
    hide Leads, Calls;
    LeadsOn(s, [StartSync(w, k)], s1, calls, AfterSync(s, w, k, answers));
    acts := [StartSync(w, k)] + calls;
  }

  lemma StoredVersion(s: State, k: Key)
    requires Inv(s) && k in s.c.tunnels
    ensures s.c.tunnels[k].rv in s.c.versions && s.c.versions[s.c.tunnels[k].rv] == s.c.tunnels[k]
    ensures s.c.tunnels[k].key == k
  {}

  lemma RoundPath(s: State, w: nat, k: Key, answers: seq<Answer>) returns (acts: seq<Action>)
    requires Inv(s) && Resting(s, w) && Fresh(s.c, k) && SecretName(s.c.tunnels[k]) != "" && FreshIds(s.c, answers)
    requires k in SyncOnce(s.c, w, k, answers).c.tunnels
    ensures var s' := AfterRound(s, w, k, answers); Leads(s, acts, s') && Inv(s') && Resting(s', w)
  {
    hide Inv;
    var synced := SyncPath(s, w, k, answers);
    hide Fresh, FreshIds, SyncOnce;
    var s1 := AfterSync(s, w, k, answers);
    LeadsKeeps(s, synced, s1);
    StoredVersion(s1, k);
    var refresh := RefreshTunnel(k, s1.c.tunnels[k].rv);
    StartPath(s1, refresh, AfterRound(s, w, k, answers));
    hide Leads;
    LeadsOn(s, synced, s1, [refresh], AfterRound(s, w, k, answers));
    acts := synced + [refresh];
    LeadsKeeps(s, acts, AfterRound(s, w, k, answers));
  }

  // ---- Two hosts for one Tunnel ---------------------------------------------------------------------

  const ADDRESS := "192.0.2.1"

  function Works9(id: string): seq<Answer> { seq(9, _ => Answer(Success, "p", id, Active, ADDRESS)) }

  /** Everything works but the seventh call, the status write. */
  function RefusedWrite(id: string): seq<Answer> {
    seq(9, i => Answer(if i == 6 then Refused else Success, "p", id, Active, ADDRESS))
  }

  lemma PreparedRests(secret: string)
    ensures Resting(Prepared(secret), WORKER) && Prepared(secret).c.hosts == map[]
  {}

  /** A state at rest, with no hosts, in which Tunnel `k` has its secret and a fresh cache. */
  predicate Poised(s: State, k: Key) {
    && Resting(s, WORKER) && s.c.hosts == map[]
    && Fresh(s.c, k) && Backed(s.c, s.c.tunnels[k]) && Unblocked(s.c, s.c.tunnels[k])
    && Distance(s.c.tunnels[k]) == 3 && s.c.tunnels[k].rv < s.c.nextRv
  }

  lemma PreparedIsPoised(secret: string)
    requires secret != ""
    ensures Poised(Prepared(secret), TUNNEL) && Prepared(secret).c.tunnels[TUNNEL].uid == 0
  {
    PreparedIsReady(secret);
    PreparedRests(secret);
  }

  lemma RefusedWriteWastes(c: Cluster, k: Key)
    requires Fresh(c, k) && Unblocked(c, c.tunnels[k]) && Distance(c.tunnels[k]) == 3
    ensures var answers := RefusedWrite("h1");
            && CanBuy(c, c.tunnels[k], answers) && Ok(answers, 5) && Nth(answers, 5).hostId == "h1"
            && !Lands(answers, 6) && FirstOk(answers, 6) && FreshIds(c.(hosts := map[]), answers)
  {}

  lemma RefusedRound(s: State, k: Key) returns (acts: seq<Action>, s1: State)
    requires Inv(s) && Poised(s, k)
    ensures s1 == AfterRound(s, WORKER, k, RefusedWrite("h1")) && Leads(s, acts, s1) && Resting(s1, WORKER)
    ensures Fresh(s1.c, k) && s1.c.tunnels[k] == s.c.tunnels[k] && FreshIds(s1.c, Works9("h2"))
  {
    hide Inv;
    RefusedWriteWastes(s.c, k);
    WastedSync(s.c, WORKER, k, RefusedWrite("h1"));
    hide SyncOnce, CanBuy, Writes, Unblocked, Backed, FieldsOk;
    acts := RoundPath(s, WORKER, k, RefusedWrite("h1"));
    s1 := AfterRound(s, WORKER, k, RefusedWrite("h1"));
  }

  lemma RefusedPath(s: State, k: Key) returns (acts: seq<Action>, s': State)
    requires Inv(s) && Poised(s, k)
    ensures Leads(s, acts, s') && TwoHosts(s'.c, k, s.c.tunnels[k].uid, "h1", "h2")
  {
    hide Inv;
    RefusedThenAgain(s.c, WORKER, k, RefusedWrite("h1"), Works9("h2"));
    var first, s1 := RefusedRound(s, k);
    hide SyncOnce, FreshIds, FieldsOk, Leads, TwoHosts, Works9, RefusedWrite;
    var second := SyncPath(s1, WORKER, k, Works9("h2"));
    s' := AfterSync(s1, WORKER, k, Works9("h2"));
    LeadsOn(s, first, s1, second, s');
    acts := first + second;
  }

  /** The provisioning write of the first sync is refused, the second sync works: at the end one
      Tunnel has had two hosts. */
  lemma RefusedWriteRun(secret: string) returns (acts: seq<Action>, s': State)
    requires secret != ""
    ensures Leads(Start(secret), acts, s') && TwoHosts(s'.c, TUNNEL, 0, "h1", "h2")
  {
    PreparedIsReached(secret);
    PreparedInv(secret);
    PreparedIsPoised(secret);
    hide Inv, Start, Prepared, Preparation, Poised, TwoHosts, Leads;
    var path;
    path, s' := RefusedPath(Prepared(secret), TUNNEL);
    LeadsOn(Start(secret), Preparation(secret), Prepared(secret), path, s');
    acts := Preparation(secret) + path;
  }

  lemma StalePath(s: State, k: Key) returns (acts: seq<Action>, s': State)
    requires Poised(s, k)
    ensures Leads(s, acts, s') && TwoHosts(s'.c, k, s.c.tunnels[k].uid, "h2", "h1")
  {
    StaleThenAgain(s.c, WORKER, k, Works9("h1"), Works9("h2"));
    HostStep(s.c, WORKER, k, Works9("h1"));
    var first := SyncPath(s, WORKER, k, Works9("h1"));
    var s1 := AfterSync(s, WORKER, k, Works9("h1"));
    hide SyncOnce, FieldsOk, TwoHosts, Leads;
    assert FreshIds(s1.c, Works9("h2"));
    hide FreshIds, Works9;
    var second := SyncPath(s1, WORKER, k, Works9("h2"));
    s' := AfterSync(s1, WORKER, k, Works9("h2"));
    LeadsOn(s, first, s1, second, s');
    acts := first + second;
  }

  /** No call fails in this run: the second sync starts before the cache has seen the first one's
      write, and again one Tunnel has had two hosts. */
  lemma StaleCacheRun(secret: string) returns (acts: seq<Action>, s': State)
    requires secret != ""
    ensures Leads(Start(secret), acts, s') && TwoHosts(s'.c, TUNNEL, 0, "h2", "h1")
  {
    PreparedIsReached(secret);
    PreparedIsPoised(secret);
    hide Start, Prepared, Preparation, Poised, TwoHosts, Leads;
    var path;
    path, s' := StalePath(Prepared(secret), TUNNEL);
    LeadsOn(Start(secret), Preparation(secret), Prepared(secret), path, s');
    acts := Preparation(secret) + path;
  }

  // ---- An address left behind --------------------------------------------------------------------

  const ANSWER := Answer(Success, "p", "h2", Active, ADDRESS)

  /** A call of worker `w` that only reads. */
  lemma ReadPath(s: State, w: nat, pc: Pc) returns (s': State)
    requires w in s.threads && !s.threads[w].pc.Done? && AnswerOk(s.c, s.threads[w].pc, ANSWER)
    requires Step(s.c, w, s.threads[w].pc, ANSWER) == (s.c, pc)
    ensures Leads(s, [Call(w, ANSWER)], s') && s' == State(s.c, s.threads[w := Thread(s.threads[w].key, pc)])
  {
    s' := Machine.Apply(s, Call(w, ANSWER));
    StartPath(s, Call(w, ANSWER), s');
    hide Step, Leads;
  }

  /** From rest to the status write of an activation. */
  lemma AboutToActivate(s: State, k: Key) returns (acts: seq<Action>, s': State)
    requires Resting(s, WORKER) && Fresh(s.c, k)
    requires Distance(s.c.tunnels[k]) == 2 && s.c.tunnels[k].spec.serviceRef.Some?
    ensures Leads(s, acts, s') && s'.c == s.c
    ensures s'.threads == s.threads[WORKER := Thread(k, Poll(s.c.tunnels[k], WriteActive(ADDRESS)))]
  {
    var t, call := s.c.tunnels[k], Call(WORKER, ANSWER);
    var s1 := Machine.Apply(s, StartSync(WORKER, k));
    StartPath(s, StartSync(WORKER, k), s1);
    hide FieldsOk, Leads;
    var s2 := ReadPath(s1, WORKER, Begin(k, LookupTunnel));
    var s3 := ReadPath(s2, WORKER, Poll(t, InitPoll));
    var s4 := ReadPath(s3, WORKER, Poll(t, PollHost));
    s' := ReadPath(s4, WORKER, Poll(t, WriteActive(ADDRESS)));
    hide Machine.Apply;
    LeadsThrough(s, [StartSync(WORKER, k)], s1, [call], s2, [call], s3);
    LeadsThrough(s, [StartSync(WORKER, k)] + [call] + [call], s3, [call], s4, [call], s');
    acts := [StartSync(WORKER, k)] + [call] + [call] + [call] + [call];
    assert s'.threads == s.threads[WORKER := Thread(k, Poll(t, WriteActive(ADDRESS)))];
  }

  lemma ActivatedAndOvertaken(s: State, k: Key) returns (acts: seq<Action>, s': State, t: Tunnel)
    requires Inv(s) && WORKER in s.threads && HANDLER in s.threads && s.threads[HANDLER].pc.Done?
    requires k in s.c.tunnels && s.c.tunnels[k].key == k
    requires s.threads[WORKER].pc == Poll(s.c.tunnels[k], WriteActive(ADDRESS))
    requires OwnsService(s.c.tunnels[k]) && ServiceKey(s.c.tunnels[k]) in s.c.services
    ensures Leads(s, acts, s') && LeftBehind(s', WORKER, t, ADDRESS) && t.key == k
  {
    hide Inv, OwnsService, ServiceKey;
    var call := Call(WORKER, ANSWER);
    var s1 := Machine.Apply(s, call);
    ActionKeeps(s, call);
    ActivationIsAboutToPublish(s, WORKER, ANSWER);
    StartPath(s, call, s1);
    hide Machine.Apply, AboutToPublish, Leads, LeftBehind;
    t :| t.key == k && AboutToPublish(s1, WORKER, t, ADDRESS);
    DeletionOvertakesPublication(s1, WORKER, t, ADDRESS);
    var rest;
    rest, s' :| Leads(s1, rest, s') && LeftBehind(s', WORKER, t, ADDRESS);
    LeadsOn(s, [call], s1, rest, s');
    acts := [call] + rest;
  }

  /** Some path from a poised state leaves an address behind. */
  lemma LeftBehindPath(s: State, k: Key) returns (acts: seq<Action>, s': State, t: Tunnel)
    requires Inv(s) && Poised(s, k) && OwnsService(s.c.tunnels[k])
    ensures Leads(s, acts, s') && LeftBehind(s', WORKER, t, ADDRESS) && t.key == k
  {
    hide Inv;
    HostStep(s.c, WORKER, k, Works9("h1"));
    assert OwnsService(AfterRound(s, WORKER, k, Works9("h1")).c.tunnels[k]);
    hide OwnsService;
    var first := RoundPath(s, WORKER, k, Works9("h1"));
    var s1 := AfterRound(s, WORKER, k, Works9("h1"));
    hide SyncOnce, Works9, FreshIds;
    assert Fresh(s1.c, k) && Distance(s1.c.tunnels[k]) == 2;
    var polled, s2 := AboutToActivate(s1, k);
    hide Fresh, FieldsOk, Backed, Unblocked;
    LeadsKeeps(s1, polled, s2);
    var rest;
    rest, s', t := ActivatedAndOvertaken(s2, k);
    hide Leads, LeftBehind;
    LeadsThrough(s, first, s1, polled, s2, rest, s');
    acts := first + polled + rest;
  }

  /** A run from an initial state in which a Tunnel is deleted, its host is deleted, everybody has
      finished, and the address is on the Service. */
  lemma LeftBehindRun(secret: string) returns (acts: seq<Action>, s': State, t: Tunnel)
    requires secret != ""
    ensures Leads(Start(secret), acts, s') && LeftBehind(s', WORKER, t, ADDRESS) && t.key == TUNNEL
  {
    PreparedIsReached(secret);
    PreparedInv(secret);
    PreparedIsPoised(secret);
    assert OWNERS[0].kind == "Service";
    assert OwnsService(Prepared(secret).c.tunnels[TUNNEL]);
    hide Inv, Start, Prepared, Preparation, Poised, LeftBehind, Leads, OwnsService;
    var path;
    path, s', t := LeftBehindPath(Prepared(secret), TUNNEL);
    LeadsOn(Start(secret), Preparation(secret), Prepared(secret), path, s');
    acts := Preparation(secret) + path;
  }

  // ---- A token lost -------------------------------------------------------------------------------------

  lemma Works9Works(id: string, c: Cluster)
    requires id != "" && id !in c.hosts
    ensures Works(Works9(id)) && HostReady(Works9(id)) && FreshIds(c, Works9(id))
  {}

  lemma SyncStores(c: Cluster, me: nat, k: Key, d: nat, answers: seq<Answer>)
    requires ReadyAt(c, k, d) && d <= 3 && Works(answers)
    ensures k in SyncOnce(c, me, k, answers).c.tunnels && Fresh(c, k) && SecretName(c.tunnels[k]) != ""
  {
    SyncKeepsTunnel(c, me, k, answers);
    hide SyncOnce, Works;
  }

  /** A round of a ready Tunnel in which everything works. */
  lemma WorkingRound(s: State, k: Key, d: nat, id: string) returns (acts: seq<Action>, s': State)
    requires Inv(s) && Resting(s, WORKER) && ReadyAt(s.c, k, d) && 0 < d <= 3 && id != "" && id !in s.c.hosts
    ensures s' == AfterRound(s, WORKER, k, Works9(id))
    ensures Leads(s, acts, s') && Inv(s') && Resting(s', WORKER) && ReadyAt(s'.c, k, d - 1)
  {
    hide Inv;
    Works9Works(id, s.c);
    RoundProgresses(s.c, WORKER, k, d, Works9(id));
    SyncStores(s.c, WORKER, k, d, Works9(id));
    hide SyncOnce, FreshIds, ReadyAt, Works9, Fresh;
    acts := RoundPath(s, WORKER, k, Works9(id));
    s' := AfterRound(s, WORKER, k, Works9(id));
  }

  /** The Tunnel's auth secret has the name of the license copy and does not hold the license. */
  predicate AtRisk(c: Cluster, k: Key) {
    && k in c.tunnels && Key(c.config.operatorNamespace, LICENSE_SECRET) in c.secrets
    && SecretKey(c.tunnels[k]) == LicenseKey(c.tunnels[k]) && SecretKey(c.tunnels[k]) in c.secrets
    && !LicenseCurrent(c, c.tunnels[k], OperatorLicense(c))
    && Lookup(OperatorLicense(c), "token") != Token(c.secrets[SecretKey(c.tunnels[k])])
  }

  lemma HostRoundAgrees(c: Cluster, k: Key, id: string)
    requires ReadyAt(c, k, 3) && AtRisk(c, k) && id != "" && id !in c.hosts
    ensures var c' := Refreshed(SyncOnce(c, WORKER, k, Works9(id)).c, k); AtRisk(c', k) && Agrees(c', k)
  {
    Works9Works(id, c);
    HostStep(c, WORKER, k, Works9(id));
    hide SyncOnce, Works9, Works, HostReady;
  }

  lemma PollRoundAgrees(c: Cluster, k: Key, id: string)
    requires ReadyAt(c, k, 2) && AtRisk(c, k) && Agrees(c, k) && id != "" && id !in c.hosts
    ensures var c' := Refreshed(SyncOnce(c, WORKER, k, Works9(id)).c, k);
            AtRisk(c', k) && Agrees(c', k) && c'.hosts == c.hosts
  {
    Works9Works(id, c);
    PollStep(c, WORKER, k, Works9(id));
    hide SyncOnce, Works9, Works;
  }

  lemma ClientRoundDisagrees(c: Cluster, k: Key, id: string)
    requires ReadyAt(c, k, 1) && AtRisk(c, k) && Agrees(c, k) && id != "" && id !in c.hosts
    ensures !Agrees(SyncOnce(c, WORKER, k, Works9(id)).c, k)
    ensures k in SyncOnce(c, WORKER, k, Works9(id)).c.tunnels
  {
    Works9Works(id, c);
    AgreementSurvivesExactly(c, WORKER, k, Works9(id));
    SyncStores(c, WORKER, k, 1, Works9(id));
    hide SyncOnce, Works9, Works;
  }

  lemma HostsAfter(c: Cluster, k: Key)
    requires ReadyAt(c, k, 3) && c.hosts == map[]
    ensures "h2" !in Refreshed(SyncOnce(c, WORKER, k, Works9("h1")).c, k).hosts
  {
    Works9Works("h1", c);
    HostStep(c, WORKER, k, Works9("h1"));
    hide SyncOnce, Works9, Works;
  }

  lemma ReadyCache(c: Cluster, k: Key, d: nat)
    requires ReadyAt(c, k, d)
    ensures k in c.tunnels && k in c.tunnelCache && k !in c.serviceCache && c.tunnelCache[k].tunnel == c.tunnels[k]
  {}

  lemma TokenLostPath(s: State, k: Key) returns (before: seq<Action>, s2: State, last: seq<Action>, s3: State)
    requires Inv(s) && Resting(s, WORKER) && ReadyAt(s.c, k, 3) && AtRisk(s.c, k) && s.c.hosts == map[]
    ensures Leads(s, before, s2) && Agrees(s2.c, k) && Leads(s2, last, s3) && !Agrees(s3.c, k) && k in s3.c.tunnels
  {
    hide Inv, ReadyAt, AtRisk, Agrees, SyncOnce, Works9, Resting;
    HostRoundAgrees(s.c, k, "h1");
    HostsAfter(s.c, k);
    var first, s1 := WorkingRound(s, k, 3, "h1");
    PollRoundAgrees(s1.c, k, "h2");
    var second;
    second, s2 := WorkingRound(s1, k, 2, "h2");
    ClientRoundDisagrees(s2.c, k, "h2");
    Works9Works("h2", s2.c);
    SyncStores(s2.c, WORKER, k, 1, Works9("h2"));
    ReadyCache(s2.c, k, 1);
    hide Leads, FreshIds, Works;
    last := SyncPath(s2, WORKER, k, Works9("h2"));
    s3 := AfterSync(s2, WORKER, k, Works9("h2"));
    LeadsOn(s, first, s1, second, s2);
    before := first + second;
  }

  lemma PreparedIsAtRisk()
    ensures AtRisk(Prepared(LICENSE_SECRET).c, TUNNEL)
  {}

  /** A run in which a Tunnel whose auth secret is called like the license copy has its host and
      its token in agreement, and after one more sync of its own no longer has. */
  lemma TokenLostRun() returns (acts: seq<Action>, s: State, last: seq<Action>, s': State)
    ensures Leads(Start(LICENSE_SECRET), acts, s) && Agrees(s.c, TUNNEL)
    ensures Leads(s, last, s') && TUNNEL in s'.c.tunnels && !Agrees(s'.c, TUNNEL)
  {
    PreparedIsReached(LICENSE_SECRET);
    PreparedInv(LICENSE_SECRET);
    PreparedIsReady(LICENSE_SECRET);
    PreparedRests(LICENSE_SECRET);
    PreparedIsAtRisk();
    hide Inv, Start, Prepared, Preparation, Leads, Agrees, AtRisk, ReadyAt, Resting;
    var path;
    path, s, last, s' := TokenLostPath(Prepared(LICENSE_SECRET), TUNNEL);
    LeadsOn(Start(LICENSE_SECRET), Preparation(LICENSE_SECRET), Prepared(LICENSE_SECRET), path, s);
    acts := Preparation(LICENSE_SECRET) + path;
  }
}
