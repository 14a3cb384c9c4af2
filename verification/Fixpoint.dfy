/** Which Tunnels a sync leaves as they are. */
module Fixpoints {
  import opened Options
  import opened Resources
  import opened Ports
  import opened ExternalIPs
  import opened Clusters
  import opened Sync
  import opened Invariants
  import opened SyncRuns
  import opened Convergence
  import opened Outcomes
  import opened ClientOutcomes

  // ---- The resting state -----------------------------------------------------------

  /** The client named by the Tunnel exists and need not be rewritten. */
  predicate ClientCurrent(c: Cluster, t: Tunnel) {
    && ClientKey(t) in c.deployments && ServiceKey(t) in c.services
    && !PortsDiffer(c.deployments[ClientKey(t)], c.services[ServiceKey(t)])
  }

  /** A Tunnel with everything it needs. */
  predicate Settled(c: Cluster, k: Key) {
    && Fresh(c, k)
    && var t := c.tunnels[k];
    && Backed(c, t) && Distance(t) == 0 && ClientCurrent(c, t) && LicenseCurrent(c, t, OperatorLicense(c))
  }

  /** Threads that a sync of a settled Tunnel can pass through. */
  predicate AtRest(c: Cluster, t: Tunnel, pc: Pc) {
    match pc
    case Done(_) => true
    case Begin(_, _) => false
    case License(u, _, call) =>
      u == t && (match call
                 case GetLicense => true
                 case GetLicenseCopy(license) => LicenseCurrent(c, t, license)
                 case NewLicense(_) => true
                 case UpdateLicense(_) => false)
    case Redeploy(u, call) =>
      u == t && (match call
                 case GetClient => true
                 case GetClientPorts(found) => ClientKey(t) in c.deployments && found == c.deployments[ClientKey(t)]
                 case UpdateClient(_) => false)
    case _ => false
  }

  lemma RestingStep(c: Cluster, me: nat, k: Key, pc: Pc, a: Answer)
    requires Settled(c, k) && AtRest(c, c.tunnels[k], pc)
    ensures Step(c, me, pc, a).0 == c && AtRest(c, c.tunnels[k], Step(c, me, pc, a).1)
  {
    hide FieldsOk, PortsDiffer, MakeClientDeployment;
  }

  lemma {:induction false} RestingRun(c: Cluster, me: nat, k: Key, pc: Pc, answers: seq<Answer>)
    requires Settled(c, k) && AtRest(c, c.tunnels[k], pc)
    ensures Run(c, me, pc, answers).c == c
    decreases Rank(pc)
  {
    if !pc.Done? {
      RunStep(c, me, pc, answers);
      RestingStep(c, me, k, pc, Head(answers));
      StepDescends(c, me, pc, Head(answers));
      hide Settled, AtRest, Step;
      RestingRun(c, me, k, Step(c, me, pc, Head(answers)).1, Tail(answers));
    }
  }

  /** A sync of a settled Tunnel changes nothing, whichever of its calls fail. */
  lemma SettledStays(c: Cluster, me: nat, k: Key, answers: seq<Answer>)
    requires Settled(c, k)
    ensures SyncOnce(c, me, k, answers).c == c
  {
    var start := Begin(k, LookupService);
    RunStep(c, me, start, answers);
    if Head(answers).mode.Success? {
      var second := Begin(k, LookupTunnel);
      RunStep(c, me, second, Tail(answers));
      var next := Step(c, me, second, Head(Tail(answers))).1;
      assert AtRest(c, c.tunnels[k], next);
      RestingRun(c, me, k, next, Tail(Tail(answers)));
    }
  }

  // ---- Getting there ---------------------------------------------------------------

  /** The operator's own copy of the license is the one every other copy follows. */
  lemma LicenseAgreed(c: Cluster, c': Cluster, t: Tunnel)
    requires LicenseThere(c) && c'.config == c.config && c'.secrets == LicensedSecrets(c, t, OperatorLicense(c))
    ensures LicenseThere(c') && LicenseCurrent(c', t, OperatorLicense(c'))
  {
    if !LicenseCurrent(c, t, OperatorLicense(c)) {
      assert LicenseKey(t) != Key(c.config.operatorNamespace, LICENSE_SECRET);
    }
  }

  /** The ports annotation of the Tunnel's client. */
  function PrintedPorts(c: Cluster, k: Key): Option<string> {
    if k in c.tunnels && ClientKey(c.tunnels[k]) in c.deployments
       && c.deployments[ClientKey(c.tunnels[k])].annotations.Some?
    then Some(Lookup(c.deployments[ClientKey(c.tunnels[k])].annotations.value, PORTS_ANNOTATION)) else None
  }

  /** The client of a working sync shows the Service's ports. */
  lemma ClientBroughtUp(c: Cluster, me: nat, k: Key, answers: seq<Answer>)
    requires Fresh(c, k) && Backed(c, c.tunnels[k]) && Works(answers)
    requires Distance(c.tunnels[k]) == 0 && ClientKey(c.tunnels[k]) in c.deployments
    ensures var t, c' := c.tunnels[k], SyncOnce(c, me, k, answers).c; var d := ClientKey(t);
            && d in c'.deployments && !PortsDiffer(c'.deployments[d], c.services[ServiceKey(t)])
            && (c.deployments[d].annotations.Some? ==>
                  c'.deployments[d].annotations.Some?
                  && Lookup(c'.deployments[d].annotations.value, PORTS_ANNOTATION)
                     == PortsString(c.services[ServiceKey(t)].ports))
  {
    var t := c.tunnels[k];
    WorkingLicense(c, t, answers);
    ConnectedOutcome(c, me, k, answers);
    NamedClientKey(t);
    hide SyncOnce, Works, FieldsOk, LicenseOk, AfterLicense, FirstClientCall, LicensedSecrets, Ok, Lands, PortsString;
  }

  /** One sync whose calls work settles a Tunnel whose client exists, whatever happened to
      the Service's ports, the license or the client before. */
  lemma OneSyncSettles(c: Cluster, me: nat, k: Key, answers: seq<Answer>)
    requires Ready(c, k) && Works(answers) && Distance(c.tunnels[k]) == 0 && ClientKey(c.tunnels[k]) in c.deployments
    ensures var c' := SyncOnce(c, me, k, answers).c;
            && Settled(c', k)
            && (c.deployments[ClientKey(c.tunnels[k])].annotations.Some? ==>
                  PrintedPorts(c', k) == Some(PortsString(c.services[ServiceKey(c.tunnels[k])].ports)))
  {
    var c' := SyncOnce(c, me, k, answers).c;
    IdleStep(c, me, k, answers);
    ClientBroughtUp(c, me, k, answers);
    hide SyncOnce, Works, PortsString, FieldsOk, LicensedSecrets, PortsDiffer;
    LicenseAgreed(c, c', c.tunnels[k]);
  }

  /** The calls that change something at the API server or the provider. */
  predicate IsWrite(pc: Pc) {
    match pc
    case Done(_) => false
    case Begin(_, _) => false
    case Generate(_, call) => !call.GetTunnel?
    case Auth(_, call) => !call.GetAuth?
    case Provision(_, call) => call.ProvisionHost? || call.WriteProvisioning?
    case Poll(_, call) => call.WriteActive?
    case Expose(_, _, call) => !call.GetService?
    case License(_, _, call) => call.UpdateLicense? || call.NewLicense?
    case Client(_, _, call) => !call.GetPorts?
    case Redeploy(_, call) => call.UpdateClient?
    case Dispose(_, call) => call.DeleteHost?
  }

  /** No write call is made on the way to the end, not even one without effect. */
  predicate WritesNothing(c: Cluster, me: nat, pc: Pc, answers: seq<Answer>)
    decreases Rank(pc)
  {
    pc.Done? ||
    (!IsWrite(pc)
     && (StepDescends(c, me, pc, Head(answers));
         var (c', pc') := Step(c, me, pc, Head(answers));
         WritesNothing(c', me, pc', Tail(answers))))
  }

  lemma ReadKeeps(c: Cluster, me: nat, pc: Pc, a: Answer)
    requires !IsWrite(pc) && !pc.Dispose?
    ensures Step(c, me, pc, a).0 == c
  {
    hide Dispatch, StartExpose, StartClient, EditService, MakeClientDeployment, PortsDiffer, ManageService, FieldsOk;
  }

  lemma NoNewDisposal(c: Cluster, me: nat, pc: Pc, a: Answer)
    requires !pc.Dispose?
    ensures !Step(c, me, pc, a).1.Dispose?
  {
    hide UpdateTunnelStatus, UpdateService, UpdateServiceStatus, UpdateSecret, CreateSecret, CreateTunnel,
         CreatedRef, MakeClientDeployment, PortsDiffer, ManageService, OwnsService, EditService;
  }

  lemma {:induction false} WritesNothingKeeps(c: Cluster, me: nat, pc: Pc, answers: seq<Answer>)
    requires WritesNothing(c, me, pc, answers) && !pc.Dispose?
    ensures Run(c, me, pc, answers).c == c
    decreases Rank(pc)
  {
    if !pc.Done? {
      var pc' := Step(c, me, pc, Head(answers)).1;
      RunStep(c, me, pc, answers);
      StepDescends(c, me, pc, Head(answers));
      ReadKeeps(c, me, pc, Head(answers));
      NoNewDisposal(c, me, pc, Head(answers));
      hide Step, IsWrite;
      WritesNothingKeeps(c, me, pc', Tail(answers));
    }
  }

  /** A thread of a settled Tunnel that has only working calls behind it. */
  predicate AtEase(c: Cluster, t: Tunnel, pc: Pc) { AtRest(c, t, pc) && !IsWrite(pc) }

  lemma EasyStep(c: Cluster, me: nat, k: Key, pc: Pc, a: Answer)
    requires Settled(c, k) && AtEase(c, c.tunnels[k], pc) && a.mode.Success?
    ensures Step(c, me, pc, a).0 == c && AtEase(c, c.tunnels[k], Step(c, me, pc, a).1)
  {
    hide FieldsOk, PortsDiffer, MakeClientDeployment;
  }

  lemma {:induction false} EasyRun(c: Cluster, me: nat, k: Key, pc: Pc, answers: seq<Answer>, i: nat)
    requires Settled(c, k) && AtEase(c, c.tunnels[k], pc)
    requires forall j: nat :: i <= j < i + Rank(pc) ==> Ok(answers, j)
    ensures WritesNothing(c, me, pc, From(answers, i))
    decreases Rank(pc)
  {
    if !pc.Done? {
      var a, pc' := Nth(answers, i), Step(c, me, pc, Nth(answers, i)).1;
      assert Head(From(answers, i)) == a && Tail(From(answers, i)) == From(answers, i + 1);
      assert Ok(answers, i);
      EasyStep(c, me, k, pc, a);
      StepDescends(c, me, pc, a);
      hide Settled, AtRest, Step, Ok, From;
      EasyRun(c, me, k, pc', answers, i + 1);
    }
  }

  lemma BeginWritesNothing(c: Cluster, me: nat, k: Key, call: BeginCall, answers: seq<Answer>)
    requires WritesNothing(c, me, StepBegin(c, k, call, Head(answers)), Tail(answers))
    ensures WritesNothing(c, me, Begin(k, call), answers)
  {
    hide StepBegin;
  }

  /** A working sync of a settled Tunnel makes no write call. */
  lemma SettledWritesNothing(c: Cluster, me: nat, k: Key, answers: seq<Answer>)
    requires Settled(c, k) && Works(answers)
    ensures WritesNothing(c, me, Begin(k, LookupService), answers)
  {
    AllWorks(answers);
    assert From(answers, 0) == answers && Tail(answers) == From(answers, 1) && Tail(Tail(answers)) == From(answers, 2);
    assert Head(answers) == Nth(answers, 0) && Head(Tail(answers)) == Nth(answers, 1);
    var next := Dispatch(c.tunnelCache[k]);
    assert AtEase(c, c.tunnels[k], next) && Rank(next) == 6;
    assert Ok(answers, 0) && Ok(answers, 1);
    hide Settled, AtEase, Works, Dispatch, From, FirstOk;
    EasyRun(c, me, k, next, answers, 2);
    BeginWritesNothing(c, me, k, LookupTunnel, Tail(answers));
    BeginWritesNothing(c, me, k, LookupService, answers);
  }

  /** A sync whose calls work makes no write call, and leaves the cluster as it is, exactly if the
      Tunnel is settled. */
  lemma RestsExactlyWhenSettled(c: Cluster, me: nat, k: Key, answers: seq<Answer>)
    requires Ready(c, k) && Works(answers) && Distance(c.tunnels[k]) == 0 && ClientKey(c.tunnels[k]) in c.deployments
    ensures SyncOnce(c, me, k, answers).c == c <==> Settled(c, k)
    ensures WritesNothing(c, me, Begin(k, LookupService), answers) <==> Settled(c, k)
  {
    OneSyncSettles(c, me, k, answers);
    hide WritesNothing, Ready;
    if Settled(c, k) {
      SettledStays(c, me, k, answers);
      SettledWritesNothing(c, me, k, answers);
    } else if WritesNothing(c, me, Begin(k, LookupService), answers) {
      WritesNothingKeeps(c, me, Begin(k, LookupService), answers);
    }
  }

  /** Somebody edits the port list of the Tunnel's Service. */
  function WithPorts(c: Cluster, s: Key, ports: seq<int>): Cluster
    requires s in c.services
  {
    c.(services := c.services[s := c.services[s].(ports := ports)])
  }

  lemma EditedIsReady(c: Cluster, k: Key, ports: seq<int>)
    requires Settled(c, k) && PrintedPorts(c, k).Some?
    ensures var t := c.tunnels[k]; var c1 := WithPorts(c, ServiceKey(t), ports);
            && Ready(c1, k) && c1.tunnels[k] == t && Distance(t) == 0 && c1.services[ServiceKey(t)].ports == ports
            && c1.deployments == c.deployments && ClientKey(t) in c.deployments
            && c.deployments[ClientKey(t)].annotations.Some?
            && (Settled(c1, k) <==> PortsString(ports) == PortsString(c.services[ServiceKey(t)].ports))
  {
    hide FieldsOk, PortsString;
  }

  /** One working sync after an edit of the ports settles the Tunnel again with the new list
      in its client, and it writes exactly when the list is another one. */
  lemma PortChangeSettles(c: Cluster, me: nat, k: Key, ports: seq<int>, answers: seq<Answer>)
    requires Settled(c, k) && PrintedPorts(c, k).Some? && Works(answers)
    ensures var s := ServiceKey(c.tunnels[k]);
            var c1 := WithPorts(c, s, ports); var c2 := SyncOnce(c1, me, k, answers).c;
            && Settled(c2, k) && PrintedPorts(c2, k) == Some(PortsString(ports))
            && (c2 == c1 <==> ports == c.services[s].ports)
            && (WritesNothing(c1, me, Begin(k, LookupService), answers) <==> ports == c.services[s].ports)
  {
    var s := ServiceKey(c.tunnels[k]);
    var c1 := WithPorts(c, s, ports);
    PortsStringInjective(ports, c.services[s].ports);
    EditedIsReady(c, k, ports);
    hide Settled, SyncOnce, Works, Ready, PortsString, WritesNothing;
    OneSyncSettles(c1, me, k, answers);
    RestsExactlyWhenSettled(c1, me, k, answers);
  }

  // ---- Where convergence fails -------------------------------------------------------

  /** A Tunnel that has a secret's name but no host gets none while its Service is not in the
      cache, or the secret is missing or has no token: every sync reports an error and changes
      nothing, whatever its answers. */
  lemma NothingBought(c: Cluster, me: nat, k: Key, answers: seq<Answer>)
    requires Fresh(c, k) && Distance(c.tunnels[k]) == 3 && !Unblocked(c, c.tunnels[k])
    ensures var end := SyncOnce(c, me, k, answers); end.c == c && end.err
  {
    var t, rest := c.tunnels[k], Tail(Tail(answers));
    hide FieldsOk;
    RunStep(c, me, Begin(k, LookupService), answers);
    RunStep(c, me, Begin(k, LookupTunnel), Tail(answers));
    RunStep(c, me, Provision(t, InitProvision), rest);
    RunStep(c, me, Provision(t, LookupBackend), Tail(rest));
    RunStep(c, me, Provision(t, ReadToken), Tail(Tail(rest)));
  }

  /** A client name that is taken is never given up: the sync stores an empty reference,
      and the next one stands where this one stood. */
  lemma NameTakenStays(c: Cluster, me: nat, k: Key, answers: seq<Answer>)
    requires Fresh(c, k) && Backed(c, c.tunnels[k]) && Works(answers)
    requires Distance(c.tunnels[k]) == 1 && !ClientNameFree(c, c.tunnels[k])
    ensures var c' := Refreshed(SyncOnce(c, me, k, answers).c, k);
            && Fresh(c', k) && Backed(c', c'.tunnels[k])
            && Distance(c'.tunnels[k]) == 1 && !ClientNameFree(c', c'.tunnels[k])
  {
    ClientStep(c, me, k, answers);
    hide SyncOnce, Works;
  }

  // ---- References without what they refer to ---------------------------------------------------

  /** The stored Tunnel names an auth secret that does not exist. */
  predicate Stranded(c: Cluster, k: Key) {
    k in c.tunnels && c.tunnels[k].status.authTokenRef.Some? && k !in c.secrets
  }

  /** A failing read of the auth secret is taken for its existence: the sync that finds no
      secret leaves a reference to none exactly if that read fails and the write takes effect. */
  lemma StrandsExactly(c: Cluster, me: nat, k: Key, answers: seq<Answer>)
    requires Fresh(c, k) && c.tunnels[k].spec.serviceRef.Some? && Distance(c.tunnels[k]) == 4
    ensures Stranded(SyncOnce(c, me, k, answers).c, k)
            <==> k !in c.secrets && FirstOk(answers, 2) && !Ok(answers, 2) && Lands(answers, 3)
  {
    SecretOutcome(c, me, k, answers);
    assert FirstOk(answers, 3) == (FirstOk(answers, 2) && Ok(answers, 2));
    hide SyncOnce, FieldsOk, FirstOk;
  }

  /** And no later sync gets a host for a stranded Tunnel. */
  lemma StrandedStays(c: Cluster, me: nat, k: Key, answers: seq<Answer>)
    requires Fresh(c, k) && Stranded(c, k) && c.tunnels[k].status.hostStatus.NotStarted?
    ensures Ends(SyncOnce(c, me, k, answers), c, true)
  {
    if c.tunnels[k].spec.serviceRef.Some? { NothingBought(c, me, k, answers); } else { NoReference(c, me, k, answers); }
  }

  /** Such a sync reports success, and no later one gets a host for the Tunnel. */
  lemma FailedReadStrands(c: Cluster, me: nat, k: Key, answers: seq<Answer>, later: seq<Answer>)
    requires Fresh(c, k) && c.tunnels[k].spec.serviceRef.Some? && Distance(c.tunnels[k]) == 4 && k !in c.secrets
    requires FirstOk(answers, 2) && !Ok(answers, 2) && Ok(answers, 3)
    ensures var c' := Refreshed(SyncOnce(c, me, k, answers).c, k);
            && !SyncOnce(c, me, k, answers).err
            && k in c'.tunnels && SecretName(c'.tunnels[k]) == k.name && k !in c'.secrets
            && Ends(SyncOnce(c', me, k, later), c', true)
  {
    SecretOutcome(c, me, k, answers);
    assert FirstOk(answers, 3) == (FirstOk(answers, 2) && Ok(answers, 2));
    var c' := Refreshed(SyncOnce(c, me, k, answers).c, k);
    hide SyncOnce, FirstOk;
    NothingBought(c', me, k, later);
  }

  lemma AttemptBlocks(c: Cluster, end: Outcome, t: Tunnel, obj: nat, answers: seq<Answer>, n: nat)
    requires Distance(t) == 1 && t.spec.serviceRef.Some? && t.key in c.tunnels && c.tunnels[t.key] == t
    requires NewClientLeft(c, end, t, obj, answers, n)
    requires PortsRead(c, t, answers, n) && ClientNameFree(c, t) && LicenseThere(c)
    ensures var connected := Ok(answers, n + 1) && Lands(answers, n + 2);
            && t.key in end.c.tunnels
            && (Distance(end.c.tunnels[t.key]) == 0 <==> connected)
            && (Unblocked(end.c, end.c.tunnels[t.key]) <==> !Lands(answers, n + 1) || connected)
  {
    NewClientDistance(c, end, t, obj, answers, n);
    NewClientFrame(c, end, t, obj, answers, n);
    assert ServiceKey(t) in c.services;
    hide NewClientLeft, PortsRead, Ok, Lands;
  }

  lemma RefreshKeeps(c: Cluster, k: Key)
    requires k in c.tunnels
    ensures var c', t := Refreshed(c, k), c.tunnels[k];
            k in c'.tunnels && c'.tunnels[k] == t && Unblocked(c', t) == Unblocked(c, t)
  {}

  /** The state in which the calls of a new client start. */
  lemma AttemptStarts(c: Cluster, me: nat, k: Key, answers: seq<Answer>)
    requires Fresh(c, k) && Distance(c.tunnels[k]) == 1 && Unblocked(c, c.tunnels[k])
    requires LicenseOk(c, c.tunnels[k], answers) && Ok(answers, FirstClientCall(c, c.tunnels[k]))
    ensures var t, n, c1 := c.tunnels[k], FirstClientCall(c, c.tunnels[k]), AfterLicense(c, c.tunnels[k], answers);
            && t.key == k && t.spec.serviceRef.Some? && c1.tunnels == c.tunnels && c1.tunnelCache == c.tunnelCache
            && PortsRead(c1, t, answers, n) && ClientNameFree(c1, t) && LicenseThere(c1)
            && NewClientLeft(c1, SyncOnce(c, me, k, answers), t, c.tunnelCache[k].obj, answers, n)
  {
    var t := c.tunnels[k];
    UnconnectedOutcome(c, me, k, answers);
    LicenseFrameOf(c, t, answers);
    hide SyncOnce, LicenseOk, FieldsOk, NewClientLeft, FirstClientCall, AfterLicense, Ok;
  }

  /** Whatever happens to the Create of the client and to the write of its reference, once all
      calls before them work and the name is free: the Tunnel has its client stored exactly if the
      Create works and the write takes effect; and it is blocked, the name being taken by its own
      client, exactly if a Create that took effect stays without a stored reference. */
  lemma ClientBlocksExactly(c: Cluster, me: nat, k: Key, answers: seq<Answer>)
    requires Fresh(c, k) && Distance(c.tunnels[k]) == 1 && Unblocked(c, c.tunnels[k])
    requires LicenseOk(c, c.tunnels[k], answers) && Ok(answers, FirstClientCall(c, c.tunnels[k]))
    ensures var n, c' := FirstClientCall(c, c.tunnels[k]), Refreshed(SyncOnce(c, me, k, answers).c, k);
            var connected := Ok(answers, n + 1) && Lands(answers, n + 2);
            && k in c'.tunnels
            && (Distance(c'.tunnels[k]) == 0 <==> connected)
            && (Unblocked(c', c'.tunnels[k]) <==> !Lands(answers, n + 1) || connected)
  {
    var t, n, end := c.tunnels[k], FirstClientCall(c, c.tunnels[k]), SyncOnce(c, me, k, answers);
    AttemptStarts(c, me, k, answers);
    hide SyncOnce, LicenseOk, AfterLicense, PortsRead, FirstClientCall, NewClientLeft, ClientNameFree, FieldsOk;
    AttemptBlocks(AfterLicense(c, t, answers), end, t, c.tunnelCache[k].obj, answers, n);
    RefreshKeeps(end.c, k);
    hide Unblocked, Refreshed, Distance, Ok, Lands;
  }

  /** One refused write of the client's reference is never made good: the cached object now
      names the client, so the next sync on it has nothing to store; and once the cache shows the
      stored version again, the name is taken by the Tunnel's own client. */
  lemma RefusedRefWriteBlocks(c: Cluster, me: nat, k: Key, answers: seq<Answer>)
    requires Fresh(c, k) && Distance(c.tunnels[k]) == 1 && Unblocked(c, c.tunnels[k])
    requires var n := FirstClientCall(c, c.tunnels[k]);
             && LicenseOk(c, c.tunnels[k], answers)
             && Ok(answers, n) && Ok(answers, n + 1) && !Lands(answers, n + 2)
    ensures var t, end := c.tunnels[k], SyncOnce(c, me, k, answers);
            && end.err && k in end.c.tunnels && end.c.tunnels[k].status == t.status
            && k in end.c.tunnelCache
            && end.c.tunnelCache[k] == CachedTunnel(c.tunnelCache[k].obj, WithClientRef(t, ClientRef(k)))
            && StartClient(end.c.tunnelCache[k].tunnel, end.c.tunnelCache[k].obj).Redeploy?
            && !Unblocked(Refreshed(end.c, k), Refreshed(end.c, k).tunnels[k])
  {
    AttemptStarts(c, me, k, answers);
    ClientBlocksExactly(c, me, k, answers);
    hide SyncOnce, LicenseOk, AfterLicense, FirstClientCall, FieldsOk, Unblocked, IsClientOf, Refreshed,
         DefaultClientKey;
  }
}
