/** When a sync reports an error, and what it never does without what it needs. */
module Reports {
  import opened Options
  import opened Resources
  import opened Ports
  import opened Clusters
  import opened Sync
  import opened Invariants
  import opened SyncRuns
  import opened Convergence
  import opened Outcomes
  import opened ClientOutcomes

  // ---- Nothing is done without what it needs ---------------------------------------------

  /** No host is provisioned for a Tunnel whose Service the cache does not show: whatever the
      answers, the sync is an error and changes nothing. */
  lemma NoServiceNoHost(c: Cluster, me: nat, k: Key, answers: seq<Answer>)
    requires Fresh(c, k) && Distance(c.tunnels[k]) == 3 && c.tunnels[k].spec.serviceRef.Some?
    requires Key(k.namespace, c.tunnels[k].spec.serviceRef.value.name) !in c.serviceCache
    ensures Ends(SyncOnce(c, me, k, answers), c, true)
  {
    HostOutcome(c, me, k, answers);
    hide SyncOnce, FieldsOk;
  }

  /** Without the operator's license no client is made or rewritten: likewise. */
  lemma NoLicenseNoClient(c: Cluster, me: nat, k: Key, answers: seq<Answer>)
    requires Fresh(c, k) && Distance(c.tunnels[k]) <= 1
    requires Key(c.config.operatorNamespace, "inlets-license") !in c.secrets
    ensures Ends(SyncOnce(c, me, k, answers), c, true)
  {
    if Distance(c.tunnels[k]) == 1 { UnconnectedOutcome(c, me, k, answers); }
    else { ConnectedOutcome(c, me, k, answers); }
    hide SyncOnce, FieldsOk, FirstOk;
  }

  /** Up to the poll, no sync touches a Deployment. */
  lemma EarlySyncFrame(c: Cluster, me: nat, k: Key, answers: seq<Answer>)
    requires Fresh(c, k) && Distance(c.tunnels[k]) >= 2
    ensures SyncOnce(c, me, k, answers).c.deployments == c.deployments
  {
    var t := c.tunnels[k];
    hide SyncOnce, ServiceEdited, ServiceCallsOk, OnlyStatus;
    match Distance(t)
    case 4 =>
      if t.spec.serviceRef.Some? { SecretOutcome(c, me, k, answers); } else { NoReference(c, me, k, answers); }
    case 3 => HostOutcome(c, me, k, answers);
    case 2 => PollOutcome(c, me, k, answers);
  }

  lemma LicenseInPlace(c: Cluster, t: Tunnel, answers: seq<Answer>)
    requires LicenseOk(c, t, answers)
    ensures LicenseThere(c) && LicenseCurrent(AfterLicense(c, t, answers), t, OperatorLicense(c))
  {
    hide FirstOk;
  }

  /** An active Tunnel's Deployments change only with the license in place. */
  lemma ActiveSyncLicense(c: Cluster, me: nat, k: Key, answers: seq<Answer>)
    requires Fresh(c, k) && Distance(c.tunnels[k]) <= 1
    ensures var t, end := c.tunnels[k], SyncOnce(c, me, k, answers);
            && (LicenseOk(c, t, answers) ==> LicenseThere(c) && LicenseCurrent(end.c, t, OperatorLicense(c)))
            && (!LicenseOk(c, t, answers) ==> end.err && end.c.deployments == c.deployments)
  {
    var t := c.tunnels[k];
    if LicenseOk(c, t, answers) { LicenseInPlace(c, t, answers); }
    hide SyncOnce, LicenseOk, FirstOk, CopySent, CopyCurrent, LicenseThere, ClientNameFree, IsClientOf, OnlyStatus;
    if Distance(t) == 1 { UnconnectedOutcome(c, me, k, answers); } else { ConnectedOutcome(c, me, k, answers); }
  }

  /** A sync that changes any Deployment leaves the operator's license in the Tunnel's namespace. */
  lemma ClientsHaveLicense(c: Cluster, me: nat, k: Key, answers: seq<Answer>)
    requires Fresh(c, k)
    requires SyncOnce(c, me, k, answers).c.deployments != c.deployments
    ensures var c' := SyncOnce(c, me, k, answers).c;
            && Key(c.config.operatorNamespace, "inlets-license") in c.secrets
            && Key(k.namespace, "inlets-license") in c'.secrets
            && LicenseCurrent(c', c.tunnels[k], OperatorLicense(c))
  {
    hide SyncOnce, FieldsOk, LicenseOk;
    if Distance(c.tunnels[k]) <= 1 { ActiveSyncLicense(c, me, k, answers); }
    else { EarlySyncFrame(c, me, k, answers); }
  }

  // ---- No failure is silent ------------------------------------------------------------------

  /** The Create of the client does not work: its name is taken, or the call fails. */
  predicate CreateFails(c: Cluster, t: Tunnel, answers: seq<Answer>) {
    !ClientNameFree(c, t) || !Ok(answers, FirstClientCall(c, t) + 1)
  }

  /** The host is not ready. */
  predicate NotReady(answers: seq<Answer>) { Polled(answers) && !PolledReady(answers) }

  /** The Update of a client with other ports is refused. */
  predicate RewriteFails(c: Cluster, t: Tunnel, answers: seq<Answer>) {
    !Lands(answers, FirstClientCall(c, t) + 2)
  }

  /** The Tunnel's client is there and shows the Service's ports. */
  predicate Forwards(c: Cluster, t: Tunnel) {
    && DefaultClientKey(t) in c.deployments && ServiceKey(t) in c.services
    && var shown := c.deployments[DefaultClientKey(t)].annotations;
    && (shown.Some? ==> Lookup(shown.value, "inlets.dev/ports") == PortsString(c.services[ServiceKey(t)].ports))
  }

  /** What a sync without an error has achieved: the Tunnel is one step closer to its client,
      except after a poll of a host that is not ready and after a Create of the client that
      failed; an active Tunnel has the operator's license in its namespace; and a connected one
      forwards its Service's ports, except after an Update that was refused. */
  predicate Achieved(c: Cluster, c': Cluster, k: Key, answers: seq<Answer>)
    requires k in c.tunnels
  {
    var t, d := c.tunnels[k], Distance(c.tunnels[k]);
    && k in c'.tunnels
    && Distance(c'.tunnels[k])
       == (if d == 0 then 0
           else if (d == 2 && NotReady(answers)) || (d == 1 && CreateFails(c, t, answers)) then d else d - 1)
    && (d <= 1 ==> LicenseThere(c) && LicenseCurrent(c', t, OperatorLicense(c)))
    && (d == 0 ==> Forwards(c', t) || RewriteFails(c, t, answers))
  }

  lemma EarlySyncAchieves(c: Cluster, me: nat, k: Key, answers: seq<Answer>)
    requires Fresh(c, k) && Distance(c.tunnels[k]) >= 2
    requires !SyncOnce(c, me, k, answers).err
    ensures Achieved(c, SyncOnce(c, me, k, answers).c, k, answers)
  {
    var t := c.tunnels[k];
    hide SyncOnce, ServiceEdited, ServiceCallsOk, FirstOk;
    match Distance(t)
    case 4 =>
      if t.spec.serviceRef.Some? { SecretOutcome(c, me, k, answers); } else { NoReference(c, me, k, answers); }
    case 3 => HostOutcome(c, me, k, answers);
    case 2 => PollOutcome(c, me, k, answers);
  }

  lemma UnconnectedSyncAchieves(c: Cluster, me: nat, k: Key, answers: seq<Answer>)
    requires Fresh(c, k) && Distance(c.tunnels[k]) == 1 && !SyncOnce(c, me, k, answers).err
    ensures Achieved(c, SyncOnce(c, me, k, answers).c, k, answers)
  {
    var t, end, c1 := c.tunnels[k], SyncOnce(c, me, k, answers), AfterLicense(c, c.tunnels[k], answers);
    ActiveSyncLicense(c, me, k, answers);
    assert t.spec.serviceRef.Some?;
    hide SyncOnce, LicenseOk, FirstOk, CopySent, CopyCurrent, LicenseThere, LicenseCurrent, FieldsOk, AfterLicense;
    UnconnectedOutcome(c, me, k, answers);
    assert c1.tunnels == c.tunnels && c1.deployments == c.deployments by { LicenseFrameOf(c, t, answers); }
    if LicenseOk(c, t, answers) {
      assert PortsRead(c1, t, answers, FirstClientCall(c, t)) && Ok(answers, FirstClientCall(c, t) + 2);
      hide NewClientLeft, PortsRead, FirstClientCall;
      NewClientDistance(c1, end, t, c.tunnelCache[k].obj, answers, FirstClientCall(c, t));
    }
  }

  lemma ConnectedSyncAchieves(c: Cluster, me: nat, k: Key, answers: seq<Answer>)
    requires Fresh(c, k) && Distance(c.tunnels[k]) == 0 && !SyncOnce(c, me, k, answers).err
    ensures Achieved(c, SyncOnce(c, me, k, answers).c, k, answers)
  {
    var t, c1 := c.tunnels[k], AfterLicense(c, c.tunnels[k], answers);
    ActiveSyncLicense(c, me, k, answers);
    assert t.spec.serviceRef.Some? && ServiceKey(t) == ServiceKey(t);
    hide SyncOnce, LicenseOk, FirstOk, CopySent, CopyCurrent, LicenseThere, LicenseCurrent, FieldsOk, PortsString,
         ServiceKey, AfterLicense, DefaultClientKey, FirstClientCall;
    LicenseFrameOf(c, t, answers);
    ConnectedOutcome(c, me, k, answers);
  }

  /** A sync that reports success has achieved something, whichever of its calls failed. */
  lemma NoSilentFailure(c: Cluster, me: nat, k: Key, answers: seq<Answer>)
    requires Fresh(c, k) && !SyncOnce(c, me, k, answers).err
    ensures Achieved(c, SyncOnce(c, me, k, answers).c, k, answers)
  {
    hide SyncOnce, Achieved, FieldsOk;
    match Distance(c.tunnels[k])
    case 1 => UnconnectedSyncAchieves(c, me, k, answers);
    case 0 => ConnectedSyncAchieves(c, me, k, answers);
    case _ => EarlySyncAchieves(c, me, k, answers);
  }

  // ---- When a working sync is an error ---------------------------------------------------------

  /** Something that the sync of Tunnel `t` needs is not there. */
  predicate Lacks(c: Cluster, t: Tunnel, answers: seq<Answer>)
    requires |answers| >= 9
  {
    t.spec.serviceRef.None? ||
    match Distance(t)
    case 4 => false
    case 3 =>
      ServiceKey(t) !in c.serviceCache
      || SecretKey(t) !in c.secrets || Lookup(c.secrets[SecretKey(t)].data, "token") == ""
    case 2 => HostReady(answers) && (exists o <- t.owners :: o.kind == "Service") && ServiceKey(t) !in c.services
    case 1 => !LicenseThere(c) || ServiceKey(t) !in c.services
    case _ => !LicenseThere(c) || ServiceKey(t) !in c.services || DefaultClientKey(t) !in c.deployments
  }

  lemma EarlySyncErrs(c: Cluster, me: nat, k: Key, answers: seq<Answer>)
    requires Fresh(c, k) && Works(answers) && Distance(c.tunnels[k]) >= 2
    ensures SyncOnce(c, me, k, answers).err <==> Lacks(c, c.tunnels[k], answers)
  {
    var t := c.tunnels[k];
    AllWorks(answers);
    hide SyncOnce, Works, FirstOk, Ok, Lands, HostReady, PolledReady, OnlyStatus, ServiceEdited;
    match Distance(t)
    case 4 =>
      if t.spec.serviceRef.Some? { SecretOutcome(c, me, k, answers); } else { NoReference(c, me, k, answers); }
    case 3 =>
      if t.spec.serviceRef.Some? { HostOutcome(c, me, k, answers); } else { NoReference(c, me, k, answers); }
    case 2 => PollOutcome(c, me, k, answers);
  }

  lemma ActiveSyncErrs(c: Cluster, me: nat, k: Key, answers: seq<Answer>)
    requires Fresh(c, k) && Works(answers) && Distance(c.tunnels[k]) <= 1
    ensures SyncOnce(c, me, k, answers).err <==> Lacks(c, c.tunnels[k], answers)
  {
    var t := c.tunnels[k];
    WorkingLicense(c, t, answers);
    assert t.spec.serviceRef.Some?;
    hide SyncOnce, Works, FirstOk, Ok, Lands, LicenseOk, FirstClientCall, AfterLicense, OnlyStatus, LicenseThere,
         FieldsOk, IsClientOf;
    if Distance(t) == 1 { UnconnectedOutcome(c, me, k, answers); } else { ConnectedOutcome(c, me, k, answers); }
  }

  /** A sync all of whose calls work reports an error exactly if something it needs is missing. */
  lemma ErrsExactlyWhenLacking(c: Cluster, me: nat, k: Key, answers: seq<Answer>)
    requires Fresh(c, k) && Works(answers)
    ensures SyncOnce(c, me, k, answers).err <==> Lacks(c, c.tunnels[k], answers)
  {
    hide SyncOnce, Lacks, Works, FieldsOk;
    if Distance(c.tunnels[k]) >= 2 { EarlySyncErrs(c, me, k, answers); } else { ActiveSyncErrs(c, me, k, answers); }
  }

  // ---- When a working sync progresses -----------------------------------------------------------

  lemma EarlyProgress(c: Cluster, me: nat, k: Key, answers: seq<Answer>)
    requires Fresh(c, k) && Works(answers) && Distance(c.tunnels[k]) >= 2
    ensures var d, c' := Distance(c.tunnels[k]), SyncOnce(c, me, k, answers).c;
            && k in c'.tunnels
            && Distance(c'.tunnels[k]) == if Unblocked(c, c.tunnels[k]) then NextDistance(d, answers) else d
  {
    var t := c.tunnels[k];
    AllWorks(answers);
    hide SyncOnce, Works, FirstOk, Ok, Lands, HostReady, PolledReady;
    match Distance(t)
    case 4 =>
      if t.spec.serviceRef.Some? { SecretOutcome(c, me, k, answers); } else { NoReference(c, me, k, answers); }
    case 3 =>
      if t.spec.serviceRef.Some? { HostOutcome(c, me, k, answers); } else { NoReference(c, me, k, answers); }
    case 2 => PollStep(c, me, k, answers);
  }

  lemma ActiveProgress(c: Cluster, me: nat, k: Key, answers: seq<Answer>)
    requires Fresh(c, k) && Works(answers) && Distance(c.tunnels[k]) <= 1
    ensures var d, c' := Distance(c.tunnels[k]), SyncOnce(c, me, k, answers).c;
            && k in c'.tunnels
            && Distance(c'.tunnels[k]) == if Unblocked(c, c.tunnels[k]) then NextDistance(d, answers) else d
  {
    var t, c1, end := c.tunnels[k], AfterLicense(c, c.tunnels[k], answers), SyncOnce(c, me, k, answers);
    WorkingLicense(c, t, answers);
    assert t.spec.serviceRef.Some? && ServiceKey(t) == ServiceKey(t);
    assert Unblocked(c, t)
        == (Distance(t) == 1 ==> LicenseThere(c) && ServiceKey(t) in c.services && ClientNameFree(c, t));
    hide SyncOnce, Works, FirstOk, Ok, Lands, LicenseOk, FirstClientCall, AfterLicense, OnlyStatus, LicenseThere,
         FieldsOk, IsClientOf, Unblocked, ServiceKey;
    if Distance(t) == 1 {
      UnconnectedOutcome(c, me, k, answers);
      if LicenseThere(c) {
        hide NewClientLeft;
        NewClientDistance(c1, end, t, c.tunnelCache[k].obj, answers, FirstClientCall(c, t));
      }
    } else {
      ConnectedOutcome(c, me, k, answers);
    }
  }

  /** A sync whose calls work brings a Tunnel closer, or polls, exactly when it is unblocked. */
  lemma ProgressesExactly(c: Cluster, me: nat, k: Key, answers: seq<Answer>)
    requires Fresh(c, k) && Works(answers)
    ensures var d, c' := Distance(c.tunnels[k]), Refreshed(SyncOnce(c, me, k, answers).c, k);
            && k in c'.tunnels
            && Distance(c'.tunnels[k]) == if Unblocked(c, c.tunnels[k]) then NextDistance(d, answers) else d
  {
    hide SyncOnce, Works, FieldsOk, Distance, Unblocked;
    if Distance(c.tunnels[k]) >= 2 { EarlyProgress(c, me, k, answers); } else { ActiveProgress(c, me, k, answers); }
  }
}
