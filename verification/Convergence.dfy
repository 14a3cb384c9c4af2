/** What repeated syncs of one Tunnel achieve when nobody interferes. */
module Convergence {
  import opened Options
  import opened Resources
  import opened Ports
  import opened ExternalIPs
  import opened Clusters
  import opened Sync
  import opened Invariants
  import opened SyncRuns
  import opened Outcomes
  import opened ClientOutcomes

  /** The Service and the operator's license exist. */
  predicate Backed(c: Cluster, t: Tunnel) {
    t.spec.serviceRef.Some? && ServiceKey(t) in c.services && LicenseThere(c)
  }

  /** The auth secret that is there, or will be taken over, holds a token. */
  predicate SecretUsable(c: Cluster, t: Tunnel) {
    match Distance(t)
    case 4 => t.key in c.secrets ==> Token(c.secrets[t.key]) != ""
    case 3 => SecretKey(t) in c.secrets && Token(c.secrets[SecretKey(t)]) != ""
    case _ => true
  }

  predicate Ready(c: Cluster, k: Key) {
    && Fresh(c, k)
    && var t := c.tunnels[k];
    && Backed(c, t) && SecretUsable(c, t)
    && (Distance(t) > 0 ==> ClientNameFree(c, t)) && (Distance(t) >= 3 ==> ServiceKey(t) in c.serviceCache)
  }

  /** What a working sync needs, beyond a fresh cache, to bring the Tunnel closer. */
  predicate Unblocked(c: Cluster, t: Tunnel) {
    && t.spec.serviceRef.Some?
    && match Distance(t)
       case 3 =>
         ServiceKey(t) in c.serviceCache
         && SecretKey(t) in c.secrets && Token(c.secrets[SecretKey(t)]) != ""
       case 1 => LicenseThere(c) && ServiceKey(t) in c.services && ClientNameFree(c, t)
       case _ => true
  }

  /** Every call of one sync works. */
  predicate Works(answers: seq<Answer>) {
    && |answers| >= 9
    && forall i :: 0 <= i < |answers| ==>
         answers[i].mode.Success? && answers[i].password != "" && answers[i].hostId != ""
  }

  /** The provider's answer to the poll of a sync that gets as far as polling. */
  predicate HostReady(answers: seq<Answer>)
    requires |answers| >= 9
  {
    answers[3].hostStatus.Active? && answers[3].hostIP != ""
  }

  /** The informer catches up with the stored version. */
  function Refreshed(c: Cluster, k: Key): Cluster {
    if k in c.tunnels then
      c.(tunnelCache := c.tunnelCache[k := CachedTunnel(c.nextObj, c.tunnels[k])], nextObj := c.nextObj + 1)
    else c
  }

  /** The distance after one sync. */
  function NextDistance(d: nat, answers: seq<Answer>): nat
    requires |answers| >= 9
  {
    if d == 0 then 0 else if d == 2 && !HostReady(answers) then 2 else d - 1
  }

  // ---- What a sync leaves when its calls work ------------------------------------------------

  lemma {:induction false} WorksFirst(answers: seq<Answer>, n: nat)
    requires Works(answers) && n <= |answers|
    ensures FirstOk(answers, n)
  {
    if n > 0 { WorksFirst(answers, n - 1); }
  }

  lemma AllWorks(answers: seq<Answer>)
    requires Works(answers)
    ensures forall i: nat :: i < 9 ==> Ok(answers, i) && Lands(answers, i) && Nth(answers, i) == answers[i]
    ensures FirstOk(answers, 2) && FirstOk(answers, 3) && FirstOk(answers, 4) && FirstOk(answers, 5)
    ensures Polled(answers) && PolledReady(answers) == HostReady(answers)
  {
    WorksFirst(answers, 2);
    WorksFirst(answers, 3);
    WorksFirst(answers, 4);
    WorksFirst(answers, 5);
    hide FirstOk;
  }

  lemma SecretStep(c: Cluster, me: nat, k: Key, answers: seq<Answer>)
    requires Fresh(c, k) && c.tunnels[k].spec.serviceRef.Some? && Works(answers) && Distance(c.tunnels[k]) == 4
    ensures var c' := SyncOnce(c, me, k, answers).c;
            && k in c'.tunnels && c'.tunnels[k] == WithAuthRef(c.tunnels[k]).(rv := c'.tunnels[k].rv)
            && c' == c.(tunnels := c'.tunnels, versions := c'.versions, secrets := c'.secrets, nextRv := c'.nextRv)
            && k in c'.secrets && (if k in c.secrets then c'.secrets == c.secrets else Token(c'.secrets[k]) != "")
            && c'.secrets == c.secrets[k := c'.secrets[k]]
  {
    AllWorks(answers);
    SecretOutcome(c, me, k, answers);
    assert Nth(answers, 3).password != "";
    hide SyncOnce, Works, FirstOk, Ok, Lands, Nth, FieldsOk;
    if k in c.secrets { assert c.secrets[k := c.secrets[k]] == c.secrets; }
  }

  /** The host that a sync provisions and records. */
  function ReadyHost(c: Cluster, k: Key): Host
    requires k in c.tunnels && SecretKey(c.tunnels[k]) in c.secrets
  {
    Host(Token(c.secrets[SecretKey(c.tunnels[k])]), c.tunnels[k].uid, Recorded(k))
  }

  lemma HostStep(c: Cluster, me: nat, k: Key, answers: seq<Answer>)
    requires Fresh(c, k) && Unblocked(c, c.tunnels[k]) && Works(answers) && Distance(c.tunnels[k]) == 3
    ensures var c' := SyncOnce(c, me, k, answers).c;
            var t' := WithHost(c.tunnels[k], Provisioning, answers[5].hostId, "");
            && k in c'.tunnels && c'.tunnels[k] == t'.(rv := c.nextRv)
            && c' == c.(tunnels := c'.tunnels, versions := c'.versions, hosts := c'.hosts, nextRv := c'.nextRv)
            && c'.hosts == c.hosts[answers[5].hostId := ReadyHost(c, k)]
  {
    AllWorks(answers);
    HostOutcome(c, me, k, answers);
    hide SyncOnce, Works, FirstOk, FieldsOk;
  }

  predicate KeepsServiceKeys(c: Cluster, c': Cluster) {
    forall j <- c.services :: j in c'.services && (c.services[j].key == j ==> c'.services[j].key == j)
  }

  lemma PollStep(c: Cluster, me: nat, k: Key, answers: seq<Answer>)
    requires Fresh(c, k) && Works(answers) && Distance(c.tunnels[k]) == 2
    ensures var c' := SyncOnce(c, me, k, answers).c;
            if HostReady(answers) then
              var t' := WithHost(c.tunnels[k], Active, c.tunnels[k].status.hostID, answers[3].hostIP);
              && k in c'.tunnels && c'.tunnels[k] == t'.(rv := c'.tunnels[k].rv)
              && c' == c.(tunnels := c'.tunnels, versions := c'.versions, services := c'.services,
                          nextRv := c'.nextRv, edits := c'.edits)
              && KeepsServiceKeys(c, c')
            else c' == c
  {
    AllWorks(answers);
    PollOutcome(c, me, k, answers);
    hide SyncOnce, Works, FirstOk, FieldsOk, Polled, PolledReady, HostReady, ServiceCallsOk;
  }

  /** The secrets afterwards: the copy is replaced unless it is current. */
  function LicensedSecrets(c: Cluster, t: Tunnel, license: map<string, string>): map<Key, Secret> {
    if LicenseCurrent(c, t, license) then c.secrets else c.secrets[LicenseKey(t) := Secret(c.nextRv, license)]
  }

  lemma WorkingLicense(c: Cluster, t: Tunnel, answers: seq<Answer>)
    requires Works(answers)
    ensures LicenseOk(c, t, answers) == LicenseThere(c)
    ensures var n := FirstClientCall(c, t);
            && Ok(answers, n) && Ok(answers, n + 1) && Ok(answers, n + 2)
            && Lands(answers, n + 1) && Lands(answers, n + 2)
    ensures var c1 := AfterLicense(c, t, answers);
            && c1 == c.(secrets := c1.secrets, nextRv := c1.nextRv) && (!LicenseThere(c) ==> c1 == c)
            && (LicenseThere(c) ==> c1.secrets == LicensedSecrets(c, t, OperatorLicense(c)))
  {
    AllWorks(answers);
    var n := FirstClientCall(c, t);
    assert n + 2 < 9 && Ok(answers, n) && Ok(answers, n + 1) && Ok(answers, n + 2);
    hide FirstOk, Works;
  }

  lemma IdleStep(c: Cluster, me: nat, k: Key, answers: seq<Answer>)
    requires Fresh(c, k) && Backed(c, c.tunnels[k]) && Works(answers) && Distance(c.tunnels[k]) == 0
    ensures var c' := SyncOnce(c, me, k, answers).c;
            && c' == c.(secrets := c'.secrets, deployments := c'.deployments, nextRv := c'.nextRv)
            && c'.secrets == LicensedSecrets(c, c.tunnels[k], OperatorLicense(c))
  {
    WorkingLicense(c, c.tunnels[k], answers);
    ConnectedOutcome(c, me, k, answers);
    hide SyncOnce, Works, FieldsOk, LicenseOk, AfterLicense, FirstClientCall, LicensedSecrets, IsClientOf;
  }

  /** The stored reference is the default name exactly if that name was free, and empty if not. */
  lemma ClientStep(c: Cluster, me: nat, k: Key, answers: seq<Answer>)
    requires Fresh(c, k) && Backed(c, c.tunnels[k]) && Works(answers) && Distance(c.tunnels[k]) == 1
    ensures var c' := SyncOnce(c, me, k, answers).c;
            var ref := if ClientNameFree(c, c.tunnels[k]) then ClientRef(k) else ResourceRef("", "");
            && k in c'.tunnels && c'.tunnels[k] == WithClientRef(c.tunnels[k], ref).(rv := c'.tunnels[k].rv)
            && c' == c.(tunnels := c'.tunnels, versions := c'.versions, secrets := c'.secrets,
                        deployments := c'.deployments, nextRv := c'.nextRv, tunnelCache := c'.tunnelCache)
            && c'.secrets == LicensedSecrets(c, c.tunnels[k], OperatorLicense(c))
            && DefaultClientKey(c.tunnels[k]) in c'.deployments
  {
    WorkingLicense(c, c.tunnels[k], answers);
    UnconnectedOutcome(c, me, k, answers);
    hide SyncOnce, Works, FieldsOk, LicenseOk, AfterLicense, FirstClientCall, LicensedSecrets, IsClientOf, Ok, Lands;
  }

  // ---- One sync -----------------------------------------------------------------

  /** What keeps a Tunnel ready across its own sync. */
  lemma ReadyAgain(c: Cluster, c': Cluster, k: Key)
    requires Ready(c, k) && k in c'.tunnels && c'.tunnels[k].key == k && FieldsOk(c'.tunnels[k])
    requires c'.tunnels[k].spec == c.tunnels[k].spec
    requires c'.serviceCache == c.serviceCache && c'.config == c.config && KeepsServiceKeys(c, c')
    requires forall j <- c.secrets :: j in c'.secrets
    requires SecretUsable(c', c'.tunnels[k]) && Distance(c'.tunnels[k]) <= Distance(c.tunnels[k])
    requires Distance(c'.tunnels[k]) > 0 ==> c'.deployments == c.deployments && Distance(c.tunnels[k]) > 0
    ensures Ready(Refreshed(c', k), k) && Refreshed(c', k).tunnels[k] == c'.tunnels[k]
  {
    hide FieldsOk, Distance;
    assert ServiceKey(c'.tunnels[k]) == ServiceKey(c.tunnels[k]);
  }

  predicate Progresses(c: Cluster, c': Cluster, k: Key, answers: seq<Answer>)
    requires k in c.tunnels && |answers| >= 9
  {
    && Ready(Refreshed(c', k), k)
    && Distance(Refreshed(c', k).tunnels[k]) == NextDistance(Distance(c.tunnels[k]), answers)
  }

  lemma SecretProgresses(c: Cluster, me: nat, k: Key, answers: seq<Answer>)
    requires Ready(c, k) && Works(answers) && Distance(c.tunnels[k]) == 4
    ensures Progresses(c, SyncOnce(c, me, k, answers).c, k, answers)
  {
    SecretStep(c, me, k, answers);
    hide SyncOnce, Works;
    ReadyAgain(c, SyncOnce(c, me, k, answers).c, k);
    hide Ready;
  }

  lemma HostProgresses(c: Cluster, me: nat, k: Key, answers: seq<Answer>)
    requires Ready(c, k) && Works(answers) && Distance(c.tunnels[k]) == 3
    ensures Progresses(c, SyncOnce(c, me, k, answers).c, k, answers)
  {
    HostStep(c, me, k, answers);
    hide SyncOnce, Works;
    ReadyAgain(c, SyncOnce(c, me, k, answers).c, k);
    hide Ready;
  }

  lemma ActiveFields(t: Tunnel, ip: string, rv: nat)
    requires FieldsOk(t) && t.status.hostStatus.Provisioning? && ip != ""
    ensures FieldsOk(WithHost(t, Active, t.status.hostID, ip).(rv := rv))
  {}

  lemma StillReady(c: Cluster, k: Key, answers: seq<Answer>)
    requires Ready(c, k) && Distance(c.tunnels[k]) == 2 && |answers| >= 9 && !HostReady(answers)
    ensures Progresses(c, c, k, answers)
  {
    hide FieldsOk, HostReady;
  }

  lemma ActivationProgresses(c: Cluster, c': Cluster, k: Key, answers: seq<Answer>)
    requires Ready(c, k) && Distance(c.tunnels[k]) == 2 && |answers| >= 9 && HostReady(answers)
    requires k in c'.tunnels && KeepsServiceKeys(c, c')
    requires c'.tunnels[k] == WithHost(c.tunnels[k], Active, c.tunnels[k].status.hostID, answers[3].hostIP).(
                                rv := c'.tunnels[k].rv)
    requires c' == c.(tunnels := c'.tunnels, versions := c'.versions, services := c'.services,
                      nextRv := c'.nextRv, edits := c'.edits)
    ensures Progresses(c, c', k, answers)
  {
    ActiveFields(c.tunnels[k], answers[3].hostIP, c'.tunnels[k].rv);
    hide FieldsOk, KeepsServiceKeys;
    ReadyAgain(c, c', k);
    hide Ready;
  }

  lemma PollProgresses(c: Cluster, me: nat, k: Key, answers: seq<Answer>)
    requires Ready(c, k) && Works(answers) && Distance(c.tunnels[k]) == 2
    ensures Progresses(c, SyncOnce(c, me, k, answers).c, k, answers)
  {
    var c' := SyncOnce(c, me, k, answers).c;
    PollStep(c, me, k, answers);
    hide SyncOnce, Works, FieldsOk, HostReady, KeepsServiceKeys, Backed, ClientNameFree, Progresses;
    if HostReady(answers) { ActivationProgresses(c, c', k, answers); } else { StillReady(c, k, answers); }
  }

  lemma ClientProgresses(c: Cluster, me: nat, k: Key, answers: seq<Answer>)
    requires Ready(c, k) && Works(answers) && Distance(c.tunnels[k]) == 1
    ensures Progresses(c, SyncOnce(c, me, k, answers).c, k, answers)
  {
    ClientStep(c, me, k, answers);
    hide SyncOnce, Works;
    ReadyAgain(c, SyncOnce(c, me, k, answers).c, k);
    hide Ready;
  }

  lemma IdleProgresses(c: Cluster, me: nat, k: Key, answers: seq<Answer>)
    requires Ready(c, k) && Works(answers) && Distance(c.tunnels[k]) == 0
    ensures Progresses(c, SyncOnce(c, me, k, answers).c, k, answers)
  {
    IdleStep(c, me, k, answers);
    hide SyncOnce, Works;
    ReadyAgain(c, SyncOnce(c, me, k, answers).c, k);
    hide Ready;
  }

  /** One sync whose calls work, with the cache fresh again afterwards, takes a Tunnel one
      step closer to having a client; only the poll of a host that is not ready waits. */
  lemma SyncProgresses(c: Cluster, me: nat, k: Key, answers: seq<Answer>)
    requires Ready(c, k) && Works(answers)
    ensures var c' := Refreshed(SyncOnce(c, me, k, answers).c, k);
            Ready(c', k) && Distance(c'.tunnels[k]) == NextDistance(Distance(c.tunnels[k]), answers)
  {
    assert k in c.tunnels && |answers| >= 9;
    hide Ready, Works, SyncOnce;
    match Distance(c.tunnels[k])
    case 4 => SecretProgresses(c, me, k, answers);
    case 3 => HostProgresses(c, me, k, answers);
    case 2 => PollProgresses(c, me, k, answers);
    case 1 => ClientProgresses(c, me, k, answers);
    case 0 => IdleProgresses(c, me, k, answers);
  }

  // ---- Any number of syncs ----------------------------------------------------------

  /** One round: a sync of the Tunnel, then the cache catches up. */
  function Rounds(c: Cluster, me: nat, k: Key, rounds: seq<seq<Answer>>): Cluster {
    if rounds == [] then c
    else
      var before := Rounds(c, me, k, rounds[..|rounds| - 1]);
      Refreshed(SyncOnce(before, me, k, rounds[|rounds| - 1]).c, k)
  }

  predicate AllWork(rounds: seq<seq<Answer>>) { forall i :: 0 <= i < |rounds| ==> Works(rounds[i]) }

  /** How many of the rounds poll a host that is not ready, starting at distance `d`. */
  function Waits(d: nat, rounds: seq<seq<Answer>>): nat
    requires AllWork(rounds)
  {
    if rounds == [] then 0
    else
      var last := |rounds| - 1;
      var w := Waits(d, rounds[..last]);
      if d + w == last + 2 && !HostReady(rounds[last]) then w + 1 else w
  }

  function Remaining(d: nat, done: nat): nat { if done <= d then d - done else 0 }

  predicate ReadyAt(c: Cluster, k: Key, d: nat) { Ready(c, k) && Distance(c.tunnels[k]) == d }

  lemma RoundProgresses(c: Cluster, me: nat, k: Key, d: nat, answers: seq<Answer>)
    requires ReadyAt(c, k, d) && Works(answers)
    ensures ReadyAt(Refreshed(SyncOnce(c, me, k, answers).c, k), k, NextDistance(d, answers))
  {
    SyncProgresses(c, me, k, answers);
  }

  /** A Tunnel is exactly as far from its client as the rounds that did not wait leave it;
      so from distance `d` with `w` waits it has its client after `d + w` rounds. */
  lemma {:induction false} RoundsConverge(c: Cluster, me: nat, k: Key, d: nat, rounds: seq<seq<Answer>>)
    requires ReadyAt(c, k, d) && AllWork(rounds)
    ensures ReadyAt(Rounds(c, me, k, rounds), k, Remaining(d + Waits(d, rounds), |rounds|))
  {
    hide ReadyAt, Works, SyncOnce, Refreshed;
    if rounds != [] {
      var last := |rounds| - 1;
      RoundsConverge(c, me, k, d, rounds[..last]);
      assert Works(rounds[last]);
      var before := Rounds(c, me, k, rounds[..last]);
      RoundProgresses(before, me, k, Remaining(d + Waits(d, rounds[..last]), last), rounds[last]);
    }
  }
}
