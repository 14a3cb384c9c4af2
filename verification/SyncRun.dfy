/** One sync of a Tunnel with no other thread in between. */
module SyncRuns {
  import opened Options
  import opened Resources
  import opened Clusters
  import opened Sync
  import opened Invariants

  /** The syncs still needed: no secret 4, secret 3, provisioning 2, active 1, client 0. */
  function Distance(t: Tunnel): nat {
    match t.status.hostStatus
    case NotStarted => if SecretName(t) == "" then 4 else 3
    case Provisioning => 2
    case _ => if Named(t.status.clientDeploymentRef) then 0 else 1
  }

  /** The Tunnel's Service, if stored, is stored under its own key. */
  predicate ServiceKeyed(c: Cluster, t: Tunnel) {
    ServiceKey(t) in c.services ==> c.services[ServiceKey(t)].key == ServiceKey(t)
  }

  /** The Tunnel is stored, the cache shows the stored version, and no Service shadows its key. */
  predicate Fresh(c: Cluster, k: Key) {
    && k in c.tunnels && c.tunnels[k].key == k && FieldsOk(c.tunnels[k]) && ServiceKeyed(c, c.tunnels[k])
    && k in c.tunnelCache && c.tunnelCache[k].tunnel == c.tunnels[k]
    && k !in c.serviceCache
  }

  function DefaultClientKey(t: Tunnel): Key { Key(t.key.namespace, t.key.name + "-client") }

  predicate ClientNameFree(c: Cluster, t: Tunnel) { DefaultClientKey(t) !in c.deployments }

  predicate LicenseThere(c: Cluster) { Key(c.config.operatorNamespace, LICENSE_SECRET) in c.secrets }

  function OperatorLicense(c: Cluster): map<string, string>
    requires LicenseThere(c)
  {
    c.secrets[Key(c.config.operatorNamespace, LICENSE_SECRET)].data
  }

  /** The copy in the Tunnel's namespace has this license. */
  predicate LicenseCurrent(c: Cluster, t: Tunnel, license: map<string, string>) {
    LicenseKey(t) in c.secrets && Lookup(c.secrets[LicenseKey(t)].data, "license") == Lookup(license, "license")
  }

  function SyncOnce(c: Cluster, me: nat, k: Key, answers: seq<Answer>): Outcome {
    Run(c, me, Begin(k, LookupService), answers)
  }

  /** How a run ends. */
  predicate Ends(o: Outcome, c: Cluster, err: bool) { o.c == c && o.err == err }

  lemma RunStep(c: Cluster, me: nat, pc: Pc, answers: seq<Answer>)
    requires !pc.Done?
    ensures var (c', pc') := Step(c, me, pc, Head(answers));
            Run(c, me, pc, answers) == Run(c', me, pc', Tail(answers))
  {
    StepDescends(c, me, pc, Head(answers));
  }

  lemma RunDone(c: Cluster, me: nat, err: bool, answers: seq<Answer>)
    ensures Run(c, me, Done(err), answers) == Outcome(c, err, answers)
  {}

  lemma BookTouchesHosts(c: Cluster, id: string, p: Place)
    ensures Book(c, id, p) == c.(hosts := Book(c, id, p).hosts)
  {}

  // ---- Calls by their number ---------------------------------------------------------

  /** The answer to call number `i` of a sync, counted from 0. */
  function Nth(answers: seq<Answer>, i: nat): Answer { if i < |answers| then answers[i] else REFUSED }

  function From(answers: seq<Answer>, i: nat): seq<Answer> { if i <= |answers| then answers[i..] else [] }

  /** Call `i` works. */
  predicate Ok(answers: seq<Answer>, i: nat) { Nth(answers, i).mode.Success? }

  /** Call `i`, if it is a write, takes effect. */
  predicate Lands(answers: seq<Answer>, i: nat) { !Nth(answers, i).mode.Refused? }

  /** The first `n` calls work. */
  predicate FirstOk(answers: seq<Answer>, n: nat) { n == 0 || (FirstOk(answers, n - 1) && Ok(answers, n - 1)) }

  lemma {:induction false} FewerOk(answers: seq<Answer>, n: nat, m: nat)
    requires m <= n && FirstOk(answers, n)
    ensures FirstOk(answers, m)
  {
    if m < n { FewerOk(answers, n - 1, m); }
  }

  lemma NthCall(c: Cluster, me: nat, pc: Pc, answers: seq<Answer>, i: nat)
    requires !pc.Done?
    ensures var (c', pc') := Step(c, me, pc, Nth(answers, i));
            Run(c, me, pc, From(answers, i)) == Run(c', me, pc', From(answers, i + 1))
  {
    RunStep(c, me, pc, From(answers, i));
    hide Step;
    assert Head(From(answers, i)) == Nth(answers, i) && Tail(From(answers, i)) == From(answers, i + 1);
  }
}
