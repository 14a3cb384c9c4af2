/** The secrets that the operator's clients mount are there, in every state of every run. */
module Mounts {
  import opened Options
  import opened Resources
  import opened Ports
  import opened ExternalIPs
  import opened Clusters
  import opened Sync
  import opened Machine
  import opened Invariants
  import opened Preservation
  import opened Frames
  import opened Guarantees
  import ClientOutcomes

  /** The thread is past syncTunnelLicense. */
  predicate MakesClient(pc: Pc) { pc.Client? || pc.Redeploy? }

  predicate MountsOk(s: State) {
    && (forall i <- s.threads :: MakesClient(s.threads[i].pc) ==> LicenseKey(s.threads[i].pc.t) in s.c.secrets)
    && (forall d <- s.c.deployments :: s.c.deployments[d].owner.Some? ==>
          Key(d.namespace, LICENSE_SECRET) in s.c.secrets)
  }

  lemma SecretCreated(c: Cluster, key: Key, data: map<string, string>, m: Mode)
    ensures var (c', r) := CreateSecret(c, key, data, m);
            c'.deployments == c.deployments && (r.Made? ==> key in c'.secrets)
  {
    if !m.Refused? && key !in c.secrets {
      var c1 := c.(secrets := c.secrets[key := Secret(c.nextRv, data)], nextRv := c.nextRv + 1);
      assert CreateSecret(c, key, data, m) == (c1, if m.Lost? then Failed else Made);
      hide CreateSecret;
    }
  }

  lemma SecretUpdated(c: Cluster, key: Key, secret: Secret, m: Mode)
    ensures var (c', ok) := UpdateSecret(c, key, secret, m);
            c'.deployments == c.deployments && (ok ==> key in c'.secrets)
  {
    if !m.Refused? && key in c.secrets && c.secrets[key].rv == secret.rv {
      var c1 := c.(secrets := c.secrets[key := secret.(rv := c.nextRv)], nextRv := c.nextRv + 1);
      assert UpdateSecret(c, key, secret, m) == (c1, m.Success?);
      hide UpdateSecret;
    }
  }

  lemma LicenseStepReaches(c: Cluster, t: Tunnel, obj: nat, call: LicenseCall, a: Answer)
    ensures var (c', pc') := StepLicense(c, t, obj, call, a);
            c'.deployments == c.deployments && (MakesClient(pc') ==> pc'.t == t && LicenseKey(t) in c'.secrets)
  {
    hide LicenseKey, CreateSecret, UpdateSecret;
    match call
    case GetLicense =>
    case GetLicenseCopy(_) =>
    case UpdateLicense(secret) => SecretUpdated(c, LicenseKey(t), secret, a.mode);
    case NewLicense(data) => SecretCreated(c, LicenseKey(t), data, a.mode);
  }

  lemma ClientStepStays(c: Cluster, t: Tunnel, obj: nat, call: ClientCall, a: Answer)
    ensures var pc' := StepClient(c, t, obj, call, a).1; MakesClient(pc') ==> pc'.t.key == t.key
  {
    hide UpdateTunnelStatus, MakeClientDeployment, CreatedRef, CreateDeployment, WriteThrough;
  }

  lemma RedeployStepStays(c: Cluster, t: Tunnel, call: RedeployCall, a: Answer)
    ensures var pc' := StepRedeploy(c, t, call, a).1; MakesClient(pc') ==> pc'.t == t
  {
    hide MakeClientDeployment, PortsDiffer;
  }

  /** A thread gets to its client's calls with the license in place. */
  lemma ClientStepReached(c: Cluster, me: nat, pc: Pc, a: Answer)
    requires MakesClient(pc) ==> LicenseKey(pc.t) in c.secrets
    requires forall k <- c.secrets :: k in Step(c, me, pc, a).0.secrets
    ensures var (c', pc') := Step(c, me, pc, a);
            MakesClient(pc') ==> LicenseKey(pc'.t) in c'.secrets
  {
    hide StepLicense, StepClient, StepRedeploy, UpdateTunnelStatus, UpdateService, UpdateServiceStatus, OwnsService,
         EditService, ManageService, CreateTunnel, CreateSecret;
    match pc
    case License(t, obj, call) => LicenseStepReaches(c, t, obj, call, a);
    case Client(t, obj, call) => ClientStepStays(c, t, obj, call, a);
    case Redeploy(t, call) => RedeployStepStays(c, t, call, a);
    case _ =>
  }

  lemma StatusWriteKeeps(c: Cluster, t: Tunnel, m: Mode)
    ensures UpdateTunnelStatus(c, t, m).0.deployments == c.deployments
  {}

  lemma TunnelWriteKeeps(c: Cluster, t: Tunnel, m: Mode)
    ensures UpdateTunnelStatus(c, t, m).0.deployments == c.deployments
    ensures CreateTunnel(c, t.key, t.owners, t.spec, m).0.deployments == c.deployments
    ensures DeleteTunnel(c, t.key).deployments == c.deployments
  {
    StatusWriteKeeps(c, t, m);
    hide UpdateTunnelStatus;
  }

  lemma ServiceWriteKeeps(c: Cluster, s: Service, op: EditOp, m: Mode)
    ensures UpdateService(c, s, op, m).0.deployments == c.deployments
    ensures UpdateServiceStatus(c, s, m).0.deployments == c.deployments
  {}

  lemma GenerateSpares(c: Cluster, s: Service, call: GenerateCall, a: Answer)
    ensures StepGenerate(c, s, call, a).0.deployments == c.deployments
  {
    hide UpdateTunnelStatus, CreateTunnel, DeleteTunnel, ManageService;
    var key := TunnelKeyFor(s.key);
    match call
    case GetTunnel =>
    case NewTunnel => TunnelWriteKeeps(c, Tunnel(key, 0, 0, GeneratedOwners(s), GeneratedSpec(s), NEW_STATUS), a.mode);
    case MarkGenerated(t) => TunnelWriteKeeps(c, WithGenerated(t), a.mode);
    case DropTunnel => TunnelWriteKeeps(c, Tunnel(key, 0, 0, [], GeneratedSpec(s), NEW_STATUS), a.mode);
  }

  lemma AuthSpares(c: Cluster, t: Tunnel, call: AuthCall, a: Answer)
    ensures StepAuth(c, t, call, a).0.deployments == c.deployments
  {
    hide UpdateTunnelStatus;
    if call.WriteAuthRef? { TunnelWriteKeeps(c, WithAuthRef(t), a.mode); }
  }

  lemma ProvisionSpares(c: Cluster, me: nat, t: Tunnel, call: ProvisionCall, a: Answer)
    ensures StepProvision(c, me, t, call, a).0.deployments == c.deployments
  {
    hide UpdateTunnelStatus, StepProvisionHost;
    match call
    case ProvisionHost(token) => HostCall(c, me, t, token, a);
    case WriteProvisioning(id) => TunnelWriteKeeps(c, WithHost(t, Provisioning, id, ""), a.mode);
    case _ =>
  }

  lemma PollSpares(c: Cluster, t: Tunnel, call: PollCall, a: Answer)
    ensures StepPoll(c, t, call, a).0.deployments == c.deployments
  {
    hide UpdateTunnelStatus, StartExpose;
    if call.WriteActive? { TunnelWriteKeeps(c, WithHost(t, Active, t.status.hostID, call.address), a.mode); }
  }

  lemma ExposeSpares(c: Cluster, t: Tunnel, ip: string, call: ExposeCall, a: Answer)
    ensures StepExpose(c, t, ip, call, a).0.deployments == c.deployments
  {
    hide UpdateService, UpdateServiceStatus, EditService, ServiceEdit;
    match call
    case GetService =>
    case WriteService(s) => ServiceWriteKeeps(c, s, ServiceEdit(t, ip), a.mode);
    case WriteIngress(s) => ServiceWriteKeeps(c, s, Withdraw(""), a.mode);
  }

  lemma DisposeSpares(c: Cluster, t: Tunnel, call: DisposeCall, a: Answer)
    ensures StepDispose(c, t, call, a).0.deployments == c.deployments
  {}

  lemma ClientSpares(c: Cluster, t: Tunnel, obj: nat, call: ClientCall, a: Answer)
    requires !call.NewClient?
    ensures StepClient(c, t, obj, call, a).0.deployments == c.deployments
  {
    hide UpdateTunnelStatus, MakeClientDeployment;
    TunnelWriteKeeps(c, t, a.mode);
  }

  lemma OthersKeepDeployments(c: Cluster, me: nat, pc: Pc, a: Answer)
    requires !MakesClient(pc) || (pc.Client? && !pc.cli.NewClient?)
    ensures Step(c, me, pc, a).0.deployments == c.deployments
  {
    hide StepBegin, StepGenerate, StepAuth, StepProvision, StepPoll, StepExpose, StepLicense, StepClient, StepRedeploy,
         StepDispose;
    match pc
    case Generate(s, call) => GenerateSpares(c, s, call, a);
    case Auth(t, call) => AuthSpares(c, t, call, a);
    case Provision(t, call) => ProvisionSpares(c, me, t, call, a);
    case Poll(t, call) => PollSpares(c, t, call, a);
    case Expose(t, ip, call) => ExposeSpares(c, t, ip, call, a);
    case License(t, obj, call) => LicenseStepReaches(c, t, obj, call, a);
    case Client(t, obj, call) => ClientSpares(c, t, obj, call, a);
    case Dispose(t, call) => DisposeSpares(c, t, call, a);
    case _ =>
  }

  lemma NewDeploymentAt(c: Cluster, t: Tunnel, obj: nat, d: Deployment, a: Answer, k: Key)
    requires k in StepClient(c, t, obj, NewClient(d), a).0.deployments
    ensures k == d.key
            || (k in c.deployments
                && StepClient(c, t, obj, NewClient(d), a).0.deployments[k] == c.deployments[k])
  {
    ClientOutcomes.CreateInMode(c, d, a.mode);
    hide CreatedRef, CreateDeployment;
    ClientOutcomes.SeenThrough(CreateDeployment(c, d, a.mode).0, t, obj, CreatedRef(c, d, a.mode));
    hide WriteThrough;
  }

  lemma RewrittenAt(c: Cluster, t: Tunnel, call: RedeployCall, a: Answer, k: Key)
    requires k in StepRedeploy(c, t, call, a).0.deployments
    ensures (k in c.deployments && StepRedeploy(c, t, call, a).0.deployments[k] == c.deployments[k])
            || (call.UpdateClient? && k == call.rebuilt.key)
  {
    hide MakeClientDeployment, PortsDiffer;
  }

  /** Where a call changes the Deployments. */
  lemma DeploymentWritten(c: Cluster, me: nat, pc: Pc, a: Answer, k: Key)
    requires PcOk(c, me, pc) && k in Step(c, me, pc, a).0.deployments
    ensures (k in c.deployments && Step(c, me, pc, a).0.deployments[k] == c.deployments[k])
            || (MakesClient(pc) && k.namespace == pc.t.key.namespace)
  {
    hide BuiltFrom, Close, StepClient, StepRedeploy;
    if pc.Client? && pc.cli.NewClient? {
      NewDeploymentAt(c, pc.t, pc.obj, pc.cli.d, a, k);
    } else if pc.Redeploy? {
      RewrittenAt(c, pc.t, pc.red, a, k);
    } else {
      hide PcOk;
      OthersKeepDeployments(c, me, pc, a);
      hide Step;
    }
  }

  lemma DeleteKeepsDeployments(c: Cluster, key: Key)
    ensures DeleteTunnel(c, key).deployments == c.deployments
  {}

  lemma DeliverSpares(s: State, uid: nat, tombstone: bool)
    requires Enabled(s, Deliver(uid, tombstone))
    ensures var s' := DeliverEvent(s, uid, tombstone);
            && s'.c.deployments == s.c.deployments
            && forall i <- s'.threads :: MakesClient(s'.threads[i].pc) ==>
                 i in s.threads && s'.threads[i] == s.threads[i]
  {}

  /** One call of one thread. */
  lemma CallKeepsMounts(s: State, i: nat, a: Answer)
    requires Inv(s) && MountsOk(s) && Enabled(s, Call(i, a))
    ensures MountsOk(Machine.Apply(s, Call(i, a)))
  {
    var pc := s.threads[i].pc;
    var (c', pc') := Step(s.c, i, pc, a);
    forall k <- s.c.secrets ensures k in c'.secrets { SecretsChangeExactly(s, Call(i, a), k); }
    assert PcOk(s.c, i, pc);
    hide Inv, PcOk;
    ClientStepReached(s.c, i, pc, a);
    forall d <- c'.deployments | c'.deployments[d].owner.Some? ensures Key(d.namespace, LICENSE_SECRET) in c'.secrets {
      DeploymentWritten(s.c, i, pc, a, d);
    }
    hide Step;
  }

  lemma OutsideDeployments(s: State, act: Action, d: Key)
    requires Enabled(s, act) && !act.Call? && d in Machine.Apply(s, act).c.deployments
    ensures var dep := Machine.Apply(s, act).c.deployments[d];
            (d in s.c.deployments && dep == s.c.deployments[d]) || dep.owner.None?
  {
    hide DeleteTunnel, DeliverEvent;
    match act
    case RemoveTunnel(key) => DeleteKeepsDeployments(s.c, key);
    case Deliver(uid, _) => DeliverSpares(s, uid, act.tombstone);
    case AddTunnel(key, owners, spec) => TunnelWriteKeeps(s.c, Tunnel(key, 0, 0, owners, spec, NEW_STATUS), Success);
    case _ =>
  }

  lemma OutsideThreads(s: State, act: Action, i: nat)
    requires Enabled(s, act) && !act.Call? && i in Machine.Apply(s, act).threads
    ensures var pc := Machine.Apply(s, act).threads[i].pc;
            MakesClient(pc) ==> i in s.threads && pc == s.threads[i].pc
  {
    hide DeleteTunnel, DeliverEvent, CreateTunnel, CreateSecret, CreateDeployment;
    match act
    case Deliver(uid, _) => DeliverSpares(s, uid, act.tombstone);
    case _ =>
  }

  /** One change by anybody else. */
  lemma OutsideKeepsMounts(s: State, act: Action)
    requires Inv(s) && MountsOk(s) && Enabled(s, act) && !act.Call?
    ensures MountsOk(Machine.Apply(s, act))
  {
    var s' := Machine.Apply(s, act);
    forall k <- s.c.secrets ensures k in s'.c.secrets { SecretsChangeExactly(s, act, k); }
    forall d <- s'.c.deployments | s'.c.deployments[d].owner.Some?
      ensures Key(d.namespace, LICENSE_SECRET) in s'.c.secrets
    {
      OutsideDeployments(s, act, d);
    }
    forall i <- s'.threads | MakesClient(s'.threads[i].pc) ensures LicenseKey(s'.threads[i].pc.t) in s'.c.secrets {
      OutsideThreads(s, act, i);
    }
    hide Inv, Machine.Apply;
  }

  lemma {:induction false} RunKeepsMounts(states: seq<State>, acts: seq<Action>, n: nat)
    requires IsRun(states, acts) && n < |states|
    ensures MountsOk(states[n])
  {
    if n > 0 {
      RunKeepsMounts(states, acts, n - 1);
      RunKeeps(states, acts, n - 1);
      assert Follows(states[n - 1], acts[n - 1], states[n]);
      hide Inv, MountsOk, IsRun;
      if acts[n - 1].Call? { CallKeepsMounts(states[n - 1], acts[n - 1].i, acts[n - 1].a); }
      else { OutsideKeepsMounts(states[n - 1], acts[n - 1]); }
    }
  }

  lemma AuthSecretThere(c: Cluster, d: Key)
    requires ClusterOk(c) && d in c.deployments && c.deployments[d].owner.Some?
    ensures c.deployments[d].secretName == LICENSE_SECRET || Key(d.namespace, c.deployments[d].secretName) in c.secrets
  {
    var dep := c.deployments[d];
    assert dep.key == d && DeploymentOk(c, dep);
    var r :| r in c.versions && BuiltFrom(dep, c.versions[r]);
    assert FieldsOk(c.versions[r]) && c.versions[r].status.hostID != "";
    assert HasToken(c, c.versions[r], c.hosts[c.versions[r].status.hostID].token);
  }

  /** Both secrets that a Deployment of the operator mounts, the token and the license, are in its
      namespace, in every state of every run. */
  lemma MountedSecretsExist(states: seq<State>, acts: seq<Action>, n: nat, d: Key)
    requires IsRun(states, acts) && n < |states|
    requires d in states[n].c.deployments && states[n].c.deployments[d].owner.Some?
    ensures var c := states[n].c;
            && Key(d.namespace, c.deployments[d].secretName) in c.secrets
            && Key(d.namespace, "inlets-license") in c.secrets
  {
    RunKeeps(states, acts, n);
    RunKeepsMounts(states, acts, n);
    AuthSecretThere(states[n].c, d);
    hide Inv, IsRun;
  }
}
