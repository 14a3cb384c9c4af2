/** What one action leaves behind for ever: versions, auth secrets, edits. */
module Frames {
  import opened Options
  import opened Resources
  import opened ExternalIPs
  import opened Clusters
  import opened Sync
  import opened Machine
  import opened Invariants
  import opened Preservation

  /** History is only added to, and no auth secret changes. */
  predicate Extends(c: Cluster, c': Cluster) {
    && (forall r <- c.versions :: r in c'.versions && c'.versions[r] == c.versions[r])
    && (forall k <- c.secrets :: k.name != LICENSE_SECRET ==> k in c'.secrets && c'.secrets[k] == c.secrets[k])
    && c.edits <= c'.edits
  }

  predicate KeepsSecrets(c: Cluster, c': Cluster) {
    forall k <- c.secrets :: k in c'.secrets && c'.secrets[k] == c.secrets[k]
  }

  predicate RvFresh(c: Cluster) { c.nextRv !in c.versions }

  lemma ExtendsSelf(c: Cluster)
    ensures Extends(c, c)
  {}

  lemma ExtendsTransitive(a: Cluster, b: Cluster, c: Cluster)
    requires Extends(a, b) && Extends(b, c)
    ensures Extends(a, c)
  {}

  lemma SameHistory(c: Cluster, c': Cluster)
    requires c'.versions == c.versions && c'.secrets == c.secrets && c.edits <= c'.edits
    ensures Extends(c, c')
  {}

  lemma StoreFrame(c: Cluster, next: Tunnel, c': Cluster)
    requires RvFresh(c) && next.rv == c.nextRv
    requires c'.versions == c.versions[next.rv := next] && c'.secrets == c.secrets && c'.edits == c.edits
    ensures Extends(c, c')
  {}

  lemma StatusFrame(c: Cluster, t: Tunnel, m: Mode)
    requires RvFresh(c)
    ensures var c' := UpdateTunnelStatus(c, t, m).0; Extends(c, c') && c'.hosts == c.hosts && c'.secrets == c.secrets
  {
    hide Extends;
    var c' := UpdateTunnelStatus(c, t, m).0;
    if Writes(c, t, m) && c.tunnels[t.key].status != t.status { StoreFrame(c, Written(c, t), c'); }
    else { ExtendsSelf(c); }
  }

  lemma CreateFrame(c: Cluster, key: Key, owners: seq<OwnerReference>, spec: TunnelSpec, m: Mode)
    requires RvFresh(c)
    ensures var c' := CreateTunnel(c, key, owners, spec, m).0;
            Extends(c, c') && c'.hosts == c.hosts && c'.secrets == c.secrets
  {
    hide Extends;
    var c' := CreateTunnel(c, key, owners, spec, m).0;
    if m.Refused? || key in c.tunnels { ExtendsSelf(c); }
    else { StoreFrame(c, Tunnel(key, c.nextUid, c.nextRv, owners, spec, NEW_STATUS), c'); }
  }

  lemma AddedSecret(c: Cluster, c': Cluster, key: Key, secret: Secret)
    requires c'.versions == c.versions && c'.edits == c.edits && c'.secrets == c.secrets[key := secret]
    requires key !in c.secrets || key.name == LICENSE_SECRET
    ensures Extends(c, c')
  {}

  lemma SecretFrame(c: Cluster, key: Key, data: map<string, string>, m: Mode)
    ensures var c' := CreateSecret(c, key, data, m).0;
            Extends(c, c') && c'.hosts == c.hosts && c'.tunnels == c.tunnels && KeepsSecrets(c, c')
  {
    hide Extends;
    var c' := CreateSecret(c, key, data, m).0;
    if c' == c { ExtendsSelf(c); } else { AddedSecret(c, c', key, c'.secrets[key]); }
  }

  lemma LicenseFrame(c: Cluster, t: Tunnel, secret: Secret, m: Mode)
    ensures var c' := UpdateSecret(c, LicenseKey(t), secret, m).0;
            Extends(c, c') && c'.hosts == c.hosts && c'.tunnels == c.tunnels
  {
    hide Extends;
    var key := LicenseKey(t);
    var c' := UpdateSecret(c, key, secret, m).0;
    if c' == c { ExtendsSelf(c); } else { AddedSecret(c, c', key, c'.secrets[key]); }
  }

  lemma DeleteFrame(c: Cluster, key: Key)
    ensures Extends(c, DeleteTunnel(c, key)) && DeleteTunnel(c, key).secrets == c.secrets
  {
    hide Extends;
    SameHistory(c, DeleteTunnel(c, key));
  }

  lemma GenerateFrame(c: Cluster, s: Service, call: GenerateCall, a: Answer)
    requires RvFresh(c)
    ensures var c' := StepGenerate(c, s, call, a).0;
            Extends(c, c') && (call.DropTunnel? || c'.hosts == c.hosts) && c'.secrets == c.secrets
  {
    hide Extends, UpdateTunnelStatus, CreateTunnel, DeleteTunnel;
    match call
    case GetTunnel => ExtendsSelf(c);
    case NewTunnel => CreateFrame(c, TunnelKeyFor(s.key), GeneratedOwners(s), GeneratedSpec(s), a.mode);
    case MarkGenerated(t) => StatusFrame(c, WithGenerated(t), a.mode);
    case DropTunnel =>
      if a.mode.Refused? { ExtendsSelf(c); } else { DeleteFrame(c, TunnelKeyFor(s.key)); }
  }

  lemma AuthFrame(c: Cluster, t: Tunnel, call: AuthCall, a: Answer)
    requires RvFresh(c)
    ensures var c' := StepAuth(c, t, call, a).0; Extends(c, c') && c'.hosts == c.hosts && KeepsSecrets(c, c')
  {
    hide Extends;
    match call
    case GetAuth => ExtendsSelf(c);
    case NewAuth => SecretFrame(c, t.key, map["token" := a.password], a.mode);
    case WriteAuthRef => StatusFrame(c, WithAuthRef(t), a.mode);
  }

  lemma BookFrame(c: Cluster, id: string, p: Place)
    ensures Extends(c, Book(c, id, p)) && Book(c, id, p).tunnels == c.tunnels && Book(c, id, p).secrets == c.secrets
  {
    hide Extends;
    SameHistory(c, Book(c, id, p));
  }

  lemma ProvisioningWriteFrame(c: Cluster, me: nat, t: Tunnel, id: string, a: Answer)
    requires RvFresh(c)
    ensures var c' := StepProvision(c, me, t, WriteProvisioning(id), a).0; Extends(c, c') && c'.secrets == c.secrets
  {
    hide Extends;
    var next := WithHost(t, Provisioning, id, "");
    var c1 := UpdateTunnelStatus(c, next, a.mode).0;
    StatusFrame(c, next, a.mode);
    hide UpdateTunnelStatus, Writes;
    var c' := StepProvision(c, me, t, WriteProvisioning(id), a).0;
    var p := if Writes(c, next, a.mode) then Recorded(t.key) else Orphaned;
    assert c' == Book(c1, id, p);
    hide Book;
    BookFrame(c1, id, p);
    ExtendsTransitive(c, c1, c');
  }

  lemma ProvisionFrame(c: Cluster, me: nat, t: Tunnel, call: ProvisionCall, a: Answer)
    requires RvFresh(c)
    ensures var c' := StepProvision(c, me, t, call, a).0; Extends(c, c') && c'.secrets == c.secrets
  {
    hide Extends, RvFresh;
    match call
    case WriteProvisioning(id) => ProvisioningWriteFrame(c, me, t, id, a);
    case ProvisionHost(token) =>
      HostCall(c, me, t, token, a);
      hide StepProvisionHost;
      SameHistory(c, StepProvision(c, me, t, call, a).0);
    case _ => ExtendsSelf(c);
  }

  lemma PollFrame(c: Cluster, t: Tunnel, call: PollCall, a: Answer)
    requires RvFresh(c)
    ensures var c' := StepPoll(c, t, call, a).0; Extends(c, c') && c'.hosts == c.hosts && c'.secrets == c.secrets
  {
    hide Extends;
    match call
    case WriteActive(ip) => StatusFrame(c, WithHost(t, Active, t.status.hostID, ip), a.mode);
    case _ => ExtendsSelf(c);
  }

  lemma ExposeFrame(c: Cluster, t: Tunnel, ip: string, call: ExposeCall, a: Answer)
    ensures var c' := StepExpose(c, t, ip, call, a).0;
            Extends(c, c') && c'.hosts == c.hosts && c'.tunnels == c.tunnels && c'.secrets == c.secrets
  {
    hide Extends;
    match call
    case GetService => ExtendsSelf(c);
    case WriteService(s) => SameHistory(c, UpdateService(c, s, ServiceEdit(t, ip), a.mode).0);
    case WriteIngress(s) => SameHistory(c, UpdateServiceStatus(c, s, a.mode).0);
  }

  lemma LicenseStepFrame(c: Cluster, t: Tunnel, obj: nat, call: LicenseCall, a: Answer)
    ensures var c' := StepLicense(c, t, obj, call, a).0;
            Extends(c, c') && c'.hosts == c.hosts && c'.tunnels == c.tunnels
            && (call.UpdateLicense? || KeepsSecrets(c, c'))
  {
    hide Extends;
    match call
    case UpdateLicense(secret) => LicenseFrame(c, t, secret, a.mode);
    case NewLicense(data) => SecretFrame(c, LicenseKey(t), data, a.mode);
    case _ => ExtendsSelf(c);
  }

  lemma DeploymentFrame(c: Cluster, d: Deployment, m: Mode)
    ensures var c' := CreateDeployment(c, d, m).0;
            Extends(c, c') && c'.hosts == c.hosts && c'.tunnels == c.tunnels && c'.secrets == c.secrets
  {
    hide Extends;
    SameHistory(c, CreateDeployment(c, d, m).0);
  }

  lemma ThroughFrame(c: Cluster, key: Key, obj: nat, ref: ResourceRef)
    ensures var c' := WriteThrough(c, key, obj, ref);
            Extends(c, c') && c'.hosts == c.hosts && c'.tunnels == c.tunnels && c'.secrets == c.secrets
  {
    SameHistory(c, WriteThrough(c, key, obj, ref));
  }

  lemma NewClientFrame(c: Cluster, t: Tunnel, obj: nat, d: Deployment, a: Answer)
    ensures var c' := StepClient(c, t, obj, NewClient(d), a).0;
            Extends(c, c') && c'.hosts == c.hosts && c'.tunnels == c.tunnels && c'.secrets == c.secrets
  {
    hide Extends, WriteThrough, CreateDeployment, CreatedRef;
    var c1, ref := CreateDeployment(c, d, a.mode).0, CreatedRef(c, d, a.mode);
    DeploymentFrame(c, d, a.mode);
    ThroughFrame(c1, t.key, obj, ref);
    ExtendsTransitive(c, c1, WriteThrough(c1, t.key, obj, ref));
  }

  lemma ClientFrame(c: Cluster, t: Tunnel, obj: nat, call: ClientCall, a: Answer)
    requires RvFresh(c)
    ensures var c' := StepClient(c, t, obj, call, a).0; Extends(c, c') && c'.hosts == c.hosts && c'.secrets == c.secrets
  {
    hide Extends;
    match call
    case GetPorts => ExtendsSelf(c);
    case NewClient(d) =>
      NewClientFrame(c, t, obj, d, a);
    case WriteClientRef => StatusFrame(c, t, a.mode);
  }

  lemma RedeployFrame(c: Cluster, t: Tunnel, call: RedeployCall, a: Answer)
    ensures var c' := StepRedeploy(c, t, call, a).0;
            Extends(c, c') && c'.hosts == c.hosts && c'.tunnels == c.tunnels && c'.secrets == c.secrets
  {
    hide Extends;
    SameHistory(c, StepRedeploy(c, t, call, a).0);
  }

  lemma DisposeFrame(c: Cluster, t: Tunnel, call: DisposeCall, a: Answer)
    ensures var c' := StepDispose(c, t, call, a).0;
            Extends(c, c') && c'.tunnels == c.tunnels && c'.secrets == c.secrets
  {
    hide Extends, Book;
    BookFrame(c, t.status.hostID, Gone);
    BookFrame(c, t.status.hostID, Orphaned);
    ExtendsSelf(c);
  }

  /** The calls that touch a host. */
  predicate TouchesHosts(pc: Pc) {
    (pc.Generate? && pc.gen.DropTunnel?) || pc.Provision? || pc.Dispose?
  }

  lemma CallFrame(c: Cluster, me: nat, pc: Pc, a: Answer)
    requires RvFresh(c)
    ensures Extends(c, Step(c, me, pc, a).0)
    ensures TouchesHosts(pc) || Step(c, me, pc, a).0.hosts == c.hosts
    ensures (pc.License? && pc.lic.UpdateLicense?) || KeepsSecrets(c, Step(c, me, pc, a).0)
  {
    hide Extends;
    match pc
    case Done(_) => ExtendsSelf(c);
    case Begin(_, _) => ExtendsSelf(c);
    case Generate(s, call) => GenerateFrame(c, s, call, a);
    case Auth(t, call) => AuthFrame(c, t, call, a);
    case Provision(t, call) => ProvisionFrame(c, me, t, call, a);
    case Poll(t, call) => PollFrame(c, t, call, a);
    case Expose(t, ip, call) => ExposeFrame(c, t, ip, call, a);
    case License(t, obj, call) => LicenseStepFrame(c, t, obj, call, a);
    case Client(t, obj, call) => ClientFrame(c, t, obj, call, a);
    case Redeploy(t, call) => RedeployFrame(c, t, call, a);
    case Dispose(t, call) => DisposeFrame(c, t, call, a);
  }

  lemma InvRvFresh(s: State)
    requires Inv(s)
    ensures RvFresh(s.c)
  {
    hide StoredIsLatest, VersionsEvolve, CacheOk, HostIdsUnique, VersionHostsKnown, TokensOk,
         ServicesOk, PublicationsOk, PublishedOnce, DeploymentsOk, PublishersDiffer, ObjectsDiffer;
  }

  lemma ActionExtends(s: State, act: Action)
    requires Inv(s) && Enabled(s, act)
    ensures Extends(s.c, Machine.Apply(s, act).c)
  {
    hide Inv, Extends;
    InvRvFresh(s);
    match act
    case Call(i, a) => CallFrame(s.c, i, s.threads[i].pc, a);
    case AddTunnel(key, owners, spec) => CreateFrame(s.c, key, owners, spec, Success);
    case AddSecret(key, data) => SecretFrame(s.c, key, data, Success);
    case _ => SameHistory(s.c, Machine.Apply(s, act).c);
  }

  lemma RunStepExtends(states: seq<State>, acts: seq<Action>, n: nat)
    requires IsRun(states, acts) && n < |acts|
    ensures Extends(states[n].c, states[n + 1].c)
  {
    hide Extends, Inv, Enabled, Machine.Apply, Initial;
    assert Follows(states[n], acts[n], states[n + 1]);
    RunKeeps(states, acts, n);
    ActionExtends(states[n], acts[n]);
  }

  lemma {:induction false} RunExtends(states: seq<State>, acts: seq<Action>, m: nat, n: nat)
    requires IsRun(states, acts) && m <= n < |states|
    ensures Extends(states[m].c, states[n].c)
    decreases n - m
  {
    hide Extends, Follows, Initial;
    if m == n {
      ExtendsSelf(states[m].c);
    } else {
      RunExtends(states, acts, m, n - 1);
      RunStepExtends(states, acts, n - 1);
      ExtendsTransitive(states[m].c, states[n - 1].c, states[n].c);
    }
  }
}
