/** syncHandler and DeleteFunc (controller.go) as threads that perform one call at a time. */
module Sync {
  import opened Options
  import opened Resources
  import opened Ports
  import opened ExternalIPs
  import opened Clusters

  datatype BeginCall = LookupService | LookupTunnel
  datatype GenerateCall = GetTunnel | NewTunnel | MarkGenerated(created: Tunnel) | DropTunnel
  datatype AuthCall = GetAuth | NewAuth | WriteAuthRef
  datatype ProvisionCall =
    | InitProvision | LookupBackend | ReadToken | ProvisionHost(token: string) | WriteProvisioning(id: string)
  datatype PollCall = InitPoll | PollHost | WriteActive(address: string)
  datatype ExposeCall = GetService | WriteService(edited: Service) | WriteIngress(mirrored: Service)
  datatype LicenseCall =
    | GetLicense | GetLicenseCopy(license: map<string, string>)
    | UpdateLicense(secret: Secret) | NewLicense(data: map<string, string>)
  datatype ClientCall = GetPorts | NewClient(d: Deployment) | WriteClientRef
  datatype RedeployCall = GetClient | GetClientPorts(found: Deployment) | UpdateClient(rebuilt: Deployment)
  datatype DisposeCall = InitDispose | DeleteHost

  /** Where a thread stands: the function of the controller it is in, the Tunnel `t`
      that function works on, and the call it makes next. `obj` is the pointer into
      the shared cache that `t` was read through. */
  datatype Pc =
    | Done(err: bool)
    | Begin(key: Key, start: BeginCall)                       // syncHandler
    | Generate(s: Service, gen: GenerateCall)                 // createTunnelResource
    | Auth(t: Tunnel, auth: AuthCall)                         // createTunnelAuthTokenSecret
    | Provision(t: Tunnel, prov: ProvisionCall)               // syncHandler, case ""
    | Poll(t: Tunnel, poll: PollCall)                         // syncProvisioningHostStatus
    | Expose(t: Tunnel, ip: string, exp: ExposeCall)          // updateService
    | License(t: Tunnel, obj: nat, lic: LicenseCall)          // syncTunnelLicense
    | Client(t: Tunnel, obj: nat, cli: ClientCall)            // createClientDeployment
    | Redeploy(t: Tunnel, red: RedeployCall)                  // updateClientDeploymentRef
    | Dispose(t: Tunnel, dis: DisposeCall)                    // DeleteFunc

  // ---- What the status writes ask for --------------------------------------

  function WithGenerated(t: Tunnel): Tunnel {
    t.(status := t.status.(generated := true))
  }

  function WithAuthRef(t: Tunnel): Tunnel {
    t.(status := t.status.(authTokenRef := Some(ResourceRef(t.key.name, t.key.namespace))))
  }

  /** updateTunnelProvisioningStatus. */
  function WithHost(t: Tunnel, status: HostStatus, id: string, ip: string): Tunnel {
    t.(status := t.status.(hostStatus := status, hostID := id, hostIP := ip))
  }

  function WithClientRef(t: Tunnel, ref: ResourceRef): Tunnel {
    t.(status := t.status.(clientDeploymentRef := Some(ref)))
  }

  // ---- Control flow between calls ------------------------------------------

  /** The switch of syncHandler on a Tunnel read from the cache. */
  function Dispatch(cached: CachedTunnel): Pc {
    var t := cached.tunnel;
    if t.spec.serviceRef.None? then Done(true)
    else
      match t.status.hostStatus
      case NotStarted => if SecretName(t) == "" then Auth(t, GetAuth) else Provision(t, InitProvision)
      case Provisioning => Poll(t, InitPoll)
      case Active => License(t, cached.obj, GetLicense)
      case Other(_) => Done(false)
  }

  function StartExpose(t: Tunnel, ip: string): Pc {
    if OwnsService(t) then Expose(t, ip, GetService) else Done(false)
  }

  function StartClient(t: Tunnel, obj: nat): Pc {
    if Named(t.status.clientDeploymentRef) then Redeploy(t, GetClient) else Client(t, obj, GetPorts)
  }

  /** The edit of ExternalIPs made by updateService(t, ip). */
  function ServiceEdit(t: Tunnel, ip: string): EditOp {
    if ip == "" then Withdraw(t.status.hostIP) else Publish(t.uid, t.rv, ip)
  }

  function EditService(t: Tunnel, ip: string, s: Service): Service {
    s.(externalIPs := Apply(ServiceEdit(t, ip), s.externalIPs))
  }

  function Mirror(s: Service): Service { s.(ingress := s.externalIPs) }

  /** The spec and owner of the Tunnel created for a Service. */
  function GeneratedSpec(s: Service): TunnelSpec {
    TunnelSpec(Some(ResourceRef(s.key.name, s.key.namespace)), None, None, true)
  }

  function GeneratedOwners(s: Service): seq<OwnerReference> {
    [OwnerReference("Service", s.key.name)]
  }

  // ---- One call ------------------------------------------------------------

  function StepBegin(c: Cluster, key: Key, call: BeginCall, a: Answer): Pc {
    if !a.mode.Success? then Done(true)
    else match call
      case LookupService =>
        if key in c.serviceCache then Generate(c.serviceCache[key], GetTunnel) else Begin(key, LookupTunnel)
      case LookupTunnel =>
        if key in c.tunnelCache then Dispatch(c.tunnelCache[key]) else Done(false)
  }

  function StepGenerate(c: Cluster, s: Service, call: GenerateCall, a: Answer): (Cluster, Pc) {
    var key := TunnelKeyFor(s.key);
    match call
    case GetTunnel =>
      var managed := ManageService(c.config.annotatedOnly, s);
      // A failed Get leaves an empty object, whose deletion fails as well.
      (c, if !a.mode.Success? then Done(false)
          else if key !in c.tunnels then if managed then Generate(s, NewTunnel) else Done(false)
          else if managed then Done(false) else Generate(s, DropTunnel))
    case NewTunnel =>
      var (c', made) := CreateTunnel(c, key, GeneratedOwners(s), GeneratedSpec(s), a.mode);
      // After a failed Create the object is empty and its status update fails.
      (c', if made.Some? then Generate(s, MarkGenerated(made.value)) else Done(false))
    case MarkGenerated(t) =>
      (UpdateTunnelStatus(c, WithGenerated(t), a.mode).0, Done(false))
    case DropTunnel =>
      (if a.mode.Refused? then c else DeleteTunnel(c, key), Done(false))
  }

  function StepAuth(c: Cluster, t: Tunnel, call: AuthCall, a: Answer): (Cluster, Pc) {
    match call
    case GetAuth =>
      // Only "not found" leads to a Create: any other error is skipped over.
      (c, Auth(t, if a.mode.Success? && t.key !in c.secrets then NewAuth else WriteAuthRef))
    case NewAuth =>
      var (c', r) := CreateSecret(c, t.key, map["token" := a.password], a.mode);
      (c', if r.Failed? then Done(true) else Auth(t, WriteAuthRef))
    case WriteAuthRef =>
      var (c', r) := UpdateTunnelStatus(c, WithAuthRef(t), a.mode);
      (c', Done(r.None?))
  }

  function WithHostAt(c: Cluster, id: string, h: Host): Cluster { c.(hosts := c.hosts[id := h]) }

  function StepProvisionHost(c: Cluster, me: nat, t: Tunnel, token: string, a: Answer): (Cluster, Pc) {
    match a.mode
    case Refused => (c, Done(true))
    // A lost reply leaves a host at the provider that nobody knows.
    case Lost => (WithHostAt(c, a.hostId, Host(token, t.uid, Orphaned)), Done(true))
    case Success =>
      (WithHostAt(c, a.hostId, Host(token, t.uid, InFlight(me))), Provision(t, WriteProvisioning(a.hostId)))
  }

  function StepWriteProvisioning(c: Cluster, t: Tunnel, id: string, a: Answer): (Cluster, Pc) {
    var next := WithHost(t, Provisioning, id, "");
    var (c', r) := UpdateTunnelStatus(c, next, a.mode);
    (Book(c', id, if Writes(c, next, a.mode) then Recorded(t.key) else Orphaned), Done(r.None?))
  }

  function StepProvision(c: Cluster, me: nat, t: Tunnel, call: ProvisionCall, a: Answer): (Cluster, Pc) {
    match call
    case InitProvision =>
      (c, if a.mode.Success? && t.spec.serviceRef.Some? then Provision(t, LookupBackend) else Done(true))
    case LookupBackend =>
      (c, if a.mode.Success? && ServiceKey(t) in c.serviceCache then Provision(t, ReadToken) else Done(true))
    case ReadToken =>
      // getSecretValue: an empty token is an error too.
      var k := SecretKey(t);
      (c, if a.mode.Success? && k in c.secrets && Token(c.secrets[k]) != ""
          then Provision(t, ProvisionHost(Token(c.secrets[k]))) else Done(true))
    case ProvisionHost(token) => StepProvisionHost(c, me, t, token, a)
    case WriteProvisioning(id) => StepWriteProvisioning(c, t, id, a)
  }

  function StepPoll(c: Cluster, t: Tunnel, call: PollCall, a: Answer): (Cluster, Pc) {
    match call
    case InitPoll =>
      (c, if a.mode.Success? then Poll(t, PollHost) else Done(true))
    case PollHost =>
      (c, if !a.mode.Success? then Done(true)
          else if !a.hostStatus.Active? || a.hostIP == "" then Done(false)
          else if t.spec.serviceRef.None? then Done(true)
          else Poll(t, WriteActive(a.hostIP)))
    case WriteActive(ip) =>
      var (c', r) := UpdateTunnelStatus(c, WithHost(t, Active, t.status.hostID, ip), a.mode);
      (c', if r.Some? then StartExpose(r.value, ip) else Done(true))
  }

  function StepExpose(c: Cluster, t: Tunnel, ip: string, call: ExposeCall, a: Answer): (Cluster, Pc) {
    match call
    case GetService =>
      (c, if a.mode.Success? && ServiceKey(t) in c.services
          then Expose(t, ip, WriteService(EditService(t, ip, c.services[ServiceKey(t)]))) else Done(true))
    case WriteService(s) =>
      var (c', r) := UpdateService(c, s, ServiceEdit(t, ip), a.mode);
      (c', if r.Some? then Expose(t, ip, WriteIngress(Mirror(r.value))) else Done(true))
    case WriteIngress(s) =>
      var (c', r) := UpdateServiceStatus(c, s, a.mode);
      (c', Done(r.None?))
  }

  function LicenseKey(t: Tunnel): Key { Key(t.key.namespace, LICENSE_SECRET) }

  function StepLicense(c: Cluster, t: Tunnel, obj: nat, call: LicenseCall, a: Answer): (Cluster, Pc) {
    match call
    case GetLicense =>
      var k := Key(c.config.operatorNamespace, LICENSE_SECRET);
      (c, if a.mode.Success? && k in c.secrets
          then License(t, obj, GetLicenseCopy(c.secrets[k].data)) else Done(true))
    case GetLicenseCopy(license) =>
      var k := LicenseKey(t);
      (c, if a.mode.Success? && k in c.secrets then
            if Lookup(c.secrets[k].data, "license") == Lookup(license, "license")
            then StartClient(t, obj)
            else License(t, obj, UpdateLicense(c.secrets[k].(data := license)))
          else License(t, obj, NewLicense(license)))
    case UpdateLicense(secret) =>
      var (c', ok) := UpdateSecret(c, LicenseKey(t), secret, a.mode);
      (c', if ok then StartClient(t, obj) else Done(true))
    case NewLicense(license) =>
      var (c', r) := CreateSecret(c, LicenseKey(t), license, a.mode);
      (c', if r.Made? then StartClient(t, obj) else Done(true))
  }

  /** A failed Create is only logged; the reference is then empty. */
  function CreatedRef(c: Cluster, d: Deployment, m: Mode): ResourceRef {
    if CreateDeployment(c, d, m).1 then ResourceRef(d.key.name, d.key.namespace) else ResourceRef("", "")
  }

  function StepClient(c: Cluster, t: Tunnel, obj: nat, call: ClientCall, a: Answer): (Cluster, Pc) {
    match call
    case GetPorts =>
      (c, if a.mode.Success? && ServiceKey(t) in c.services
          then Client(t, obj, NewClient(MakeClientDeployment(t, PortsString(c.services[ServiceKey(t)].ports))))
          else Done(true))
    case NewClient(d) =>
      // The write through the cached pointer follows the call with no other in between.
      var ref := CreatedRef(c, d, a.mode);
      (WriteThrough(CreateDeployment(c, d, a.mode).0, t.key, obj, ref),
       Client(WithClientRef(t, ref), obj, WriteClientRef))
    case WriteClientRef =>
      var (c', r) := UpdateTunnelStatus(c, t, a.mode);
      (c', Done(r.None?))
  }

  function ClientKey(t: Tunnel): Key {
    match t.status.clientDeploymentRef
    case Some(ref) => Key(ref.namespace, ref.name)
    case None => Key("", "")
  }

  function StepRedeploy(c: Cluster, t: Tunnel, call: RedeployCall, a: Answer): (Cluster, Pc) {
    match call
    case GetClient =>
      (c, if a.mode.Success? && ClientKey(t) in c.deployments
          then Redeploy(t, GetClientPorts(c.deployments[ClientKey(t)])) else Done(true))
    case GetClientPorts(d) =>
      var k := ServiceKey(t);
      (c, if !a.mode.Success? || k !in c.services then Done(true)
          else if PortsDiffer(d, c.services[k])
          then Redeploy(t, UpdateClient(MakeClientDeployment(t, PortsString(c.services[k].ports))))
          else Done(false))
    case UpdateClient(d) => (UpdateDeployment(c, d, a.mode), Done(false))
  }

  function StepDispose(c: Cluster, t: Tunnel, call: DisposeCall, a: Answer): (Cluster, Pc) {
    if !a.mode.Success? then (Book(c, t.status.hostID, Orphaned), Done(false))
    else match call
      case InitDispose => (c, Dispose(t, DeleteHost))
      case DeleteHost => (Book(c, t.status.hostID, Gone), StartExpose(t, ""))
  }

  /** `me` is the thread; it only labels the hosts it provisions. */
  function Step(c: Cluster, me: nat, pc: Pc, a: Answer): (Cluster, Pc) {
    match pc
    case Done(_) => (c, pc)
    case Begin(key, call) => (c, StepBegin(c, key, call, a))
    case Generate(s, call) => StepGenerate(c, s, call, a)
    case Auth(t, call) => StepAuth(c, t, call, a)
    case Provision(t, call) => StepProvision(c, me, t, call, a)
    case Poll(t, call) => StepPoll(c, t, call, a)
    case Expose(t, ip, call) => StepExpose(c, t, ip, call, a)
    case License(t, obj, call) => StepLicense(c, t, obj, call, a)
    case Client(t, obj, call) => StepClient(c, t, obj, call, a)
    case Redeploy(t, call) => StepRedeploy(c, t, call, a)
    case Dispose(t, call) => StepDispose(c, t, call, a)
  }

  lemma HostCall(c: Cluster, me: nat, t: Tunnel, token: string, a: Answer)
    ensures var c' := StepProvisionHost(c, me, t, token, a).0; c' == c.(hosts := c'.hosts)
  {
    match a.mode
    case Refused =>
    case Lost =>
      assert StepProvisionHost(c, me, t, token, a).0 == WithHostAt(c, a.hostId, Host(token, t.uid, Orphaned));
    case Success =>
      assert StepProvisionHost(c, me, t, token, a).0 == WithHostAt(c, a.hostId, Host(token, t.uid, InFlight(me)));
  }

  // ---- A whole sync, alone ---------------------------------------------------

  /** No path of the controller makes more than `Rank` further calls. */
  function Rank(pc: Pc): nat {
    match pc
    case Done(_) => 0
    case Begin(_, call) => if call.LookupService? then 9 else 8
    case Generate(_, call) => (match call case GetTunnel => 3 case NewTunnel => 2 case _ => 1)
    case Auth(_, call) => (match call case GetAuth => 3 case NewAuth => 2 case WriteAuthRef => 1)
    case Provision(_, call) =>
      (match call
       case InitProvision => 5 case LookupBackend => 4 case ReadToken => 3
       case ProvisionHost(_) => 2 case WriteProvisioning(_) => 1)
    case Poll(_, call) => (match call case InitPoll => 6 case PollHost => 5 case WriteActive(_) => 4)
    case Expose(_, _, call) => (match call case GetService => 3 case WriteService(_) => 2 case WriteIngress(_) => 1)
    case License(_, _, call) => (match call case GetLicense => 6 case GetLicenseCopy(_) => 5 case _ => 4)
    case Client(_, _, call) => (match call case GetPorts => 3 case NewClient(_) => 2 case WriteClientRef => 1)
    case Redeploy(_, call) => (match call case GetClient => 3 case GetClientPorts(_) => 2 case UpdateClient(_) => 1)
    case Dispose(_, call) => if call.InitDispose? then 5 else 4
  }

  lemma StepDescends(c: Cluster, me: nat, pc: Pc, a: Answer)
    ensures !pc.Done? ==> Rank(Step(c, me, pc, a).1) < Rank(pc)
  {
  }

  const REFUSED := Answer(Refused, "", "", NotStarted, "")

  /** The answers still to come; an exhausted supply refuses every call. */
  function Head(answers: seq<Answer>): Answer { if answers == [] then REFUSED else answers[0] }
  function Tail(answers: seq<Answer>): seq<Answer> { if answers == [] then [] else answers[1..] }

  datatype Outcome = Outcome(c: Cluster, err: bool, rest: seq<Answer>)

  /** A thread run to its end with no other thread in between. */
  function Run(c: Cluster, me: nat, pc: Pc, answers: seq<Answer>): Outcome
    decreases Rank(pc)
  {
    if pc.Done? then Outcome(c, pc.err, answers)
    else
      StepDescends(c, me, pc, Head(answers));
      var (c', pc') := Step(c, me, pc, Head(answers));
      Run(c', me, pc', Tail(answers))
  }
}
