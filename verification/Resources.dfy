/** The API objects the operator reads and writes, and the functions of the
    controller that only compute a value from them. */
module Resources {
  import opened Options
  import opened Ports

  /** namespace/name, the key of an object within its kind. */
  datatype Key = Key(namespace: string, name: string)

  datatype ResourceRef = ResourceRef(name: string, namespace: string)

  datatype OwnerReference = OwnerReference(kind: string, name: string)

  /** `NotStarted` is the empty string of a new Tunnel. */
  datatype HostStatus = NotStarted | Provisioning | Active | Other(text: string)

  datatype TunnelSpec = TunnelSpec(
    serviceRef: Option<ResourceRef>,
    authTokenRef: Option<ResourceRef>,
    licenseRef: Option<ResourceRef>,
    updateServiceIP: bool)

  datatype TunnelStatus = TunnelStatus(
    generated: bool,
    hostStatus: HostStatus,
    hostIP: string,
    hostID: string,
    authTokenRef: Option<ResourceRef>,
    clientDeploymentRef: Option<ResourceRef>)

  /** `uid` identifies an incarnation, `rv` (resourceVersion) one stored version. */
  datatype Tunnel = Tunnel(
    key: Key, uid: nat, rv: nat, owners: seq<OwnerReference>,
    spec: TunnelSpec, status: TunnelStatus)

  datatype Service = Service(
    key: Key, rv: nat, annotations: map<string, string>, ports: seq<int>,
    externalIPs: seq<string>, ingress: seq<string>)

  datatype Secret = Secret(rv: nat, data: map<string, string>)

  /** The parts of a Deployment that depend on the Tunnel. `owner` is the uid of
      the controlling Tunnel; it is None for a Deployment made by someone else. */
  datatype Deployment = Deployment(
    key: Key, owner: Option<nat>, annotations: Option<map<string, string>>,
    urlHost: string, portsArg: string, upstream: string, secretName: string)

  const PORTS_ANNOTATION := "inlets.dev/ports"
  const MANAGE_ANNOTATION := "operator.inlets.dev/manage"
  const LICENSE_SECRET := "inlets-license"
  const NEW_STATUS := TunnelStatus(false, NotStarted, "", "", None, None)

  /** A Go map read: the empty string for a missing entry. */
  function Lookup(m: map<string, string>, k: string): string {
    if k in m then m[k] else ""
  }

  function Token(s: Secret): string { Lookup(s.data, "token") }

  /** controller.go, getSecretName. */
  function SecretName(t: Tunnel): string {
    if t.spec.authTokenRef.Some? then t.spec.authTokenRef.value.name
    else if t.status.authTokenRef.Some? then t.status.authTokenRef.value.name
    else ""
  }

  function SecretKey(t: Tunnel): Key { Key(t.key.namespace, SecretName(t)) }

  /** Services are always looked up in the Tunnel's own namespace. */
  function ServiceKey(t: Tunnel): Key {
    Key(t.key.namespace, if t.spec.serviceRef.Some? then t.spec.serviceRef.value.name else "")
  }

  /** A client reference counts as absent when it is nil or has an empty name. */
  predicate Named(r: Option<ResourceRef>) { r.Some? && r.value.name != "" }

  /** controller.go, ownsService. */
  predicate OwnsService(t: Tunnel) {
    exists i :: 0 <= i < |t.owners| && t.owners[i].kind == "Service"
  }

  /** The strings Go's strconv.ParseBool reads as true. */
  const TRUE_STRINGS: set<string> := {"1", "t", "T", "TRUE", "true", "True"}

  /** controller.go, manageService. */
  predicate ManageService(annotatedOnly: bool, s: Service) {
    if MANAGE_ANNOTATION in s.annotations
    then s.annotations[MANAGE_ANNOTATION] in TRUE_STRINGS
    else !annotatedOnly
  }

  function TunnelKeyFor(service: Key): Key { Key(service.namespace, service.name + "-tunnel") }

  function ClientRef(tunnel: Key): ResourceRef { ResourceRef(tunnel.name + "-client", tunnel.namespace) }

  /** controller.go, makeClientDeployment, with `ports` already printed. */
  function MakeClientDeployment(t: Tunnel, ports: string): Deployment {
    var name := if Named(t.status.clientDeploymentRef) then t.status.clientDeploymentRef.value.name
                else t.key.name + "-client";
    Deployment(
      Key(t.key.namespace, name),
      Some(t.uid),
      Some(map[PORTS_ANNOTATION := ports]),
      t.status.hostIP,
      ports,
      ServiceKey(t).name,
      SecretName(t))
  }

  /** The test in updateClientDeploymentRef that decides whether to rewrite the client. */
  predicate PortsDiffer(d: Deployment, s: Service) {
    d.annotations.Some? && Lookup(d.annotations.value, PORTS_ANNOTATION) != PortsString(s.ports)
  }
}
