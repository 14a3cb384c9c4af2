/** The controller's functions in the form they have in controller.go: methods that make
    one call after the other on shared clients. Each is proved to leave exactly the cluster,
    the error and the unused answers that a thread of the machine leaves when it starts at
    the corresponding point and runs to its end. */
module Controllers {
  import opened Options
  import opened Resources
  import opened Ports
  import opened ExternalIPs
  import opened Clusters
  import opened Sync

  datatype Read<+T> = Found(value: T) | NotFound | Failing

  function ReadFrom<T>(m: map<Key, T>, key: Key, a: Answer): Read<T> {
    if !a.mode.Success? then Failing else if key in m then Found(m[key]) else NotFound
  }

  /** The clientsets, the listers and the provider, with the answers the world will give. */
  class Api {
    var c: Cluster
    var answers: seq<Answer>
    const me: nat

    constructor (c: Cluster, me: nat, answers: seq<Answer>)
      ensures this.c == c && this.me == me && this.answers == answers
    {
      this.c, this.me, this.answers := c, me, answers;
    }

    method Next() returns (a: Answer)
      modifies this`answers
      ensures a == Head(old(answers)) && answers == Tail(old(answers))
    {
      a := Head(answers);
      answers := Tail(answers);
    }

    method ListService(key: Key) returns (r: Read<Service>)
      modifies this`answers
      ensures answers == Tail(old(answers)) && r == ReadFrom(c.serviceCache, key, Head(old(answers)))
    {
      var a := Next();
      r := ReadFrom(c.serviceCache, key, a);
    }

    method ListTunnel(key: Key) returns (r: Read<CachedTunnel>)
      modifies this`answers
      ensures answers == Tail(old(answers)) && r == ReadFrom(c.tunnelCache, key, Head(old(answers)))
    {
      var a := Next();
      r := ReadFrom(c.tunnelCache, key, a);
    }

    method GetTunnel(key: Key) returns (r: Read<Tunnel>)
      modifies this`answers
      ensures answers == Tail(old(answers)) && r == ReadFrom(c.tunnels, key, Head(old(answers)))
    {
      var a := Next();
      r := ReadFrom(c.tunnels, key, a);
    }

    method GetService(key: Key) returns (r: Read<Service>)
      modifies this`answers
      ensures answers == Tail(old(answers)) && r == ReadFrom(c.services, key, Head(old(answers)))
    {
      var a := Next();
      r := ReadFrom(c.services, key, a);
    }

    method GetSecret(key: Key) returns (r: Read<Secret>)
      modifies this`answers
      ensures answers == Tail(old(answers)) && r == ReadFrom(c.secrets, key, Head(old(answers)))
    {
      var a := Next();
      r := ReadFrom(c.secrets, key, a);
    }

    method GetDeployment(key: Key) returns (r: Read<Deployment>)
      modifies this`answers
      ensures answers == Tail(old(answers)) && r == ReadFrom(c.deployments, key, Head(old(answers)))
    {
      var a := Next();
      r := ReadFrom(c.deployments, key, a);
    }

    /** getProvisioner: only whether a client could be built. */
    method GetProvisioner() returns (ok: bool)
      modifies this`answers
      ensures answers == Tail(old(answers)) && ok == Head(old(answers)).mode.Success?
    {
      var a := Next();
      ok := a.mode.Success?;
    }

    method CreateTunnel(key: Key, owners: seq<OwnerReference>, spec: TunnelSpec) returns (r: Option<Tunnel>)
      modifies this
      ensures answers == Tail(old(answers))
      ensures (c, r) == Clusters.CreateTunnel(old(c), key, owners, spec, Head(old(answers)).mode)
    {
      var a := Next();
      var res := Clusters.CreateTunnel(c, key, owners, spec, a.mode);
      c, r := res.0, res.1;
    }

    method DeleteTunnel(key: Key)
      modifies this
      ensures answers == Tail(old(answers))
      ensures c == if Head(old(answers)).mode.Refused? then old(c) else Clusters.DeleteTunnel(old(c), key)
    {
      var a := Next();
      if !a.mode.Refused? { c := Clusters.DeleteTunnel(c, key); }
    }

    method UpdateTunnelStatus(t: Tunnel) returns (r: Option<Tunnel>)
      modifies this
      ensures answers == Tail(old(answers))
      ensures (c, r) == Clusters.UpdateTunnelStatus(old(c), t, Head(old(answers)).mode)
    {
      var a := Next();
      var res := Clusters.UpdateTunnelStatus(c, t, a.mode);
      c, r := res.0, res.1;
    }

    /** `op` names the edit that the caller made to the list of `s`. */
    method UpdateService(s: Service, op: EditOp) returns (r: Option<Service>)
      modifies this
      ensures answers == Tail(old(answers))
      ensures (c, r) == Clusters.UpdateService(old(c), s, op, Head(old(answers)).mode)
    {
      var a := Next();
      var res := Clusters.UpdateService(c, s, op, a.mode);
      c, r := res.0, res.1;
    }

    method UpdateServiceStatus(s: Service) returns (r: Option<Service>)
      modifies this
      ensures answers == Tail(old(answers))
      ensures (c, r) == Clusters.UpdateServiceStatus(old(c), s, Head(old(answers)).mode)
    {
      var a := Next();
      var res := Clusters.UpdateServiceStatus(c, s, a.mode);
      c, r := res.0, res.1;
    }

    /** Creates the auth secret with a generated password. */
    method CreateAuthSecret(key: Key) returns (r: Created)
      modifies this
      ensures answers == Tail(old(answers))
      ensures var a := Head(old(answers));
              (c, r) == Clusters.CreateSecret(old(c), key, map["token" := a.password], a.mode)
    {
      var a := Next();
      var res := Clusters.CreateSecret(c, key, map["token" := a.password], a.mode);
      c, r := res.0, res.1;
    }

    method CreateSecret(key: Key, data: map<string, string>) returns (r: Created)
      modifies this
      ensures answers == Tail(old(answers))
      ensures (c, r) == Clusters.CreateSecret(old(c), key, data, Head(old(answers)).mode)
    {
      var a := Next();
      var res := Clusters.CreateSecret(c, key, data, a.mode);
      c, r := res.0, res.1;
    }

    method UpdateSecret(key: Key, s: Secret) returns (ok: bool)
      modifies this
      ensures answers == Tail(old(answers))
      ensures (c, ok) == Clusters.UpdateSecret(old(c), key, s, Head(old(answers)).mode)
    {
      var a := Next();
      var res := Clusters.UpdateSecret(c, key, s, a.mode);
      c, ok := res.0, res.1;
    }

    method CreateDeployment(d: Deployment) returns (ok: bool)
      modifies this
      ensures answers == Tail(old(answers))
      ensures (c, ok) == Clusters.CreateDeployment(old(c), d, Head(old(answers)).mode)
    {
      var a := Next();
      var res := Clusters.CreateDeployment(c, d, a.mode);
      c, ok := res.0, res.1;
    }

    method UpdateDeployment(d: Deployment)
      modifies this
      ensures answers == Tail(old(answers))
      ensures c == Clusters.UpdateDeployment(old(c), d, Head(old(answers)).mode)
    {
      var a := Next();
      c := Clusters.UpdateDeployment(c, d, a.mode);
    }

    /** Assigns the client reference of the object behind a lister's pointer. */
    method AssignClientRef(key: Key, obj: nat, ref: ResourceRef)
      modifies this`c
      ensures c == WriteThrough(old(c), key, obj, ref)
    {
      c := WriteThrough(c, key, obj, ref);
    }

    /** provisioner.Provision: the id of the new host. */
    method Provision(token: string, uid: nat) returns (id: Option<string>)
      modifies this
      ensures answers == Tail(old(answers))
      ensures var a := Head(old(answers));
              var place := if a.mode.Lost? then Orphaned else InFlight(me);
              && id == Reply(a.mode, a.hostId)
              && c == if a.mode.Refused? then old(c) else WithHostAt(old(c), a.hostId, Host(token, uid, place))
    {
      var a := Next();
      if !a.mode.Refused? {
        c := WithHostAt(c, a.hostId, Host(token, uid, if a.mode.Lost? then Orphaned else InFlight(me)));
      }
      id := Reply(a.mode, a.hostId);
    }

    /** provisioner.Status. */
    method Status() returns (r: Option<(HostStatus, string)>)
      modifies this`answers
      ensures answers == Tail(old(answers))
      ensures var a := Head(old(answers)); r == if a.mode.Success? then Some((a.hostStatus, a.hostIP)) else None
    {
      var a := Next();
      r := if a.mode.Success? then Some((a.hostStatus, a.hostIP)) else None;
    }

    /** provisioner.Delete. */
    method DeleteHost() returns (ok: bool)
      modifies this`answers
      ensures answers == Tail(old(answers)) && ok == Head(old(answers)).mode.Success?
    {
      var a := Next();
      ok := a.mode.Success?;
    }

    /** History only: where host `id` stands from now on. */
    method Note(id: string, p: Place)
      modifies this`c
      ensures c == Book(old(c), id, p)
    {
      c := Book(c, id, p);
    }
  }

  class Controller {
    const api: Api

    constructor (api: Api)
      ensures this.api == api
    {
      this.api := api;
    }

    /** The cluster, error and answers now are those left by a thread that started at
        `pc` on cluster `c` with `answers`. */
    ghost predicate Ran(c: Cluster, pc: Pc, answers: seq<Answer>, err: bool)
      reads api
    {
      Run(c, api.me, pc, answers) == Outcome(api.c, err, api.answers)
    }

    /** That thread now stands at `now`. */
    ghost predicate Reaches(c: Cluster, pc: Pc, answers: seq<Answer>, now: Pc)
      reads api
    {
      Run(c, api.me, pc, answers) == Run(api.c, api.me, now, api.answers)
    }

    method CreateTunnelResource(s: Service)
      modifies api
      ensures Ran(old(api.c), Generate(s, GetTunnel), old(api.answers), false)
    {
      var key := TunnelKeyFor(s.key);
      var managed := ManageService(api.c.config.annotatedOnly, s);
      var found := api.GetTunnel(key);
      match found
      case Failing =>
      case NotFound =>
        if !managed { return; }
        assert Reaches(old(api.c), Generate(s, GetTunnel), old(api.answers), Generate(s, NewTunnel));
        var created := api.CreateTunnel(key, GeneratedOwners(s), GeneratedSpec(s));
        if created.Some? {
          assert Reaches(old(api.c), Generate(s, GetTunnel), old(api.answers),
                          Generate(s, MarkGenerated(created.value)));
          var _ := api.UpdateTunnelStatus(WithGenerated(created.value));
          assert Reaches(old(api.c), Generate(s, GetTunnel), old(api.answers), Done(false));
        }
      case Found(_) =>
        if !managed {
          assert Reaches(old(api.c), Generate(s, GetTunnel), old(api.answers), Generate(s, DropTunnel));
          api.DeleteTunnel(key);
        }
    }

    method CreateTunnelAuthTokenSecret(t: Tunnel) returns (err: bool)
      modifies api
      ensures Ran(old(api.c), Auth(t, GetAuth), old(api.answers), err)
    {
      var existing := api.GetSecret(t.key);
      if existing.NotFound? {
        var created := api.CreateAuthSecret(t.key);
        if created.Failed? {
          assert Reaches(old(api.c), Auth(t, GetAuth), old(api.answers), Done(true));
          return true;
        }
      }
      assert Reaches(old(api.c), Auth(t, GetAuth), old(api.answers), Auth(t, WriteAuthRef));
      var r := api.UpdateTunnelStatus(WithAuthRef(t));
      assert Reaches(old(api.c), Auth(t, GetAuth), old(api.answers), Done(r.None?));
      return r.None?;
    }

    /** The withdraw branch: every other address, in order. */
    static method FilterAddress(list: seq<string>, ip: string) returns (ips: seq<string>)
      ensures ips == Without(list, ip)
    {
      ips := [];
      for i := 0 to |list|
        invariant ips == Without(list[..i], ip)
      {
        assert list[..i + 1][..i] == list[..i];
        if list[i] != ip { ips := ips + [list[i]]; }
      }
      assert list[..|list|] == list;
    }

    /** Appends or filters the address in a copy of the Service, writes it, and mirrors
        the written list into the ingress. */
    method UpdateService(t: Tunnel, ip: string) returns (err: bool)
      modifies api
      ensures Ran(old(api.c), StartExpose(t, ip), old(api.answers), err)
    {
      if !OwnsService(t) { return false; }
      var res := api.GetService(ServiceKey(t));
      if !res.Found? { return true; }
      var s := res.value;
      var ips := s.externalIPs + [ip];
      if ip == "" { ips := FilterAddress(s.externalIPs, t.status.hostIP); }
      assert Reaches(old(api.c), StartExpose(t, ip), old(api.answers),
                      Expose(t, ip, WriteService(EditService(t, ip, s))));
      var written := api.UpdateService(s.(externalIPs := ips), ServiceEdit(t, ip));
      if written.None? {
        assert Reaches(old(api.c), StartExpose(t, ip), old(api.answers), Done(true));
        return true;
      }
      var ingress: seq<string> := [];
      for i := 0 to |written.value.externalIPs|
        invariant ingress == written.value.externalIPs[..i]
      {
        ingress := ingress + [written.value.externalIPs[i]];
      }
      assert ingress == written.value.externalIPs;
      assert Reaches(old(api.c), StartExpose(t, ip), old(api.answers),
                      Expose(t, ip, WriteIngress(Mirror(written.value))));
      var mirrored := api.UpdateServiceStatus(written.value.(ingress := ingress));
      assert Reaches(old(api.c), StartExpose(t, ip), old(api.answers), Done(mirrored.None?));
      return mirrored.None?;
    }

    /** updateTunnelProvisioningStatus: without a Service reference no call is made. */
    method UpdateTunnelProvisioningStatus(t: Tunnel, status: HostStatus, id: string, ip: string)
      returns (r: Option<Tunnel>)
      modifies api
      ensures t.spec.serviceRef.None? ==> r.None? && api.answers == old(api.answers) && api.c == old(api.c)
      ensures t.spec.serviceRef.Some? ==>
                && api.answers == Tail(old(api.answers))
                && (api.c, r) == Clusters.UpdateTunnelStatus(
                     old(api.c), WithHost(t, status, id, ip), Head(old(api.answers)).mode)
    {
      if t.spec.serviceRef.None? { return None; }
      r := api.UpdateTunnelStatus(WithHost(t, status, id, ip));
    }

    /** getSecretValue: None when the secret cannot be read or its token is empty. */
    method GetSecretValue(t: Tunnel) returns (token: Option<string>)
      modifies api
      ensures Reaches(old(api.c), Provision(t, ReadToken), old(api.answers),
                      if token.Some? then Provision(t, ProvisionHost(token.value)) else Done(true))
      ensures api.c == old(api.c)
    {
      var secret := api.GetSecret(SecretKey(t));
      if secret.Found? && Token(secret.value) != "" { return Some(Token(secret.value)); }
      return None;
    }

    /** Its end: the host is provisioned, then recorded. */
    method ProvisionAndRecord(t: Tunnel, token: string) returns (err: bool)
      requires t.spec.serviceRef.Some?
      modifies api
      ensures Ran(old(api.c), Provision(t, ProvisionHost(token)), old(api.answers), err)
    {
      var id := api.Provision(token, t.uid);
      if id.None? { return true; }
      assert Reaches(old(api.c), Provision(t, ProvisionHost(token)), old(api.answers),
                     Provision(t, WriteProvisioning(id.value)));
      // Whether the write will take effect decides what becomes of the host in the books.
      var taken := Writes(api.c, WithHost(t, Provisioning, id.value, ""), Head(api.answers).mode);
      var r := UpdateTunnelProvisioningStatus(t, Provisioning, id.value, "");
      api.Note(id.value, if taken then Recorded(t.key) else Orphaned);
      assert Reaches(old(api.c), Provision(t, ProvisionHost(token)), old(api.answers), Done(r.None?));
      return r.None?;
    }

    /** The case of syncHandler for a Tunnel that has a secret but no host. */
    method ProvisionExitServer(t: Tunnel) returns (err: bool)
      modifies api
      ensures Ran(old(api.c), Provision(t, InitProvision), old(api.answers), err)
    {
      var ok := api.GetProvisioner();
      if !ok || t.spec.serviceRef.None? { return true; }
      var service := api.ListService(ServiceKey(t));
      if !service.Found? {
        assert Reaches(old(api.c), Provision(t, InitProvision), old(api.answers), Done(true));
        return true;
      }
      assert Reaches(old(api.c), Provision(t, InitProvision), old(api.answers), Provision(t, ReadToken));
      var token := GetSecretValue(t);
      if token.None? {
        assert Reaches(old(api.c), Provision(t, InitProvision), old(api.answers), Done(true));
        return true;
      }
      assert Reaches(old(api.c), Provision(t, InitProvision), old(api.answers),
                      Provision(t, ProvisionHost(token.value)));
      err := ProvisionAndRecord(t, token.value);
    }

    method SyncProvisioningHostStatus(t: Tunnel) returns (err: bool)
      modifies api
      ensures Ran(old(api.c), Poll(t, InitPoll), old(api.answers), err)
    {
      var ok := api.GetProvisioner();
      if !ok { return true; }
      assert Reaches(old(api.c), Poll(t, InitPoll), old(api.answers), Poll(t, PollHost));
      var host := api.Status();
      if host.None? { return true; }
      var (status, ip) := host.value;
      if !status.Active? || ip == "" { return false; }
      assert Reaches(old(api.c), Poll(t, InitPoll), old(api.answers),
                     if t.spec.serviceRef.None? then Done(true) else Poll(t, WriteActive(ip)));
      var r := UpdateTunnelProvisioningStatus(t, Active, t.status.hostID, ip);
      assert Reaches(old(api.c), Poll(t, InitPoll), old(api.answers),
                     if r.None? then Done(true) else StartExpose(r.value, ip));
      if r.None? { return true; }
      err := UpdateService(r.value, ip);
    }

    /** Copies the operator's license into the Tunnel's namespace. */
    method SyncTunnelLicense(t: Tunnel, obj: nat) returns (err: bool)
      modifies api
      ensures Reaches(old(api.c), License(t, obj, GetLicense), old(api.answers),
                      if err then Done(true) else StartClient(t, obj))
    {
      var license := api.GetSecret(Key(api.c.config.operatorNamespace, LICENSE_SECRET));
      if !license.Found? { return true; }
      var data := license.value.data;
      assert Reaches(old(api.c), License(t, obj, GetLicense), old(api.answers), License(t, obj, GetLicenseCopy(data)));
      var existing := api.GetSecret(LicenseKey(t));
      if existing.Found? {
        if Lookup(existing.value.data, "license") == Lookup(data, "license") { return false; }
        var copy := existing.value.(data := data);
        assert Reaches(old(api.c), License(t, obj, GetLicense), old(api.answers), License(t, obj, UpdateLicense(copy)));
        var ok := api.UpdateSecret(LicenseKey(t), copy);
        return !ok;
      }
      assert Reaches(old(api.c), License(t, obj, GetLicense), old(api.answers), License(t, obj, NewLicense(data)));
      var created := api.CreateSecret(LicenseKey(t), data);
      return !created.Made?;
    }

    method CreateClientDeployment(t: Tunnel, obj: nat) returns (err: bool)
      modifies api
      ensures Ran(old(api.c), StartClient(t, obj), old(api.answers), err)
    {
      if Named(t.status.clientDeploymentRef) {
        err := UpdateClientDeploymentRef(t);
        return;
      }
      var service := api.GetService(ServiceKey(t));
      if !service.Found? { return true; }
      var ports := GetPortsString(service.value.ports);
      var d := MakeClientDeployment(t, ports);
      assert Reaches(old(api.c), StartClient(t, obj), old(api.answers), Client(t, obj, NewClient(d)));
      var ok := api.CreateDeployment(d);
      var ref := if ok then ResourceRef(d.key.name, d.key.namespace) else ResourceRef("", "");
      api.AssignClientRef(t.key, obj, ref);
      var copy := WithClientRef(t, ref);
      assert Reaches(old(api.c), StartClient(t, obj), old(api.answers), Client(copy, obj, WriteClientRef));
      var r := api.UpdateTunnelStatus(copy);
      assert Reaches(old(api.c), StartClient(t, obj), old(api.answers), Done(r.None?));
      return r.None?;
    }

    method UpdateClientDeploymentRef(t: Tunnel) returns (err: bool)
      modifies api
      ensures Ran(old(api.c), Redeploy(t, GetClient), old(api.answers), err)
    {
      var found := api.GetDeployment(ClientKey(t));
      if !found.Found? { return true; }
      assert Reaches(old(api.c), Redeploy(t, GetClient), old(api.answers), Redeploy(t, GetClientPorts(found.value)));
      var service := api.GetService(ServiceKey(t));
      if !service.Found? { return true; }
      if PortsDiffer(found.value, service.value) {
        var ports := GetPortsString(service.value.ports);
        var d := MakeClientDeployment(t, ports);
        assert Reaches(old(api.c), Redeploy(t, GetClient), old(api.answers), Redeploy(t, UpdateClient(d)));
        api.UpdateDeployment(d);
        assert Reaches(old(api.c), Redeploy(t, GetClient), old(api.answers), Done(false));
      }
      return false;
    }

    method SyncHandler(key: Key) returns (err: bool)
      modifies api
      ensures Ran(old(api.c), Begin(key, LookupService), old(api.answers), err)
    {
      var service := api.ListService(key);
      if service.Failing? { return true; }
      if service.Found? {
        assert Reaches(old(api.c), Begin(key, LookupService), old(api.answers), Generate(service.value, GetTunnel));
        CreateTunnelResource(service.value);
        return false;
      }
      assert Reaches(old(api.c), Begin(key, LookupService), old(api.answers), Begin(key, LookupTunnel));
      var cached := api.ListTunnel(key);
      if !cached.Found? {
        assert Reaches(old(api.c), Begin(key, LookupService), old(api.answers), Done(cached.Failing?));
        return cached.Failing?;
      }
      var t := cached.value.tunnel;
      assert Reaches(old(api.c), Begin(key, LookupService), old(api.answers), Dispatch(cached.value));
      if t.spec.serviceRef.None? { return true; }
      match t.status.hostStatus
      case NotStarted =>
        if SecretName(t) == "" { err := CreateTunnelAuthTokenSecret(t); }
        else { err := ProvisionExitServer(t); }
      case Provisioning =>
        err := SyncProvisioningHostStatus(t);
      case Active =>
        var failed := SyncTunnelLicense(t, cached.value.obj);
        if failed { return true; }
        err := CreateClientDeployment(t, cached.value.obj);
      case Other(_) =>
        err := false;
    }

    /** DeleteFunc once it knows the HostID; updateService's error is dropped. */
    method DeleteFunc(t: Tunnel)
      modifies api
      ensures var end := Run(old(api.c), api.me, Dispose(t, InitDispose), old(api.answers));
              api.c == end.c && api.answers == end.rest
    {
      var ok := api.GetProvisioner();
      if !ok {
        api.Note(t.status.hostID, Orphaned);
        return;
      }
      assert Reaches(old(api.c), Dispose(t, InitDispose), old(api.answers), Dispose(t, DeleteHost));
      var deleted := api.DeleteHost();
      api.Note(t.status.hostID, if deleted then Gone else Orphaned);
      assert Reaches(old(api.c), Dispose(t, InitDispose), old(api.answers),
                      if deleted then StartExpose(t, "") else Done(false));
      if deleted {
        var _ := UpdateService(t, "");
      }
    }
  }
}
