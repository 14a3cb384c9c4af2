/** The lifecycle of a Tunnel as an atomic machine, and the proof that the concurrent
    machine refines it. */
module Lifecycle {
  import opened Options
  import opened Resources
  import opened ExternalIPs
  import opened Clusters
  import opened Sync
  import opened Machine
  import opened Invariants
  import opened StatusWrites
  import opened Preservation

  // ---- The atomic machine ------------------------------------------------------

  datatype Life =
    | NoSecret
    | HasSecret(secret: string)
    | Provisioned(secret: string, id: string)
    | Activated(secret: string, id: string, ip: string)
    | Connected(secret: string, id: string, ip: string, client: ResourceRef)

  datatype Incarnation = Incarnation(uid: nat, life: Life)

  /** `born` and `used` hold the incarnations and the host ids there ever were. */
  datatype World = World(alive: map<Key, Incarnation>, born: set<nat>, used: set<string>)

  datatype Event =
    | Stutter
    | Birth(k: Key, uid: nat, secret: string)
    | Secure(k: Key)
    | Acquire(k: Key, id: string)
    | Activate(k: Key, ip: string)
    | Connect(k: Key)
    | Death(k: Key)

  predicate Can(w: World, e: Event) {
    match e
    case Stutter => true
    case Birth(k, uid, _) => k !in w.alive && uid !in w.born
    case Secure(k) => k in w.alive && w.alive[k].life.NoSecret?
    case Acquire(k, id) => k in w.alive && w.alive[k].life.HasSecret? && id != "" && id !in w.used
    case Activate(k, ip) => k in w.alive && w.alive[k].life.Provisioned? && ip != ""
    case Connect(k) => k in w.alive && w.alive[k].life.Activated?
    case Death(k) => k in w.alive
  }

  function Live(w: World, k: Key, life: Life): World
    requires k in w.alive
  {
    w.(alive := w.alive[k := w.alive[k].(life := life)])
  }

  function Do(w: World, e: Event): World
    requires Can(w, e)
  {
    match e
    case Stutter => w
    case Birth(k, uid, secret) =>
      var life := if secret == "" then NoSecret else HasSecret(secret);
      w.(alive := w.alive[k := Incarnation(uid, life)], born := w.born + {uid})
    case Secure(k) => Live(w, k, HasSecret(k.name))
    case Acquire(k, id) => Live(w, k, Provisioned(w.alive[k].life.secret, id)).(used := w.used + {id})
    case Activate(k, ip) => Live(w, k, Activated(w.alive[k].life.secret, w.alive[k].life.id, ip))
    case Connect(k) =>
      var life := w.alive[k].life;
      Live(w, k, Connected(life.secret, life.id, life.ip, ClientRef(k)))
    case Death(k) => w.(alive := w.alive - {k})
  }

  // ---- The abstraction ---------------------------------------------------------

  function LifeOf(t: Tunnel): Life {
    var st, secret := t.status, SecretName(t);
    match st.hostStatus
    case NotStarted => if secret == "" then NoSecret else HasSecret(secret)
    case Provisioning => Provisioned(secret, st.hostID)
    case _ =>
      if Named(st.clientDeploymentRef) then Connected(secret, st.hostID, st.hostIP, st.clientDeploymentRef.value)
      else Activated(secret, st.hostID, st.hostIP)
  }

  function Born(c: Cluster): set<nat> { set r <- c.versions :: c.versions[r].uid }

  function Used(c: Cluster): set<string> {
    set r <- c.versions | c.versions[r].status.hostID != "" :: c.versions[r].status.hostID
  }

  function Alive(c: Cluster): map<Key, Incarnation> {
    map k <- c.tunnels :: Incarnation(c.tunnels[k].uid, LifeOf(c.tunnels[k]))
  }

  function Abstract(c: Cluster): World { World(Alive(c), Born(c), Used(c)) }

  /** The atomic event of a call: a stutter unless a write of a Tunnel takes effect. */
  function CallEvent(c: Cluster, pc: Pc, a: Answer): Event {
    match pc
    case Generate(s, NewTunnel) =>
      if a.mode.Refused? || TunnelKeyFor(s.key) in c.tunnels then Stutter
      else Birth(TunnelKeyFor(s.key), c.nextUid, "")
    case Generate(s, DropTunnel) =>
      if a.mode.Refused? || TunnelKeyFor(s.key) !in c.tunnels then Stutter else Death(TunnelKeyFor(s.key))
    case Auth(t, WriteAuthRef) => if Writes(c, t, a.mode) then Secure(t.key) else Stutter
    case Provision(t, WriteProvisioning(id)) => if Writes(c, t, a.mode) then Acquire(t.key, id) else Stutter
    case Poll(t, WriteActive(ip)) => if Writes(c, t, a.mode) then Activate(t.key, ip) else Stutter
    case Client(t, _, WriteClientRef) =>
      if Writes(c, t, a.mode) && Named(t.status.clientDeploymentRef) then Connect(t.key) else Stutter
    case _ => Stutter
  }

  function EventOf(s: State, act: Action): Event
    requires Enabled(s, act)
  {
    match act
    case Call(i, a) => CallEvent(s.c, s.threads[i].pc, a)
    case AddTunnel(key, _, spec) =>
      Birth(key, s.c.nextUid, if spec.authTokenRef.Some? then spec.authTokenRef.value.name else "")
    case RemoveTunnel(key) => if key in s.c.tunnels then Death(key) else Stutter
    case _ => Stutter
  }

  // ---- The refinement ------------------------------------------------------------

  predicate Refines(c: Cluster, c': Cluster, e: Event) {
    Can(Abstract(c), e) && Abstract(c') == Do(Abstract(c), e)
  }

  lemma SameIsStutter(c: Cluster, c': Cluster)
    requires c'.tunnels == c.tunnels && c'.versions == c.versions
    ensures Refines(c, c', Stutter)
  {}

  lemma BornStored(c: Cluster, next: Tunnel)
    requires StoredOk(c) && next.rv == c.nextRv
    ensures Born(StoreTunnel(c, next)) == Born(c) + {next.uid}
    ensures Used(StoreTunnel(c, next))
         == Used(c) + (if next.status.hostID == "" then {} else {next.status.hostID})
  {
    var c' := StoreTunnel(c, next);
    assert next.rv !in c.versions;
    assert forall r <- c.versions :: r in c'.versions && c'.versions[r] == c.versions[r];
    assert c'.versions[next.rv] == next;
  }

  lemma AliveStored(c: Cluster, next: Tunnel)
    ensures Alive(StoreTunnel(c, next)) == Alive(c)[next.key := Incarnation(next.uid, LifeOf(next))]
  {}

  lemma StoredIsBorn(c: Cluster, k: Key)
    requires StoredOk(c) && k in c.tunnels
    ensures c.tunnels[k].uid in Born(c)
    ensures c.tunnels[k].status.hostID != "" ==> c.tunnels[k].status.hostID in Used(c)
  {
    assert c.versions[c.tunnels[k].rv] == c.tunnels[k];
  }

  /** A new version of a stored Tunnel that keeps the HostID. */
  lemma StoredRefines(c: Cluster, next: Tunnel)
    requires StoredOk(c) && next.key in c.tunnels && next.rv == c.nextRv && next.uid == c.tunnels[next.key].uid
    requires next.status.hostID == c.tunnels[next.key].status.hostID
    ensures Abstract(StoreTunnel(c, next)) == Live(Abstract(c), next.key, LifeOf(next))
  {
    hide StoredOk, LifeOf;
    StoredIsBorn(c, next.key);
    BornStored(c, next);
    AliveStored(c, next);
    hide Born, Used, StoreTunnel;
    assert Born(c) + {next.uid} == Born(c);
    var id := next.status.hostID;
    assert Used(c) + (if id == "" then {} else {id}) == Used(c);
  }

  lemma LifeIgnoresRv(t: Tunnel, rv: nat)
    ensures LifeOf(t.(rv := rv)) == LifeOf(t)
  {}

  lemma StoredKey(c: Cluster, k: Key)
    requires StoredOk(c) && k in c.tunnels
    ensures c.tunnels[k].key == k
  {}

  /** Status writes that keep the HostID, as events. */
  lemma WriteRefines(c: Cluster, t: Tunnel, m: Mode, e: Event)
    requires StoredOk(c)
    requires Writes(c, t, m) ==>
               && t.status.hostID == c.tunnels[t.key].status.hostID
               && Can(Abstract(c), e)
               && Do(Abstract(c), e) == Live(Abstract(c), t.key, LifeOf(c.tunnels[t.key].(status := t.status)))
    requires !Writes(c, t, m) ==> e == Stutter
    ensures Refines(c, UpdateTunnelStatus(c, t, m).0, e)
  {
    hide StoredOk, LifeOf, Can, Do;
    var c' := UpdateTunnelStatus(c, t, m).0;
    if Writes(c, t, m) {
      var cur := c.tunnels[t.key];
      if cur.status == t.status {
        assert cur.(status := t.status) == cur;
        assert Live(Abstract(c), t.key, LifeOf(cur)) == Abstract(c);
      } else {
        var next := cur.(status := t.status, rv := c.nextRv);
        LifeIgnoresRv(cur.(status := t.status), c.nextRv);
        StoredKey(c, t.key);
        StoredRefines(c, next);
      }
    } else {
      assert Can(Abstract(c), Stutter) && Do(Abstract(c), Stutter) == Abstract(c) by { SameIsStutter(c, c); }
    }
  }

  lemma SameBooks(c: Cluster, c': Cluster)
    requires c'.tunnels == c.tunnels && c'.versions == c.versions
    ensures Abstract(c') == Abstract(c)
  {}

  lemma BirthRefines(c: Cluster, key: Key, owners: seq<OwnerReference>, spec: TunnelSpec)
    requires StoredOk(c) && SpecOk(key, spec) && key !in c.tunnels
    ensures Refines(c, CreateTunnel(c, key, owners, spec, Success).0,
                    Birth(key, c.nextUid, if spec.authTokenRef.Some? then spec.authTokenRef.value.name else ""))
  {
    var next := Tunnel(key, c.nextUid, c.nextRv, owners, spec, NEW_STATUS);
    BornStored(c, next);
    AliveStored(c, next);
    assert c.nextUid !in Born(c);
    hide StoredOk, Born, Used;
    var c' := CreateTunnel(c, key, owners, spec, Success).0;
    SameBooks(StoreTunnel(c, next), c');
    assert Used(c) + {} == Used(c);
  }

  lemma DeathRefines(c: Cluster, key: Key)
    requires key in c.tunnels
    ensures Refines(c, DeleteTunnel(c, key), Death(key))
  {
    var c' := DeleteTunnel(c, key);
    assert c'.versions == c.versions && c'.tunnels == c.tunnels - {key};
    assert Alive(c') == Alive(c) - {key};
  }

  lemma NewIdIsUnused(c: Cluster, id: string)
    requires VersionHostsKnown(c) && id in c.hosts && c.hosts[id].place.InFlight?
    ensures id !in Used(c)
  {}

  lemma BookKeepsWorld(c: Cluster, id: string, p: Place)
    ensures Abstract(Book(c, id, p)) == Abstract(c)
  {
    SameBooks(c, Book(c, id, p));
  }

  lemma AliveIs(c: Cluster, k: Key)
    requires k in c.tunnels
    ensures k in Alive(c) && Alive(c)[k] == Incarnation(c.tunnels[k].uid, LifeOf(c.tunnels[k]))
  {}

  lemma LivesAfterAcquiring(cur: Tunnel, next: Tunnel, id: string)
    requires cur.status.hostStatus.NotStarted? && SecretName(cur) != "" && id != ""
    requires next == WithHost(cur, Provisioning, id, "").(rv := next.rv)
    ensures LifeOf(cur) == HasSecret(SecretName(cur)) && LifeOf(next) == Provisioned(SecretName(cur), id)
    ensures next.uid == cur.uid && next.status.hostID == id
  {}

  lemma AcquiredWorld(c: Cluster, next: Tunnel, id: string)
    requires StoredOk(c) && VersionHostsKnown(c) && next.key in c.tunnels && next.rv == c.nextRv
    requires next.uid == c.tunnels[next.key].uid && next.status.hostID == id
    requires id != "" && id in c.hosts && c.hosts[id].place.InFlight?
    ensures var k, w := next.key, Abstract(c);
            && k in w.alive && w.alive[k] == Incarnation(next.uid, LifeOf(c.tunnels[k])) && id !in w.used
            && Abstract(Book(StoreTunnel(c, next), id, Recorded(k)))
               == World(w.alive[k := Incarnation(next.uid, LifeOf(next))], w.born, w.used + {id})
  {
    BornStored(c, next);
    AliveStored(c, next);
    StoredIsBorn(c, next.key);
    NewIdIsUnused(c, id);
    AliveIs(c, next.key);
    hide StoredOk, VersionHostsKnown, Born, Used, LifeOf, Alive;
    BookKeepsWorld(StoreTunnel(c, next), id, Recorded(next.key));
    hide Book, StoreTunnel;
    assert Born(c) + {next.uid} == Born(c);
  }

  lemma AcquireRefines(c: Cluster, next: Tunnel, id: string)
    requires StoredOk(c) && VersionHostsKnown(c) && next.key in c.tunnels && next.rv == c.nextRv
    requires var cur := c.tunnels[next.key];
             && cur.status.hostStatus.NotStarted? && SecretName(cur) != ""
             && next == WithHost(cur, Provisioning, id, "").(rv := next.rv)
    requires id != "" && id in c.hosts && c.hosts[id].place.InFlight?
    ensures Refines(c, Book(StoreTunnel(c, next), id, Recorded(next.key)), Acquire(next.key, id))
  {
    LivesAfterAcquiring(c.tunnels[next.key], next, id);
    AcquiredWorld(c, next, id);
    hide StoredOk, VersionHostsKnown, Abstract, LifeOf, WithHost, SecretName, Book, StoreTunnel;
  }

  /** A call that writes no Tunnel. */
  lemma UnwrittenKeepsTunnels(c: Cluster, me: nat, t: Tunnel, call: ProvisionCall, a: Answer)
    requires call.WriteProvisioning? ==> !Writes(c, t, a.mode)
    ensures var c' := StepProvision(c, me, t, call, a).0; c'.tunnels == c.tunnels && c'.versions == c.versions
  {
    match call
    case ProvisionHost(token) => HostCall(c, me, t, token, a); hide StepProvisionHost;
    case WriteProvisioning(id) =>
      assert UpdateTunnelStatus(c, WithHost(t, Provisioning, id, ""), a.mode).0 == c;
      assert StepWriteProvisioning(c, t, id, a).0 == Book(c, id, Orphaned);
    case InitProvision =>
    case LookupBackend =>
    case ReadToken =>
  }

  lemma InvStored(s: State)
    requires Inv(s)
    ensures StoredOk(s.c) && VersionHostsKnown(s.c)
    ensures forall i <- s.threads :: PcOk(s.c, i, s.threads[i].pc)
  {}

  lemma ProvisionRefines(s: State, i: nat, a: Answer)
    requires Inv(s) && Enabled(s, Call(i, a)) && s.threads[i].pc.Provision?
    ensures var pc := s.threads[i].pc; Refines(s.c, Step(s.c, i, pc, a).0, CallEvent(s.c, pc, a))
  {
    hide Inv, Refines, Can, Do;
    var pc := s.threads[i].pc;
    var c' := Step(s.c, i, pc, a).0;
    if pc.prov.WriteProvisioning? && Writes(s.c, pc.t, a.mode) {
      ProvisioningWritten(s, i);
      var next := Written(s.c, WithHost(pc.t, Provisioning, pc.prov.id, ""));
      InvStored(s);
      AcquireRefines(s.c, next, pc.prov.id);
    } else {
      UnwrittenKeepsTunnels(s.c, i, pc.t, pc.prov, a);
      SameIsStutter(s.c, c');
    }
  }

  lemma AuthWriteRefines(c: Cluster, t: Tunnel, a: Answer)
    requires StoredOk(c) && AuthOk(c, t)
    ensures Refines(c, UpdateTunnelStatus(c, WithAuthRef(t), a.mode).0, CallEvent(c, Auth(t, WriteAuthRef), a))
  {
    ExactMatches(c, t, WithAuthRef(t));
    hide StoredOk, Refines;
    WriteRefines(c, WithAuthRef(t), a.mode, CallEvent(c, Auth(t, WriteAuthRef), a));
  }

  lemma AuthRefines(s: State, i: nat, a: Answer)
    requires Inv(s) && Enabled(s, Call(i, a)) && s.threads[i].pc.Auth?
    ensures var pc := s.threads[i].pc; Refines(s.c, Step(s.c, i, pc, a).0, CallEvent(s.c, pc, a))
  {
    hide Inv;
    InvStored(s);
    var pc := s.threads[i].pc;
    hide VersionHostsKnown, Refines;
    assert AuthOk(s.c, pc.t);
    match pc.auth
    case GetAuth => SameIsStutter(s.c, s.c);
    case NewAuth => SameIsStutter(s.c, CreateSecret(s.c, pc.t.key, map["token" := a.password], a.mode).0);
    case WriteAuthRef => AuthWriteRefines(s.c, pc.t, a);
  }

  lemma ActiveWriteRefines(c: Cluster, t: Tunnel, ip: string, a: Answer)
    requires StoredOk(c) && PollOk(c, t, WriteActive(ip))
    ensures Refines(c, UpdateTunnelStatus(c, WithHost(t, Active, t.status.hostID, ip), a.mode).0,
                    CallEvent(c, Poll(t, WriteActive(ip)), a))
  {
    assert FieldsOk(c.versions[t.rv]);
    ExactMatches(c, t, WithHost(t, Active, t.status.hostID, ip));
    hide StoredOk, Refines, FieldsOk;
    WriteRefines(c, WithHost(t, Active, t.status.hostID, ip), a.mode, CallEvent(c, Poll(t, WriteActive(ip)), a));
  }

  lemma PollRefines(s: State, i: nat, a: Answer)
    requires Inv(s) && Enabled(s, Call(i, a)) && s.threads[i].pc.Poll?
    ensures var pc := s.threads[i].pc; Refines(s.c, Step(s.c, i, pc, a).0, CallEvent(s.c, pc, a))
  {
    hide Inv;
    InvStored(s);
    var pc := s.threads[i].pc;
    hide VersionHostsKnown, Refines;
    assert PollOk(s.c, pc.t, pc.poll);
    if pc.poll.WriteActive? {
      ActiveWriteRefines(s.c, pc.t, pc.poll.address, a);
    } else {
      SameIsStutter(s.c, s.c);
    }
  }

  /** What a client reference is written over. */
  lemma RefWriteMatches(c: Cluster, t: Tunnel)
    requires StoredOk(c) && ClientOk(c, t, WriteClientRef) && Matches(c, t)
    ensures var cur := c.tunnels[t.key];
            && cur.key == t.key && cur.status.hostStatus.Active? && !Named(cur.status.clientDeploymentRef)
            && t.status == cur.status.(clientDeploymentRef := t.status.clientDeploymentRef)
            && t.status.clientDeploymentRef.Some? && ClientRefOk(t.key, t.status.clientDeploymentRef)
  {
    MatchIsCurrent(c, t);
    assert FieldsOk(c.versions[t.rv]);
  }

  lemma ConnectOrStutter(c: Cluster, t: Tunnel)
    requires t.key in c.tunnels
    requires var cur := c.tunnels[t.key];
             && cur.key == t.key && cur.status.hostStatus.Active? && !Named(cur.status.clientDeploymentRef)
             && t.status == cur.status.(clientDeploymentRef := t.status.clientDeploymentRef)
             && t.status.clientDeploymentRef.Some? && ClientRefOk(t.key, t.status.clientDeploymentRef)
    ensures var w, e := Abstract(c), if Named(t.status.clientDeploymentRef) then Connect(t.key) else Stutter;
            && t.key in w.alive && Can(w, e)
            && Do(w, e) == Live(w, t.key, LifeOf(c.tunnels[t.key].(status := t.status)))
  {
    hide Born, Used;
    var w, cur := Abstract(c), c.tunnels[t.key];
    AliveIs(c, t.key);
    hide Alive;
    if !Named(t.status.clientDeploymentRef) {
      assert LifeOf(cur.(status := t.status)) == LifeOf(cur);
      assert w.alive[t.key := w.alive[t.key]] == w.alive;
    }
  }

  lemma ClientWriteRefines(c: Cluster, t: Tunnel, obj: nat, a: Answer)
    requires StoredOk(c) && ClientOk(c, t, WriteClientRef)
    ensures Refines(c, UpdateTunnelStatus(c, t, a.mode).0, CallEvent(c, Client(t, obj, WriteClientRef), a))
  {
    if Matches(c, t) { RefWriteMatches(c, t); }
    hide StoredOk, ClientOk, Refines, Can, Do;
    if Writes(c, t, a.mode) {
      ConnectOrStutter(c, t);
      hide LifeOf, Abstract;
    }
    hide Matches;
    WriteRefines(c, t, a.mode, CallEvent(c, Client(t, obj, WriteClientRef), a));
  }

  lemma WriteThroughKeepsTunnels(c: Cluster, key: Key, obj: nat, ref: ResourceRef)
    ensures var c' := WriteThrough(c, key, obj, ref); c'.tunnels == c.tunnels && c'.versions == c.versions
  {}

  lemma NewClientRefines(c: Cluster, t: Tunnel, obj: nat, d: Deployment, a: Answer)
    ensures Refines(c, StepClient(c, t, obj, NewClient(d), a).0, Stutter)
  {
    hide Refines;
    var c1, ref := CreateDeployment(c, d, a.mode).0, CreatedRef(c, d, a.mode);
    assert c1.tunnels == c.tunnels && c1.versions == c.versions;
    hide CreateDeployment, CreatedRef;
    WriteThroughKeepsTunnels(c1, t.key, obj, ref);
    SameIsStutter(c, WriteThrough(c1, t.key, obj, ref));
  }

  lemma ClientRefines(s: State, i: nat, a: Answer)
    requires Inv(s) && Enabled(s, Call(i, a)) && s.threads[i].pc.Client?
    ensures var pc := s.threads[i].pc; Refines(s.c, Step(s.c, i, pc, a).0, CallEvent(s.c, pc, a))
  {
    hide Inv, Refines;
    InvStored(s);
    var pc := s.threads[i].pc;
    assert PcOk(s.c, i, pc);
    hide StoredOk, VersionHostsKnown;
    match pc.cli
    case GetPorts => SameIsStutter(s.c, s.c);
    case NewClient(d) => NewClientRefines(s.c, pc.t, pc.obj, d, a);
    case WriteClientRef => ClientWriteRefines(s.c, pc.t, pc.obj, a);
  }

  /** A status that leaves the life as it is. */
  lemma StutterIsLive(c: Cluster, k: Key, t: Tunnel)
    requires k in c.tunnels && LifeOf(c.tunnels[k].(status := t.status)) == LifeOf(c.tunnels[k])
    ensures var w := Abstract(c);
            k in w.alive && Can(w, Stutter)
            && Do(w, Stutter) == Live(w, k, LifeOf(c.tunnels[k].(status := t.status)))
  {
    hide Born, Used, LifeOf;
    AliveIs(c, k);
    hide Alive;
    assert Abstract(c).alive[k := Abstract(c).alive[k]] == Abstract(c).alive;
  }

  lemma MarkRefines(s: State, i: nat, a: Answer)
    requires Inv(s) && Enabled(s, Call(i, a)) && s.threads[i].pc.Generate? && s.threads[i].pc.gen.MarkGenerated?
    ensures Refines(s.c, Step(s.c, i, s.threads[i].pc, a).0, Stutter)
  {
    hide Inv;
    InvStored(s);
    var t := s.threads[i].pc.gen.created;
    assert PcOk(s.c, i, s.threads[i].pc);
    ExactMatches(s.c, t, WithGenerated(t));
    if Matches(s.c, t) {
      StoredKey(s.c, t.key);
      StutterIsLive(s.c, t.key, WithGenerated(t));
    }
    hide StoredOk, VersionHostsKnown, Refines, PcOk, Exact, Can, Do, LifeOf, Abstract;
    WriteRefines(s.c, WithGenerated(t), a.mode, Stutter);
  }

  lemma GenerateRefines(s: State, i: nat, a: Answer)
    requires Inv(s) && Enabled(s, Call(i, a)) && s.threads[i].pc.Generate?
    ensures var pc := s.threads[i].pc; Refines(s.c, Step(s.c, i, pc, a).0, CallEvent(s.c, pc, a))
  {
    hide Inv, Refines, Can, Do;
    InvStored(s);
    var pc := s.threads[i].pc;
    var c' := Step(s.c, i, pc, a).0;
    match pc.gen
    case GetTunnel => SameIsStutter(s.c, c');
    case NewTunnel =>
      if c' == s.c { SameIsStutter(s.c, c'); }
      else { BirthRefines(s.c, TunnelKeyFor(pc.s.key), GeneratedOwners(pc.s), GeneratedSpec(pc.s)); }
    case MarkGenerated(t) => MarkRefines(s, i, a);
    case DropTunnel =>
      if c' == s.c { SameIsStutter(s.c, c'); } else { DeathRefines(s.c, TunnelKeyFor(pc.s.key)); }
  }

  lemma PutRefines(c: Cluster, svc: Service)
    ensures Refines(c, StoreService(c, svc), Stutter)
  {
    hide Refines;
    SameIsStutter(c, StoreService(c, svc));
  }

  lemma DeliveryRefines(s: State, uid: nat, tombstone: bool)
    requires uid in s.c.deleteEvents
    ensures Refines(s.c, DeliverEvent(s, uid, tombstone).c, Stutter)
  {
    hide Refines;
    SameIsStutter(s.c, DeliverEvent(s, uid, tombstone).c);
  }

  lemma OutsideRefines(s: State, act: Action)
    requires StoredOk(s.c) && Enabled(s, act) && !act.Call?
    ensures Refines(s.c, Machine.Apply(s, act).c, EventOf(s, act))
  {
    hide Refines, StoredOk, DeliverEvent, Machine.StoreService;
    var c' := Machine.Apply(s, act).c;
    match act
    case AddTunnel(key, owners, spec) => BirthRefines(s.c, key, owners, spec);
    case RemoveTunnel(key) =>
      if key in s.c.tunnels { DeathRefines(s.c, key); } else { SameIsStutter(s.c, s.c); }
    case Deliver(uid, tombstone) => DeliveryRefines(s, uid, tombstone);
    case PutService(svc) => PutRefines(s.c, svc);
    case _ => SameIsStutter(s.c, c');
  }

  lemma ServiceWriteRefines(c: Cluster, s: Service, op: EditOp, m: Mode)
    ensures Refines(c, UpdateService(c, s, op, m).0, Stutter)
  {
    hide Refines;
    SameIsStutter(c, UpdateService(c, s, op, m).0);
  }

  lemma IngressWriteRefines(c: Cluster, s: Service, m: Mode)
    ensures Refines(c, UpdateServiceStatus(c, s, m).0, Stutter)
  {
    hide Refines;
    SameIsStutter(c, UpdateServiceStatus(c, s, m).0);
  }

  lemma ExposeRefines(c: Cluster, t: Tunnel, ip: string, call: ExposeCall, a: Answer)
    ensures Refines(c, StepExpose(c, t, ip, call, a).0, Stutter)
  {
    hide Refines;
    match call
    case GetService => SameIsStutter(c, c);
    case WriteService(s) => ServiceWriteRefines(c, s, ServiceEdit(t, ip), a.mode); hide UpdateService;
    case WriteIngress(s) => IngressWriteRefines(c, s, a.mode); hide UpdateServiceStatus;
  }

  lemma LicenseRefines(c: Cluster, t: Tunnel, obj: nat, call: LicenseCall, a: Answer)
    ensures Refines(c, StepLicense(c, t, obj, call, a).0, Stutter)
  {
    hide Refines;
    SameIsStutter(c, StepLicense(c, t, obj, call, a).0);
  }

  lemma RedeployRefines(c: Cluster, t: Tunnel, call: RedeployCall, a: Answer)
    ensures Refines(c, StepRedeploy(c, t, call, a).0, Stutter)
  {
    hide Refines;
    SameIsStutter(c, StepRedeploy(c, t, call, a).0);
  }

  lemma BookRefines(c: Cluster, id: string, p: Place)
    ensures Refines(c, Book(c, id, p), Stutter)
  {
    hide Refines;
    SameIsStutter(c, Book(c, id, p));
  }

  lemma DisposeRefines(c: Cluster, t: Tunnel, call: DisposeCall, a: Answer)
    ensures Refines(c, StepDispose(c, t, call, a).0, Stutter)
  {
    hide Refines, Book;
    BookRefines(c, t.status.hostID, Gone);
    BookRefines(c, t.status.hostID, Orphaned);
    SameIsStutter(c, c);
  }

  lemma CallRefines(s: State, i: nat, a: Answer)
    requires Inv(s) && Enabled(s, Call(i, a))
    ensures Refines(s.c, Step(s.c, i, s.threads[i].pc, a).0, CallEvent(s.c, s.threads[i].pc, a))
  {
    hide Refines, Inv;
    match s.threads[i].pc
    case Generate(_, _) => GenerateRefines(s, i, a);
    case Auth(_, _) => AuthRefines(s, i, a);
    case Provision(_, _) => ProvisionRefines(s, i, a);
    case Poll(_, _) => PollRefines(s, i, a);
    case Client(_, _, _) => ClientRefines(s, i, a);
    case Begin(_, _) => SameIsStutter(s.c, s.c);
    case Expose(t, ip, call) => ExposeRefines(s.c, t, ip, call, a);
    case License(t, obj, call) => LicenseRefines(s.c, t, obj, call, a);
    case Redeploy(t, call) => RedeployRefines(s.c, t, call, a);
    case Dispose(t, call) => DisposeRefines(s.c, t, call, a);
  }

  /** Every action of the concurrent machine is one event of the atomic machine, and
      which one it is can be read off the action. */
  lemma StepRefines(s: State, act: Action)
    requires Inv(s) && Enabled(s, act)
    ensures Refines(s.c, Machine.Apply(s, act).c, EventOf(s, act))
  {
    hide Refines, Inv;
    if act.Call? {
      CallRefines(s, act.i, act.a);
      hide Step;
    } else {
      InvStored(s);
      hide StoredOk, VersionHostsKnown, PcOk;
      OutsideRefines(s, act);
    }
  }

  // Calls that write no Tunnel.

  predicate Happens(w: World, e: Event, w': World) { Can(w, e) && w' == Do(w, e) }

  /** A run of the atomic machine. */
  predicate IsLifeRun(worlds: seq<World>, events: seq<Event>) {
    && |worlds| == |events| + 1
    && worlds[0] == World(map[], {}, {})
    && forall i :: 0 <= i < |events| ==> Happens(worlds[i], events[i], worlds[i + 1])
  }

  lemma RunStepRefines(states: seq<State>, acts: seq<Action>, n: nat)
    requires IsRun(states, acts) && n < |acts|
    ensures Follows(states[n], acts[n], states[n + 1])
    ensures Happens(Abstract(states[n].c), EventOf(states[n], acts[n]), Abstract(states[n + 1].c))
  {
    RunKeeps(states, acts, n);
    assert Follows(states[n], acts[n], states[n + 1]);
    hide IsRun, Inv, Can, Do, Abstract;
    StepRefines(states[n], acts[n]);
  }

  function WorldsOf(states: seq<State>): seq<World> {
    seq(|states|, i requires 0 <= i < |states| => Abstract(states[i].c))
  }

  /** The events of a run, one per action. */
  function EventsOf(states: seq<State>, acts: seq<Action>): seq<Event>
    requires IsRun(states, acts)
  {
    seq(|acts|, i requires 0 <= i < |acts| => (RunStepRefines(states, acts, i); EventOf(states[i], acts[i])))
  }

  lemma StartsEmpty(states: seq<State>, acts: seq<Action>)
    requires IsRun(states, acts)
    ensures Abstract(states[0].c) == World(map[], {}, {})
  {}

  /** Every run of the concurrent machine is, state by state, a run of the atomic one. */
  lemma RunRefines(states: seq<State>, acts: seq<Action>)
    requires IsRun(states, acts)
    ensures IsLifeRun(WorldsOf(states), EventsOf(states, acts))
  {
    var worlds, events := WorldsOf(states), EventsOf(states, acts);
    StartsEmpty(states, acts);
    forall i | 0 <= i < |events| ensures Happens(worlds[i], events[i], worlds[i + 1]) {
      RunStepRefines(states, acts, i);
      hide IsRun, Happens, Abstract, EventOf;
    }
  }

  /** Versions of one incarnation at the same stage of life differ at most in `generated`,
      in a client reference without a name, and in resourceVersion. */
  lemma LifeDetermines(a: Tunnel, b: Tunnel)
    requires FieldsOk(a) && FieldsOk(b) && Evolves(a, b) && LifeOf(a) == LifeOf(b)
    ensures var st := a.status.(generated := b.status.generated,
                                clientDeploymentRef := b.status.clientDeploymentRef);
            b == a.(rv := b.rv, status := st)
    ensures a.status.clientDeploymentRef == b.status.clientDeploymentRef
            || !(Named(a.status.clientDeploymentRef) || Named(b.status.clientDeploymentRef))
  {
  }
}
