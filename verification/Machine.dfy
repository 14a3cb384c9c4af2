/** The operator as a concurrent machine: workers, the delete handler, the informers
    and everybody else who uses the API server, interleaved call by call. */
module Machine {
  import opened Options
  import opened Resources
  import opened ExternalIPs
  import opened Clusters
  import opened Sync

  /** `key` is the work item a worker holds. */
  datatype Thread = Thread(key: Key, pc: Pc)

  datatype State = State(c: Cluster, threads: map<nat, Thread>)

  /** The goroutine that runs DeleteFunc; every other thread is a worker. */
  const HANDLER: nat := 0

  datatype Action =
    | Call(i: nat, a: Answer)
    | StartSync(i: nat, key: Key)
    | Deliver(uid: nat, tombstone: bool)
    // Other users of the API server
    | AddTunnel(key: Key, owners: seq<OwnerReference>, spec: TunnelSpec)
    | RemoveTunnel(key: Key)
    | PutService(s: Service)
    | RemoveService(key: Key)
    | AddSecret(key: Key, data: map<string, string>)
    | AddDeployment(d: Deployment)
    | RemoveDeployment(key: Key)
    // The informers
    | RefreshTunnel(key: Key, rv: nat)
    | ForgetTunnel(key: Key)
    | RefreshService(s: Service)
    | ForgetService(key: Key)

  predicate Initial(s: State) {
    && s.c.tunnels == map[] && s.c.services == map[] && s.c.deployments == map[]
    && s.c.tunnelCache == map[] && s.c.serviceCache == map[]
    && s.c.hosts == map[] && s.c.deleteEvents == map[] && s.c.versions == map[] && s.c.edits == []
    && (forall i <- s.threads :: s.threads[i].pc.Done?)
  }

  /** Provisioned ids are fresh and non-empty, generated passwords non-empty. */
  predicate AnswerOk(c: Cluster, pc: Pc, a: Answer) {
    && (pc.Provision? && pc.prov.ProvisionHost? && !a.mode.Refused? ==> a.hostId != "" && a.hostId !in c.hosts)
    && (pc.Auth? && pc.auth.NewAuth? ==> a.password != "")
  }

  /** The queue hands a key to one worker at a time. */
  predicate KeyIsFree(s: State, i: nat, key: Key) {
    forall j <- s.threads :: j != i && j != HANDLER && !s.threads[j].pc.Done? ==> s.threads[j].key != key
  }

  predicate SpecOk(key: Key, spec: TunnelSpec) {
    key.name != "" && (spec.authTokenRef.Some? ==> spec.authTokenRef.value.name != "")
  }

  predicate Enabled(s: State, act: Action) {
    match act
    case Call(i, a) => i in s.threads && !s.threads[i].pc.Done? && AnswerOk(s.c, s.threads[i].pc, a)
    case StartSync(i, key) =>
      i in s.threads && i != HANDLER && s.threads[i].pc.Done? && KeyIsFree(s, i, key)
    case Deliver(uid, _) => HANDLER in s.threads && s.threads[HANDLER].pc.Done? && uid in s.c.deleteEvents
    case AddTunnel(key, _, spec) => key !in s.c.tunnels && SpecOk(key, spec)
    case AddSecret(key, _) => key !in s.c.secrets
    case AddDeployment(d) => d.key !in s.c.deployments && d.owner.None?
    case RefreshTunnel(key, rv) => rv in s.c.versions && s.c.versions[rv].key == key
    case _ => true
  }

  /** DeleteFunc up to its first call: a tombstone and an empty HostID end it early. */
  function DeliverEvent(s: State, uid: nat, tombstone: bool): State
    requires uid in s.c.deleteEvents
  {
    var t := s.c.deleteEvents[uid];
    var c := s.c.(deleteEvents := s.c.deleteEvents - {uid});
    if tombstone then s.(c := Book(c, t.status.hostID, Orphaned))
    else if t.status.hostID == "" then s.(c := c)
    else State(Book(c, t.status.hostID, Handling(HANDLER)),
               s.threads[HANDLER := Thread(t.key, Dispose(t, InitDispose))])
  }

  /** Any write of a Service by others, including its creation. */
  function StoreService(c: Cluster, s: Service): Cluster {
    c.(services := c.services[s.key := s.(rv := c.nextRv)], nextRv := c.nextRv + 1,
       edits := c.edits + [Edit(s.key, Put(s.externalIPs))])
  }

  function Apply(s: State, act: Action): State
    requires Enabled(s, act)
  {
    var c := s.c;
    match act
    case Call(i, a) =>
      var (c', pc) := Step(c, i, s.threads[i].pc, a);
      State(c', s.threads[i := s.threads[i].(pc := pc)])
    case StartSync(i, key) => s.(threads := s.threads[i := Thread(key, Begin(key, LookupService))])
    case Deliver(uid, tombstone) => DeliverEvent(s, uid, tombstone)
    case AddTunnel(key, owners, spec) => s.(c := CreateTunnel(c, key, owners, spec, Success).0)
    case RemoveTunnel(key) => s.(c := DeleteTunnel(c, key))
    case PutService(svc) => s.(c := StoreService(c, svc))
    case RemoveService(key) => s.(c := c.(services := c.services - {key}))
    case AddSecret(key, data) => s.(c := CreateSecret(c, key, data, Success).0)
    case AddDeployment(d) => s.(c := CreateDeployment(c, d, Success).0)
    case RemoveDeployment(key) => s.(c := c.(deployments := c.deployments - {key}))
    case RefreshTunnel(key, rv) =>
      s.(c := c.(tunnelCache := c.tunnelCache[key := CachedTunnel(c.nextObj, c.versions[rv])],
                 nextObj := c.nextObj + 1))
    case ForgetTunnel(key) => s.(c := c.(tunnelCache := c.tunnelCache - {key}))
    case RefreshService(svc) => s.(c := c.(serviceCache := c.serviceCache[svc.key := svc]))
    case ForgetService(key) => s.(c := c.(serviceCache := c.serviceCache - {key}))
  }

  /** `s'` follows `s` by action `act`. */
  predicate Follows(s: State, act: Action, s': State) {
    Enabled(s, act) && s' == Apply(s, act)
  }

  /** A run: its states and the actions between them. */
  predicate IsRun(states: seq<State>, acts: seq<Action>) {
    && |states| == |acts| + 1
    && Initial(states[0])
    && forall i :: 0 <= i < |acts| ==> Follows(states[i], acts[i], states[i + 1])
  }
}
