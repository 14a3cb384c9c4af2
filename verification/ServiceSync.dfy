/** What a sync of a Service key does: controller.go, createTunnelResource. */
module ServiceSync {
  import opened Options
  import opened Resources
  import opened Clusters
  import opened Sync
  import opened SyncRuns
  import opened Outcomes
  import opened Convergence

  /** The cache knows a Service under its own key. */
  predicate Cached(c: Cluster, k: Key) { k in c.serviceCache && c.serviceCache[k].key == k }

  predicate Managed(c: Cluster, k: Key)
    requires Cached(c, k)
  {
    ManageService(c.config.annotatedOnly, c.serviceCache[k])
  }

  /** The Service has its Tunnel exactly when it is managed. */
  predicate Converged(c: Cluster, k: Key)
    requires Cached(c, k)
  {
    TunnelKeyFor(k) in c.tunnels <==> Managed(c, k)
  }

  /** Two Services never share a generated Tunnel. */
  lemma TunnelKeysDiffer(a: Key, b: Key)
    ensures TunnelKeyFor(a) == TunnelKeyFor(b) <==> a == b
  {
    var x, y := TunnelKeyFor(a).name, TunnelKeyFor(b).name;
    if x == y {
      assert a.name == x[..|x| - |"-tunnel"|] == b.name;
    }
  }

  function Second(answers: seq<Answer>): Answer { Head(Tail(answers)) }
  function Third(answers: seq<Answer>): Answer { Head(Tail(Tail(answers))) }

  /** What is left of the Tunnels by a sync whose lister call works. */
  function ServiceSynced(c: Cluster, k: Key, answers: seq<Answer>): Cluster
    requires Cached(c, k)
  {
    var key, s := TunnelKeyFor(k), c.serviceCache[k];
    if Converged(c, k) || !Second(answers).mode.Success? then c
    else if !Managed(c, k) then (if Third(answers).mode.Refused? then c else DeleteTunnel(c, key))
    else
      var (c1, made) := CreateTunnel(c, key, GeneratedOwners(s), GeneratedSpec(s), Third(answers).mode);
      if made.None? then c1
      else UpdateTunnelStatus(c1, WithGenerated(made.value), Head(Tail(Tail(Tail(answers)))).mode).0
  }

  lemma ServiceSyncRuns(c: Cluster, me: nat, k: Key, answers: seq<Answer>)
    requires Cached(c, k) && Head(answers).mode.Success?
    ensures var end := SyncOnce(c, me, k, answers);
            end.c == ServiceSynced(c, k, answers) && !end.err
  {
    var s := c.serviceCache[k];
    hide ManageService, UpdateTunnelStatus, DeleteTunnel, CreateTunnel;
    RunStep(c, me, Begin(k, LookupService), answers);
    var rest := Tail(answers);
    RunStep(c, me, Generate(s, GetTunnel), rest);
    if !Converged(c, k) && Second(answers).mode.Success? {
      if Managed(c, k) {
        RunStep(c, me, Generate(s, NewTunnel), Tail(rest));
        var (c1, made) := CreateTunnel(c, TunnelKeyFor(k), GeneratedOwners(s), GeneratedSpec(s), Third(answers).mode);
        if made.Some? { RunStep(c1, me, Generate(s, MarkGenerated(made.value)), Tail(Tail(rest))); }
      } else {
        RunStep(c, me, Generate(s, DropTunnel), Tail(rest));
      }
    }
  }

  // ---- Which Tunnels there are afterwards ---------------------------------------------

  predicate OnlyTouches(c: Cluster, c': Cluster, key: Key) {
    c'.serviceCache == c.serviceCache && c'.config == c.config && c'.tunnels - {key} == c.tunnels - {key}
  }

  lemma StatusKeepsKeys(c: Cluster, t: Tunnel, m: Mode)
    requires t.key in c.tunnels ==> c.tunnels[t.key].key == t.key
    ensures var c' := UpdateTunnelStatus(c, t, m).0;
            OnlyTouches(c, c', t.key) && (t.key in c'.tunnels <==> t.key in c.tunnels)
  {
    var c' := UpdateTunnelStatus(c, t, m).0;
    if c' != c {
      var next := c.tunnels[t.key].(status := t.status, rv := c.nextRv);
      assert c' == StoreTunnel(c, next);
      assert next.key == t.key;
    }
  }

  lemma CreateAddsKey(c: Cluster, key: Key, owners: seq<OwnerReference>, spec: TunnelSpec, m: Mode)
    requires key !in c.tunnels
    ensures var (c', made) := CreateTunnel(c, key, owners, spec, m);
            && OnlyTouches(c, c', key) && (key in c'.tunnels <==> !m.Refused?)
            && (made.Some? ==> made.value.key == key && key in c'.tunnels && c'.tunnels[key] == made.value)
  {}

  lemma DeleteDropsKey(c: Cluster, key: Key)
    ensures var c' := DeleteTunnel(c, key); OnlyTouches(c, c', key) && key !in c'.tunnels
  {}

  /** Creating the Tunnel and marking it. */
  lemma CreatedAndMarked(c: Cluster, k: Key, answers: seq<Answer>)
    requires Cached(c, k) && Managed(c, k) && !Converged(c, k) && Second(answers).mode.Success?
    ensures var key, c' := TunnelKeyFor(k), ServiceSynced(c, k, answers);
            OnlyTouches(c, c', key) && (key in c'.tunnels <==> !Third(answers).mode.Refused?)
  {
    var key, s := TunnelKeyFor(k), c.serviceCache[k];
    hide ManageService, TunnelKeyFor, UpdateTunnelStatus, CreateTunnel;
    var (c1, made) := CreateTunnel(c, key, GeneratedOwners(s), GeneratedSpec(s), Third(answers).mode);
    CreateAddsKey(c, key, GeneratedOwners(s), GeneratedSpec(s), Third(answers).mode);
    if made.Some? { StatusKeepsKeys(c1, WithGenerated(made.value), Head(Tail(Tail(Tail(answers)))).mode); }
  }

  lemma ServiceSyncedKeys(c: Cluster, k: Key, answers: seq<Answer>)
    requires Cached(c, k)
    ensures var c' := ServiceSynced(c, k, answers);
            && OnlyTouches(c, c', TunnelKeyFor(k))
            && (Converged(c', k) <==>
                  Converged(c, k) || (Second(answers).mode.Success? && !Third(answers).mode.Refused?))
  {
    hide ManageService, UpdateTunnelStatus, DeleteTunnel, CreateTunnel, TunnelKeyFor;
    if !Converged(c, k) && Second(answers).mode.Success? {
      if Managed(c, k) {
        CreatedAndMarked(c, k, answers);
        hide ServiceSynced;
      } else {
        DeleteDropsKey(c, TunnelKeyFor(k));
      }
    }
  }

  /** Errors are swallowed: the sync of a Service reports an error only if the lister fails, and
      the Tunnel is there exactly for a managed Service if it already was, or if lister and read
      worked and the create or delete took effect. No other Tunnel is touched. */
  lemma ServiceConvergesExactly(c: Cluster, me: nat, k: Key, answers: seq<Answer>)
    requires Cached(c, k)
    ensures var end, listed := SyncOnce(c, me, k, answers), Head(answers).mode.Success?;
            && (end.err <==> !listed) && OnlyTouches(c, end.c, Key(k.namespace, k.name + "-tunnel"))
            && (Converged(end.c, k) <==>
                  Converged(c, k) || (listed && Second(answers).mode.Success? && !Third(answers).mode.Refused?))
  {
    if Head(answers).mode.Success? {
      ServiceSyncRuns(c, me, k, answers);
      ServiceSyncedKeys(c, k, answers);
    } else {
      RunStep(c, me, Begin(k, LookupService), answers);
    }
    hide SyncOnce, ServiceSynced, Converged;
  }

  /** A converged Service is a fixpoint, for every answer. */
  lemma ConvergedStays(c: Cluster, me: nat, k: Key, answers: seq<Answer>)
    requires Cached(c, k) && Converged(c, k)
    ensures SyncOnce(c, me, k, answers).c == c
  {
    if Head(answers).mode.Success? {
      ServiceSyncRuns(c, me, k, answers);
    } else {
      RunStep(c, me, Begin(k, LookupService), answers);
    }
  }

  /** When its calls work one sync converges the Service and a second changes nothing. */
  lemma OneSyncConverges(c: Cluster, me: nat, k: Key, answers: seq<Answer>, again: seq<Answer>)
    requires Cached(c, k) && Works(answers)
    ensures var c' := SyncOnce(c, me, k, answers).c;
            && (TunnelKeyFor(k) in c'.tunnels <==> Managed(c, k))
            && SyncOnce(c', me, k, again).c == c'
  {
    hide SyncOnce, ManageService, TunnelKeyFor;
    ServiceConvergesExactly(c, me, k, answers);
    ConvergedStays(SyncOnce(c, me, k, answers).c, me, k, again);
  }

  lemma FourthWorks(answers: seq<Answer>)
    requires Works(answers)
    ensures Second(answers).mode.Success? && Third(answers).mode.Success?
    ensures Head(Tail(Tail(Tail(answers)))).mode.Success? && Head(answers).mode.Success?
  {
    assert Tail(Tail(answers)) == answers[2..] && Tail(Tail(Tail(answers))) == answers[3..];
  }

  /** The Tunnel that a working sync creates is a new one of the Service's own: it forwards to
      that Service, publishes its address there, and starts without secret, host and client. */
  lemma CreatedForItsService(c: Cluster, me: nat, k: Key, answers: seq<Answer>)
    requires Cached(c, k) && Managed(c, k) && !Converged(c, k) && Works(answers)
    ensures var c' := SyncOnce(c, me, k, answers).c;
            && TunnelKeyFor(k) in c'.tunnels
            && var t := c'.tunnels[TunnelKeyFor(k)];
            && t.key == Key(k.namespace, k.name + "-tunnel") && t.uid == c.nextUid
            && ServiceKey(t) == k && OwnsService(t) && SecretName(t) == ""
            && t.spec == TunnelSpec(Some(ResourceRef(k.name, k.namespace)), None, None, true)
            && t.owners == [OwnerReference("Service", k.name)]
            && t.status == TunnelStatus(true, NotStarted, "", "", None, None)
  {
    var s, key := c.serviceCache[k], TunnelKeyFor(k);
    ServiceSyncRuns(c, me, k, answers);
    FourthWorks(answers);
    hide SyncOnce, ManageService, Works;
    var created := Tunnel(key, c.nextUid, c.nextRv, GeneratedOwners(s), GeneratedSpec(s), NEW_STATUS);
    assert GeneratedOwners(s)[0].kind == "Service";
    var c1 := CreateTunnel(c, key, GeneratedOwners(s), GeneratedSpec(s), Success).0;
    assert c1.tunnels[key] == created;
    hide CreateTunnel;
    AnyWrite(c1, WithGenerated(created), Success);
    hide UpdateTunnelStatus;
  }

  // ---- Which Services are managed -----------------------------------------------------------

  /** What the Service's annotation says, if it is there. */
  function Annotation(c: Cluster, k: Key): Option<string>
    requires k in c.serviceCache
  {
    var annotations := c.serviceCache[k].annotations;
    if "operator.inlets.dev/manage" in annotations then Some(annotations["operator.inlets.dev/manage"]) else None
  }

  /** After a working sync a Service without the annotation has its Tunnel exactly if the operator
      is not in annotated-only mode; the annotation overrides that mode, and every value but the
      six spellings of true means no. */
  lemma AnnotationDecides(c: Cluster, me: nat, k: Key, answers: seq<Answer>)
    requires Cached(c, k) && Works(answers)
    ensures var v, c' := Annotation(c, k), SyncOnce(c, me, k, answers).c;
            var there := Key(k.namespace, k.name + "-tunnel") in c'.tunnels;
            && (v.None? ==> (there <==> !c.config.annotatedOnly))
            && (v.Some? ==> (there <==> v.value in ["1", "t", "T", "true", "TRUE", "True"]))
  {
    OneSyncConverges(c, me, k, answers, answers);
    hide SyncOnce, Works;
  }

  /** The cache shows Service `k` with the annotation set to `v`. */
  function Annotated(c: Cluster, k: Key, v: string): Cluster
    requires k in c.serviceCache
  {
    var s := c.serviceCache[k];
    c.(serviceCache := c.serviceCache[k := s.(annotations := s.annotations["operator.inlets.dev/manage" := v])])
  }

  lemma DeletedAwaits(c: Cluster, key: Key)
    requires key in c.tunnels
    ensures var t, c' := c.tunnels[key], DeleteTunnel(c, key);
            && t.uid in c'.deleteEvents && c'.deleteEvents[t.uid] == t
            && (t.status.hostID in c.hosts ==>
                  t.status.hostID in c'.hosts && c'.hosts[t.status.hostID].place == Awaiting(t.uid))
  {}

  lemma UnmanagedIsDropped(c: Cluster, me: nat, k: Key, answers: seq<Answer>)
    requires Cached(c, k) && !Managed(c, k) && TunnelKeyFor(k) in c.tunnels && Works(answers)
    ensures SyncOnce(c, me, k, answers).c == DeleteTunnel(c, TunnelKeyFor(k))
  {
    ServiceSyncRuns(c, me, k, answers);
    FourthWorks(answers);
    hide SyncOnce, ManageService, TunnelKeyFor, DeleteTunnel, UpdateTunnelStatus, CreateTunnel;
  }

  lemma ManagedIsThere(c: Cluster, me: nat, k: Key, answers: seq<Answer>)
    requires Cached(c, k) && Works(answers) && Annotation(c, k) == Some("1")
    ensures var c' := SyncOnce(c, me, k, answers).c;
            Key(k.namespace, k.name + "-tunnel") in c'.tunnels && c'.serviceCache == c.serviceCache
  {
    AnnotationDecides(c, me, k, answers);
    FourthWorks(answers);
    ServiceConvergesExactly(c, me, k, answers);
    hide SyncOnce, Works, Converged;
  }

  /** Switching the annotation from "1" to "0" undoes the Service's Tunnel: one working sync makes
      it or keeps it, the next one deletes it, and its host with it once the event is handled. */
  lemma SwitchedOff(c: Cluster, me: nat, k: Key, first: seq<Answer>, second: seq<Answer>)
    requires Cached(c, k) && Works(first) && Works(second)
    ensures var key, c1 := Key(k.namespace, k.name + "-tunnel"), SyncOnce(Annotated(c, k, "1"), me, k, first).c;
            && key in c1.tunnels && k in c1.serviceCache
            && var t, c2 := c1.tunnels[key], SyncOnce(Annotated(c1, k, "0"), me, k, second).c;
            && key !in c2.tunnels && t.uid in c2.deleteEvents && c2.deleteEvents[t.uid] == t
            && (t.status.hostID in c1.hosts ==>
                  t.status.hostID in c2.hosts && c2.hosts[t.status.hostID].place == Awaiting(t.uid))
  {
    var key, on := Key(k.namespace, k.name + "-tunnel"), Annotated(c, k, "1");
    assert Annotation(on, k) == Some("1");
    ManagedIsThere(on, me, k, first);
    var c1 := SyncOnce(on, me, k, first).c;
    hide SyncOnce, Works;
    var off := Annotated(c1, k, "0");
    assert Cached(off, k) && !Managed(off, k) && key == TunnelKeyFor(k);
    hide Managed, Cached;
    UnmanagedIsDropped(off, me, k, second);
    DeletedAwaits(off, key);
    assert key !in DeleteTunnel(off, key).tunnels;
    hide DeleteTunnel;
  }
}
