/** What one sync of an active Tunnel changes and what it reports, whichever of its calls fail:
    the license copy and the client. */
module ClientOutcomes {
  import opened Options
  import opened Resources
  import opened Ports
  import opened Clusters
  import opened Sync
  import opened Invariants
  import opened SyncRuns
  import opened Outcomes

  // ---- The license -----------------------------------------------------------------------

  /** The copy in the Tunnel's namespace has the operator's license. */
  predicate CopyCurrent(c: Cluster, t: Tunnel) { LicenseThere(c) && LicenseCurrent(c, t, OperatorLicense(c)) }

  /** A write of the copy is sent (call 4): it is not current, and was read if it is there. */
  predicate CopySent(c: Cluster, t: Tunnel, answers: seq<Answer>) {
    && FirstOk(answers, 3) && LicenseThere(c) && !CopyCurrent(c, t)
    && (Key(t.key.namespace, "inlets-license") in c.secrets ==> Ok(answers, 3))
  }

  function AfterLicense(c: Cluster, t: Tunnel, answers: seq<Answer>): Cluster {
    if CopySent(c, t, answers) && Lands(answers, 4)
    then c.(secrets := c.secrets[Key(t.key.namespace, "inlets-license") := Secret(c.nextRv, OperatorLicense(c))],
            nextRv := c.nextRv + 1)
    else c
  }

  /** The client's calls are reached: the copy is known to be current, or has just been written. */
  predicate LicenseOk(c: Cluster, t: Tunnel, answers: seq<Answer>) {
    if CopyCurrent(c, t) then FirstOk(answers, 4) else CopySent(c, t, answers) && Ok(answers, 4)
  }

  /** The number of the client's first call. */
  function FirstClientCall(c: Cluster, t: Tunnel): nat { if CopyCurrent(c, t) then 4 else 5 }

  lemma LicenseFrameOf(c: Cluster, t: Tunnel, answers: seq<Answer>)
    ensures var c1 := AfterLicense(c, t, answers);
            c1 == c.(secrets := c1.secrets, nextRv := c1.nextRv) && (LicenseThere(c) ==> LicenseThere(c1))
  {
    hide FirstOk, Lands, CopyCurrent;
    if !CopySent(c, t, answers) || !Lands(answers, 4) {
      assert AfterLicense(c, t, answers) == c;
      hide AfterLicense;
    }
  }

  /** Call 3 has found no copy, or has failed. */
  lemma CopyCreated(c: Cluster, me: nat, t: Tunnel, obj: nat, answers: seq<Answer>)
    requires FirstOk(answers, 3) && LicenseThere(c) && (LicenseKey(t) in c.secrets ==> !Ok(answers, 3))
    ensures var start := Run(c, me, License(t, obj, NewLicense(OperatorLicense(c))), From(answers, 4));
            var c1 := AfterLicense(c, t, answers);
            && (LicenseOk(c, t, answers) ==> start == Run(c1, me, StartClient(t, obj), From(answers, 5)))
            && (!LicenseOk(c, t, answers) ==> Ends(start, c1, true))
  {
    hide From, StartClient;
    NthCall(c, me, License(t, obj, NewLicense(OperatorLicense(c))), answers, 4);
    assert FirstOk(answers, 4) == Ok(answers, 3);
  }

  lemma CopyReplaced(c: Cluster, me: nat, t: Tunnel, obj: nat, answers: seq<Answer>)
    requires FirstOk(answers, 4) && LicenseThere(c) && LicenseKey(t) in c.secrets && !CopyCurrent(c, t)
    ensures var copy := c.secrets[LicenseKey(t)].(data := OperatorLicense(c));
            var start := Run(c, me, License(t, obj, UpdateLicense(copy)), From(answers, 4));
            var c1 := AfterLicense(c, t, answers);
            && (LicenseOk(c, t, answers) ==> start == Run(c1, me, StartClient(t, obj), From(answers, 5)))
            && (!LicenseOk(c, t, answers) ==> Ends(start, c1, true))
  {
    hide From, StartClient;
    var copy := c.secrets[LicenseKey(t)].(data := OperatorLicense(c));
    NthCall(c, me, License(t, obj, UpdateLicense(copy)), answers, 4);
  }

  lemma CopyRead(c: Cluster, me: nat, t: Tunnel, obj: nat, answers: seq<Answer>)
    requires FirstOk(answers, 3) && LicenseThere(c)
    ensures var start := Run(c, me, License(t, obj, GetLicenseCopy(OperatorLicense(c))), From(answers, 3));
            var c1 := AfterLicense(c, t, answers);
            && (LicenseOk(c, t, answers) ==>
                  start == Run(c1, me, StartClient(t, obj), From(answers, FirstClientCall(c, t))))
            && (!LicenseOk(c, t, answers) ==> Ends(start, c1, true))
  {
    assert FirstOk(answers, 4) == Ok(answers, 3);
    NthCall(c, me, License(t, obj, GetLicenseCopy(OperatorLicense(c))), answers, 3);
    hide From, FirstOk, StartClient, Run;
    if LicenseKey(t) !in c.secrets || !Ok(answers, 3) {
      CopyCreated(c, me, t, obj, answers);
    } else if !CopyCurrent(c, t) {
      CopyReplaced(c, me, t, obj, answers);
    }
  }

  lemma LicenseOutcome(c: Cluster, me: nat, t: Tunnel, obj: nat, answers: seq<Answer>)
    requires FirstOk(answers, 2)
    ensures var start, c1 := Run(c, me, License(t, obj, GetLicense), From(answers, 2)), AfterLicense(c, t, answers);
            && (LicenseOk(c, t, answers) ==>
                  start == Run(c1, me, StartClient(t, obj), From(answers, FirstClientCall(c, t))))
            && (!LicenseOk(c, t, answers) ==> Ends(start, c1, true))
  {
    assert FirstOk(answers, 3) == Ok(answers, 2);
    assert FirstOk(answers, 4) ==> FirstOk(answers, 3);
    hide From, FirstOk, StartClient, Run;
    NthCall(c, me, License(t, obj, GetLicense), answers, 2);
    if Ok(answers, 2) && LicenseThere(c) {
      CopyRead(c, me, t, obj, answers);
    } else {
      RunDone(c, me, true, From(answers, 3));
    }
  }

  lemma ActiveStarts(c: Cluster, me: nat, k: Key, answers: seq<Answer>)
    requires Fresh(c, k) && Distance(c.tunnels[k]) <= 1
    ensures var t, obj := c.tunnels[k], c.tunnelCache[k].obj;
            var end, c1 := SyncOnce(c, me, k, answers), AfterLicense(c, t, answers);
            && (LicenseOk(c, t, answers) ==>
                  end == Run(c1, me, StartClient(t, obj), From(answers, FirstClientCall(c, t))))
            && (!LicenseOk(c, t, answers) ==> Ends(end, c1, true))
  {
    var t, obj := c.tunnels[k], c.tunnelCache[k].obj;
    Dispatches(c, me, k, answers);
    if FirstOk(answers, 4) { FewerOk(answers, 4, 2); }
    if FirstOk(answers, 3) { FewerOk(answers, 3, 2); }
    if FirstOk(answers, 2) {
      assert Dispatch(c.tunnelCache[k]) == License(t, obj, GetLicense);
      hide Dispatch, FieldsOk, AfterLicense, LicenseOk, FirstClientCall, From;
      LicenseOutcome(c, me, t, obj, answers);
    }
  }

  // ---- The client ------------------------------------------------------------------------

  /** `d` is the client of Tunnel `t`: it connects to the Tunnel's host with the Tunnel's secret
      and forwards `ports` to the Service that the Tunnel refers to. */
  predicate IsClientOf(d: Deployment, t: Tunnel, ports: seq<int>)
    requires t.spec.serviceRef.Some?
  {
    && d.key == Key(t.key.namespace, t.key.name + "-client") && d.owner == Some(t.uid)
    && d.urlHost == t.status.hostIP && d.secretName == SecretName(t)
    && d.upstream == t.spec.serviceRef.value.name
    && d.portsArg == PortsString(ports) && d.annotations == Some(map["inlets.dev/ports" := PortsString(ports)])
  }

  /** The Service's ports are read (call `i`). */
  predicate PortsRead(c: Cluster, t: Tunnel, answers: seq<Answer>, i: nat) {
    Ok(answers, i) && ServiceKey(t) in c.services
  }

  /** The reference that createClientDeployment stores: empty after a failed Create (call `i`). */
  function StoredRef(c: Cluster, t: Tunnel, answers: seq<Answer>, i: nat): ResourceRef {
    if ClientNameFree(c, t) && Ok(answers, i) then ResourceRef(t.key.name + "-client", t.key.namespace)
    else ResourceRef("", "")
  }

  /** What is left by the calls of a client that is not there yet, the first of which has number
      `n`, on a Tunnel read through pointer `obj`: the client exactly if the ports are read, the
      name is free and the Create takes effect; its reference, or an empty one, in the status
      exactly if that write takes effect, and in the cached object whatever becomes of it. */
  predicate NewClientLeft(c: Cluster, end: Outcome, t: Tunnel, obj: nat, answers: seq<Answer>, n: nat)
    requires t.key in c.tunnels && t.spec.serviceRef.Some?
  {
    var k, d, c', read := t.key, DefaultClientKey(t), end.c, PortsRead(c, t, answers, n);
    && (end.err <==> !(read && Ok(answers, n + 2))) && OnlyStatus(c, c', k)
    && c'.tunnels[k].status
       == (if read && Lands(answers, n + 2)
           then t.status.(clientDeploymentRef := Some(StoredRef(c, t, answers, n + 1))) else t.status)
    && (if read && ClientNameFree(c, t) && Lands(answers, n + 1)
        then && d in c'.deployments && c'.deployments == c.deployments[d := c'.deployments[d]]
             && IsClientOf(c'.deployments[d], t, c.services[ServiceKey(t)].ports)
        else c'.deployments == c.deployments)
    && (read && k in c.tunnelCache && c.tunnelCache[k] == CachedTunnel(obj, t) ==>
          var seen := t.(status := t.status.(clientDeploymentRef := Some(StoredRef(c, t, answers, n + 1))));
          c'.tunnelCache == c.tunnelCache[k := CachedTunnel(obj, seen)])
    && c' == c.(tunnels := c'.tunnels, versions := c'.versions, deployments := c'.deployments,
                tunnelCache := c'.tunnelCache, nextRv := c'.nextRv)
    && (!read ==> c' == c)
  }

  lemma NewClientReads(c: Cluster, me: nat, t: Tunnel, obj: nat, answers: seq<Answer>, n: nat)
    requires Distance(t) == 1
    ensures var start := Run(c, me, StartClient(t, obj), From(answers, n));
            && (PortsRead(c, t, answers, n) ==>
                  var d := MakeClientDeployment(t, PortsString(c.services[ServiceKey(t)].ports));
                  start == Run(c, me, Client(t, obj, NewClient(d)), From(answers, n + 1)))
            && (!PortsRead(c, t, answers, n) ==> Ends(start, c, true))
  {
    hide From, MakeClientDeployment, PortsString;
    assert StartClient(t, obj) == Client(t, obj, GetPorts);
    hide ServiceKey;
    NthCall(c, me, Client(t, obj, GetPorts), answers, n);
  }

  lemma CreateInMode(c: Cluster, d: Deployment, m: Mode)
    ensures var c1 := CreateDeployment(c, d, m).0;
            && c1 == c.(deployments := c1.deployments)
            && c1.deployments == (if d.key !in c.deployments && !m.Refused? then c.deployments[d.key := d]
                                  else c.deployments)
            && CreatedRef(c, d, m) == (if d.key !in c.deployments && m.Success?
                                       then ResourceRef(d.key.name, d.key.namespace) else ResourceRef("", ""))
  {
    if d.key !in c.deployments && !m.Refused? {
      assert CreateDeployment(c, d, m) == (c.(deployments := c.deployments[d.key := d]), m.Success?);
    } else {
      assert CreateDeployment(c, d, m) == (c, false);
    }
  }

  lemma SeenThrough(c: Cluster, t: Tunnel, obj: nat, ref: ResourceRef)
    ensures var c' := WriteThrough(c, t.key, obj, ref);
            && c' == c.(tunnelCache := c'.tunnelCache)
            && (t.key in c.tunnelCache && c.tunnelCache[t.key] == CachedTunnel(obj, t) ==>
                  c'.tunnelCache == c.tunnelCache[t.key := CachedTunnel(obj, WithClientRef(t, ref))])
  {}

  /** The Create of the client, in any mode, and the write through the pointer. */
  lemma ClientCreated(c: Cluster, t: Tunnel, obj: nat, d: Deployment, m: Mode)
    requires d.key == DefaultClientKey(t)
    ensures var ref, c1 := CreatedRef(c, d, m), CreateDeployment(c, d, m).0;
            var c2 := WriteThrough(c1, t.key, obj, ref);
            && c2 == c.(deployments := c1.deployments, tunnelCache := c2.tunnelCache)
            && c1.deployments == (if ClientNameFree(c, t) && !m.Refused? then c.deployments[d.key := d]
                                  else c.deployments)
            && ref == (if ClientNameFree(c, t) && m.Success? then ResourceRef(t.key.name + "-client", t.key.namespace)
                       else ResourceRef("", ""))
            && (t.key in c.tunnelCache && c.tunnelCache[t.key] == CachedTunnel(obj, t) ==>
                  c2.tunnelCache == c.tunnelCache[t.key := CachedTunnel(obj, WithClientRef(t, ref))])
  {
    CreateInMode(c, d, m);
    hide CreateDeployment, CreatedRef;
    SeenThrough(CreateDeployment(c, d, m).0, t, obj, CreatedRef(c, d, m));
    hide WriteThrough;
  }

  /** The status write (call `w`). */
  lemma RefNoted(c: Cluster, me: nat, t: Tunnel, obj: nat, ref: ResourceRef, answers: seq<Answer>, w: nat)
    requires t.key in c.tunnels && c.tunnels[t.key] == t
    ensures var end := Run(c, me, Client(WithClientRef(t, ref), obj, WriteClientRef), From(answers, w));
            var c' := end.c;
            && (end.err <==> !Ok(answers, w)) && OnlyStatus(c, c', t.key)
            && c'.tunnels[t.key].status
               == (if Lands(answers, w) then t.status.(clientDeploymentRef := Some(ref)) else t.status)
            && c' == c.(tunnels := c'.tunnels, versions := c'.versions, nextRv := c'.nextRv)
  {
    var asked, a := WithClientRef(t, ref), Nth(answers, w);
    NthCall(c, me, Client(asked, obj, WriteClientRef), answers, w);
    AnyWrite(c, asked, a.mode);
    var (c1, r) := UpdateTunnelStatus(c, asked, a.mode);
    hide UpdateTunnelStatus, From;
    assert Step(c, me, Client(asked, obj, WriteClientRef), a) == (c1, Done(r.None?));
    hide Step;
    RunDone(c1, me, r.None?, From(answers, w + 1));
  }

  lemma MadeForTunnel(t: Tunnel, ports: seq<int>)
    requires Distance(t) <= 1 && t.spec.serviceRef.Some? && ClientRefOk(t.key, t.status.clientDeploymentRef)
    ensures IsClientOf(MakeClientDeployment(t, PortsString(ports)), t, ports)
  {
    hide PortsString;
  }

  /** First the Deployments and the cache change, then the Tunnel. */
  lemma Composed(c: Cluster, c2: Cluster, c': Cluster, k: Key)
    requires k in c.tunnels && c2 == c.(deployments := c2.deployments, tunnelCache := c2.tunnelCache)
    requires OnlyStatus(c2, c', k)
    requires c' == c2.(tunnels := c'.tunnels, versions := c'.versions, nextRv := c'.nextRv)
    ensures OnlyStatus(c, c', k) && c'.deployments == c2.deployments && c'.tunnelCache == c2.tunnelCache
    ensures c' == c.(tunnels := c'.tunnels, versions := c'.versions, deployments := c'.deployments,
                     tunnelCache := c'.tunnelCache, nextRv := c'.nextRv)
  {}

  /** The cluster after the Create of client `d` (call `i`) and the write through the pointer. */
  function CreatedAndSeen(c: Cluster, t: Tunnel, obj: nat, d: Deployment, answers: seq<Answer>, i: nat): Cluster {
    var m := Nth(answers, i).mode;
    WriteThrough(CreateDeployment(c, d, m).0, t.key, obj, CreatedRef(c, d, m))
  }

  lemma CreateCall(c: Cluster, me: nat, t: Tunnel, obj: nat, d: Deployment, answers: seq<Answer>, i: nat)
    requires d.key == DefaultClientKey(t)
    ensures var c2, ref := CreatedAndSeen(c, t, obj, d, answers, i), StoredRef(c, t, answers, i);
            && Run(c, me, Client(t, obj, NewClient(d)), From(answers, i))
               == Run(c2, me, Client(WithClientRef(t, ref), obj, WriteClientRef), From(answers, i + 1))
            && c2 == c.(deployments := c2.deployments, tunnelCache := c2.tunnelCache)
            && c2.deployments == (if ClientNameFree(c, t) && Lands(answers, i) then c.deployments[d.key := d]
                                  else c.deployments)
            && (t.key in c.tunnelCache && c.tunnelCache[t.key] == CachedTunnel(obj, t) ==>
                  c2.tunnelCache == c.tunnelCache[t.key := CachedTunnel(obj, WithClientRef(t, ref))])
  {
    ClientCreated(c, t, obj, d, Nth(answers, i).mode);
    hide CreateDeployment, CreatedRef, WriteThrough, From;
    NthCall(c, me, Client(t, obj, NewClient(d)), answers, i);
  }

  /** The Create and the status write, in any mode. */
  lemma NewClientWrites(c: Cluster, me: nat, t: Tunnel, obj: nat, d: Deployment, answers: seq<Answer>, n: nat)
    requires t.key in c.tunnels && c.tunnels[t.key] == t && d.key == DefaultClientKey(t)
    ensures var end := Run(c, me, Client(t, obj, NewClient(d)), From(answers, n + 1));
            var c2, c', ref := CreatedAndSeen(c, t, obj, d, answers, n + 1), end.c, StoredRef(c, t, answers, n + 1);
            && (end.err <==> !Ok(answers, n + 2)) && OnlyStatus(c, c', t.key)
            && c'.tunnels[t.key].status
               == (if Lands(answers, n + 2) then t.status.(clientDeploymentRef := Some(ref)) else t.status)
            && c'.deployments == c2.deployments && c'.tunnelCache == c2.tunnelCache
            && c' == c.(tunnels := c'.tunnels, versions := c'.versions, deployments := c'.deployments,
                        tunnelCache := c'.tunnelCache, nextRv := c'.nextRv)
  {
    var c2, ref := CreatedAndSeen(c, t, obj, d, answers, n + 1), StoredRef(c, t, answers, n + 1);
    CreateCall(c, me, t, obj, d, answers, n + 1);
    hide CreatedAndSeen, ClientNameFree, From, StoredRef, Run, DefaultClientKey, OnlyStatus, Ok, Lands;
    RefNoted(c2, me, t, obj, ref, answers, n + 2);
    Composed(c, c2, Run(c, me, Client(t, obj, NewClient(d)), From(answers, n + 1)).c, t.key);
  }

  lemma NewClientOutcome(c: Cluster, me: nat, t: Tunnel, obj: nat, answers: seq<Answer>, n: nat)
    requires t.key in c.tunnels && c.tunnels[t.key] == t && Distance(t) == 1 && t.spec.serviceRef.Some?
    requires ClientRefOk(t.key, t.status.clientDeploymentRef)
    ensures NewClientLeft(c, Run(c, me, StartClient(t, obj), From(answers, n)), t, obj, answers, n)
  {
    NewClientReads(c, me, t, obj, answers, n);
    if PortsRead(c, t, answers, n) {
      var ports := c.services[ServiceKey(t)].ports;
      var d := MakeClientDeployment(t, PortsString(ports));
      MadeForTunnel(t, ports);
      assert d.key == DefaultClientKey(t);
      hide MakeClientDeployment, PortsString, ClientRefOk, Distance, Run, From, ClientNameFree, Ok, Lands, StoredRef;
      CreateCall(c, me, t, obj, d, answers, n + 1);
      hide CreatedAndSeen;
      NewClientWrites(c, me, t, obj, d, answers, n);
      hide DefaultClientKey, OnlyStatus;
    } else {
      assert c.tunnels[t.key := t] == c.tunnels;
    }
  }

  /** What stays the same, and whether the name is taken afterwards. */
  lemma NewClientFrame(c: Cluster, end: Outcome, t: Tunnel, obj: nat, answers: seq<Answer>, n: nat)
    requires t.spec.serviceRef.Some? && t.key in c.tunnels && c.tunnels[t.key] == t
    requires NewClientLeft(c, end, t, obj, answers, n)
    ensures var c' := end.c;
            && t.key in c'.tunnels && c'.tunnels[t.key].spec == t.spec && c'.tunnels[t.key].key == t.key
            && c'.config == c.config && c'.services == c.services && c'.secrets == c.secrets
            && (ClientNameFree(c', t) <==>
                  ClientNameFree(c, t) && !(PortsRead(c, t, answers, n) && Lands(answers, n + 1)))
  {
    hide PortsRead, IsClientOf, Ok, Lands, DefaultClientKey;
  }

  /** In short. */
  lemma NewClientDistance(c: Cluster, end: Outcome, t: Tunnel, obj: nat, answers: seq<Answer>, n: nat)
    requires Distance(t) == 1 && t.spec.serviceRef.Some? && t.key in c.tunnels && c.tunnels[t.key] == t
    requires NewClientLeft(c, end, t, obj, answers, n)
    ensures t.key in end.c.tunnels
    ensures Distance(end.c.tunnels[t.key])
         == if PortsRead(c, t, answers, n) && ClientNameFree(c, t) && Ok(answers, n + 1) && Lands(answers, n + 2)
            then 0 else 1
  {
    hide PortsRead, ClientNameFree, IsClientOf;
  }

  /** What is left by the calls for a client that is named, the first of which has number `n`: it is
      rewritten exactly if it is there, the ports are read, its annotation shows other ports, and
      the Update takes effect; what becomes of the Update is not reported. */
  predicate ClientLeft(c: Cluster, end: Outcome, t: Tunnel, answers: seq<Answer>, n: nat)
    requires t.spec.serviceRef.Some?
  {
    var d, c', read := DefaultClientKey(t), end.c, PortsRead(c, t, answers, n + 1);
    var found := Ok(answers, n) && d in c.deployments && read;
    && (end.err <==> !found)
    && (if found && c.deployments[d].annotations.Some? && Lands(answers, n + 2)
           && Lookup(c.deployments[d].annotations.value, "inlets.dev/ports")
              != PortsString(c.services[ServiceKey(t)].ports)
        then && d in c'.deployments && c'.deployments == c.deployments[d := c'.deployments[d]]
             && IsClientOf(c'.deployments[d], t, c.services[ServiceKey(t)].ports)
        else c'.deployments == c.deployments)
    && c' == c.(deployments := c'.deployments)
  }

  lemma NamedClientKey(t: Tunnel)
    requires Distance(t) == 0 && ClientRefOk(t.key, t.status.clientDeploymentRef) && !t.status.hostStatus.NotStarted?
    ensures ClientKey(t) == DefaultClientKey(t)
  {}

  lemma ClientReads(c: Cluster, me: nat, t: Tunnel, obj: nat, answers: seq<Answer>, n: nat)
    requires Distance(t) == 0 && t.spec.serviceRef.Some? && ClientRefOk(t.key, t.status.clientDeploymentRef)
    ensures var start, k := Run(c, me, StartClient(t, obj), From(answers, n)), DefaultClientKey(t);
            if Ok(answers, n) && k in c.deployments
            then start == Run(c, me, Redeploy(t, GetClientPorts(c.deployments[k])), From(answers, n + 1))
            else Ends(start, c, true)
  {
    NamedClientKey(t);
    assert StartClient(t, obj) == Redeploy(t, GetClient);
    hide From, ClientKey, DefaultClientKey, ClientRefOk, Distance, StartClient;
    NthCall(c, me, Redeploy(t, GetClient), answers, n);
  }

  lemma PortsCompared(c: Cluster, me: nat, t: Tunnel, found: Deployment, answers: seq<Answer>, i: nat)
    ensures var start := Run(c, me, Redeploy(t, GetClientPorts(found)), From(answers, i));
            if !PortsRead(c, t, answers, i) then Ends(start, c, true)
            else
              var s := c.services[ServiceKey(t)];
              if PortsDiffer(found, s)
              then start == Run(c, me, Redeploy(t, UpdateClient(MakeClientDeployment(t, PortsString(s.ports)))),
                                From(answers, i + 1))
              else Ends(start, c, false)
  {
    hide From, MakeClientDeployment, PortsString, PortsDiffer, ServiceKey;
    NthCall(c, me, Redeploy(t, GetClientPorts(found)), answers, i);
  }

  lemma ClientUpdated(c: Cluster, me: nat, t: Tunnel, d: Deployment, answers: seq<Answer>, i: nat)
    requires d.key in c.deployments
    ensures Ends(Run(c, me, Redeploy(t, UpdateClient(d)), From(answers, i)),
                 if Lands(answers, i) then c.(deployments := c.deployments[d.key := d]) else c, false)
  {
    hide From;
    NthCall(c, me, Redeploy(t, UpdateClient(d)), answers, i);
  }

  lemma FoundIsRewritten(c: Cluster, me: nat, t: Tunnel, answers: seq<Answer>, n: nat)
    requires Distance(t) == 0 && t.spec.serviceRef.Some? && ClientRefOk(t.key, t.status.clientDeploymentRef)
    requires Ok(answers, n) && DefaultClientKey(t) in c.deployments && PortsRead(c, t, answers, n + 1)
    ensures var found := c.deployments[DefaultClientKey(t)];
            ClientLeft(c, Run(c, me, Redeploy(t, GetClientPorts(found)), From(answers, n + 1)), t, answers, n)
  {
    var k, s := DefaultClientKey(t), c.services[ServiceKey(t)];
    var d := MakeClientDeployment(t, PortsString(s.ports));
    MadeForTunnel(t, s.ports);
    assert d.key == k;
    PortsCompared(c, me, t, c.deployments[k], answers, n + 1);
    hide MakeClientDeployment, PortsString, Run, From, ServiceKey, Distance, ClientRefOk, DefaultClientKey, Ok, Lands;
    if PortsDiffer(c.deployments[k], s) {
      ClientUpdated(c, me, t, d, answers, n + 2);
      hide IsClientOf;
    }
  }

  lemma ClientOutcome(c: Cluster, me: nat, t: Tunnel, obj: nat, answers: seq<Answer>, n: nat)
    requires Distance(t) == 0 && t.spec.serviceRef.Some? && ClientRefOk(t.key, t.status.clientDeploymentRef)
    ensures ClientLeft(c, Run(c, me, StartClient(t, obj), From(answers, n)), t, answers, n)
  {
    var k := DefaultClientKey(t);
    ClientReads(c, me, t, obj, answers, n);
    hide Run, From, StartClient, DefaultClientKey;
    if Ok(answers, n) && k in c.deployments {
      if PortsRead(c, t, answers, n + 1) {
        FoundIsRewritten(c, me, t, answers, n);
        hide ClientLeft;
      } else {
        PortsCompared(c, me, t, c.deployments[k], answers, n + 1);
      }
    }
  }

  /** The sync of an active Tunnel without a client. */
  lemma UnconnectedOutcome(c: Cluster, me: nat, k: Key, answers: seq<Answer>)
    requires Fresh(c, k) && Distance(c.tunnels[k]) == 1
    ensures var t, end := c.tunnels[k], SyncOnce(c, me, k, answers); var c1 := AfterLicense(c, t, answers);
            if LicenseOk(c, t, answers)
            then NewClientLeft(c1, end, t, c.tunnelCache[k].obj, answers, FirstClientCall(c, t))
            else Ends(end, c1, true)
  {
    var t := c.tunnels[k];
    ActiveStarts(c, me, k, answers);
    assert t.spec.serviceRef.Some? && ClientRefOk(k, t.status.clientDeploymentRef);
    hide FieldsOk, SyncOnce, LicenseOk, FirstClientCall, Run, From, CopySent, Lands;
    if LicenseOk(c, t, answers) {
      NewClientOutcome(AfterLicense(c, t, answers), me, t, c.tunnelCache[k].obj, answers, FirstClientCall(c, t));
    }
  }

  /** The sync of a connected Tunnel. */
  lemma ConnectedOutcome(c: Cluster, me: nat, k: Key, answers: seq<Answer>)
    requires Fresh(c, k) && Distance(c.tunnels[k]) == 0
    ensures var t, end := c.tunnels[k], SyncOnce(c, me, k, answers); var c1 := AfterLicense(c, t, answers);
            if LicenseOk(c, t, answers) then ClientLeft(c1, end, t, answers, FirstClientCall(c, t))
            else Ends(end, c1, true)
  {
    var t := c.tunnels[k];
    ActiveStarts(c, me, k, answers);
    assert t.spec.serviceRef.Some? && ClientRefOk(k, t.status.clientDeploymentRef);
    hide FieldsOk, SyncOnce, LicenseOk, FirstClientCall, Run, From, CopySent, Lands;
    if LicenseOk(c, t, answers) {
      ClientOutcome(AfterLicense(c, t, answers), me, t, c.tunnelCache[k].obj, answers, FirstClientCall(c, t));
    }
  }
}
