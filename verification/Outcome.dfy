/** What one sync of a Tunnel changes and what it reports, whichever of its calls fail. */
module Outcomes {
  import opened Options
  import opened Resources
  import opened Ports
  import opened ExternalIPs
  import opened Clusters
  import opened Sync
  import opened Invariants
  import opened SyncRuns

  /** A key that no lister knows: the sync reports the error of a lister, or success. */
  lemma UnknownKey(c: Cluster, me: nat, k: Key, answers: seq<Answer>)
    requires k !in c.serviceCache && k !in c.tunnelCache
    ensures Ends(SyncOnce(c, me, k, answers), c, !FirstOk(answers, 2))
  {
    assert From(answers, 0) == answers && FirstOk(answers, 1) == Ok(answers, 0);
    NthCall(c, me, Begin(k, LookupService), answers, 0);
    NthCall(c, me, Begin(k, LookupTunnel), answers, 1);
  }

  lemma Dispatches(c: Cluster, me: nat, k: Key, answers: seq<Answer>)
    requires k !in c.serviceCache && k in c.tunnelCache
    ensures FirstOk(answers, 2) ==>
              SyncOnce(c, me, k, answers) == Run(c, me, Dispatch(c.tunnelCache[k]), From(answers, 2))
    ensures !FirstOk(answers, 2) ==> Ends(SyncOnce(c, me, k, answers), c, true)
  {
    assert From(answers, 0) == answers && FirstOk(answers, 1) == Ok(answers, 0);
    hide Dispatch;
    NthCall(c, me, Begin(k, LookupService), answers, 0);
    NthCall(c, me, Begin(k, LookupTunnel), answers, 1);
  }

  /** A Tunnel without a Service reference is an error, and is left alone. */
  lemma NoReference(c: Cluster, me: nat, k: Key, answers: seq<Answer>)
    requires k !in c.serviceCache && k in c.tunnelCache && c.tunnelCache[k].tunnel.spec.serviceRef.None?
    ensures Ends(SyncOnce(c, me, k, answers), c, true)
  {
    Dispatches(c, me, k, answers);
  }

  /** A HostStatus that the operator does not know is left alone, without an error. */
  lemma UnknownStatus(c: Cluster, me: nat, k: Key, answers: seq<Answer>)
    requires k !in c.serviceCache && k in c.tunnelCache && c.tunnelCache[k].tunnel.spec.serviceRef.Some?
    requires c.tunnelCache[k].tunnel.status.hostStatus.Other?
    ensures Ends(SyncOnce(c, me, k, answers), c, !FirstOk(answers, 2))
  {
    Dispatches(c, me, k, answers);
  }

  /** A status write from the stored version, in any mode. */
  lemma AnyWrite(c: Cluster, asked: Tunnel, m: Mode)
    requires Matches(c, asked) && c.tunnels[asked.key].key == asked.key
    ensures var (c', r) := UpdateTunnelStatus(c, asked, m); var k := asked.key;
            && (r.Some? <==> m.Success?) && k in c'.tunnels && (r.Some? ==> r.value == c'.tunnels[k])
            && (m.Refused? ==> c' == c)
            && (!m.Refused? && c.tunnels[k].status != asked.status ==> c'.tunnels[k].rv == c.nextRv)
            && c' == c.(tunnels := c'.tunnels, versions := c'.versions, nextRv := c'.nextRv)
            && c'.tunnels == c.tunnels[k := c'.tunnels[k]]
            && c'.tunnels[k] == if m.Refused? then c.tunnels[k]
                                else c.tunnels[k].(status := asked.status, rv := c'.tunnels[k].rv)
  {
    var cur := c.tunnels[asked.key];
    if m.Refused? || cur.status == asked.status {
      assert UpdateTunnelStatus(c, asked, m).0 == c;
      assert c.tunnels[asked.key := cur] == c.tunnels;
    } else {
      var next := cur.(status := asked.status, rv := c.nextRv);
      assert UpdateTunnelStatus(c, asked, m) == (StoreTunnel(c, next), Reply(m, next));
    }
  }

  /** Only Tunnel `k` is written, and not its identity. */
  predicate OnlyStatus(c: Cluster, c': Cluster, k: Key)
    requires k in c.tunnels
  {
    && k in c'.tunnels && c'.tunnels == c.tunnels[k := c'.tunnels[k]]
    && c'.tunnels[k] == c.tunnels[k].(status := c'.tunnels[k].status, rv := c'.tunnels[k].rv)
  }

  // ---- A Tunnel without a secret -----------------------------------------------------

  /** The secret is found missing, so a Create is sent (call 3). */
  predicate SecretWanted(c: Cluster, k: Key, answers: seq<Answer>) { FirstOk(answers, 3) && k !in c.secrets }

  /** The number of the status write. */
  function AuthWrite(c: Cluster, k: Key, answers: seq<Answer>): nat { if SecretWanted(c, k, answers) then 4 else 3 }

  /** The status write is sent: only a failing Create keeps from it. */
  predicate AuthNamed(c: Cluster, k: Key, answers: seq<Answer>) {
    FirstOk(answers, 2) && (SecretWanted(c, k, answers) ==> Ok(answers, 3))
  }

  /** The secrets afterwards. */
  function SecretsWithAuth(c: Cluster, k: Key, answers: seq<Answer>): map<Key, Secret> {
    if SecretWanted(c, k, answers) && Lands(answers, 3)
    then c.secrets[k := Secret(c.nextRv, map["token" := Nth(answers, 3).password])] else c.secrets
  }

  lemma AuthWritten(c: Cluster, me: nat, t: Tunnel, answers: seq<Answer>, w: nat)
    requires t.key in c.tunnels && c.tunnels[t.key] == t
    ensures var end := Run(c, me, Auth(t, WriteAuthRef), From(answers, w)); var c' := end.c;
            && (end.err <==> !Ok(answers, w)) && OnlyStatus(c, c', t.key)
            && c' == c.(tunnels := c'.tunnels, versions := c'.versions, nextRv := c'.nextRv)
            && c'.tunnels[t.key].status
               == if Lands(answers, w) then t.status.(authTokenRef := Some(ResourceRef(t.key.name, t.key.namespace)))
                  else t.status
  {
    hide UpdateTunnelStatus;
    NthCall(c, me, Auth(t, WriteAuthRef), answers, w);
    var asked := WithAuthRef(t);
    AnyWrite(c, asked, Nth(answers, w).mode);
    var (c1, r) := UpdateTunnelStatus(c, asked, Nth(answers, w).mode);
    assert Step(c, me, Auth(t, WriteAuthRef), Nth(answers, w)) == (c1, Done(r.None?));
    hide Step, Nth;
    RunDone(c1, me, r.None?, From(answers, w + 1));
  }

  lemma AuthCreated(c: Cluster, me: nat, t: Tunnel, answers: seq<Answer>)
    requires t.key !in c.secrets
    ensures var c1 := c.(secrets := c.secrets[t.key := Secret(c.nextRv, map["token" := Nth(answers, 3).password])],
                         nextRv := c.nextRv + 1);
            var start := Run(c, me, Auth(t, NewAuth), From(answers, 3));
            && (Ok(answers, 3) ==> start == Run(c1, me, Auth(t, WriteAuthRef), From(answers, 4)))
            && (!Ok(answers, 3) ==> Ends(start, if Lands(answers, 3) then c1 else c, true))
  {
    var a := Nth(answers, 3);
    var data := map["token" := a.password];
    NthCall(c, me, Auth(t, NewAuth), answers, 3);
    var c1 := c.(secrets := c.secrets[t.key := Secret(c.nextRv, data)], nextRv := c.nextRv + 1);
    assert CreateSecret(c, t.key, data, a.mode)
        == (if a.mode.Refused? then (c, Failed) else (c1, if a.mode.Lost? then Failed else Made));
    hide CreateSecret, From, Nth;
  }

  /** What such a sync leaves. */
  predicate SecretLeft(c: Cluster, end: Outcome, k: Key, answers: seq<Answer>)
    requires k in c.tunnels
  {
    var w, named, c', status := AuthWrite(c, k, answers), AuthNamed(c, k, answers), end.c, c.tunnels[k].status;
    && (end.err <==> !(named && Ok(answers, w))) && OnlyStatus(c, c', k)
    && c'.tunnels[k].status
       == (if named && Lands(answers, w) then status.(authTokenRef := Some(ResourceRef(k.name, k.namespace)))
           else status)
    && c'.secrets == SecretsWithAuth(c, k, answers)
    && c' == c.(tunnels := c'.tunnels, versions := c'.versions, secrets := c'.secrets, nextRv := c'.nextRv)
  }

  lemma AuthFinds(c: Cluster, me: nat, t: Tunnel, answers: seq<Answer>)
    requires FirstOk(answers, 2)
    ensures var call := if SecretWanted(c, t.key, answers) then NewAuth else WriteAuthRef;
            Run(c, me, Auth(t, GetAuth), From(answers, 2)) == Run(c, me, Auth(t, call), From(answers, 3))
  {
    assert FirstOk(answers, 3) == Ok(answers, 2);
    NthCall(c, me, Auth(t, GetAuth), answers, 2);
  }

  lemma AuthTaken(c: Cluster, me: nat, t: Tunnel, answers: seq<Answer>)
    requires t.key in c.tunnels && c.tunnels[t.key] == t && FirstOk(answers, 2) && !SecretWanted(c, t.key, answers)
    ensures SecretLeft(c, Run(c, me, Auth(t, WriteAuthRef), From(answers, 3)), t.key, answers)
  {
    hide FirstOk, Run, Lands, Nth, From;
    AuthWritten(c, me, t, answers, 3);
    assert AuthNamed(c, t.key, answers) && AuthWrite(c, t.key, answers) == 3;
    assert SecretsWithAuth(c, t.key, answers) == c.secrets;
    hide SecretWanted, AuthNamed, AuthWrite, SecretsWithAuth, OnlyStatus, Ok;
  }

  lemma AuthFailed(c: Cluster, me: nat, t: Tunnel, answers: seq<Answer>)
    requires t.key in c.tunnels && c.tunnels[t.key] == t && SecretWanted(c, t.key, answers) && !Ok(answers, 3)
    ensures SecretLeft(c, Run(c, me, Auth(t, NewAuth), From(answers, 3)), t.key, answers)
  {
    AuthCreated(c, me, t, answers);
    assert !AuthNamed(c, t.key, answers);
    assert c.tunnels[t.key := c.tunnels[t.key]] == c.tunnels;
    hide FirstOk, Run, Nth, From, AuthNamed, Ok, Lands;
  }

  lemma AuthMade(c: Cluster, me: nat, t: Tunnel, answers: seq<Answer>)
    requires t.key in c.tunnels && c.tunnels[t.key] == t && SecretWanted(c, t.key, answers) && Ok(answers, 3)
    ensures SecretLeft(c, Run(c, me, Auth(t, NewAuth), From(answers, 3)), t.key, answers)
  {
    AuthCreated(c, me, t, answers);
    var secrets := SecretsWithAuth(c, t.key, answers);
    assert secrets == c.secrets[t.key := Secret(c.nextRv, map["token" := Nth(answers, 3).password])];
    assert AuthNamed(c, t.key, answers) && AuthWrite(c, t.key, answers) == 4;
    hide FirstOk, Run, Nth, From, AuthNamed, AuthWrite, SecretWanted, Ok, Lands, SecretsWithAuth;
    AuthWritten(c.(secrets := secrets, nextRv := c.nextRv + 1), me, t, answers, 4);
  }

  lemma AuthOutcome(c: Cluster, me: nat, t: Tunnel, answers: seq<Answer>)
    requires t.key in c.tunnels && c.tunnels[t.key] == t && FirstOk(answers, 2)
    ensures SecretLeft(c, Run(c, me, Auth(t, GetAuth), From(answers, 2)), t.key, answers)
  {
    AuthFinds(c, me, t, answers);
    hide FirstOk, Run, From, SecretLeft;
    if !SecretWanted(c, t.key, answers) { AuthTaken(c, me, t, answers); }
    else if Ok(answers, 3) { AuthMade(c, me, t, answers); }
    else { AuthFailed(c, me, t, answers); }
  }

  /** The sync of a Tunnel that has no secret: a password is stored in a secret of the Tunnel's
      name exactly if none was found there, and the secret's name in the status unless that failed. */
  lemma SecretOutcome(c: Cluster, me: nat, k: Key, answers: seq<Answer>)
    requires Fresh(c, k) && c.tunnels[k].spec.serviceRef.Some? && Distance(c.tunnels[k]) == 4
    ensures SecretLeft(c, SyncOnce(c, me, k, answers), k, answers)
  {
    Dispatches(c, me, k, answers);
    if FirstOk(answers, 2) {
      assert Dispatch(c.tunnelCache[k]) == Auth(c.tunnels[k], GetAuth);
      AuthOutcome(c, me, c.tunnels[k], answers);
    } else {
      assert !FirstOk(answers, 3);
    }
  }

  // ---- A Tunnel without a host ---------------------------------------------------------

  /** Everything before the call of Provision (call 5) works out: the Service is cached under the
      Tunnel's namespace and the name it refers to, and its secret has a token. */
  predicate CanBuy(c: Cluster, t: Tunnel, answers: seq<Answer>) {
    && FirstOk(answers, 5) && t.spec.serviceRef.Some?
    && Key(t.key.namespace, t.spec.serviceRef.value.name) in c.serviceCache
    && SecretKey(t) in c.secrets && Lookup(c.secrets[SecretKey(t)].data, "token") != ""
  }

  /** What the sync of a Tunnel without a host leaves: a host is provisioned with the secret's
      token exactly if everything before works out, and recorded exactly if the reply and the
      status write arrive. */
  predicate HostLeft(c: Cluster, end: Outcome, k: Key, answers: seq<Answer>)
    requires k in c.tunnels
  {
    var t, c', id, can := c.tunnels[k], end.c, Nth(answers, 5).hostId, CanBuy(c, c.tunnels[k], answers);
    var recorded := can && Ok(answers, 5) && Lands(answers, 6);
    && (end.err <==> !(can && Ok(answers, 5) && Ok(answers, 6))) && OnlyStatus(c, c', k)
    && c'.tunnels[k].status
       == (if recorded then t.status.(hostStatus := Provisioning, hostID := id, hostIP := "") else t.status)
    && c'.hosts
       == (if can && Lands(answers, 5)
           then c.hosts[id := Host(Lookup(c.secrets[SecretKey(t)].data, "token"), t.uid,
                                   if recorded then Recorded(k) else Orphaned)]
           else c.hosts)
    && c' == c.(tunnels := c'.tunnels, versions := c'.versions, hosts := c'.hosts, nextRv := c'.nextRv)
    && (!can || !Lands(answers, 5) ==> c' == c) && (recorded ==> c'.tunnels[k].rv == c.nextRv)
  }

  /** The provisioner and the Service (calls 2 and 3). */
  lemma BackendFound(c: Cluster, me: nat, t: Tunnel, answers: seq<Answer>)
    ensures var start := Run(c, me, Provision(t, InitProvision), From(answers, 2));
            if Ok(answers, 2) && t.spec.serviceRef.Some? && Ok(answers, 3) && ServiceKey(t) in c.serviceCache
            then start == Run(c, me, Provision(t, ReadToken), From(answers, 4)) else Ends(start, c, true)
  {
    hide ServiceKey, From;
    NthCall(c, me, Provision(t, InitProvision), answers, 2);
    NthCall(c, me, Provision(t, LookupBackend), answers, 3);
  }

  /** The secret (call 4). */
  lemma TokenRead(c: Cluster, me: nat, t: Tunnel, answers: seq<Answer>)
    ensures var start, k := Run(c, me, Provision(t, ReadToken), From(answers, 4)), SecretKey(t);
            if Ok(answers, 4) && k in c.secrets && Token(c.secrets[k]) != ""
            then start == Run(c, me, Provision(t, ProvisionHost(Token(c.secrets[k]))), From(answers, 5))
            else Ends(start, c, true)
  {
    hide SecretKey, From;
    NthCall(c, me, Provision(t, ReadToken), answers, 4);
  }

  /** The three calls before Provision. */
  lemma BuyingReads(c: Cluster, me: nat, t: Tunnel, answers: seq<Answer>)
    requires FirstOk(answers, 2) && SecretName(t) != ""
    ensures var start := Run(c, me, Provision(t, InitProvision), From(answers, 2));
            && (CanBuy(c, t, answers) ==>
                  start == Run(c, me, Provision(t, ProvisionHost(Token(c.secrets[SecretKey(t)]))), From(answers, 5)))
            && (!CanBuy(c, t, answers) ==> Ends(start, c, true))
  {
    assert FirstOk(answers, 3) == Ok(answers, 2) && FirstOk(answers, 4) == (FirstOk(answers, 3) && Ok(answers, 3));
    assert FirstOk(answers, 5) == (FirstOk(answers, 4) && Ok(answers, 4));
    hide SecretKey, FirstOk, From, Run, Ok;
    BackendFound(c, me, t, answers);
    TokenRead(c, me, t, answers);
  }

  function WithNewHost(c: Cluster, me: nat, t: Tunnel, id: string, token: string): Cluster {
    WithHostAt(c, id, Host(token, t.uid, InFlight(me)))
  }

  lemma BookedOver(c: Cluster, hosts: map<string, Host>, id: string, h: Host, p: Place)
    requires c.hosts == hosts[id := h]
    ensures Book(c, id, p) == c.(hosts := hosts[id := h.(place := p)])
  {
    assert c.hosts[id := h.(place := p)] == hosts[id := h.(place := p)];
  }

  /** The status write of a host (call 6). */
  lemma HostNoted(c: Cluster, me: nat, t: Tunnel, id: string, answers: seq<Answer>)
    requires t.key in c.tunnels && c.tunnels[t.key] == t && id in c.hosts && t.status.hostStatus.NotStarted?
    ensures var end := Run(c, me, Provision(t, WriteProvisioning(id)), From(answers, 6)); var c' := end.c;
            && (end.err <==> !Ok(answers, 6)) && OnlyStatus(c, c', t.key)
            && (Lands(answers, 6) ==> c'.tunnels[t.key].rv == c.nextRv)
            && c'.tunnels[t.key].status
               == (if Lands(answers, 6) then t.status.(hostStatus := Provisioning, hostID := id, hostIP := "")
                   else t.status)
            && c'.hosts == c.hosts[id := c.hosts[id].(place := if Lands(answers, 6) then Recorded(t.key) else Orphaned)]
            && c' == c.(tunnels := c'.tunnels, versions := c'.versions, hosts := c'.hosts, nextRv := c'.nextRv)
  {
    var asked, a := WithHost(t, Provisioning, id, ""), Nth(answers, 6);
    NthCall(c, me, Provision(t, WriteProvisioning(id)), answers, 6);
    AnyWrite(c, asked, a.mode);
    var (c1, r) := UpdateTunnelStatus(c, asked, a.mode);
    var place := if Lands(answers, 6) then Recorded(t.key) else Orphaned;
    assert Writes(c, asked, a.mode) == Lands(answers, 6);
    hide UpdateTunnelStatus, From, Nth;
    assert Step(c, me, Provision(t, WriteProvisioning(id)), a) == (Book(c1, id, place), Done(r.None?));
    hide Step, Writes, WithHost;
    RunDone(Book(c1, id, place), me, r.None?, From(answers, 7));
    hide Run;
  }

  lemma HostBought(c: Cluster, me: nat, t: Tunnel, token: string, answers: seq<Answer>)
    ensures var id, start := Nth(answers, 5).hostId, Run(c, me, Provision(t, ProvisionHost(token)), From(answers, 5));
            && (Ok(answers, 5) ==>
                  start == Run(WithNewHost(c, me, t, id, token), me, Provision(t, WriteProvisioning(id)),
                               From(answers, 6)))
            && (!Ok(answers, 5) ==>
                  Ends(start, if Lands(answers, 5) then WithHostAt(c, id, Host(token, t.uid, Orphaned)) else c, true))
  {
    hide From;
    NthCall(c, me, Provision(t, ProvisionHost(token)), answers, 5);
  }

  lemma BoughtAndNoted(c: Cluster, me: nat, t: Tunnel, token: string, answers: seq<Answer>)
    requires t.key in c.tunnels && c.tunnels[t.key] == t && t.status.hostStatus.NotStarted? && Ok(answers, 5)
    ensures var id, end := Nth(answers, 5).hostId, Run(c, me, Provision(t, ProvisionHost(token)), From(answers, 5));
            var c', recorded := end.c, Lands(answers, 6);
            && (end.err <==> !Ok(answers, 6)) && OnlyStatus(c, c', t.key)
            && (recorded ==> c'.tunnels[t.key].rv == c.nextRv)
            && c'.tunnels[t.key].status
               == (if recorded then t.status.(hostStatus := Provisioning, hostID := id, hostIP := "") else t.status)
            && c'.hosts == c.hosts[id := Host(token, t.uid, if recorded then Recorded(t.key) else Orphaned)]
            && c' == c.(tunnels := c'.tunnels, versions := c'.versions, hosts := c'.hosts, nextRv := c'.nextRv)
  {
    var id := Nth(answers, 5).hostId;
    HostBought(c, me, t, token, answers);
    hide Run, From, Ok, Lands, Nth;
    HostNoted(WithNewHost(c, me, t, id, token), me, t, id, answers);
  }

  lemma BuyingFails(c: Cluster, me: nat, t: Tunnel, token: string, answers: seq<Answer>)
    requires t.key in c.tunnels && c.tunnels[t.key] == t && !Ok(answers, 5)
    ensures var end := Run(c, me, Provision(t, ProvisionHost(token)), From(answers, 5));
            && end.err && OnlyStatus(c, end.c, t.key) && end.c == c.(hosts := end.c.hosts)
            && (!Lands(answers, 5) ==> end.c == c)
            && end.c.hosts
               == if Lands(answers, 5) then c.hosts[Nth(answers, 5).hostId := Host(token, t.uid, Orphaned)] else c.hosts
  {
    HostBought(c, me, t, token, answers);
    assert c.tunnels[t.key := c.tunnels[t.key]] == c.tunnels;
    hide Run, From, Ok, Lands, Nth;
  }

  lemma StatusKeepsHosts(c: Cluster, t: Tunnel, m: Mode)
    ensures UpdateTunnelStatus(c, t, m).0.hosts == c.hosts
  {}

  lemma WriteKeepsToken(c: Cluster, t: Tunnel, id: string, a: Answer)
    requires id in c.hosts
    ensures var (c', pc') := StepWriteProvisioning(c, t, id, a);
            pc'.Done? && id in c'.hosts && c'.hosts[id].token == c.hosts[id].token
  {
    StatusKeepsHosts(c, WithHost(t, Provisioning, id, ""), a.mode);
    hide UpdateTunnelStatus, Writes, WithHost;
  }

  lemma TokenKept(c: Cluster, me: nat, t: Tunnel, id: string, answers: seq<Answer>)
    requires id in c.hosts
    ensures var c' := Run(c, me, Provision(t, WriteProvisioning(id)), From(answers, 6)).c;
            id in c'.hosts && c'.hosts[id].token == c.hosts[id].token
  {
    NthCall(c, me, Provision(t, WriteProvisioning(id)), answers, 6);
    hide StepWriteProvisioning, Nth, From;
    WriteKeepsToken(c, t, id, Nth(answers, 6));
  }

  /** A secret that the Tunnel's spec names is the one whose token the host gets, whatever the
      status names. */
  lemma SpecNamesTheSecret(c: Cluster, me: nat, k: Key, answers: seq<Answer>)
    requires k !in c.serviceCache && k in c.tunnelCache
    requires var t := c.tunnelCache[k].tunnel;
             && t.status.hostStatus.NotStarted? && t.spec.authTokenRef.Some? && t.spec.authTokenRef.value.name != ""
             && CanBuy(c, t, answers) && Lands(answers, 5)
    ensures var t := c.tunnelCache[k].tunnel;
            var secret := Key(t.key.namespace, t.spec.authTokenRef.value.name);
            var id, hosts := Nth(answers, 5).hostId, SyncOnce(c, me, k, answers).c.hosts;
            secret in c.secrets && id in hosts && hosts[id].token == Lookup(c.secrets[secret].data, "token")
  {
    var t := c.tunnelCache[k].tunnel;
    FewerOk(answers, 5, 2);
    Dispatches(c, me, k, answers);
    assert Dispatch(c.tunnelCache[k]) == Provision(t, InitProvision);
    BuyingReads(c, me, t, answers);
    var token := Token(c.secrets[SecretKey(t)]);
    assert SecretKey(t) == Key(t.key.namespace, t.spec.authTokenRef.value.name);
    hide Run, From, Nth, FirstOk, Dispatch, SecretKey;
    HostBought(c, me, t, token, answers);
    if Ok(answers, 5) {
      TokenKept(WithNewHost(c, me, t, Nth(answers, 5).hostId, token), me, t, Nth(answers, 5).hostId, answers);
    }
  }

  lemma HostOutcome(c: Cluster, me: nat, k: Key, answers: seq<Answer>)
    requires Fresh(c, k) && Distance(c.tunnels[k]) == 3
    ensures HostLeft(c, SyncOnce(c, me, k, answers), k, answers)
  {
    var t := c.tunnels[k];
    Dispatches(c, me, k, answers);
    assert c.tunnels[k := t] == c.tunnels;
    if FirstOk(answers, 5) { FewerOk(answers, 5, 2); }
    if FirstOk(answers, 2) && t.spec.serviceRef.Some? {
      assert Dispatch(c.tunnelCache[k]) == Provision(t, InitProvision);
      BuyingReads(c, me, t, answers);
      hide FirstOk, Run, From, Nth, Dispatch, FieldsOk;
      if CanBuy(c, t, answers) {
        var token := Token(c.secrets[SecretKey(t)]);
        if Ok(answers, 5) { BoughtAndNoted(c, me, t, token, answers); } else { BuyingFails(c, me, t, token, answers); }
      }
    }
  }

  // ---- updateService -------------------------------------------------------------------

  /** The list and the ingress after a run of updateService whose first call has number `i`: no
      other Service is touched, every write that takes effect is in the log, and the ingress
      mirrors the list if the third call takes effect. */
  predicate ServiceEdited(c: Cluster, c': Cluster, t: Tunnel, ip: string, answers: seq<Answer>, i: nat) {
    var k := ServiceKey(t);
    var found := Ok(answers, i) && k in c.services;
    var op := if ip == "" then Withdraw(t.status.hostIP) else Publish(t.uid, t.rv, ip);
    && c'.edits == c.edits + (if found && Lands(answers, i + 1) then [Edit(k, op)] else [])
    && c'.services == (if k in c.services && k in c'.services then c.services[k := c'.services[k]] else c.services)
    && (k in c.services ==>
         && k in c'.services
         && var s, s' := c.services[k], c'.services[k];
         && s' == s.(externalIPs := s'.externalIPs, ingress := s'.ingress, rv := s'.rv)
         && s'.externalIPs == (if !found || !Lands(answers, i + 1) then s.externalIPs
                               else if ip == "" then Without(s.externalIPs, t.status.hostIP)
                               else s.externalIPs + [ip])
         && s'.ingress == (if found && Ok(answers, i + 1) && Lands(answers, i + 2) then s'.externalIPs else s.ingress))
  }

  /** updateService reports success exactly if all three calls work and the Service is there. */
  predicate ServiceCallsOk(c: Cluster, t: Tunnel, answers: seq<Answer>, i: nat) {
    Ok(answers, i) && ServiceKey(t) in c.services && Ok(answers, i + 1) && Ok(answers, i + 2)
  }

  /** A write of the stored Service with another list, in any mode. */
  lemma ListWrite(c: Cluster, k: Key, ips: seq<string>, op: EditOp, m: Mode)
    requires k in c.services && c.services[k].key == k
    ensures var (c', r) := UpdateService(c, c.services[k].(externalIPs := ips), op, m);
            && (r.Some? <==> m.Success?)
            && c' == c.(services := c'.services, nextRv := c'.nextRv, edits := c'.edits)
            && c'.edits == c.edits + (if m.Refused? then [] else [Edit(k, op)])
            && k in c'.services && c'.services == c.services[k := c'.services[k]]
            && c'.services[k] == c.services[k].(externalIPs := if m.Refused? then c.services[k].externalIPs else ips,
                                                rv := c'.services[k].rv)
            && (r.Some? ==> r.value == c'.services[k])
  {
    var cur := c.services[k];
    var s := cur.(externalIPs := ips);
    if m.Refused? {
      assert UpdateService(c, s, op, m) == (c, None);
      hide UpdateService;
      assert c.services[k := cur] == c.services;
    } else {
      assert s.(ingress := cur.ingress) == s;
      var next := if s == cur then cur else s.(rv := c.nextRv);
      var c1 := c.(services := c.services[k := next], nextRv := c.nextRv + 1, edits := c.edits + [Edit(k, op)]);
      assert UpdateService(c, s, op, m) == (c1, Reply(m, next));
      hide UpdateService;
      assert c.services[k := c1.services[k]] == c1.services;
    }
  }

  /** A write of the stored Service's ingress, in any mode. */
  lemma IngressWrite(c: Cluster, k: Key, ips: seq<string>, m: Mode)
    requires k in c.services && c.services[k].key == k
    ensures var (c', r) := UpdateServiceStatus(c, c.services[k].(ingress := ips), m);
            && (r.Some? <==> m.Success?)
            && c' == c.(services := c'.services, nextRv := c'.nextRv)
            && k in c'.services && c'.services == c.services[k := c'.services[k]]
            && c'.services[k] == c.services[k].(ingress := if m.Refused? then c.services[k].ingress else ips,
                                                rv := c'.services[k].rv)
  {
    var cur := c.services[k];
    if m.Refused? {
      assert c.services[k := cur] == c.services;
    } else {
      var next := if cur.ingress == ips then cur else cur.(ingress := ips, rv := c.nextRv);
      assert UpdateServiceStatus(c, cur.(ingress := ips), m)
          == (c.(services := c.services[k := next], nextRv := c.nextRv + 1), Reply(m, next));
    }
  }

  lemma IngressCall(c: Cluster, me: nat, t: Tunnel, ip: string, k: Key, answers: seq<Answer>, i: nat)
    requires k in c.services && c.services[k].key == k
    ensures var end := Run(c, me, Expose(t, ip, WriteIngress(Mirror(c.services[k]))), From(answers, i));
            var c' := end.c; var s := c.services[k];
            && (end.err <==> !Ok(answers, i)) && c' == c.(services := c'.services, nextRv := c'.nextRv)
            && k in c'.services && c'.services == c.services[k := c'.services[k]]
            && c'.services[k] == s.(ingress := if Lands(answers, i) then s.externalIPs else s.ingress,
                                    rv := c'.services[k].rv)
  {
    var call, a := WriteIngress(Mirror(c.services[k])), Nth(answers, i);
    NthCall(c, me, Expose(t, ip, call), answers, i);
    IngressWrite(c, k, c.services[k].externalIPs, a.mode);
    var (c1, r) := UpdateServiceStatus(c, Mirror(c.services[k]), a.mode);
    hide UpdateServiceStatus, From, Nth;
    assert Step(c, me, Expose(t, ip, call), a) == (c1, Done(r.None?));
    hide Step;
    RunDone(c1, me, r.None?, From(answers, i + 1));
  }

  /** `c1` is the cluster after the write of the list, `c2` after that of the ingress. */
  lemma EditedTwice(c: Cluster, c1: Cluster, c2: Cluster, t: Tunnel, ip: string, answers: seq<Answer>, i: nat)
    requires ServiceKey(t) in c.services && Ok(answers, i)
    requires var k := ServiceKey(t); var s, op := c.services[k], ServiceEdit(t, ip);
             && c1 == c.(services := c1.services, nextRv := c1.nextRv, edits := c1.edits)
             && c1.edits == c.edits + (if Lands(answers, i + 1) then [Edit(k, op)] else [])
             && k in c1.services && c1.services == c.services[k := c1.services[k]]
             && c1.services[k] == s.(externalIPs := if Lands(answers, i + 1) then ExternalIPs.Apply(op, s.externalIPs)
                                                    else s.externalIPs,
                                     rv := c1.services[k].rv)
    requires var k := ServiceKey(t); var s := c1.services[k];
             && c2 == c1.(services := c2.services, nextRv := c2.nextRv)
             && k in c2.services && c2.services == c1.services[k := c2.services[k]]
             && c2.services[k] == s.(ingress := if Ok(answers, i + 1) && Lands(answers, i + 2) then s.externalIPs
                                                else s.ingress,
                                     rv := c2.services[k].rv)
    ensures ServiceEdited(c, c2, t, ip, answers, i)
    ensures c2 == c.(services := c2.services, nextRv := c2.nextRv, edits := c2.edits)
  {}

  lemma FoundIsEdited(c: Cluster, me: nat, t: Tunnel, ip: string, answers: seq<Answer>, i: nat)
    requires ServiceKey(t) in c.services && c.services[ServiceKey(t)].key == ServiceKey(t)
    requires Ok(answers, i)
    ensures var edited := EditService(t, ip, c.services[ServiceKey(t)]);
            var end := Run(c, me, Expose(t, ip, WriteService(edited)), From(answers, i + 1)); var c' := end.c;
            && (end.err <==> !(Ok(answers, i + 1) && Ok(answers, i + 2)))
            && ServiceEdited(c, c', t, ip, answers, i)
            && c' == c.(services := c'.services, nextRv := c'.nextRv, edits := c'.edits)
  {
    var k, op, a := ServiceKey(t), ServiceEdit(t, ip), Nth(answers, i + 1);
    var edited := EditService(t, ip, c.services[k]);
    NthCall(c, me, Expose(t, ip, WriteService(edited)), answers, i + 1);
    ListWrite(c, k, edited.externalIPs, op, a.mode);
    var (c1, r) := UpdateService(c, edited, op, a.mode);
    hide UpdateService, From, ServiceEdited, ServiceEdit;
    var next := if r.Some? then Expose(t, ip, WriteIngress(Mirror(r.value))) else Done(true);
    assert Step(c, me, Expose(t, ip, WriteService(edited)), a) == (c1, next);
    hide Step;
    if r.Some? {
      IngressCall(c1, me, t, ip, k, answers, i + 2);
    } else {
      RunDone(c1, me, true, From(answers, i + 2));
      assert c1.services[k := c1.services[k]] == c1.services;
    }
    hide Run, Nth, ServiceKey, ExternalIPs.Apply;
    EditedTwice(c, c1, Run(c1, me, next, From(answers, i + 2)).c, t, ip, answers, i);
  }

  lemma ServiceOutcome(c: Cluster, me: nat, t: Tunnel, ip: string, answers: seq<Answer>, i: nat)
    requires ServiceKeyed(c, t)
    ensures var end := Run(c, me, Expose(t, ip, GetService), From(answers, i)); var c' := end.c;
            && (end.err <==> !ServiceCallsOk(c, t, answers, i)) && ServiceEdited(c, c', t, ip, answers, i)
            && c' == c.(services := c'.services, nextRv := c'.nextRv, edits := c'.edits)
  {
    var k := ServiceKey(t);
    hide ServiceKey, EditService, From;
    NthCall(c, me, Expose(t, ip, GetService), answers, i);
    if Ok(answers, i) && k in c.services {
      FoundIsEdited(c, me, t, ip, answers, i);
      hide Run, ServiceEdited, ServiceKey;
    } else if k in c.services {
      assert c.services[k := c.services[k]] == c.services;
    }
  }

  // ---- A Tunnel whose host is not known to be ready ------------------------------------

  /** The provider is asked (call 3) and answers. */
  predicate Polled(answers: seq<Answer>) { FirstOk(answers, 4) }

  /** It says that the host is active and has an address. */
  predicate PolledReady(answers: seq<Answer>) {
    Polled(answers) && Nth(answers, 3).hostStatus.Active? && Nth(answers, 3).hostIP != ""
  }

  /** The address is published next: the Tunnel became active and some owner is a Service. */
  predicate PublishesNext(t: Tunnel, answers: seq<Answer>) {
    PolledReady(answers) && Ok(answers, 4) && exists o <- t.owners :: o.kind == "Service"
  }

  /** What the sync of a provisioning Tunnel leaves. */
  predicate PollLeft(c: Cluster, end: Outcome, k: Key, answers: seq<Answer>)
    requires k in c.tunnels
  {
    var t, c', ready, ip := c.tunnels[k], end.c, PolledReady(answers), Nth(answers, 3).hostIP;
    && OnlyStatus(c, c', k)
    && c'.tunnels[k].status
       == (if ready && Lands(answers, 4) then t.status.(hostStatus := Active, hostIP := ip) else t.status)
    && c' == c.(tunnels := c'.tunnels, versions := c'.versions, services := c'.services, nextRv := c'.nextRv,
                edits := c'.edits)
    && (!ready || !Lands(answers, 4) ==> c' == c)
    && if PublishesNext(t, answers)
       then ServiceEdited(c, c', c'.tunnels[k], ip, answers, 5) && (end.err <==> !ServiceCallsOk(c, t, answers, 5))
       else c'.services == c.services && c'.edits == c.edits
            && (end.err <==> !Polled(answers) || (ready && !Ok(answers, 4)))
  }

  lemma OwnsByKind(t: Tunnel)
    ensures OwnsService(t) <==> exists o <- t.owners :: o.kind == "Service"
  {
    if OwnsService(t) {
      var i :| 0 <= i < |t.owners| && t.owners[i].kind == "Service";
      assert t.owners[i] in t.owners;
    }
  }

  lemma PollReads(c: Cluster, me: nat, t: Tunnel, answers: seq<Answer>)
    requires FirstOk(answers, 2) && t.spec.serviceRef.Some?
    ensures var start := Run(c, me, Poll(t, InitPoll), From(answers, 2));
            && (PolledReady(answers) ==>
                  start == Run(c, me, Poll(t, WriteActive(Nth(answers, 3).hostIP)), From(answers, 4)))
            && (!PolledReady(answers) ==> Ends(start, c, !Polled(answers)))
  {
    assert FirstOk(answers, 3) == Ok(answers, 2) && FirstOk(answers, 4) == (FirstOk(answers, 3) && Ok(answers, 3));
    hide FirstOk, From;
    NthCall(c, me, Poll(t, InitPoll), answers, 2);
    NthCall(c, me, Poll(t, PollHost), answers, 3);
  }

  /** A Tunnel without a Service reference is not activated: a host that is ready is an error then. */
  lemma NoReferenceNoActivation(c: Cluster, me: nat, t: Tunnel, answers: seq<Answer>)
    requires FirstOk(answers, 2) && t.spec.serviceRef.None?
    ensures Ends(Run(c, me, Poll(t, InitPoll), From(answers, 2)), c, !Polled(answers) || PolledReady(answers))
  {
    assert FirstOk(answers, 3) == Ok(answers, 2) && FirstOk(answers, 4) == (FirstOk(answers, 3) && Ok(answers, 3));
    hide FirstOk, From;
    NthCall(c, me, Poll(t, InitPoll), answers, 2);
    NthCall(c, me, Poll(t, PollHost), answers, 3);
  }

  /** The write of the active status (call 4), and what follows. */
  lemma ActiveWritten(c: Cluster, me: nat, t: Tunnel, ip: string, answers: seq<Answer>)
    requires t.key in c.tunnels && c.tunnels[t.key] == t
    ensures var c1 := UpdateTunnelStatus(c, WithHost(t, Active, t.status.hostID, ip), Nth(answers, 4).mode).0;
            var start := Run(c, me, Poll(t, WriteActive(ip)), From(answers, 4));
            && OnlyStatus(c, c1, t.key)
            && c1 == c.(tunnels := c1.tunnels, versions := c1.versions, nextRv := c1.nextRv)
            && c1.tunnels[t.key].status
               == (if Lands(answers, 4) then t.status.(hostStatus := Active, hostIP := ip) else t.status)
            && (!Lands(answers, 4) ==> c1 == c)
            && (Ok(answers, 4) && OwnsService(t) ==>
                  start == Run(c1, me, Expose(c1.tunnels[t.key], ip, GetService), From(answers, 5)))
            && (!Ok(answers, 4) || !OwnsService(t) ==> Ends(start, c1, !Ok(answers, 4)))
  {
    var asked, a := WithHost(t, Active, t.status.hostID, ip), Nth(answers, 4);
    NthCall(c, me, Poll(t, WriteActive(ip)), answers, 4);
    AnyWrite(c, asked, a.mode);
    var (c1, r) := UpdateTunnelStatus(c, asked, a.mode);
    hide UpdateTunnelStatus, From;
    var next := if r.Some? then StartExpose(r.value, ip) else Done(true);
    assert Step(c, me, Poll(t, WriteActive(ip)), a) == (c1, next);
    hide Step;
    if r.Some? { assert OwnsService(r.value) == OwnsService(t); }
    hide OwnsService;
  }

  /** `c1` is the cluster after the write of the active status. */
  lemma PublishedAfter(c: Cluster, me: nat, t: Tunnel, c1: Cluster, ip: string, answers: seq<Answer>)
    requires t.key in c.tunnels && c.tunnels[t.key] == t
    requires ServiceKeyed(c, t)
    requires OnlyStatus(c, c1, t.key) && c1 == c.(tunnels := c1.tunnels, versions := c1.versions, nextRv := c1.nextRv)
    ensures var u := c1.tunnels[t.key]; var end := Run(c1, me, Expose(u, ip, GetService), From(answers, 5));
            && u.spec == t.spec && OnlyStatus(c, end.c, t.key) && end.c.tunnels[t.key] == u
            && ServiceEdited(c, end.c, u, ip, answers, 5) && (end.err <==> !ServiceCallsOk(c, t, answers, 5))
            && end.c == c.(tunnels := c1.tunnels, versions := c1.versions, services := end.c.services,
                           nextRv := end.c.nextRv, edits := end.c.edits)
  {
    var u := c1.tunnels[t.key];
    assert ServiceKey(u) == ServiceKey(t) && u.key == t.key;
    ServiceOutcome(c1, me, u, ip, answers, 5);
    hide ServiceKey, Ok, Lands, From, Run;
  }

  lemma ActiveOutcome(c: Cluster, me: nat, t: Tunnel, answers: seq<Answer>)
    requires t.key in c.tunnels && c.tunnels[t.key] == t && t.spec.serviceRef.Some? && PolledReady(answers)
    requires ServiceKeyed(c, t)
    ensures var ip := Nth(answers, 3).hostIP;
            PollLeft(c, Run(c, me, Poll(t, WriteActive(ip)), From(answers, 4)), t.key, answers)
  {
    var ip := Nth(answers, 3).hostIP;
    ActiveWritten(c, me, t, ip, answers);
    OwnsByKind(t);
    var c1 := UpdateTunnelStatus(c, WithHost(t, Active, t.status.hostID, ip), Nth(answers, 4).mode).0;
    assert PublishesNext(t, answers) == (Ok(answers, 4) && OwnsService(t)) && (Ok(answers, 4) ==> Lands(answers, 4));
    hide UpdateTunnelStatus, OwnsService, From, FirstOk, Polled, Run, Ok, Lands;
    if PublishesNext(t, answers) {
      PublishedAfter(c, me, t, c1, ip, answers);
      hide OnlyStatus, ServiceEdited, ServiceCallsOk, ServiceKey;
    }
  }

  /** The sync of a provisioning Tunnel: it becomes active exactly if the provider reports an
      address, and the address goes to its Service exactly if it has an owner of that kind. */
  lemma PollOutcome(c: Cluster, me: nat, k: Key, answers: seq<Answer>)
    requires Fresh(c, k) && Distance(c.tunnels[k]) == 2
    ensures PollLeft(c, SyncOnce(c, me, k, answers), k, answers)
  {
    var t := c.tunnels[k];
    assert t.spec.serviceRef.Some? && t.key == k;
    Dispatches(c, me, k, answers);
    if FirstOk(answers, 4) { FewerOk(answers, 4, 2); }
    if FirstOk(answers, 2) {
      assert Dispatch(c.tunnelCache[k]) == Poll(t, InitPoll);
      hide Dispatch, FieldsOk;
      PollReads(c, me, t, answers);
      if PolledReady(answers) { ActiveOutcome(c, me, t, answers); hide PollLeft; }
    }
    hide FieldsOk, SyncOnce, FirstOk;
    assert c.tunnels[k := t] == c.tunnels;
  }
}
