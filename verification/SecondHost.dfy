/** Two ways in which a Tunnel that is ready for its host gets two of them. */
module SecondHosts {
  import opened Options
  import opened Resources
  import opened Clusters
  import opened Sync
  import opened Invariants
  import opened SyncRuns
  import opened Outcomes
  import opened Convergence

  /** The provisioning write of snapshot `t` does not take effect. */
  lemma IneffectiveWrite(c: Cluster, me: nat, t: Tunnel, token: string, answers: seq<Answer>)
    requires Ok(answers, 5) && !Writes(c, t, Nth(answers, 6).mode)
    ensures Run(c, me, Provision(t, ProvisionHost(token)), From(answers, 5)).c
         == WithHostAt(c, Nth(answers, 5).hostId, Host(token, t.uid, Orphaned))
  {
    var id, a := Nth(answers, 5).hostId, Nth(answers, 6);
    var c1, next := WithNewHost(c, me, t, id, token), WithHost(t, Provisioning, id, "");
    HostBought(c, me, t, token, answers);
    NthCall(c1, me, Provision(t, WriteProvisioning(id)), answers, 6);
    assert !Writes(c1, next, a.mode) && UpdateTunnelStatus(c1, next, a.mode) == (c1, None);
    hide UpdateTunnelStatus, Book, From, Nth, Writes;
    BookedOver(c1, c.hosts, id, Host(token, t.uid, InFlight(me)), Orphaned);
  }

  /** A sync from a cached Tunnel that has its secret and no host, whose provisioning write does
      not take effect: because it is refused, or because the snapshot is stale. */
  lemma WastedSync(c: Cluster, me: nat, k: Key, answers: seq<Answer>)
    requires k in c.tunnelCache && k !in c.serviceCache
    requires var t := c.tunnelCache[k].tunnel;
             && t.status.hostStatus.NotStarted? && SecretName(t) != ""
             && CanBuy(c, t, answers) && Ok(answers, 5) && !Writes(c, t, Nth(answers, 6).mode)
    ensures var t := c.tunnelCache[k].tunnel;
            SyncOnce(c, me, k, answers).c
              == WithHostAt(c, Nth(answers, 5).hostId, Host(Token(c.secrets[SecretKey(t)]), t.uid, Orphaned))
  {
    var t := c.tunnelCache[k].tunnel;
    FewerOk(answers, 5, 2);
    Dispatches(c, me, k, answers);
    BuyingReads(c, me, t, answers);
    hide Run, Writes, From, Nth, FirstOk;
    IneffectiveWrite(c, me, t, Token(c.secrets[SecretKey(t)]), answers);
  }

  /** One host of the Tunnel is orphaned, another one recorded. */
  predicate TwoHosts(c: Cluster, k: Key, uid: nat, lost: string, kept: string) {
    && lost != kept && lost in c.hosts && kept in c.hosts
    && c.hosts[lost].uid == uid && c.hosts[lost].place.Orphaned?
    && c.hosts[kept].uid == uid && c.hosts[kept].place == Recorded(k)
    && k in c.tunnels && c.tunnels[k].uid == uid && c.tunnels[k].status.hostID == kept
  }

  /** The first sync's write is refused; the second sync works. */
  lemma RefusedThenAgain(c: Cluster, me: nat, k: Key, first: seq<Answer>, second: seq<Answer>)
    requires Fresh(c, k) && Unblocked(c, c.tunnels[k]) && Distance(c.tunnels[k]) == 3
    requires FirstOk(first, 6) && !Lands(first, 6) && Works(second) && Nth(first, 5).hostId != second[5].hostId
    ensures var c1 := Refreshed(SyncOnce(c, me, k, first).c, k);
            TwoHosts(SyncOnce(c1, me, k, second).c, k, c.tunnels[k].uid, Nth(first, 5).hostId, second[5].hostId)
  {
    WastedSync(c, me, k, first);
    var c1 := Refreshed(SyncOnce(c, me, k, first).c, k);
    hide SyncOnce, FirstOk, Nth;
    HostStep(c1, me, k, second);
    hide Works, FieldsOk;
  }

  /** No call fails: the first sync works, and the second one reads the cache before it has
      seen the first one's write. */
  lemma StaleThenAgain(c: Cluster, me: nat, k: Key, first: seq<Answer>, second: seq<Answer>)
    requires Fresh(c, k) && Unblocked(c, c.tunnels[k]) && Distance(c.tunnels[k]) == 3
    requires c.tunnels[k].rv < c.nextRv && Works(first) && Works(second) && first[5].hostId != second[5].hostId
    ensures var c1 := SyncOnce(c, me, k, first).c;
            TwoHosts(SyncOnce(c1, me, k, second).c, k, c.tunnels[k].uid, second[5].hostId, first[5].hostId)
  {
    HostStep(c, me, k, first);
    var c1 := SyncOnce(c, me, k, first).c;
    AllWorks(second);
    hide SyncOnce, Works, FirstOk, Ok, FieldsOk;
    WastedSync(c1, me, k, second);
  }
}
