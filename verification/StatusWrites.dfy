/** What a successful status write does to a stored Tunnel, and why that keeps the
    history of every incarnation monotone. */
module StatusWrites {
  import opened Options
  import opened Resources
  import opened Clusters
  import opened Sync
  import opened Invariants

  /** Every way in which one stored version of a Tunnel follows another. */
  predicate Successor(cur: Tunnel, next: Tunnel) {
    var st := cur.status;
    && next == cur.(rv := next.rv, status := next.status)
    && (|| next.status == st.(generated := true)
        || (st.hostStatus.NotStarted? && SecretName(cur) == "" && next.status == WithAuthRef(cur).status)
        || (st.hostStatus.NotStarted? && SecretName(cur) != "" && cur.spec.serviceRef.Some?
            && next.status.hostID != ""
            && next.status == WithHost(cur, Provisioning, next.status.hostID, "").status)
        || (st.hostStatus.Provisioning? && next.status.hostIP != ""
            && next.status == WithHost(cur, Active, st.hostID, next.status.hostIP).status)
        || (st.hostStatus.Active? && !Named(st.clientDeploymentRef)
            && ClientRefOk(cur.key, next.status.clientDeploymentRef)
            && next.status.clientDeploymentRef.Some?
            && next.status == st.(clientDeploymentRef := next.status.clientDeploymentRef)))
  }

  lemma SuccessorIsSound(cur: Tunnel, next: Tunnel)
    requires FieldsOk(cur) && Successor(cur, next)
    ensures FieldsOk(next) && Evolves(cur, next)
  {
  }

  lemma EvolvesTransitive(a: Tunnel, b: Tunnel, c: Tunnel)
    requires Evolves(a, b) && Evolves(b, c)
    ensures Evolves(a, c)
  {
  }

  /** A write that passes the compare-and-swap saw the stored version. */
  lemma MatchIsCurrent(c: Cluster, t: Tunnel)
    requires StoredOk(c) && t.rv in c.versions && Matches(c, t)
    ensures c.tunnels[t.key] == c.versions[t.rv]
  {
  }

  /** Two stored Tunnels are two incarnations. */
  lemma StoredUidsDiffer(c: Cluster, j: Key, k: Key)
    requires StoredOk(c) && VersionsEvolve(c)
    requires j in c.tunnels && k in c.tunnels && c.tunnels[j].uid == c.tunnels[k].uid
    ensures j == k
  {
    var r, q := c.tunnels[j].rv, c.tunnels[k].rv;
    assert r <= q ==> Evolves(c.versions[r], c.versions[q]);
    assert q <= r ==> Evolves(c.versions[q], c.versions[r]);
  }

  lemma StoreKeepsStored(c: Cluster, next: Tunnel)
    requires StoredOk(c) && next.rv == c.nextRv && next.uid < c.nextUid && FieldsOk(next)
    requires next.uid !in c.deleteEvents
    ensures StoredOk(StoreTunnel(c, next))
  {
  }

  lemma StoreKeepsLatest(c: Cluster, next: Tunnel)
    requires StoredIsLatest(c)
    requires forall r <- c.versions :: r < next.rv
    requires forall k <- c.tunnels :: k != next.key ==> c.tunnels[k].uid != next.uid
    ensures StoredIsLatest(StoreTunnel(c, next))
  {
  }

  lemma StoreKeepsEvolving(c: Cluster, next: Tunnel)
    requires VersionsEvolve(c)
    requires forall r <- c.versions :: r < next.rv
    requires forall r <- c.versions :: c.versions[r].uid == next.uid ==> Evolves(c.versions[r], next)
    ensures VersionsEvolve(StoreTunnel(c, next))
  {
    var c' := StoreTunnel(c, next);
    forall r <- c'.versions, q <- c'.versions | r <= q && c'.versions[r].uid == c'.versions[q].uid
      ensures Evolves(c'.versions[r], c'.versions[q])
    {
      if q != next.rv {
        assert r in c.versions && q in c.versions;
      }
    }
  }

  lemma EarlierVersionsEvolve(c: Cluster, next: Tunnel, r: nat)
    requires TunnelsOk(c) && next.key in c.tunnels && Successor(c.tunnels[next.key], next)
    requires r in c.versions && c.versions[r].uid == next.uid
    ensures Evolves(c.versions[r], next)
  {
    var cur := c.tunnels[next.key];
    SuccessorIsSound(cur, next);
    assert r <= cur.rv;
    EvolvesTransitive(c.versions[r], c.versions[cur.rv], next);
  }

  lemma StoreSuccessor(c: Cluster, next: Tunnel)
    requires TunnelsOk(c) && next.key in c.tunnels && next.rv == c.nextRv
    requires Successor(c.tunnels[next.key], next)
    ensures TunnelsOk(StoreTunnel(c, next))
  {
    var cur := c.tunnels[next.key];
    SuccessorIsSound(cur, next);
    StoreKeepsStored(c, next);
    forall k <- c.tunnels | k != next.key ensures c.tunnels[k].uid != next.uid {
      if c.tunnels[k].uid == next.uid { StoredUidsDiffer(c, k, next.key); }
    }
    StoreKeepsLatest(c, next);
    forall r <- c.versions | c.versions[r].uid == next.uid ensures Evolves(c.versions[r], next) {
      EarlierVersionsEvolve(c, next, r);
    }
    StoreKeepsEvolving(c, next);
  }

  lemma NewUidIsFresh(c: Cluster)
    requires StoredOk(c)
    ensures c.nextUid !in c.deleteEvents && forall k <- c.tunnels :: c.tunnels[k].uid != c.nextUid
    ensures forall r <- c.versions :: c.versions[r].uid != c.nextUid && r < c.nextRv
  {
    forall u <- c.deleteEvents ensures u != c.nextUid {
      assert c.versions[c.deleteEvents[u].rv].uid == u;
    }
    forall k <- c.tunnels ensures c.tunnels[k].uid != c.nextUid {
      assert c.versions[c.tunnels[k].rv].uid < c.nextUid;
    }
  }

  lemma CounterAside(c: Cluster)
    requires TunnelsOk(c)
    ensures TunnelsOk(c.(nextUid := c.nextUid + 1))
  {}

  lemma StoreNew(c: Cluster, next: Tunnel)
    requires TunnelsOk(c) && next.rv == c.nextRv && next.uid == c.nextUid && FieldsOk(next)
    ensures TunnelsOk(StoreTunnel(c, next).(nextUid := c.nextUid + 1))
  {
    var c1 := c.(nextUid := c.nextUid + 1);
    NewUidIsFresh(c);
    CounterAside(c);
    assert StoreTunnel(c, next).(nextUid := c.nextUid + 1) == StoreTunnel(c1, next);
    hide StoredOk, StoredIsLatest, VersionsEvolve, FieldsOk, Evolves;
    StoreKeepsStored(c1, next);
    StoreKeepsLatest(c1, next);
    StoreKeepsEvolving(c1, next);
  }
}
