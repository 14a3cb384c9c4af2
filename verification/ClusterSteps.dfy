/** Each kind of change to the cluster keeps the invariant of the cluster. */
module ClusterSteps {
  import opened Options
  import opened Resources
  import opened ExternalIPs
  import opened Clusters
  import opened Sync
  import opened Machine
  import opened Invariants
  import opened StatusWrites
  import opened Stability

  lemma PublicationsStable(c: Cluster, c': Cluster)
    requires PublicationsOk(c) && Grows(c, c') && c'.edits == c.edits
    ensures PublicationsOk(c')
  {
    forall n | 0 <= n < |c'.edits| ensures PublicationOk(c', c'.edits[n]) {
      assert PublicationOk(c, c.edits[n]);
    }
  }

  /** The facts about hosts survive a new version that names a known host. */
  lemma StoreKeepsHosts(c: Cluster, next: Tunnel)
    requires HostIdsUnique(c) && VersionHostsKnown(c) && TokensOk(c)
    requires next.status.hostID != "" ==>
               && next.status.hostID in c.hosts && !c.hosts[next.status.hostID].place.InFlight?
               && c.hosts[next.status.hostID].uid == next.uid
               && HasToken(c, next, c.hosts[next.status.hostID].token)
    requires forall r <- c.versions ::
               next.status.hostID != "" && c.versions[r].status.hostID == next.status.hostID
               ==> c.versions[r].uid == next.uid
    ensures HostIdsUnique(StoreTunnel(c, next)) && VersionHostsKnown(StoreTunnel(c, next))
    ensures TokensOk(StoreTunnel(c, next))
  {
    var c' := StoreTunnel(c, next);
    forall r <- c'.versions | c'.versions[r].status.hostID != ""
      ensures c'.versions[r].status.hostID in c'.hosts
      ensures HasToken(c', c'.versions[r], c'.hosts[c'.versions[r].status.hostID].token)
    {
      if r != next.rv { assert r in c.versions; }
    }
  }

  lemma StoreGrows(c: Cluster, next: Tunnel)
    requires StoredOk(c) && next.rv == c.nextRv
    ensures Grows(c, StoreTunnel(c, next))
  {
    assert c.nextRv !in c.versions;
  }

  /** A status write that leaves the HostID alone. */
  lemma StatusWriteKeepsHosts(c: Cluster, next: Tunnel)
    requires StoredOk(c) && HostIdsUnique(c) && VersionHostsKnown(c) && TokensOk(c)
    requires next.key in c.tunnels && Evolves(c.tunnels[next.key], next)
    requires next.status.hostID == c.tunnels[next.key].status.hostID
    ensures HostIdsUnique(StoreTunnel(c, next)) && VersionHostsKnown(StoreTunnel(c, next))
    ensures TokensOk(StoreTunnel(c, next))
  {
    var cur := c.tunnels[next.key];
    assert c.versions[cur.rv] == cur;
    StoreKeepsHosts(c, next);
  }

  lemma StoredSuccessorIsSound(c: Cluster, next: Tunnel)
    requires StoredOk(c) && next.key in c.tunnels && Successor(c.tunnels[next.key], next)
    ensures Evolves(c.tunnels[next.key], next)
  {
    SuccessorIsSound(c.tunnels[next.key], next);
  }

  lemma StatusWriteOk(c: Cluster, next: Tunnel)
    requires ClusterOk(c) && next.key in c.tunnels && next.rv == c.nextRv
    requires Successor(c.tunnels[next.key], next)
    requires next.status.hostID == c.tunnels[next.key].status.hostID
    ensures ClusterOk(StoreTunnel(c, next)) && Grows(c, StoreTunnel(c, next))
  {
    hide HasToken, TokensOk, HostIdsUnique, VersionHostsKnown, CacheOk, DeploymentsOk, PublicationsOk, Grows,
         VersionsEvolve, StoredIsLatest, PublishedOnce, StoredOk, Evolves, FieldsOk, Successor;
    var c' := StoreTunnel(c, next);
    StoreSuccessor(c, next);
    StoreGrows(c, next);
    StoredSuccessorIsSound(c, next);
    StatusWriteKeepsHosts(c, next);
    CacheStable(c, c');
    DeploymentsStable(c, c');
    PublicationsStable(c, c');
  }

  // ---- Creating and deleting a Tunnel -----------------------------------------

  lemma GrowsReflexive(c: Cluster)
    ensures Grows(c, c)
  {}

  lemma GrowsTransitive(a: Cluster, b: Cluster, c: Cluster)
    requires Grows(a, b) && Grows(b, c)
    ensures Grows(a, c)
  {}

  /** `nextUid` and `nextRv` may run ahead. */
  lemma CounterMoves(c: Cluster, c': Cluster)
    requires c' == c.(nextUid := c'.nextUid, nextRv := c'.nextRv) && c.nextRv <= c'.nextRv
    ensures Grows(c, c')
    ensures HostIdsUnique(c) ==> HostIdsUnique(c')
    ensures VersionHostsKnown(c) ==> VersionHostsKnown(c')
    ensures TokensOk(c) ==> TokensOk(c')
  {}

  lemma CreateTunnelOk(c: Cluster, key: Key, owners: seq<OwnerReference>, spec: TunnelSpec, m: Mode)
    requires ClusterOk(c) && SpecOk(key, spec)
    ensures ClusterOk(CreateTunnel(c, key, owners, spec, m).0)
    ensures Grows(c, CreateTunnel(c, key, owners, spec, m).0)
  {
    hide HasToken, TokensOk, HostIdsUnique, VersionHostsKnown, CacheOk, DeploymentsOk, PublicationsOk, Grows,
         VersionsEvolve, StoredIsLatest, PublishedOnce, StoredOk;
    var c' := CreateTunnel(c, key, owners, spec, m).0;
    if !m.Refused? && key !in c.tunnels {
      var next := Tunnel(key, c.nextUid, c.nextRv, owners, spec, NEW_STATUS);
      StoreNew(c, next);
      StoreGrows(c, next);
      StoreKeepsHosts(c, next);
      CounterMoves(StoreTunnel(c, next), c');
      GrowsTransitive(c, StoreTunnel(c, next), c');
      CacheStable(c, c');
      DeploymentsStable(c, c');
      PublicationsStable(c, c');
    } else {
      GrowsReflexive(c);
    }
  }

  /** Nothing about stored or deleted Tunnels changes. */
  lemma SameTunnelsOk(c: Cluster, c': Cluster)
    requires TunnelsOk(c) && c.nextRv <= c'.nextRv
    requires c'.tunnels == c.tunnels && c'.versions == c.versions && c'.deleteEvents == c.deleteEvents
    requires c'.nextUid == c.nextUid
    ensures TunnelsOk(c')
  {}

  lemma BookGrows(c: Cluster, id: string, p: Place)
    ensures Grows(c, Book(c, id, p))
  {
    if id in c.hosts {
      assert Book(c, id, p) == c.(hosts := c.hosts[id := c.hosts[id].(place := p)]);
    } else {
      assert Book(c, id, p) == c;
    }
  }

  lemma BookKeepsTunnels(c: Cluster, id: string, p: Place)
    requires TunnelsOk(c)
    ensures TunnelsOk(Book(c, id, p)) && Grows(c, Book(c, id, p))
  {
    hide StoredOk, StoredIsLatest, VersionsEvolve, Grows;
    SameTunnelsOk(c, Book(c, id, p));
    BookGrows(c, id, p);
  }

  lemma BookKeepsHosts(c: Cluster, id: string, p: Place)
    requires HostIdsUnique(c) && VersionHostsKnown(c) && TokensOk(c) && !p.InFlight?
    ensures HostIdsUnique(Book(c, id, p)) && VersionHostsKnown(Book(c, id, p)) && TokensOk(Book(c, id, p))
  {}

  /** The books of one host are rewritten, and no stored Tunnel or pending event names it. */
  lemma BookOk(c: Cluster, id: string, p: Place)
    requires ClusterOk(c) && !p.InFlight?
    requires forall k <- c.tunnels :: c.tunnels[k].status.hostID == id ==> id == ""
    requires forall u <- c.deleteEvents :: c.deleteEvents[u].status.hostID == id ==> id == ""
    ensures ClusterOk(Book(c, id, p)) && Grows(c, Book(c, id, p))
  {
    hide VersionsEvolve, StoredIsLatest, PublishedOnce, StoredOk;
    var c' := Book(c, id, p);
    BookKeepsTunnels(c, id, p);
    BookKeepsHosts(c, id, p);
    CacheStable(c, c');
    DeploymentsStable(c, c');
    PublicationsStable(c, c');
  }

  lemma DeletedStored(c: Cluster, c': Cluster, key: Key)
    requires StoredOk(c) && key in c.tunnels
    requires c' == c.(tunnels := c.tunnels - {key},
                      deleteEvents := c.deleteEvents[c.tunnels[key].uid := c.tunnels[key]])
    requires forall k <- c'.tunnels :: c'.tunnels[k].uid !in c'.deleteEvents
    ensures StoredOk(c')
  {}

  lemma DeleteGrows(c: Cluster, c': Cluster)
    requires c' == c.(tunnels := c'.tunnels, deleteEvents := c'.deleteEvents)
    ensures Grows(c, c')
  {}

  lemma SameVersionsKeepHosts(c: Cluster, c': Cluster)
    requires c'.versions == c.versions && c'.hosts == c.hosts && c'.secrets == c.secrets
    ensures VersionsEvolve(c) ==> VersionsEvolve(c')
    ensures HostIdsUnique(c) ==> HostIdsUnique(c')
    ensures VersionHostsKnown(c) ==> VersionHostsKnown(c')
    ensures TokensOk(c) ==> TokensOk(c')
  {
    hide Evolves;
  }

  lemma DeleteKeepsTunnels(c: Cluster, c': Cluster, key: Key)
    requires TunnelsOk(c) && key in c.tunnels
    requires c' == c.(tunnels := c.tunnels - {key},
                      deleteEvents := c.deleteEvents[c.tunnels[key].uid := c.tunnels[key]])
    ensures TunnelsOk(c') && Grows(c, c')
    ensures HostIdsUnique(c) ==> HostIdsUnique(c')
    ensures VersionHostsKnown(c) ==> VersionHostsKnown(c')
    ensures TokensOk(c) ==> TokensOk(c')
  {
    forall k <- c'.tunnels ensures c'.tunnels[k].uid !in c'.deleteEvents {
      if c.tunnels[k].uid == c.tunnels[key].uid { StoredUidsDiffer(c, k, key); }
    }
    DeletedStored(c, c', key);
    SameVersionsKeepHosts(c, c');
    DeleteGrows(c, c');
    hide Grows, HostIdsUnique, VersionHostsKnown, TokensOk, VersionsEvolve, StoredOk;
  }

  lemma StoredUidNotDeleted(c: Cluster, key: Key)
    requires StoredOk(c) && key in c.tunnels
    ensures c.tunnels[key].uid !in c.deleteEvents
  {}

  lemma DeleteKeepsPlace(c: Cluster, key: Key, id: string, p: Place)
    requires RecordedOk(c) && key in c.tunnels
    requires id != "" && id in c.hosts && c.hosts[id].place == p && p != Recorded(key)
    ensures id in DeleteTunnel(c, key).hosts && DeleteTunnel(c, key).hosts[id].place == p
  {}

  lemma DeleteKeepsRecorded(c: Cluster, key: Key)
    requires RecordedOk(c) && key in c.tunnels && c.tunnels[key].uid !in c.deleteEvents
    ensures RecordedOk(DeleteTunnel(c, key))
  {
    var c' := DeleteTunnel(c, key);
    forall k <- c'.tunnels | c'.tunnels[k].status.hostID != ""
      ensures c'.tunnels[k].status.hostID in c'.hosts && c'.hosts[c'.tunnels[k].status.hostID].place == Recorded(k)
    {
      DeleteKeepsPlace(c, key, c.tunnels[k].status.hostID, Recorded(k));
    }
    forall u <- c'.deleteEvents | c'.deleteEvents[u].status.hostID != ""
      ensures c'.deleteEvents[u].status.hostID in c'.hosts
              && c'.hosts[c'.deleteEvents[u].status.hostID].place == Awaiting(u)
    {
      if u != c.tunnels[key].uid { DeleteKeepsPlace(c, key, c.deleteEvents[u].status.hostID, Awaiting(u)); }
    }
  }

  lemma DeleteTunnelOk(c: Cluster, key: Key)
    requires ClusterOk(c)
    ensures ClusterOk(DeleteTunnel(c, key)) && Grows(c, DeleteTunnel(c, key))
  {
    hide HasToken, TokensOk, HostIdsUnique, VersionHostsKnown, CacheOk, DeploymentsOk, PublicationsOk, Grows,
         VersionsEvolve, StoredIsLatest, PublishedOnce, StoredOk;
    var c' := DeleteTunnel(c, key);
    if key in c.tunnels {
      var t := c.tunnels[key];
      var booked := Book(c, t.status.hostID, Awaiting(t.uid));
      BookKeepsTunnels(c, t.status.hostID, Awaiting(t.uid));
      BookKeepsHosts(c, t.status.hostID, Awaiting(t.uid));
      DeleteKeepsTunnels(booked, c', key);
      hide TunnelsOk;
      GrowsTransitive(c, booked, c');
      CacheStable(c, c');
      DeploymentsStable(c, c');
      PublicationsStable(c, c');
      assert t.uid !in c.deleteEvents by { StoredUidNotDeleted(c, key); }
      DeleteKeepsRecorded(c, key);
    } else {
      GrowsReflexive(c);
    }
  }

  // ---- Hosts -------------------------------------------------------------------

  lemma NewHostKeepsTunnels(c: Cluster, id: string, h: Host)
    requires TunnelsOk(c) && id !in c.hosts
    ensures TunnelsOk(c.(hosts := c.hosts[id := h])) && Grows(c, c.(hosts := c.hosts[id := h]))
  {
    hide StoredOk, StoredIsLatest, VersionsEvolve;
    SameTunnelsOk(c, c.(hosts := c.hosts[id := h]));
  }

  lemma ProvisionHostOk(c: Cluster, id: string, h: Host)
    requires ClusterOk(c) && id !in c.hosts
    ensures ClusterOk(c.(hosts := c.hosts[id := h])) && Grows(c, c.(hosts := c.hosts[id := h]))
  {
    hide VersionsEvolve, StoredIsLatest, PublishedOnce, StoredOk;
    var c' := c.(hosts := c.hosts[id := h]);
    NewHostKeepsTunnels(c, id, h);
    CacheStable(c, c');
    DeploymentsStable(c, c');
    PublicationsStable(c, c');
  }

  lemma RecordKeepsHosts(c: Cluster, booked: Cluster, next: Tunnel, id: string)
    requires VersionHostsKnown(c) && id in c.hosts && c.hosts[id].place.InFlight? && c.hosts[id].uid == next.uid
    requires booked == Book(c, id, Recorded(next.key)) && next.status.hostID == id
    requires HasToken(c, next, c.hosts[id].token)
    requires HostIdsUnique(booked) && VersionHostsKnown(booked) && TokensOk(booked)
    ensures HostIdsUnique(StoreTunnel(booked, next)) && VersionHostsKnown(StoreTunnel(booked, next))
    ensures TokensOk(StoreTunnel(booked, next))
  {
    StoreKeepsHosts(booked, next);
  }

  lemma RecordKeepsRecorded(c: Cluster, next: Tunnel, id: string)
    requires RecordedOk(c) && id in c.hosts && c.hosts[id].place.InFlight? && next.status.hostID == id
    ensures RecordedOk(Book(StoreTunnel(c, next), id, Recorded(next.key)))
  {}

  /** The provisioning write that takes effect: the host changes hands from the
      worker to the Tunnel. */
  lemma RecordHostOk(c: Cluster, next: Tunnel, id: string)
    requires ClusterOk(c) && next.key in c.tunnels && next.rv == c.nextRv
    requires Successor(c.tunnels[next.key], next)
    requires c.tunnels[next.key].status.hostStatus.NotStarted? && next.status.hostStatus.Provisioning?
    requires next.status.hostID == id && id in c.hosts && c.hosts[id].place.InFlight? && c.hosts[id].uid == next.uid
    requires HasToken(c, next, c.hosts[id].token)
    ensures ClusterOk(Book(StoreTunnel(c, next), id, Recorded(next.key)))
    ensures Grows(c, Book(StoreTunnel(c, next), id, Recorded(next.key)))
  {
    hide HasToken, TokensOk, HostIdsUnique, CacheOk, DeploymentsOk, PublicationsOk, Grows,
         VersionsEvolve, StoredIsLatest, PublishedOnce, StoredOk;
    var booked := Book(c, id, Recorded(next.key));
    var c' := Book(StoreTunnel(c, next), id, Recorded(next.key));
    assert c' == StoreTunnel(booked, next);
    BookKeepsTunnels(c, id, Recorded(next.key));
    BookKeepsHosts(c, id, Recorded(next.key));
    StoreSuccessor(booked, next);
    StoreGrows(booked, next);
    GrowsTransitive(c, booked, c');
    RecordKeepsHosts(c, booked, next, id);
    CacheStable(c, c');
    DeploymentsStable(c, c');
    PublicationsStable(c, c');
    RecordKeepsRecorded(c, next, id);
  }

  // ---- Secrets, Deployments, Services, caches -----------------------------------

  lemma ElsewhereKeepsTokens(c: Cluster, c': Cluster)
    requires TokensOk(c) && Grows(c, c') && c'.versions == c.versions && c'.hosts == c.hosts
    ensures TokensOk(c')
  {}

  /** A change that leaves Tunnels, hosts and the caches of Tunnels alone. */
  lemma ElsewhereOk(c: Cluster, c': Cluster)
    requires ClusterOk(c) && Grows(c, c')
    requires c'.tunnels == c.tunnels && c'.versions == c.versions && c'.deleteEvents == c.deleteEvents
    requires c'.hosts == c.hosts && c'.tunnelCache == c.tunnelCache && c'.nextUid == c.nextUid
    ensures TunnelsOk(c') && CacheOk(c') && RecordedOk(c')
    ensures HostIdsUnique(c') && VersionHostsKnown(c') && TokensOk(c')
  {
    hide DeploymentsOk, PublicationsOk, PublishedOnce, ServicesOk, CacheOk;
    CacheStable(c, c');
    SameTunnelsOk(c, c');
    ElsewhereKeepsTokens(c, c');
  }

  /** Auth secrets are only ever added, under any name; the license name is rewritten freely. */
  lemma SecretWriteOk(c: Cluster, key: Key, secret: Secret)
    requires ClusterOk(c) && (key in c.secrets ==> key.name == LICENSE_SECRET)
    ensures ClusterOk(c.(secrets := c.secrets[key := secret], nextRv := c.nextRv + 1))
    ensures Grows(c, c.(secrets := c.secrets[key := secret], nextRv := c.nextRv + 1))
  {
    hide VersionsEvolve, StoredIsLatest, StoredOk, TokensOk, CacheOk, HostIdsUnique, RecordedOk, PublishedOnce;
    var c' := c.(secrets := c.secrets[key := secret], nextRv := c.nextRv + 1);
    ElsewhereOk(c, c');
    DeploymentsStable(c, c');
    PublicationsStable(c, c');
  }

  lemma DeploymentWriteOk(c: Cluster, d: Deployment)
    requires ClusterOk(c) && DeploymentOk(c, d)
    ensures ClusterOk(c.(deployments := c.deployments[d.key := d]))
    ensures Grows(c, c.(deployments := c.deployments[d.key := d]))
  {
    hide VersionsEvolve, StoredIsLatest, StoredOk, TokensOk, CacheOk, HostIdsUnique, RecordedOk, PublishedOnce;
    var c' := c.(deployments := c.deployments[d.key := d]);
    ElsewhereOk(c, c');
    PublicationsStable(c, c');
    forall k <- c'.deployments ensures DeploymentOk(c', c'.deployments[k]) {
      DeploymentStable(c, c', c'.deployments[k]);
    }
  }

  lemma RemoveDeploymentOk(c: Cluster, key: Key)
    requires ClusterOk(c)
    ensures ClusterOk(c.(deployments := c.deployments - {key}))
    ensures Grows(c, c.(deployments := c.deployments - {key}))
  {
    hide VersionsEvolve, StoredIsLatest, StoredOk, TokensOk, CacheOk, HostIdsUnique, RecordedOk, PublishedOnce;
    var c' := c.(deployments := c.deployments - {key});
    ElsewhereOk(c, c');
    PublicationsStable(c, c');
    forall k <- c'.deployments ensures DeploymentOk(c', c'.deployments[k]) {
      DeploymentStable(c, c', c'.deployments[k]);
    }
  }

  lemma EditKeepsServices(c: Cluster, c': Cluster, s: Service, op: EditOp)
    requires ServicesOk(c)
    requires s.externalIPs == ExternalIPs.Apply(op, Fold(c.edits, s.key))
    requires s.rv == c.nextRv || (s.key in c.services && s == c.services[s.key])
    requires c' == c.(services := c.services[s.key := s], nextRv := c.nextRv + 1, edits := c.edits + [Edit(s.key, op)])
    ensures ServicesOk(c')
  {
    forall k <- c'.services ensures c'.services[k].externalIPs == Fold(c'.edits, k) {
      FoldSnoc(c.edits, Edit(s.key, op), k);
    }
  }

  lemma EditKeepsLog(c: Cluster, c': Cluster, e: Edit)
    requires PublicationsOk(c) && PublishedOnce(c.edits)
    requires PublicationOk(c, e) && (e.op.Publish? ==> Unpublished(c, e.op.uid))
    requires c'.versions == c.versions && c'.edits == c.edits + [e]
    ensures PublicationsOk(c') && PublishedOnce(c'.edits)
  {
    forall i | 0 <= i < |c'.edits| ensures PublicationOk(c', c'.edits[i]) {
      assert PublicationOk(c, if i < |c.edits| then c.edits[i] else e);
    }
  }

  /** A write of service `s` whose new ExternalIPs are the old ones under the logged edit. */
  lemma ServiceEditOk(c: Cluster, s: Service, op: EditOp)
    requires ClusterOk(c)
    requires s.externalIPs == ExternalIPs.Apply(op, Fold(c.edits, s.key))
    requires s.rv == c.nextRv || (s.key in c.services && s == c.services[s.key])
    requires PublicationOk(c, Edit(s.key, op)) && (op.Publish? ==> Unpublished(c, op.uid))
    ensures var c' := c.(services := c.services[s.key := s], nextRv := c.nextRv + 1,
                         edits := c.edits + [Edit(s.key, op)]);
            ClusterOk(c') && Grows(c, c')
  {
    hide VersionsEvolve, StoredIsLatest, StoredOk, TokensOk, CacheOk, HostIdsUnique, RecordedOk, PublishedOnce,
         ServicesOk, PublicationOk;
    var e := Edit(s.key, op);
    var c' := c.(services := c.services[s.key := s], nextRv := c.nextRv + 1, edits := c.edits + [e]);
    assert Grows(c, c');
    ElsewhereOk(c, c');
    DeploymentsStable(c, c');
    EditKeepsLog(c, c', e);
    EditKeepsServices(c, c', s, op);
  }

  /** A write of a Service that is no edit of its ExternalIPs. */
  lemma ServiceRewriteOk(c: Cluster, services: map<Key, Service>)
    requires ClusterOk(c)
    requires forall k <- services ::
               k in c.services && (services[k] == c.services[k] ||
                 (services[k].rv == c.nextRv && services[k].key == k
                  && services[k].externalIPs == c.services[k].externalIPs))
    ensures ClusterOk(c.(services := services, nextRv := c.nextRv + 1))
    ensures Grows(c, c.(services := services, nextRv := c.nextRv + 1))
  {
    hide VersionsEvolve, StoredIsLatest, StoredOk, TokensOk, CacheOk, HostIdsUnique, RecordedOk, PublishedOnce;
    var c' := c.(services := services, nextRv := c.nextRv + 1);
    ElsewhereOk(c, c');
    DeploymentsStable(c, c');
    PublicationsStable(c, c');
  }

  lemma RemoveServiceOk(c: Cluster, key: Key)
    requires ClusterOk(c)
    ensures ClusterOk(c.(services := c.services - {key})) && Grows(c, c.(services := c.services - {key}))
  {
    hide VersionsEvolve, StoredIsLatest, StoredOk, TokensOk, CacheOk, HostIdsUnique, RecordedOk, PublishedOnce;
    var c' := c.(services := c.services - {key});
    ElsewhereOk(c, c');
    DeploymentsStable(c, c');
    PublicationsStable(c, c');
  }

  lemma CacheKeepsTunnels(c: Cluster, c': Cluster)
    requires TunnelsOk(c) && KeepsObjects(c, c')
    requires c' == c.(tunnelCache := c'.tunnelCache, serviceCache := c'.serviceCache, nextObj := c'.nextObj)
    ensures TunnelsOk(c') && Grows(c, c')
  {
    hide StoredOk, StoredIsLatest, VersionsEvolve;
    SameTunnelsOk(c, c');
  }

  /** The caches change; every entry is still a close snapshot. */
  lemma CacheWriteOk(c: Cluster, c': Cluster)
    requires ClusterOk(c) && CacheOk(c') && ObjectsDiffer(c') && KeepsObjects(c, c')
    requires c' == c.(tunnelCache := c'.tunnelCache, serviceCache := c'.serviceCache, nextObj := c'.nextObj)
    ensures ClusterOk(c') && Grows(c, c')
  {
    hide CacheOk, KeepsObjects;
    CacheKeepsTunnels(c, c');
    DeploymentsStable(c, c');
    PublicationsStable(c, c');
  }
}
