/** What every step leaves intact for the others, and why a thread's own facts survive it. */
module Stability {
  import opened Options
  import opened Resources
  import opened ExternalIPs
  import opened Clusters
  import opened Sync
  import opened Machine
  import opened Invariants

  /** A cached object stays at its version; a new one gets a new pointer. */
  predicate KeepsObjects(c: Cluster, c': Cluster) {
    && c.nextObj <= c'.nextObj
    && (forall k <- c'.tunnelCache ::
          (&& k in c.tunnelCache && c'.tunnelCache[k].obj == c.tunnelCache[k].obj
           && c'.tunnelCache[k].tunnel.rv == c.tunnelCache[k].tunnel.rv)
          || c'.tunnelCache[k].obj >= c.nextObj)
  }

  /** Versions, tokens and auth secrets stay; a rewritten Service gets a new version. */
  predicate Grows(c: Cluster, c': Cluster) {
    && c.nextRv <= c'.nextRv
    && (forall r <- c.versions :: r in c'.versions && c'.versions[r] == c.versions[r])
    && (forall k <- c.secrets :: k.name != LICENSE_SECRET ==> k in c'.secrets && c'.secrets[k] == c.secrets[k])
    && (forall id <- c.hosts ::
          id in c'.hosts && c'.hosts[id].token == c.hosts[id].token && c'.hosts[id].uid == c.hosts[id].uid)
    && (forall k <- c'.services ::
          (k in c.services && c'.services[k] == c.services[k]) || c'.services[k].rv >= c.nextRv)
    && KeepsObjects(c, c')
  }

  /** The hosts that thread `j` holds stay in its hands. */
  predicate KeepsPlaces(c: Cluster, c': Cluster, j: nat) {
    forall id <- c.hosts :: c.hosts[id].place == InFlight(j) || c.hosts[id].place == Handling(j) ==>
      id in c'.hosts && c'.hosts[id].place == c.hosts[id].place
  }

  /** Nothing was published for `uid`. */
  predicate Silent(c: Cluster, c': Cluster, uid: nat) {
    && c.edits <= c'.edits
    && forall n :: |c.edits| <= n < |c'.edits| ==> !(c'.edits[n].op.Publish? && c'.edits[n].op.uid == uid)
  }

  lemma ProvisionStable(c: Cluster, c': Cluster, j: nat, t: Tunnel, call: ProvisionCall)
    requires ProvisionOk(c, j, t, call) && Grows(c, c') && KeepsPlaces(c, c', j)
    ensures ProvisionOk(c', j, t, call)
  {
  }

  lemma ExposeStable(c: Cluster, c': Cluster, t: Tunnel, ip: string, call: ExposeCall)
    requires ExposeOk(c, t, ip, call) && Grows(c, c')
    requires ip != "" && !call.WriteIngress? ==> Silent(c, c', t.uid)
    ensures ExposeOk(c', t, ip, call)
  {
  }

  lemma PcStable(c: Cluster, c': Cluster, j: nat, pc: Pc)
    requires PcOk(c, j, pc) && Grows(c, c') && KeepsPlaces(c, c', j)
    requires Publishing(pc) ==> Silent(c, c', pc.t.uid)
    ensures PcOk(c', j, pc)
  {
    match pc
    case Provision(t, call) => ProvisionStable(c, c', j, t, call);
    case Expose(t, ip, call) => ExposeStable(c, c', t, ip, call);
    case _ =>
  }

  lemma DeploymentStable(c: Cluster, c': Cluster, d: Deployment)
    requires DeploymentOk(c, d) && Grows(c, c')
    ensures DeploymentOk(c', d)
  {
    if d.owner.Some? {
      var r :| r in c.versions && BuiltFrom(d, c.versions[r]);
      assert r in c'.versions;
    }
  }

  lemma CacheStable(c: Cluster, c': Cluster)
    requires CacheOk(c) && Grows(c, c') && c'.tunnelCache == c.tunnelCache
    ensures CacheOk(c')
  {
  }

  lemma DeploymentsStable(c: Cluster, c': Cluster)
    requires DeploymentsOk(c) && Grows(c, c') && c'.deployments == c.deployments
    ensures DeploymentsOk(c')
  {
    forall k <- c.deployments { DeploymentStable(c, c', c.deployments[k]); }
  }

  /** Thread `i` moves the cluster to `c'`; everybody else's facts survive. */
  lemma OthersStable(s: State, s': State, i: nat)
    requires ThreadsOk(s) && Grows(s.c, s'.c)
    requires i in s.threads && i in s'.threads && s'.threads == s.threads[i := s'.threads[i]]
    requires forall j <- s.threads :: j != i ==> KeepsPlaces(s.c, s'.c, j)
    requires forall j <- s.threads :: j != i && Publishing(s.threads[j].pc) ==>
               Silent(s.c, s'.c, s.threads[j].pc.t.uid)
    requires PcOk(s'.c, i, s'.threads[i].pc)
    ensures ThreadsOk(s')
  {
    forall j <- s'.threads ensures PcOk(s'.c, j, s'.threads[j].pc) {
      if j != i { PcStable(s.c, s'.c, j, s.threads[j].pc); }
    }
  }

  /** No thread moves. */
  lemma AllStable(s: State, c': Cluster)
    requires ThreadsOk(s) && Grows(s.c, c')
    requires forall j <- s.threads :: KeepsPlaces(s.c, c', j)
    requires forall j <- s.threads :: Publishing(s.threads[j].pc) ==> Silent(s.c, c', s.threads[j].pc.t.uid)
    ensures ThreadsOk(s.(c := c'))
  {
    forall j <- s.threads { PcStable(s.c, c', j, s.threads[j].pc); }
  }
}
