/** The address on the Service, in the convergence of a Tunnel. */
module Exposure {
  import opened Options
  import opened Resources
  import opened ExternalIPs
  import opened Clusters
  import opened Sync
  import opened Invariants
  import opened SyncRuns
  import opened Outcomes
  import opened Convergence

  // ---- The address on the way to the client ----------------------------------------------

  /** Between `c` and `c'` the address that Tunnel `k` now records was appended once to its
      Service's list and the list mirrored into the ingress; no other edit was made. */
  predicate Announced(c: Cluster, c': Cluster, k: Key) {
    && k in c'.tunnels
    && var t := c'.tunnels[k]; var s := ServiceKey(t);
    && t.status.hostIP != "" && s in c.services && s in c'.services
    && |c'.edits| == |c.edits| + 1 && c'.edits[..|c.edits|] == c.edits
    && var e := c'.edits[|c.edits|];
    && e.service == s && e.op.Publish? && e.op.uid == t.uid && e.op.ip == t.status.hostIP
    && c'.services[s].externalIPs == c.services[s].externalIPs + [t.status.hostIP]
    && c'.services[s].ingress == c'.services[s].externalIPs
    && c'.services - {s} == c.services - {s}
  }

  predicate Unannounced(c: Cluster, c': Cluster) { c'.edits == c.edits && c'.services == c.services }

  /** What the sync of Tunnel `k` does about its address: one announcement by the poll that finds
      the host ready, for a Tunnel that owns its Service; nothing otherwise. */
  predicate AnnouncesRightly(c: Cluster, c': Cluster, k: Key, answers: seq<Answer>)
    requires k in c.tunnels && |answers| >= 9
  {
    if Distance(c.tunnels[k]) == 2 && HostReady(answers) && OwnsService(c.tunnels[k])
    then Announced(c, c', k) else Unannounced(c, c')
  }

  lemma PollAnnounces(c: Cluster, me: nat, k: Key, answers: seq<Answer>)
    requires Fresh(c, k) && Backed(c, c.tunnels[k]) && Works(answers) && Distance(c.tunnels[k]) == 2
    ensures AnnouncesRightly(c, SyncOnce(c, me, k, answers).c, k, answers)
  {
    var t, c' := c.tunnels[k], SyncOnce(c, me, k, answers).c;
    AllWorks(answers);
    PollOutcome(c, me, k, answers);
    OwnsByKind(t);
    assert k in c'.tunnels && ServiceKey(c'.tunnels[k]) == ServiceKey(t);
    hide SyncOnce, Works, FirstOk, FieldsOk, Polled, PolledReady, HostReady, ServiceCallsOk, OwnsService, Ok, Lands,
         ServiceKey;
  }

  lemma SyncAnnounces(c: Cluster, me: nat, k: Key, answers: seq<Answer>)
    requires Ready(c, k) && Works(answers)
    ensures AnnouncesRightly(c, SyncOnce(c, me, k, answers).c, k, answers)
  {
    hide Works, SyncOnce, FieldsOk, OwnsService, Announced, LicensedSecrets;
    match Distance(c.tunnels[k])
    case 4 => SecretStep(c, me, k, answers);
    case 3 => HostStep(c, me, k, answers);
    case 2 => PollAnnounces(c, me, k, answers);
    case 1 => ClientStep(c, me, k, answers);
    case 0 => IdleStep(c, me, k, answers);
  }

  // ---- Any number of syncs -----------------------------------------------------------------

  predicate SameTunnel(t: Tunnel, u: Tunnel) {
    && u.uid == t.uid && u.key == t.key && u.spec == t.spec && u.owners == t.owners
    && (Distance(t) <= 1 ==> u.status.hostIP == t.status.hostIP)
  }

  lemma SyncKeepsTunnel(c: Cluster, me: nat, k: Key, answers: seq<Answer>)
    requires Ready(c, k) && Works(answers)
    ensures var c' := SyncOnce(c, me, k, answers).c; k in c'.tunnels && SameTunnel(c.tunnels[k], c'.tunnels[k])
  {
    hide Works, SyncOnce, FieldsOk, LicensedSecrets;
    match Distance(c.tunnels[k])
    case 4 => SecretStep(c, me, k, answers);
    case 3 => HostStep(c, me, k, answers);
    case 2 => PollStep(c, me, k, answers);
    case 1 => ClientStep(c, me, k, answers);
    case 0 => IdleStep(c, me, k, answers);
  }

  /** The address is announced exactly when it should be by now. */
  predicate AnnouncedWhenActive(c: Cluster, c': Cluster, k: Key, d: nat)
    requires k in c.tunnels
  {
    && ReadyAt(c', k, d) && SameTunnel(c.tunnels[k], c'.tunnels[k])
    && (if Distance(c.tunnels[k]) >= 2 && d <= 1 && OwnsService(c.tunnels[k])
        then Announced(c, c', k) else Unannounced(c, c'))
  }

  lemma AnnouncedStays(c: Cluster, b: Cluster, c': Cluster, k: Key)
    requires Announced(c, b, k) && Unannounced(b, c') && k in c'.tunnels && SameTunnel(b.tunnels[k], c'.tunnels[k])
    requires Distance(b.tunnels[k]) <= 1
    ensures Announced(c, c', k)
  {}

  lemma AnnouncedAfterAll(c: Cluster, b: Cluster, c': Cluster, k: Key)
    requires Unannounced(c, b) && Announced(b, c', k)
    ensures Announced(c, c', k)
  {}

  lemma NothingAnnounced(c: Cluster, k: Key, d: nat)
    requires ReadyAt(c, k, d)
    ensures k in c.tunnels && Distance(c.tunnels[k]) == d && AnnouncedWhenActive(c, c, k, d)
  {}

  lemma RefreshAnnounces(c: Cluster, c': Cluster, k: Key)
    ensures Announced(c, Refreshed(c', k), k) == Announced(c, c', k)
    ensures Unannounced(c, Refreshed(c', k)) == Unannounced(c, c')
  {}

  lemma RoundAnnounces(c: Cluster, b: Cluster, me: nat, k: Key, d: nat, answers: seq<Answer>)
    requires k in c.tunnels && AnnouncedWhenActive(c, b, k, d) && Works(answers) && d <= Distance(c.tunnels[k])
    ensures var b' := Refreshed(SyncOnce(b, me, k, answers).c, k);
            AnnouncedWhenActive(c, b', k, NextDistance(d, answers))
  {
    var c1 := SyncOnce(b, me, k, answers).c;
    RoundProgresses(b, me, k, d, answers);
    SyncKeepsTunnel(b, me, k, answers);
    SyncAnnounces(b, me, k, answers);
    assert OwnsService(b.tunnels[k]) == OwnsService(c.tunnels[k]);
    hide Ready, Works, SyncOnce, OwnsService, Announced, HostReady;
    if Announced(c, b, k) && Unannounced(b, c1) && Distance(b.tunnels[k]) <= 1 { AnnouncedStays(c, b, c1, k); }
    if Unannounced(c, b) && Announced(b, c1, k) { AnnouncedAfterAll(c, b, c1, k); }
    RefreshAnnounces(c, c1, k);
  }

  /** Waiting does not increase the distance. */
  lemma {:induction false} WaitsBounded(d: nat, rounds: seq<seq<Answer>>)
    requires AllWork(rounds)
    ensures Waits(d, rounds) <= |rounds|
  {
    if rounds != [] { WaitsBounded(d, rounds[..|rounds| - 1]); }
  }

  /** From provisioning or before, a Tunnel that owns its Service has its address on the Service's
      list, once and mirrored, exactly when it has become active; and no round makes any other
      edit of a Service. */
  lemma {:induction false} RoundsAnnounce(c: Cluster, me: nat, k: Key, d: nat, rounds: seq<seq<Answer>>)
    requires ReadyAt(c, k, d) && AllWork(rounds)
    ensures k in c.tunnels
    ensures AnnouncedWhenActive(c, Rounds(c, me, k, rounds), k, Remaining(d + Waits(d, rounds), |rounds|))
  {
    hide ReadyAt, Works, SyncOnce, Refreshed, AnnouncedWhenActive, Distance;
    NothingAnnounced(c, k, d);
    if rounds != [] {
      var last := |rounds| - 1;
      RoundsAnnounce(c, me, k, d, rounds[..last]);
      assert Works(rounds[last]);
      WaitsBounded(d, rounds[..last]);
      var before := Rounds(c, me, k, rounds[..last]);
      RoundAnnounces(c, before, me, k, Remaining(d + Waits(d, rounds[..last]), last), rounds[last]);
    }
  }
}
