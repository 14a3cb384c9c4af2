/** When a sync changes the token that a Tunnel's client mounts. */
module TokenLoss {
  import opened Options
  import opened Resources
  import opened Clusters
  import opened Sync
  import opened Invariants
  import opened SyncRuns
  import opened Convergence
  import opened Fixpoints

  /** The sync of `k` copies the operator's license over secret `j`. */
  predicate CopiesOver(c: Cluster, k: Key, j: Key)
    requires k in c.tunnels && Key(c.config.operatorNamespace, LICENSE_SECRET) in c.secrets
  {
    var t := c.tunnels[k];
    Distance(t) <= 1 && j == LicenseKey(t) && !LicenseCurrent(c, t, OperatorLicense(c))
  }

  /** The data of every secret after a sync whose calls work. */
  lemma SecretsAfterSync(c: Cluster, me: nat, k: Key, answers: seq<Answer>, j: Key)
    requires Fresh(c, k) && Backed(c, c.tunnels[k]) && Works(answers) && j in c.secrets
    ensures var c' := SyncOnce(c, me, k, answers).c;
            && j in c'.secrets
            && c'.secrets[j].data == if CopiesOver(c, k, j) then OperatorLicense(c) else c.secrets[j].data
  {
    hide LicenseCurrent, Works;
    match Distance(c.tunnels[k])
    case 4 => SecretStep(c, me, k, answers);
    case 3 =>
      if Unblocked(c, c.tunnels[k]) { HostStep(c, me, k, answers); } else { NothingBought(c, me, k, answers); }
    case 2 => PollStep(c, me, k, answers);
    case 1 => ClientStep(c, me, k, answers);
    case 0 => IdleStep(c, me, k, answers);
  }

  /** The token in secret `j`. */
  function TokenAt(c: Cluster, j: Key): string { if j in c.secrets then Token(c.secrets[j]) else "" }

  /** A Tunnel whose auth secret bears the name of the license copy keeps its token in a sync of
      a connected or activated Tunnel exactly if the copy is current or brings the same token. */
  lemma TokenAfterSync(c: Cluster, me: nat, k: Key, answers: seq<Answer>)
    requires Fresh(c, k) && Backed(c, c.tunnels[k]) && Works(answers) && Distance(c.tunnels[k]) <= 1
    requires SecretName(c.tunnels[k]) == LICENSE_SECRET && SecretKey(c.tunnels[k]) in c.secrets
    ensures var t, c' := c.tunnels[k], SyncOnce(c, me, k, answers).c;
            TokenAt(c', SecretKey(t)) == if LicenseCurrent(c, t, OperatorLicense(c)) then TokenAt(c, SecretKey(t))
                                         else Lookup(OperatorLicense(c), "token")
  {
    SecretsAfterSync(c, me, k, answers, SecretKey(c.tunnels[k]));
    hide SyncOnce, LicenseCurrent;
  }

  /** The recorded host was provisioned with the token in the Tunnel's secret. */
  predicate Agrees(c: Cluster, k: Key) {
    && k in c.tunnels && c.tunnels[k].status.hostID in c.hosts && SecretKey(c.tunnels[k]) in c.secrets
    && c.hosts[c.tunnels[k].status.hostID].token == Token(c.secrets[SecretKey(c.tunnels[k])])
  }

  /** What a sync must not bring: license data with another token over the Tunnel's own secret. */
  predicate TokenSafe(c: Cluster, k: Key)
    requires k in c.tunnels && c.tunnels[k].status.hostID in c.hosts
    requires Key(c.config.operatorNamespace, LICENSE_SECRET) in c.secrets
  {
    CopiesOver(c, k, SecretKey(c.tunnels[k])) ==>
      Lookup(OperatorLicense(c), "token") == c.hosts[c.tunnels[k].status.hostID].token
  }

  lemma ActiveStaysPut(c: Cluster, me: nat, k: Key, answers: seq<Answer>)
    requires Fresh(c, k) && Backed(c, c.tunnels[k]) && Works(answers) && Distance(c.tunnels[k]) <= 1
    ensures var c' := SyncOnce(c, me, k, answers).c;
            && c'.hosts == c.hosts && k in c'.tunnels && SecretKey(c'.tunnels[k]) == SecretKey(c.tunnels[k])
            && c'.tunnels[k].status.hostID == c.tunnels[k].status.hostID
  {
    match Distance(c.tunnels[k])
    case 1 => ClientStep(c, me, k, answers);
    case 0 => IdleStep(c, me, k, answers);
  }

  /** Agreement survives a working sync of an active Tunnel, whatever its secret is called,
      exactly under that condition on the cluster before the sync. */
  lemma AgreementSurvivesExactly(c: Cluster, me: nat, k: Key, answers: seq<Answer>)
    requires Fresh(c, k) && Backed(c, c.tunnels[k]) && Works(answers) && Distance(c.tunnels[k]) <= 1 && Agrees(c, k)
    ensures Agrees(SyncOnce(c, me, k, answers).c, k) <==> TokenSafe(c, k)
  {
    ActiveStaysPut(c, me, k, answers);
    SecretsAfterSync(c, me, k, answers, SecretKey(c.tunnels[k]));
    hide SyncOnce, LicenseCurrent, Works, FieldsOk;
  }
}
