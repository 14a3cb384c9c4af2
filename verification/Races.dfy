/** What happens when a deletion overtakes an activation. */
module Races {
  import opened Options
  import opened Resources
  import opened ExternalIPs
  import opened Clusters
  import opened Sync
  import opened Machine
  import opened Invariants
  import opened Preservation
  import opened SyncRuns
  import opened Convergence
  import opened Outcomes
  import opened Solo

  /** A call that works. */
  const WORKS := Answer(Success, "x", "x", NotStarted, "")

  // ---- What DeleteFunc does to the list ------------------------------------------------------

  /** The exits of DeleteFunc before its withdrawal: no provisioner, a failed Delete, no owner
      reference, an unreadable or missing Service, a refused write. None is tried again. */
  predicate Withdraws(c: Cluster, t: Tunnel, answers: seq<Answer>) {
    && FirstOk(answers, 2) && (exists o <- t.owners :: o.kind == "Service")
    && Ok(answers, 2) && ServiceKey(t) in c.services && Lands(answers, 3)
  }

  /** The provisioner and its Delete (calls 0 and 1). */
  lemma DisposeCalls(c: Cluster, t: Tunnel, answers: seq<Answer>)
    ensures var start, id := Run(c, HANDLER, Dispose(t, InitDispose), answers), t.status.hostID;
            if !FirstOk(answers, 2) then Ends(start, Book(c, id, Orphaned), false)
            else if !OwnsService(t) then Ends(start, Book(c, id, Gone), false)
            else start == Run(Book(c, id, Gone), HANDLER, Expose(t, "", GetService), From(answers, 2))
  {
    assert From(answers, 0) == answers && FirstOk(answers, 1) == Ok(answers, 0);
    hide Book, OwnsService;
    NthCall(c, HANDLER, Dispose(t, InitDispose), answers, 0);
    NthCall(c, HANDLER, Dispose(t, DeleteHost), answers, 1);
  }

  lemma StillListed(ips: seq<string>, out: string, ip: string)
    ensures ip in Without(ips, out) <==> ip in ips && ip != out
  {
    WithoutRemovesAll(ips, out);
    assert forall x :: x in ips <==> x in multiset(ips);
    assert ip in Without(ips, out) <==> ip in multiset(Without(ips, out));
  }

  /** From its read of the Service (call 2). */
  lemma WithdrawalRuns(c: Cluster, t: Tunnel, answers: seq<Answer>)
    requires ServiceKeyed(c, t)
    ensures var k, ip, c' := ServiceKey(t), t.status.hostIP,
                             Run(c, HANDLER, Expose(t, "", GetService), From(answers, 2)).c;
            var written := Ok(answers, 2) && k in c.services && Lands(answers, 3);
            && c'.hosts == c.hosts
            && c'.edits == c.edits + (if written then [Edit(k, Withdraw(ip))] else [])
            && (k in c.services ==>
                  k in c'.services
                  && (ip in c'.services[k].externalIPs <==> ip in c.services[k].externalIPs && !written))
  {
    var k, ip := ServiceKey(t), t.status.hostIP;
    ServiceOutcome(c, HANDLER, t, "", answers, 2);
    hide ServiceKey, Run, From, Ok, Lands, Without;
    if k in c.services { StillListed(c.services[k].externalIPs, ip, ip); }
  }

  /** Run undisturbed, DeleteFunc takes the address off the list of the Service that the Tunnel
      refers to, in the Tunnel's namespace, exactly under `Withdraws`, and makes no other edit; the
      host is gone exactly if the first two calls work, and orphaned otherwise. */
  lemma DeleteFuncWithdrawsExactly(c: Cluster, t: Tunnel, answers: seq<Answer>)
    requires ServiceKeyed(c, t)
    ensures var k := Key(t.key.namespace, if t.spec.serviceRef.Some? then t.spec.serviceRef.value.name else "");
            var ip, c' := t.status.hostIP, Run(c, HANDLER, Dispose(t, InitDispose), answers).c;
            && c'.edits == c.edits + (if Withdraws(c, t, answers) then [Edit(k, Withdraw(ip))] else [])
            && (k in c.services ==>
                  k in c'.services
                  && (ip in c'.services[k].externalIPs
                      <==> ip in c.services[k].externalIPs && !Withdraws(c, t, answers)))
            && c'.hosts == Book(c, t.status.hostID, if FirstOk(answers, 2) then Gone else Orphaned).hosts
  {
    var id := t.status.hostID;
    assert ServiceKey(t) == Key(t.key.namespace, if t.spec.serviceRef.Some? then t.spec.serviceRef.value.name else "");
    OwnsByKind(t);
    DisposeCalls(c, t, answers);
    BookTouchesHosts(c, id, Gone);
    BookTouchesHosts(c, id, Orphaned);
    hide FirstOk, Ok, Lands, ServiceKey, OwnsService, Book, Run, From;
    if FirstOk(answers, 2) && OwnsService(t) { WithdrawalRuns(Book(c, id, Gone), t, answers); }
  }

  /** A delete event starts DeleteFunc's calls exactly if it brings the Tunnel and a HostID. */
  lemma DeliveryStartsExactly(s: State, uid: nat, tombstone: bool)
    requires Enabled(s, Deliver(uid, tombstone))
    ensures !Machine.Apply(s, Deliver(uid, tombstone)).threads[HANDLER].pc.Done?
            <==> !tombstone && s.c.deleteEvents[uid].status.hostID != ""
    ensures uid !in Machine.Apply(s, Deliver(uid, tombstone)).c.deleteEvents
  {
    hide Book;
    var c, id := s.c.(deleteEvents := s.c.deleteEvents - {uid}), s.c.deleteEvents[uid].status.hostID;
    BookTouchesHosts(c, id, Orphaned);
    BookTouchesHosts(c, id, Handling(HANDLER));
  }

  // ---- A deletion overtakes an activation -------------------------------------------------

  lemma {:induction false} LeadsOn(a: State, x: seq<Action>, b: State, y: seq<Action>, c: State)
    requires Leads(a, x, b) && Leads(b, y, c)
    ensures Leads(a, x + y, c)
    decreases |x|
  {
    hide Enabled, Machine.Apply;
    if x == [] {
      assert x + y == y;
    } else {
      LeadsOn(Machine.Apply(a, x[0]), x[1..], b, y, c);
      assert (x + y)[0] == x[0] && (x + y)[1..] == x[1..] + y;
    }
  }

  lemma LeadsThrough(a: State, x: seq<Action>, b: State, y: seq<Action>, c: State, z: seq<Action>, d: State)
    requires Leads(a, x, b) && Leads(b, y, c) && Leads(c, z, d)
    ensures Leads(a, x + y + z, d)
  {
    hide Leads;
    LeadsOn(a, x, b, y, c);
    LeadsOn(a, x + y, c, z, d);
  }

  /** updateService and DeleteFunc take any answer. */
  lemma {:induction false} AnyAnswers(c: Cluster, me: nat, pc: Pc, answers: seq<Answer>)
    requires pc.Expose? || pc.Dispose? || pc.Done?
    ensures AnswersOk(c, me, pc, answers)
    decreases Rank(pc)
  {
    if !pc.Done? {
      var (c', pc') := Step(c, me, pc, Head(answers));
      StepDescends(c, me, pc, Head(answers));
      assert pc'.Expose? || pc'.Dispose? || pc'.Done?;
      AnyAnswers(c', me, pc', Tail(answers));
    }
  }

  /** Worker `w` has written the active status and is about to publish the address of `t`,
      which is still stored; the delete handler is idle. */
  predicate AboutToPublish(s: State, w: nat, t: Tunnel, ip: string) {
    && w in s.threads && w != HANDLER && s.threads[w].pc == Expose(t, ip, GetService) && ip != "" && OwnsService(t)
    && HANDLER in s.threads && s.threads[HANDLER].pc.Done?
    && t.key in s.c.tunnels && s.c.tunnels[t.key].uid == t.uid
    && ServiceKey(t) in s.c.services
  }

  /** The Tunnel and its host are gone, nobody is left to act on them, and the address is still listed. */
  predicate LeftBehind(s: State, w: nat, t: Tunnel, ip: string) {
    && t.key !in s.c.tunnels && t.uid !in s.c.deleteEvents
    && t.status.hostID in s.c.hosts && s.c.hosts[t.status.hostID].place.Gone?
    && w in s.threads && s.threads[w].pc.Done? && HANDLER in s.threads && s.threads[HANDLER].pc.Done?
    && ServiceKey(t) in s.c.services && ip in s.c.services[ServiceKey(t)].externalIPs
  }

  lemma ActiveCall(c: Cluster, t: Tunnel, ip: string, a: Answer) returns (written: Tunnel)
    requires a.mode.Success? && t.key in c.tunnels && c.tunnels[t.key] == t
    ensures var (c', pc) := StepPoll(c, t, WriteActive(ip), a);
            && pc == StartExpose(written, ip) && c'.services == c.services
            && written == WithHost(t, Active, t.status.hostID, ip).(rv := written.rv)
            && t.key in c'.tunnels && c'.tunnels[t.key] == written
  {
    var asked := WithHost(t, Active, t.status.hostID, ip);
    AnyWrite(c, asked, Success);
    written := UpdateTunnelStatus(c, asked, Success).1.value;
    hide UpdateTunnelStatus, StartExpose;
  }

  lemma ActivationWritten(s: State, w: nat, a: Answer)
    requires Inv(s) && Enabled(s, Call(w, a)) && s.threads[w].pc.Poll? && s.threads[w].pc.poll.WriteActive?
    requires Matches(s.c, s.threads[w].pc.t)
    ensures var t := s.threads[w].pc.t;
            s.c.tunnels[t.key] == t && t.key == s.c.tunnels[t.key].key && s.threads[w].pc.poll.address != ""
  {
    hide PlacesOk, PublishersDiffer;
    assert PcOk(s.c, w, s.threads[w].pc);
  }

  /** Every activation that works gets there. */
  lemma ActivationIsAboutToPublish(s: State, w: nat, a: Answer)
    requires Inv(s) && Enabled(s, Call(w, a)) && w != HANDLER
    requires s.threads[w].pc.Poll? && s.threads[w].pc.poll.WriteActive? && a.mode.Success?
    requires var t := s.threads[w].pc.t; Matches(s.c, t) && OwnsService(t) && ServiceKey(t) in s.c.services
    requires HANDLER in s.threads && s.threads[HANDLER].pc.Done?
    ensures var s' := Machine.Apply(s, Call(w, a)); var ip := s.threads[w].pc.poll.address;
            exists t': Tunnel :: t'.key == s.threads[w].pc.t.key && AboutToPublish(s', w, t', ip)
  {
    hide Inv;
    var t, ip := s.threads[w].pc.t, s.threads[w].pc.poll.address;
    ActivationWritten(s, w, a);
    hide OwnsService;
    var written := ActiveCall(s.c, t, ip, a);
    hide StepPoll;
    assert AboutToPublish(Machine.Apply(s, Call(w, a)), w, written, ip);
  }

  lemma StillTheSame(s: State, w: nat, t: Tunnel, ip: string)
    requires Inv(s) && AboutToPublish(s, w, t, ip)
    ensures var cur := s.c.tunnels[t.key];
            && cur.key == t.key && OwnsService(cur) && ServiceKey(cur) == ServiceKey(t)
            && cur.status.hostID == t.status.hostID != "" && cur.status.hostIP == t.status.hostIP == ip
            && t.status.hostID in s.c.hosts
            && s.c.services[ServiceKey(t)].key == ServiceKey(t)
  {
    var cur := s.c.tunnels[t.key];
    assert PcOk(s.c, w, s.threads[w].pc);
    assert s.c.versions[cur.rv] == cur && FieldsOk(s.c.versions[t.rv]);
    assert Evolves(t, cur);
  }

  lemma LeadsTwo(s: State, x: Action, y: Action)
    requires Enabled(s, x) && Enabled(Machine.Apply(s, x), y)
    ensures Leads(s, [x, y], Machine.Apply(Machine.Apply(s, x), y))
  {
    hide Machine.Apply, Enabled;
    var s1 := Machine.Apply(s, x);
    var s2 := Machine.Apply(s1, y);
    assert Leads(s2, [], s2);
    assert [y][1..] == [] && Leads(s1, [y], s2);
    assert [x, y][1..] == [y];
  }

  /** The cluster after the Tunnel is deleted and its event delivered. */
  lemma DeletedAndDelivered(c: Cluster, k: Key)
    requires k in c.tunnels && c.tunnels[k].status.hostID in c.hosts
    ensures var cur, c1 := c.tunnels[k], DeleteTunnel(c, k);
            && cur.uid in c1.deleteEvents && c1.deleteEvents[cur.uid] == cur
            && c1.tunnels == c.tunnels - {k} && cur.status.hostID in c1.hosts
            && c1 == c.(tunnels := c1.tunnels, hosts := c1.hosts, deleteEvents := c1.deleteEvents)
  {}

  /** The Tunnel is deleted and the event delivered. */
  lemma Overtaken(s: State, w: nat, t: Tunnel, ip: string) returns (s2: State)
    requires Inv(s) && AboutToPublish(s, w, t, ip)
    ensures var cur := s.c.tunnels[t.key];
            && Leads(s, [RemoveTunnel(t.key), Deliver(t.uid, false)], s2)
            && s2.threads == s.threads[HANDLER := Thread(t.key, Dispose(cur, InitDispose))]
            && s2.c == s.c.(tunnels := s.c.tunnels - {t.key}, hosts := s2.c.hosts, deleteEvents := s2.c.deleteEvents)
            && t.uid !in s2.c.deleteEvents && t.status.hostID in s2.c.hosts
  {
    hide Inv;
    StillTheSame(s, w, t, ip);
    DeletedAndDelivered(s.c, t.key);
    hide OwnsService, ServiceKey, DeleteTunnel;
    var s1 := Machine.Apply(s, RemoveTunnel(t.key));
    s2 := Machine.Apply(s1, Deliver(t.uid, false));
    LeadsTwo(s, RemoveTunnel(t.key), Deliver(t.uid, false));
    hide Leads;
  }

  /** The Service after a complete updateService: the edited list, mirrored into the ingress. */
  predicate Exposed(c: Cluster, c': Cluster, k: Key, op: EditOp)
    requires k in c.services
  {
    && c' == c.(services := c'.services, nextRv := c'.nextRv, edits := c.edits + [Edit(k, op)])
    && c'.services.Keys == c.services.Keys && c'.services - {k} == c.services - {k}
    && k in c'.services && c'.services[k].key == c.services[k].key
    && c'.services[k].externalIPs == ExternalIPs.Apply(op, c.services[k].externalIPs)
    && c'.services[k].ingress == c'.services[k].externalIPs
  }

  lemma UpdateServiceCompletes(c: Cluster, me: nat, t: Tunnel, ip: string, answers: seq<Answer>, i: nat)
    requires Ok(answers, i) && Ok(answers, i + 1) && Ok(answers, i + 2)
    requires ServiceKey(t) in c.services && ServiceKeyed(c, t)
    ensures var end := Run(c, me, Expose(t, ip, GetService), From(answers, i));
            !end.err && Exposed(c, end.c, ServiceKey(t), ServiceEdit(t, ip))
  {
    ServiceOutcome(c, me, t, ip, answers, i);
    hide Run, From, Nth, ServiceKey;
  }

  const FIVE := [WORKS, WORKS, WORKS, WORKS, WORKS]

  lemma AllFive(i: nat)
    requires i < 5
    ensures Ok(FIVE, i) && FirstOk(FIVE, 2)
  {
    assert FirstOk(FIVE, 1) == Ok(FIVE, 0);
  }

  /** DeleteFunc run to its end. */
  lemma Disposed(c: Cluster, t: Tunnel)
    requires OwnsService(t) && ServiceKey(t) in c.services && ServiceKeyed(c, t)
    ensures var end := Run(c, HANDLER, Dispose(t, InitDispose), FIVE);
            Exposed(Book(c, t.status.hostID, Gone), end.c, ServiceKey(t), Withdraw(t.status.hostIP))
  {
    AllFive(2);
    AllFive(3);
    AllFive(4);
    DisposeCalls(c, t, FIVE);
    BookTouchesHosts(c, t.status.hostID, Gone);
    hide Exposed, OwnsService, ServiceKey, Book, Run, Ok, FirstOk, From;
    UpdateServiceCompletes(Book(c, t.status.hostID, Gone), HANDLER, t, "", FIVE, 2);
  }

  /** The handler deletes the host and withdraws the address before it was published. */
  lemma Withdrawn(s2: State, w: nat, t: Tunnel, cur: Tunnel) returns (acts: seq<Action>, s3: State)
    requires w in s2.threads && w != HANDLER
    requires HANDLER in s2.threads && s2.threads[HANDLER].pc == Dispose(cur, InitDispose)
    requires OwnsService(cur) && cur.status.hostID in s2.c.hosts
    requires ServiceKey(cur) in s2.c.services && s2.c.services[ServiceKey(cur)].key == ServiceKey(cur)
    ensures Leads(s2, acts, s3)
    ensures Exposed(Book(s2.c, cur.status.hostID, Gone), s3.c, ServiceKey(cur), Withdraw(cur.status.hostIP))
    ensures HANDLER in s3.threads && s3.threads[HANDLER].pc.Done? && w in s3.threads && s3.threads[w] == s2.threads[w]
  {
    hide OwnsService, ServiceKey, Exposed, Run, AnswersOk, Leads;
    AnyAnswers(s2.c, HANDLER, s2.threads[HANDLER].pc, FIVE);
    SoloRunIsAPath(s2, HANDLER, FIVE);
    Disposed(s2.c, cur);
    acts := Calls(s2.c, HANDLER, s2.threads[HANDLER].pc, FIVE);
    s3 := Finished(s2, HANDLER, FIVE);
  }

  /** The worker publishes all the same. */
  lemma PublishedLate(s3: State, w: nat, t: Tunnel, ip: string) returns (acts: seq<Action>, s4: State)
    requires w in s3.threads && s3.threads[w].pc == Expose(t, ip, GetService) && ip != ""
    requires HANDLER in s3.threads && w != HANDLER
    requires ServiceKey(t) in s3.c.services && s3.c.services[ServiceKey(t)].key == ServiceKey(t)
    ensures Leads(s3, acts, s4) && Exposed(s3.c, s4.c, ServiceKey(t), Publish(t.uid, t.rv, ip))
    ensures w in s4.threads && s4.threads[w].pc.Done?
    ensures HANDLER in s4.threads && s4.threads[HANDLER] == s3.threads[HANDLER]
  {
    hide ServiceKey, Exposed, Run, AnswersOk, Leads;
    AnyAnswers(s3.c, w, s3.threads[w].pc, FIVE);
    SoloRunIsAPath(s3, w, FIVE);
    AllFive(0);
    AllFive(1);
    AllFive(2);
    UpdateServiceCompletes(s3.c, w, t, ip, FIVE, 0);
    assert From(FIVE, 0) == FIVE;
    acts := Calls(s3.c, w, s3.threads[w].pc, FIVE);
    s4 := Finished(s3, w, FIVE);
  }

  lemma FinallyLeft(s2: State, s3: State, s4: State, w: nat, t: Tunnel, ip: string)
    requires t.key !in s2.c.tunnels && t.uid !in s2.c.deleteEvents && t.status.hostID in s2.c.hosts
    requires ServiceKey(t) in s2.c.services && ServiceKey(t) in s3.c.services
    requires Exposed(Book(s2.c, t.status.hostID, Gone), s3.c, ServiceKey(t), Withdraw(t.status.hostIP))
    requires Exposed(s3.c, s4.c, ServiceKey(t), Publish(t.uid, t.rv, ip))
    requires w in s4.threads && s4.threads[w].pc.Done? && HANDLER in s4.threads && s4.threads[HANDLER].pc.Done?
    ensures LeftBehind(s4, w, t, ip)
  {
    hide ServiceKey;
    var ips := s3.c.services[ServiceKey(t)].externalIPs;
    assert (ips + [ip])[|ips|] == ip;
  }

  /** From every such state the machine can delete the Tunnel and its host and still leave the
      address on the Service: that deleting a Tunnel takes its address away is false. */
  lemma DeletionOvertakesPublication(s: State, w: nat, t: Tunnel, ip: string)
    requires Inv(s) && AboutToPublish(s, w, t, ip)
    ensures exists acts, s' :: Leads(s, acts, s') && LeftBehind(s', w, t, ip)
  {
    hide Inv;
    StillTheSame(s, w, t, ip);
    var cur := s.c.tunnels[t.key];
    var s2 := Overtaken(s, w, t, ip);
    hide ServiceKey, OwnsService, Leads;
    var handled, s3 := Withdrawn(s2, w, t, cur);
    assert ServiceKey(t) in s3.c.services && s3.c.services[ServiceKey(t)].key == ServiceKey(t);
    hide Exposed;
    var published, s4 := PublishedLate(s3, w, t, ip);
    FinallyLeft(s2, s3, s4, w, t, ip);
    hide LeftBehind, AboutToPublish, Book;
    LeadsThrough(s, [RemoveTunnel(t.key), Deliver(t.uid, false)], s2, handled, s3, published, s4);
  }
}
