/** A sync run from start to end with no other thread in between is one of the
    interleavings of the machine. */
module Solo {
  import opened Options
  import opened Resources
  import opened Clusters
  import opened Sync
  import opened Machine
  import opened Invariants
  import opened Preservation

  /** A path of the machine from `s` to `s'`. */
  predicate Leads(s: State, acts: seq<Action>, s': State)
    decreases |acts|
  {
    if acts == [] then s == s'
    else Enabled(s, acts[0]) && Leads(Machine.Apply(s, acts[0]), acts[1..], s')
  }

  lemma {:induction false} LeadsKeeps(s: State, acts: seq<Action>, s': State)
    requires Inv(s) && Leads(s, acts, s')
    ensures Inv(s')
    decreases |acts|
  {
    hide Inv, Enabled;
    if acts != [] {
      ActionKeeps(s, acts[0]);
      LeadsKeeps(Machine.Apply(s, acts[0]), acts[1..], s');
    }
  }

  /** The answers a thread gets on its way are ones the world can give. */
  predicate AnswersOk(c: Cluster, me: nat, pc: Pc, answers: seq<Answer>)
    decreases Rank(pc)
  {
    pc.Done? ||
    (AnswerOk(c, pc, Head(answers))
     && (StepDescends(c, me, pc, Head(answers));
         var (c', pc') := Step(c, me, pc, Head(answers));
         AnswersOk(c', me, pc', Tail(answers))))
  }

  /** The calls of thread `me`, as actions of the machine. */
  function Calls(c: Cluster, me: nat, pc: Pc, answers: seq<Answer>): seq<Action>
    decreases Rank(pc)
  {
    if pc.Done? then []
    else
      StepDescends(c, me, pc, Head(answers));
      var (c', pc') := Step(c, me, pc, Head(answers));
      [Call(me, Head(answers))] + Calls(c', me, pc', Tail(answers))
  }

  /** The state in which thread `me` has finished and nobody else has moved. */
  function Finished(s: State, me: nat, answers: seq<Answer>): State
    requires me in s.threads
  {
    var end := Run(s.c, me, s.threads[me].pc, answers);
    State(end.c, s.threads[me := s.threads[me].(pc := Done(end.err))])
  }

  /** So what is proved of `Run`, and of the methods of the controller, is reached by the machine. */
  lemma {:induction false} SoloRunIsAPath(s: State, me: nat, answers: seq<Answer>)
    requires me in s.threads && AnswersOk(s.c, me, s.threads[me].pc, answers)
    ensures Leads(s, Calls(s.c, me, s.threads[me].pc, answers), Finished(s, me, answers))
    decreases Rank(s.threads[me].pc)
  {
    var pc := s.threads[me].pc;
    if pc.Done? {
      assert s.threads[me := s.threads[me].(pc := Done(pc.err))] == s.threads;
    } else {
      var a := Head(answers);
      StepDescends(s.c, me, pc, a);
      var s1 := Machine.Apply(s, Call(me, a));
      hide Step, AnswerOk;
      SoloRunIsAPath(s1, me, Tail(answers));
      assert Finished(s1, me, Tail(answers)) == Finished(s, me, answers) by {
        assert s1.threads[me := s1.threads[me].(pc := Finished(s, me, answers).threads[me].pc)]
            == Finished(s, me, answers).threads;
      }
      var acts := Calls(s.c, me, pc, answers);
      assert acts[0] == Call(me, a) && acts[1..] == Calls(s1.c, me, s1.threads[me].pc, Tail(answers));
    }
  }

  /** A worker that takes up a free key and syncs it undisturbed ends in a state in which the
      invariant holds again, on the cluster that the sync computes. */
  lemma SyncKeepsInvariant(s: State, me: nat, key: Key, answers: seq<Answer>)
    requires Inv(s) && Enabled(s, StartSync(me, key))
    requires AnswersOk(s.c, me, Begin(key, LookupService), answers)
    ensures var end := Run(s.c, me, Begin(key, LookupService), answers);
            Inv(State(end.c, s.threads[me := Thread(key, Done(end.err))]))
  {
    hide Inv, Run, AnswersOk;
    var s1 := Machine.Apply(s, StartSync(me, key));
    ActionKeeps(s, StartSync(me, key));
    SoloRunIsAPath(s1, me, answers);
    LeadsKeeps(s1, Calls(s1.c, me, s1.threads[me].pc, answers), Finished(s1, me, answers));
    var end := Run(s.c, me, Begin(key, LookupService), answers);
    assert Finished(s1, me, answers).threads == s.threads[me := Thread(key, Done(end.err))];
  }
}
