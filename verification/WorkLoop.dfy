/** processNextWorkItem and runWorker as methods on a shared queue, calling the real syncHandler,
    and why each turn of the loop is a path of the worker machine. */
module WorkLoop {
  import opened Options
  import opened Resources
  import opened WorkQueues
  import C = Controllers
  import K = Clusters
  import M = Machine
  import S = Sync

  // ---- One turn of the loop, as a function ----------------------------------------------

  /** What a turn leaves of a queue with items in it: the first one is out, and waits for its
      back-off if its sync failed; otherwise its counter is gone. */
  function Turn(q: Queue, err: bool): Queue {
    if q.queue == [] then q
    else
      var x := q.queue[0];
      var q1 := Take(q);
      Done(if x.Work? && err then AddRateLimited(q1, x) else Forget(q1, x), x)
  }

  /** What the sync of an item leaves: that of a key is a run of syncHandler. */
  function SyncOf(x: Item, c: K.Cluster, me: nat, answers: seq<K.Answer>): S.Outcome {
    if x.Work? then S.Run(c, me, S.Begin(x.key, S.LookupService), answers) else S.Outcome(c, false, answers)
  }

  /** What a worker works on: the queue, the cluster and the answers to come. */
  datatype Loop = Loop(q: Queue, c: K.Cluster, answers: seq<K.Answer>)

  function OneTurn(l: Loop, me: nat): Loop
    requires l.q.queue != []
  {
    var end := SyncOf(l.q.queue[0], l.c, me, l.answers);
    Loop(Turn(l.q, end.err), end.c, end.rest)
  }

  /** At most `n` turns, up to the point where the queue is empty. */
  function Turns(l: Loop, me: nat, n: nat): Loop
    decreases n
  {
    if n == 0 || l.q.queue == [] then l else Turns(OneTurn(l, me), me, n - 1)
  }

  // ---- The methods ---------------------------------------------------------------------

  class RateLimitingQueue {
    var q: Queue

    constructor (q: Queue)
      ensures this.q == q
    {
      this.q := q;
    }

    /** Blocks until there is an item or a shutdown, so it returns only then. */
    method Get() returns (x: Item, shutdown: bool)
      requires GetReturns(q)
      modifies this
      ensures shutdown <==> old(q).queue == []
      ensures if shutdown then q == old(q) else q == Take(old(q)) && x == old(q).queue[0]
    {
      shutdown := q.queue == [];
      x := if shutdown then Foreign(0) else q.queue[0];
      if !shutdown { q := Take(q); }
    }

    method AddRateLimited(x: Item)
      modifies this
      ensures q == WorkQueues.AddRateLimited(old(q), x)
    {
      q := WorkQueues.AddRateLimited(q, x);
    }

    method Forget(x: Item)
      modifies this
      ensures q == WorkQueues.Forget(old(q), x)
    {
      q := WorkQueues.Forget(q, x);
    }

    method Done(x: Item)
      modifies this
      ensures q == WorkQueues.Done(old(q), x)
    {
      q := WorkQueues.Done(q, x);
    }
  }

  /** The function literal around the item, with its deferred Done. */
  method ProcessItem(workqueue: RateLimitingQueue, controller: C.Controller, x: Item)
    modifies workqueue, controller.api
    ensures var q, api := old(workqueue.q), controller.api;
            var end := SyncOf(x, old(api.c), api.me, old(api.answers));
            && api.c == end.c && api.answers == end.rest
            && workqueue.q == WorkQueues.Done(
                 if x.Work? && end.err then WorkQueues.AddRateLimited(q, x) else WorkQueues.Forget(q, x), x)
  {
    match x {
      case Foreign(_) => workqueue.Forget(x);
      case Malformed(_) => workqueue.Forget(x);
      case Work(key) =>
        var err := controller.SyncHandler(key);
        if err { workqueue.AddRateLimited(x); } else { workqueue.Forget(x); }
    }
    workqueue.Done(x);
  }

  /** controller.go, processNextWorkItem. */
  method ProcessNextWorkItem(workqueue: RateLimitingQueue, controller: C.Controller) returns (more: bool)
    requires GetReturns(workqueue.q)
    modifies workqueue, controller.api
    ensures more <==> old(workqueue.q).queue != []
    ensures var l := Loop(old(workqueue.q), old(controller.api.c), old(controller.api.answers));
            Loop(workqueue.q, controller.api.c, controller.api.answers)
              == if more then OneTurn(l, controller.api.me) else l
  {
    var x, shutdown := workqueue.Get();
    if shutdown { return false; }
    ProcessItem(workqueue, controller, x);
    return true;
  }

  /** controller.go, runWorker, for at most `n` turns and up to the point where Get would block
      or reports a shutdown. */
  method RunWorker(workqueue: RateLimitingQueue, controller: C.Controller, n: nat) returns (stopped: bool)
    modifies workqueue, controller.api
    ensures var l := Loop(old(workqueue.q), old(controller.api.c), old(controller.api.answers));
            Loop(workqueue.q, controller.api.c, controller.api.answers) == Turns(l, controller.api.me, n)
    ensures stopped ==> workqueue.q.queue == [] && workqueue.q.shuttingDown
  {
    var left := n;
    stopped := false;
    ghost var start := Loop(workqueue.q, controller.api.c, controller.api.answers);
    while left > 0 && !stopped && GetReturns(workqueue.q)
      invariant var now := Loop(workqueue.q, controller.api.c, controller.api.answers);
                Turns(now, controller.api.me, left) == Turns(start, controller.api.me, n)
      invariant stopped ==> workqueue.q.queue == [] && workqueue.q.shuttingDown
      decreases left, !stopped
    {
      var more := ProcessNextWorkItem(workqueue, controller);
      if more { left := left - 1; } else { stopped := true; }
    }
  }

  // ---- Turns and the machine -------------------------------------------------------------

  /** A path of the worker machine. */
  predicate Leads(s: State, acts: seq<Action>, s': State)
    decreases |acts|
  {
    if acts == [] then s == s'
    else Enabled(s, acts[0]) && Leads(Apply(s, acts[0]), acts[1..], s')
  }

  lemma LeadsFour(s: State, n: Action)
    requires Enabled(s, n) && Enabled(Apply(s, n), n)
    requires Enabled(Apply(Apply(s, n), n), n) && Enabled(Apply(Apply(Apply(s, n), n), n), n)
    ensures Leads(s, [n, n, n, n], Apply(Apply(Apply(Apply(s, n), n), n), n))
  {
    hide Apply, Enabled;
    var s1 := Apply(s, n);
    var s2 := Apply(s1, n);
    var s3 := Apply(s2, n);
    var s4 := Apply(s3, n);
    assert Leads(s4, [], s4);
    assert [n][1..] == [] && Leads(s3, [n], s4);
    assert [n, n][1..] == [n] && Leads(s2, [n, n], s4);
    assert [n, n, n][1..] == [n, n] && Leads(s1, [n, n, n], s4);
    assert [n, n, n, n][1..] == [n, n, n];
  }

  /** A turn is four steps of one worker in a row. */
  lemma TurnIsAPath(s: State, w: nat, err: bool)
    requires w in s.workers && s.workers[w].Idle? && s.q.queue != []
    ensures var n := Next(w, err);
            exists s' :: Leads(s, [n, n, n, n], s') && s'.q == Turn(s.q, err) && s'.workers == s.workers
  {
    var n := Next(w, err);
    LeadsFour(s, n);
    var s4 := Apply(Apply(Apply(Apply(s, n), n), n), n);
    hide Leads;
    assert s4.workers == s.workers;
    assert s4.q == Turn(s.q, err);
  }

  /** After an undisturbed turn the item is nobody's; it waits again exactly if it was delayed
      already, or its sync failed and the queue still takes retries. */
  lemma TurnSettlesItem(q: Queue, err: bool)
    requires QueueOk(q) && q.queue != []
    ensures var x, q' := q.queue[0], Turn(q, err);
            && QueueOk(q') && x !in q'.queue && x !in q'.processing
            && (Pending(q', x) <==> x in q.delayed || (x.Work? && err && !q.shuttingDown))
            && (Failures(q', x) == if x.Work? && err then Failures(q, x) + 1 else 0)
  {
    TakeOk(q);
  }

  /** Everybody else's item is left alone. */
  lemma TurnLeavesOthers(q: Queue, err: bool, y: Item)
    requires QueueOk(q) && q.queue != [] && y != q.queue[0]
    ensures var q' := Turn(q, err);
            && (y in q'.queue <==> y in q.queue) && (y in q'.dirty <==> y in q.dirty)
            && (y in q'.processing <==> y in q.processing) && (y in q'.delayed <==> y in q.delayed)
            && Failures(q', y) == Failures(q, y)
  {
    assert q.queue == [q.queue[0]] + q.queue[1..];
  }

  // ---- What the queue guarantees to the reconciler --------------------------------------------

  /** The workers of the reconciler that are busy hold their work items on the queue. */
  predicate WorkersMatch(m: M.State, s: State) {
    forall i <- m.threads :: i != M.HANDLER && !m.threads[i].pc.Done? ==>
      i in s.workers && Holds(s.workers[i], Work(m.threads[i].key))
  }

  /** So the key that a worker has got is free of other workers. */
  lemma QueueFreesKeys(states: seq<State>, acts: seq<Action>, n: nat, m: M.State, i: nat, key: Key)
    requires IsRun(states, acts) && n < |states| && WorkersMatch(m, states[n])
    requires i in states[n].workers && Holds(states[n].workers[i], Work(key))
    ensures M.KeyIsFree(m, i, key)
  {
    forall j <- m.threads | j != i && j != M.HANDLER && !m.threads[j].pc.Done? ensures m.threads[j].key != key {
      if m.threads[j].key == key { OneWorkerPerItem(states, acts, n, i, j, Work(key)); }
    }
  }
}
