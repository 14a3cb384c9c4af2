/** The rate-limited work queue as its users know it, and the worker loop of controller.go
    (runWorker, processNextWorkItem) as threads on it. */
module WorkQueues {
  import opened Options
  import opened Resources

  /** What comes off the queue: the key of an object, a string that is no key, or something
      that is no string. */
  datatype Item = Work(key: Key) | Malformed(text: string) | Foreign(tag: nat)

  /** `queue` holds the items ready to be taken, `dirty` those to be processed (again),
      `delayed` those waiting for their back-off, `failures` the back-off counters. */
  datatype Queue = Queue(
    queue: seq<Item>, dirty: set<Item>, processing: set<Item>, delayed: set<Item>,
    failures: map<Item, nat>, shuttingDown: bool)

  // ---- The calls ----------------------------------------------------------------------

  function Add(q: Queue, x: Item): Queue {
    if q.shuttingDown || x in q.dirty then q
    else q.(dirty := q.dirty + {x}, queue := if x in q.processing then q.queue else q.queue + [x])
  }

  /** Get blocks until one of the two holds. */
  predicate GetReturns(q: Queue) { q.queue != [] || q.shuttingDown }

  function Take(q: Queue): Queue
    requires q.queue != []
  {
    q.(queue := q.queue[1..], processing := q.processing + {q.queue[0]}, dirty := q.dirty - {q.queue[0]})
  }

  function Done(q: Queue, x: Item): Queue {
    q.(processing := q.processing - {x}, queue := if x in q.dirty then q.queue + [x] else q.queue)
  }

  function Failures(q: Queue, x: Item): nat { if x in q.failures then q.failures[x] else 0 }

  function AddRateLimited(q: Queue, x: Item): Queue {
    q.(failures := q.failures[x := Failures(q, x) + 1],
       delayed := if q.shuttingDown then q.delayed else q.delayed + {x})
  }

  function Forget(q: Queue, x: Item): Queue { q.(failures := q.failures - {x}) }

  /** The back-off of `x` has passed. */
  function Fire(q: Queue, x: Item): Queue {
    Add(q.(delayed := q.delayed - {x}), x)
  }

  // ---- The workers -----------------------------------------------------------------------

  /** Where a worker stands in processNextWorkItem. */
  datatype Pc =
    | Idle                    // about to Get
    | Holding(x: Item)        // about to look at the item and sync it
    | Retrying(x: Item)       // syncHandler failed: AddRateLimited comes next
    | Forgetting(x: Item)     // nil, or no string: Forget comes next
    | Finishing(x: Item)      // the deferred Done comes next
    | Stopped

  datatype Event =
    | Got(w: nat, x: Item) | SyncFailed(w: nat, x: Item) | SyncWorked(w: nat, x: Item)
    | Retried(w: nat, x: Item) | Forgot(w: nat, x: Item) | Finished(w: nat, x: Item)

  /** `log` records what the workers did. */
  datatype State = State(q: Queue, workers: map<nat, Pc>, log: seq<Event>)

  datatype Action =
    | Next(w: nat, err: bool)   // worker `w` goes on; `err` is what syncHandler returns
    | Enqueue(x: Item)          // an event handler
    | Elapse(x: Item)
    | Close

  predicate Enabled(s: State, act: Action) {
    match act
    case Next(w, _) => w in s.workers && !s.workers[w].Stopped? && (s.workers[w].Idle? ==> GetReturns(s.q))
    case Elapse(x) => x in s.q.delayed
    case _ => true
  }

  function Move(s: State, w: nat, q: Queue, pc: Pc, events: seq<Event>): State {
    State(q, s.workers[w := pc], s.log + events)
  }

  function StepWorker(s: State, w: nat, err: bool): State
    requires Enabled(s, Next(w, err))
  {
    match s.workers[w]
    case Idle =>
      if s.q.queue == [] then Move(s, w, s.q, Stopped, [])
      else Move(s, w, Take(s.q), Holding(s.q.queue[0]), [Got(w, s.q.queue[0])])
    case Holding(x) =>
      if x.Foreign? then Move(s, w, s.q, Forgetting(x), [])
      // syncHandler returns nil for a string that is no key.
      else if x.Work? && err then Move(s, w, s.q, Retrying(x), [SyncFailed(w, x)])
      else Move(s, w, s.q, Forgetting(x), [SyncWorked(w, x)])
    case Retrying(x) => Move(s, w, AddRateLimited(s.q, x), Finishing(x), [Retried(w, x)])
    case Forgetting(x) => Move(s, w, Forget(s.q, x), Finishing(x), [Forgot(w, x)])
    case Finishing(x) => Move(s, w, Done(s.q, x), Idle, [Finished(w, x)])
  }

  function Apply(s: State, act: Action): State
    requires Enabled(s, act)
  {
    match act
    case Next(w, err) => StepWorker(s, w, err)
    case Enqueue(x) => s.(q := AddRateLimited(s.q, x))
    case Elapse(x) => s.(q := Fire(s.q, x))
    case Close => s.(q := s.q.(shuttingDown := true))
  }

  predicate Initial(s: State) {
    s.q == Queue([], {}, {}, {}, map[], false) && s.log == [] && forall w <- s.workers :: s.workers[w].Idle?
  }

  predicate Follows(s: State, act: Action, s': State) { Enabled(s, act) && s' == Apply(s, act) }

  predicate IsRun(states: seq<State>, acts: seq<Action>) {
    && |states| == |acts| + 1
    && Initial(states[0])
    && forall i :: 0 <= i < |acts| ==> Follows(states[i], acts[i], states[i + 1])
  }

  // ---- What the log says --------------------------------------------------------------------

  function FailedAfter(failed: set<Item>, e: Event): set<Item> {
    if e.SyncFailed? then failed + {e.x} else if e.SyncWorked? then failed - {e.x} else failed
  }

  /** The keys whose last sync failed. */
  function LastFailed(log: seq<Event>): set<Item> {
    if log == [] then {}
    else FailedAfter(LastFailed(log[..|log| - 1]), log[|log| - 1])
  }

  /** The last thing worker `w` did. */
  function LastOf(log: seq<Event>, w: nat): Option<Event> {
    if log == [] then None
    else if log[|log| - 1].w == w then Some(log[|log| - 1]) else LastOf(log[..|log| - 1], w)
  }

  /** What a worker may do after what it did last: every item it gets is finished before the
      next one, after exactly one Forget or AddRateLimited; only a failed sync is retried, and
      only an item that is no string, or whose sync worked, is forgotten. */
  predicate MayFollow(last: Option<Event>, e: Event) {
    match e
    case Got(_, _) => last.None? || last.value.Finished?
    case SyncFailed(w, x) => last == Some(Got(w, x)) && x.Work?
    case SyncWorked(w, x) => last == Some(Got(w, x)) && !x.Foreign?
    case Retried(w, x) => last == Some(SyncFailed(w, x))
    case Forgot(w, x) => last == Some(SyncWorked(w, x)) || (x.Foreign? && last == Some(Got(w, x)))
    case Finished(w, x) => last == Some(Retried(w, x)) || last == Some(Forgot(w, x))
  }

  predicate Orderly(log: seq<Event>) {
    forall i :: 0 <= i < |log| ==> MayFollow(LastOf(log[..i], log[i].w), log[i])
  }

  /** The events of one kind. */
  function Count(log: seq<Event>, e: Event): nat {
    if log == [] then 0 else Count(log[..|log| - 1], e) + if log[|log| - 1] == e then 1 else 0
  }

  // ---- The invariant ------------------------------------------------------------------------

  predicate Holds(pc: Pc, x: Item) {
    !pc.Idle? && !pc.Stopped? && pc.x == x
  }

  predicate QueueOk(q: Queue) {
    && (forall i, j :: 0 <= i < j < |q.queue| ==> q.queue[i] != q.queue[j])
    && (forall x <- q.queue :: x in q.dirty && x !in q.processing)
    && (forall x <- q.dirty :: x in q.queue || x in q.processing)
  }

  predicate HoldersOk(s: State) {
    && (forall w <- s.workers :: !s.workers[w].Idle? && !s.workers[w].Stopped? ==> s.workers[w].x in s.q.processing)
    && (forall x <- s.q.processing :: exists w :: w in s.workers && Holds(s.workers[w], x))
    && (forall v <- s.workers, w <- s.workers ::
          v != w && !s.workers[v].Idle? && !s.workers[v].Stopped? ==> !Holds(s.workers[w], s.workers[v].x))
  }

  /** The item waits to be processed. */
  predicate Pending(q: Queue, x: Item) { x in q.dirty || x in q.delayed }

  /** A failed key is pending, or a worker is still to hand it back. */
  predicate RetryOk(s: State, x: Item) {
    Pending(s.q, x) || exists w :: w in s.workers && Holds(s.workers[w], x) && !s.workers[w].Finishing?
  }

  predicate RetriesOk(s: State) { s.q.shuttingDown || forall x <- LastFailed(s.log) :: RetryOk(s, x) }

  /** A worker's place and the end of its log. */
  predicate PlaceOk(s: State, w: nat)
    requires w in s.workers
  {
    var last := LastOf(s.log, w);
    match s.workers[w]
    case Idle => last.None? || last.value.Finished?
    case Holding(x) => last == Some(Got(w, x))
    case Retrying(x) => last == Some(SyncFailed(w, x))
    case Forgetting(x) =>
      x !in LastFailed(s.log)
      && (last == Some(SyncWorked(w, x)) || (x.Foreign? && last == Some(Got(w, x))))
    case Finishing(x) => last == Some(Retried(w, x)) || last == Some(Forgot(w, x))
    case Stopped => last.None? || last.value.Finished?
  }

  predicate Inv(s: State) {
    && QueueOk(s.q) && HoldersOk(s) && RetriesOk(s) && Orderly(s.log)
    && (forall x <- LastFailed(s.log) :: x.Work?)
    && forall w <- s.workers :: PlaceOk(s, w)
  }

  lemma AddOk(q: Queue, x: Item)
    requires QueueOk(q)
    ensures QueueOk(Add(q, x)) && Add(q, x).processing == q.processing && Add(q, x).shuttingDown == q.shuttingDown
    ensures q.dirty <= Add(q, x).dirty && Add(q, x).delayed == q.delayed
    ensures !q.shuttingDown ==> x in Add(q, x).dirty
  {
    if !q.shuttingDown && x !in q.dirty {
      assert x !in q.queue;
    }
  }

  lemma TakeOk(q: Queue)
    requires QueueOk(q) && q.queue != []
    ensures QueueOk(Take(q)) && q.queue[0] !in q.processing
  {
    var x := q.queue[0];
    forall y <- Take(q).queue ensures y in q.queue && y != x {
      var i :| 0 <= i < |q.queue[1..]| && q.queue[1..][i] == y;
      assert q.queue[i + 1] == y;
    }
    assert forall y <- q.dirty :: y != x && y in q.queue ==> y in q.queue[1..];
  }

  lemma DoneOk(q: Queue, x: Item)
    requires QueueOk(q) && x in q.processing
    ensures QueueOk(Done(q, x))
  {
    assert x !in q.queue;
  }

  // ---- One step ---------------------------------------------------------------------------------

  lemma LogGrows(log: seq<Event>, e: Event)
    ensures LastFailed(log + [e]) == FailedAfter(LastFailed(log), e)
    ensures forall w: nat :: LastOf(log + [e], w) == if e.w == w then Some(e) else LastOf(log, w)
    ensures Orderly(log) && MayFollow(LastOf(log, e.w), e) ==> Orderly(log + [e])
  {
    assert (log + [e])[..|log|] == log;
    forall i | 0 <= i < |log| ensures (log + [e])[..i] == log[..i] {}
  }

  /** The other workers see only the queue and the log change. */
  lemma OthersKeepPlace(s: State, s': State, w: nat, e: Event)
    requires Inv(s) && w in s.workers && e.w == w && s'.log == s.log + [e]
    requires s'.workers.Keys == s.workers.Keys && forall v <- s.workers :: v != w ==> s'.workers[v] == s.workers[v]
    requires e.SyncFailed? ==> Holds(s.workers[w], e.x)
    requires PlaceOk(s', w)
    ensures forall v <- s'.workers :: PlaceOk(s', v)
  {
    LogGrows(s.log, e);
    forall v <- s'.workers ensures PlaceOk(s', v) {
      if v != w { assert PlaceOk(s, v); }
    }
  }

  /** Retries survive when nothing pending is lost and no holder but a finishing one lets go. */
  lemma SameRetries(s: State, s': State, w: nat)
    requires RetriesOk(s) && s'.q.shuttingDown == s.q.shuttingDown && LastFailed(s'.log) <= LastFailed(s.log)
    requires s'.workers.Keys == s.workers.Keys && forall v <- s.workers :: v != w ==> s'.workers[v] == s.workers[v]
    requires w in s.workers
    requires forall x <- LastFailed(s'.log) :: Pending(s.q, x) ==> Pending(s'.q, x) || Holds(s'.workers[w], x)
    requires forall x <- LastFailed(s'.log) :: Holds(s.workers[w], x) && !s.workers[w].Finishing? ==> RetryOk(s', x)
    requires forall x <- LastFailed(s'.log) :: Holds(s'.workers[w], x) ==> RetryOk(s', x)
    ensures RetriesOk(s')
  {
    if !s'.q.shuttingDown {
      forall x <- LastFailed(s'.log) ensures RetryOk(s', x) {
        assert RetryOk(s, x);
        if !Pending(s.q, x) {
          var v :| v in s.workers && Holds(s.workers[v], x) && !s.workers[v].Finishing?;
          if v != w { assert Holds(s'.workers[v], x) && !s'.workers[v].Finishing?; }
        }
      }
    }
  }

  lemma StopKeeps(s: State, w: nat)
    requires Inv(s) && w in s.workers && s.workers[w].Idle?
    ensures Inv(s.(workers := s.workers[w := Stopped]))
  {
    var s' := s.(workers := s.workers[w := Stopped]);
    assert PlaceOk(s, w);
    forall x <- s.q.processing ensures exists v :: v in s'.workers && Holds(s'.workers[v], x) {
      var v :| v in s.workers && Holds(s.workers[v], x);
      assert v in s'.workers && Holds(s'.workers[v], x);
    }
    SameRetries(s, s', w);
    forall v <- s'.workers ensures PlaceOk(s', v) { assert PlaceOk(s, v); }
  }

  lemma TakenIsHeld(s: State, w: nat)
    requires Inv(s) && w in s.workers && s.workers[w].Idle? && s.q.queue != []
    ensures HoldersOk(Apply(s, Next(w, false)))
  {
    TakeOk(s.q);
    var s', x := Apply(s, Next(w, false)), s.q.queue[0];
    assert Holds(s'.workers[w], x);
    forall y <- s'.q.processing ensures exists v :: v in s'.workers && Holds(s'.workers[v], y) {
      if y != x {
        var v :| v in s.workers && Holds(s.workers[v], y);
        assert v in s'.workers && Holds(s'.workers[v], y);
      }
    }
  }

  lemma TakenIsRetried(s: State, w: nat)
    requires Inv(s) && w in s.workers && s.workers[w].Idle? && s.q.queue != []
    ensures RetriesOk(Apply(s, Next(w, false)))
  {
    var s', x := Apply(s, Next(w, false)), s.q.queue[0];
    LogGrows(s.log, Got(w, x));
    assert w in s'.workers && Holds(s'.workers[w], x) && !s'.workers[w].Finishing?;
    SameRetries(s, s', w);
  }

  /** Get. */
  lemma GetKeeps(s: State, w: nat, err: bool)
    requires Inv(s) && Enabled(s, Next(w, err)) && s.workers[w].Idle?
    ensures Inv(Apply(s, Next(w, err)))
  {
    var s' := Apply(s, Next(w, err));
    if s.q.queue == [] {
      assert s.log + [] == s.log;
      StopKeeps(s, w);
    } else {
      TakeOk(s.q);
      assert PlaceOk(s, w);
      LogGrows(s.log, Got(w, s.q.queue[0]));
      TakenIsHeld(s, w);
      OthersKeepPlace(s, s', w, Got(w, s.q.queue[0]));
      TakenIsRetried(s, w);
    }
  }

  /** A worker that goes on with its item keeps holding it. */
  lemma StillHeld(s: State, s': State, w: nat)
    requires HoldersOk(s) && w in s.workers && !s.workers[w].Idle? && !s.workers[w].Stopped?
    requires w in s'.workers && s'.q.processing == s.q.processing && s'.workers == s.workers[w := s'.workers[w]]
    requires Holds(s'.workers[w], s.workers[w].x)
    ensures HoldersOk(s')
  {
    forall y <- s'.q.processing ensures exists v :: v in s'.workers && Holds(s'.workers[v], y) {
      var v :| v in s.workers && Holds(s.workers[v], y);
      assert v in s'.workers && Holds(s'.workers[v], y);
    }
  }

  /** An item that is no key. */
  lemma ForeignKeeps(s: State, w: nat, err: bool)
    requires Inv(s) && Enabled(s, Next(w, err)) && s.workers[w].Holding? && s.workers[w].x.Foreign?
    ensures Inv(Apply(s, Next(w, err)))
  {
    var s' := Apply(s, Next(w, err));
    assert PlaceOk(s, w);
    StillHeld(s, s', w);
    assert s.log + [] == s.log;
    forall v <- s'.workers ensures PlaceOk(s', v) { assert PlaceOk(s, v); }
    SameRetries(s, s', w);
  }

  lemma SyncedRetries(s: State, w: nat, err: bool)
    requires Inv(s) && Enabled(s, Next(w, err)) && s.workers[w].Holding? && !s.workers[w].x.Foreign?
    ensures RetriesOk(Apply(s, Next(w, err)))
  {
    var s', x := Apply(s, Next(w, err)), s.workers[w].x;
    LogGrows(s.log, if x.Work? && err then SyncFailed(w, x) else SyncWorked(w, x));
    assert Holds(s'.workers[w], x) && !s'.workers[w].Finishing?;
    if !s.q.shuttingDown {
      forall y <- LastFailed(s'.log) ensures RetryOk(s', y) {
        if y != x {
          assert RetryOk(s, y);
          if !Pending(s.q, y) {
            var v :| v in s.workers && Holds(s.workers[v], y) && !s.workers[v].Finishing?;
            assert v in s'.workers && Holds(s'.workers[v], y) && !s'.workers[v].Finishing?;
          }
        }
      }
    }
  }

  /** syncHandler on a key. */
  lemma SyncKeeps(s: State, w: nat, err: bool)
    requires Inv(s) && Enabled(s, Next(w, err)) && s.workers[w].Holding? && !s.workers[w].x.Foreign?
    ensures Inv(Apply(s, Next(w, err)))
  {
    hide RetriesOk;
    var s', x := Apply(s, Next(w, err)), s.workers[w].x;
    var e := if x.Work? && err then SyncFailed(w, x) else SyncWorked(w, x);
    assert PlaceOk(s, w);
    StillHeld(s, s', w);
    LogGrows(s.log, e);
    assert PlaceOk(s', w);
    OthersKeepPlace(s, s', w, e);
    SyncedRetries(s, w, err);
    hide QueueOk, HoldersOk, PlaceOk, Orderly, LastOf;
  }

  /** AddRateLimited after a failed sync. */
  lemma RetryKeeps(s: State, w: nat, err: bool)
    requires Inv(s) && Enabled(s, Next(w, err)) && s.workers[w].Retrying?
    ensures Inv(Apply(s, Next(w, err)))
  {
    var s', x := Apply(s, Next(w, err)), s.workers[w].x;
    assert PlaceOk(s, w);
    LogGrows(s.log, Retried(w, x));
    StillHeld(s, s', w);
    OthersKeepPlace(s, s', w, Retried(w, x));
    if !s.q.shuttingDown {
      assert x in s'.q.delayed;
      SameRetries(s, s', w);
    }
  }

  /** Forget after success, or for an item that is no key. */
  lemma ForgetKeeps(s: State, w: nat, err: bool)
    requires Inv(s) && Enabled(s, Next(w, err)) && s.workers[w].Forgetting?
    ensures Inv(Apply(s, Next(w, err)))
  {
    var s', x := Apply(s, Next(w, err)), s.workers[w].x;
    assert PlaceOk(s, w);
    LogGrows(s.log, Forgot(w, x));
    StillHeld(s, s', w);
    OthersKeepPlace(s, s', w, Forgot(w, x));
    SameRetries(s, s', w);
  }

  /** The deferred Done. */
  lemma DoneKeeps(s: State, w: nat, err: bool)
    requires Inv(s) && Enabled(s, Next(w, err)) && s.workers[w].Finishing?
    ensures Inv(Apply(s, Next(w, err)))
  {
    var s', x := Apply(s, Next(w, err)), s.workers[w].x;
    assert PlaceOk(s, w);
    LogGrows(s.log, Finished(w, x));
    DoneOk(s.q, x);
    forall y <- s'.q.processing ensures exists v :: v in s'.workers && Holds(s'.workers[v], y) {
      var v :| v in s.workers && Holds(s.workers[v], y);
      assert v in s'.workers && Holds(s'.workers[v], y);
    }
    OthersKeepPlace(s, s', w, Finished(w, x));
    SameRetries(s, s', w);
  }

  /** The queue changes from outside; the workers and the log do not. */
  lemma OutsideKeeps(s: State, q: Queue)
    requires Inv(s) && QueueOk(q) && q.processing == s.q.processing
    requires q.shuttingDown || (!s.q.shuttingDown && forall x :: Pending(s.q, x) ==> Pending(q, x))
    ensures Inv(s.(q := q))
  {
    var s' := s.(q := q);
    forall w <- s'.workers ensures PlaceOk(s', w) { assert PlaceOk(s, w); }
    if !q.shuttingDown {
      forall x <- LastFailed(s'.log) ensures RetryOk(s', x) { assert RetryOk(s, x); }
    }
  }

  lemma QueueInv(s: State)
    requires Inv(s)
    ensures QueueOk(s.q)
  {}

  lemma ActionKeeps(s: State, act: Action)
    requires Inv(s) && Enabled(s, act)
    ensures Inv(Apply(s, act))
  {
    hide Inv, PlaceOk, Orderly, RetryOk;
    match act
    case Next(w, err) =>
      match s.workers[w] {
        case Idle => GetKeeps(s, w, err);
        case Holding(x) => if x.Foreign? { ForeignKeeps(s, w, err); } else { SyncKeeps(s, w, err); }
        case Retrying(_) => RetryKeeps(s, w, err);
        case Forgetting(_) => ForgetKeeps(s, w, err);
        case Finishing(_) => DoneKeeps(s, w, err);
      }
    case Enqueue(x) => QueueInv(s); OutsideKeeps(s, AddRateLimited(s.q, x));
    case Elapse(x) =>
      QueueInv(s);
      AddOk(s.q.(delayed := s.q.delayed - {x}), x);
      OutsideKeeps(s, Fire(s.q, x));
    case Close => QueueInv(s); OutsideKeeps(s, s.q.(shuttingDown := true));
  }

  lemma {:induction false} RunKeeps(states: seq<State>, acts: seq<Action>, n: nat)
    requires IsRun(states, acts) && n < |states|
    ensures Inv(states[n])
  {
    if n > 0 {
      RunKeeps(states, acts, n - 1);
      assert Follows(states[n - 1], acts[n - 1], states[n]);
      hide Inv;
      ActionKeeps(states[n - 1], acts[n - 1]);
    }
  }

  // ---- The guarantees -----------------------------------------------------------------------------

  /** Until the queue is shut down, every key whose last sync failed is waiting to be processed
      again or in the hands of a worker. */
  lemma NoLostRetries(states: seq<State>, acts: seq<Action>, n: nat, x: Item)
    requires IsRun(states, acts) && n < |states| && !states[n].q.shuttingDown
    requires x in LastFailed(states[n].log)
    ensures Pending(states[n].q, x) || x in states[n].q.processing
  {
    RunKeeps(states, acts, n);
    assert RetryOk(states[n], x);
  }

  /** What waits in `dirty` comes off the queue, unless a worker has it; then that worker's
      Done puts it back. */
  lemma DirtyComesBack(states: seq<State>, acts: seq<Action>, n: nat, x: Item)
    requires IsRun(states, acts) && n < |states| && x in states[n].q.dirty
    ensures x in states[n].q.queue || (x in states[n].q.processing && x in Done(states[n].q, x).queue)
  {
    RunKeeps(states, acts, n);
  }

  /** No item is in the hands of two workers. */
  lemma OneWorkerPerItem(states: seq<State>, acts: seq<Action>, n: nat, v: nat, w: nat, x: Item)
    requires IsRun(states, acts) && n < |states| && v in states[n].workers && w in states[n].workers
    requires Holds(states[n].workers[v], x) && Holds(states[n].workers[w], x)
    ensures v == w
  {
    RunKeeps(states, acts, n);
  }

  /** Gets and Dones of a worker on an item, and the workers' calls in between, come in order. */
  lemma CallsInOrder(states: seq<State>, acts: seq<Action>, n: nat, i: nat)
    requires IsRun(states, acts) && n < |states| && i < |states[n].log|
    ensures var log := states[n].log; MayFollow(LastOf(log[..i], log[i].w), log[i])
  {
    RunKeeps(states, acts, n);
  }

  lemma {:induction false} GetsAndDones(log: seq<Event>, w: nat, x: Item)
    requires Orderly(log)
    ensures var last := LastOf(log, w);
            Count(log, Got(w, x)) == Count(log, Finished(w, x))
              + if last.Some? && last.value.x == x && !last.value.Finished? then 1 else 0
  {
    if log != [] {
      var n := |log| - 1;
      var before, e := log[..n], log[n];
      assert Orderly(before) by {
        forall i | 0 <= i < n ensures MayFollow(LastOf(before[..i], before[i].w), before[i]) {
          assert before[..i] == log[..i];
        }
      }
      GetsAndDones(before, w, x);
      assert MayFollow(LastOf(before, e.w), e);
    }
  }

  /** Each Get of an item is matched by exactly one Done, but for an item still being worked on. */
  lemma EveryGetIsDone(states: seq<State>, acts: seq<Action>, n: nat, w: nat, x: Item)
    requires IsRun(states, acts) && n < |states| && w in states[n].workers
    ensures Count(states[n].log, Got(w, x))
         == Count(states[n].log, Finished(w, x)) + if Holds(states[n].workers[w], x) then 1 else 0
  {
    RunKeeps(states, acts, n);
    assert PlaceOk(states[n], w);
    GetsAndDones(states[n].log, w, x);
  }
}
