/** The serialized task queue: a chain of promises.  Each request hangs its task on the tail,
    and the new tail settles with it but swallows a failure. */
module TaskQueue {
  datatype Status = Pending | Running | Fulfilled | Rejected

  /** What settles a promise: nothing, running a task after the parent, or passing the parent on. */
  datatype Reaction = Root | Runs(parent: nat, task: nat) | Swallows(parent: nat)

  datatype Promise = Promise(reaction: Reaction, status: Status)

  /** When each queued task began and ended. */
  datatype Mark = Began(task: nat) | Ended(task: nat, ok: bool)

  datatype Queue = Queue(promises: seq<Promise>, tail: nat, log: seq<Mark>)

  const EMPTY := Queue([Promise(Root, Fulfilled)], 0, [])

  predicate Settled(p: Promise) {
    p.status.Fulfilled? || p.status.Rejected?
  }

  /** What the event loop may do next: a request, the start or the end of a task, a promise that
      follows its parent. */
  datatype Event = Request | Start(promise: nat) | End(promise: nat, ok: bool) | Follow(promise: nat)

  /** A request chains its own promise on the tail, and a new tail on that promise. */
  function RequestStep(q: Queue): Queue {
    var result := |q.promises|;
    Queue(q.promises + [Promise(Runs(q.tail, result / 2), Pending), Promise(Swallows(result), Pending)], result + 1, q.log)
  }

  predicate Has(q: Queue, p: nat, status: Status) {
    p < |q.promises| && q.promises[p].status == status
  }

  function SetStatus(q: Queue, p: nat, status: Status): Queue
    requires p < |q.promises|
  {
    q.(promises := q.promises[p := q.promises[p].(status := status)])
  }

  /** A task begins when its parent is fulfilled; a rejected parent rejects it unrun. */
  function StartStep(q: Queue, p: nat): Queue {
    if !Has(q, p, Pending) || !q.promises[p].reaction.Runs? then q
    else if Has(q, q.promises[p].reaction.parent, Fulfilled) then
      SetStatus(q, p, Running).(log := q.log + [Began(q.promises[p].reaction.task)])
    else if Has(q, q.promises[p].reaction.parent, Rejected) then SetStatus(q, p, Rejected)
    else q
  }

  function EndStep(q: Queue, p: nat, ok: bool): Queue {
    if !Has(q, p, Running) || !q.promises[p].reaction.Runs? then q
    else SetStatus(q, p, if ok then Fulfilled else Rejected).(log := q.log + [Ended(q.promises[p].reaction.task, ok)])
  }

  /** A swallowing promise is fulfilled whichever way its parent settles. */
  function FollowStep(q: Queue, p: nat): Queue {
    if !Has(q, p, Pending) || !q.promises[p].reaction.Swallows? then q
    else if q.promises[p].reaction.parent < |q.promises| && Settled(q.promises[q.promises[p].reaction.parent]) then SetStatus(q, p, Fulfilled)
    else q
  }

  function Apply(q: Queue, e: Event): Queue {
    match e
    case Request => RequestStep(q)
    case Start(p) => StartStep(q, p)
    case End(p, ok) => EndStep(q, p, ok)
    case Follow(p) => FollowStep(q, p)
  }

  function After(events: seq<Event>): Queue {
    if events == [] then EMPTY else Apply(After(events[..|events| - 1]), events[|events| - 1])
  }

  // ---- The shape of the chain ----

  /** Promise `2k + 1` runs task `k` after promise `2k`; promise `2k + 2` swallows it. */
  predicate ShapeAt(p: Promise, i: nat) {
    p.reaction == if i == 0 then Root else if i % 2 == 1 then Runs(i - 1, i / 2) else Swallows(i - 1)
  }

  /** Everything before the frontier is settled, the tails among it fulfilled; the promise at the
      frontier is waiting or its task is running; everything after waits. */
  predicate StatusAt(p: Promise, i: nat, frontier: nat) {
    if i < frontier then Settled(p) && (i % 2 == 0 ==> p.status.Fulfilled?)
    else if i == frontier then p.status.Pending? || (i % 2 == 1 && p.status.Running?)
    else p.status.Pending?
  }

  /** The history of a chain settled up to the frontier: one task after the other. */
  function History(promises: seq<Promise>, i: nat): seq<Mark>
    requires i <= |promises|
  {
    if i == 0 then []
    else
      var p := promises[i - 1];
      History(promises, i - 1) + (
        if !p.reaction.Runs? || p.status.Pending? then []
        else if p.status.Running? then [Began(p.reaction.task)]
        else [Began(p.reaction.task), Ended(p.reaction.task, p.status.Fulfilled?)])
  }

  ghost predicate Ordered(q: Queue, frontier: nat) {
    && |q.promises| % 2 == 1
    && 0 < frontier <= |q.promises|
    && q.tail == |q.promises| - 1
    && (forall i: nat | i < |q.promises| :: ShapeAt(q.promises[i], i) && StatusAt(q.promises[i], i, frontier))
    && q.log == History(q.promises, |q.promises|)
  }

  lemma {:induction false} HistoryAgrees(a: seq<Promise>, b: seq<Promise>, i: nat)
    requires i <= |a| && i <= |b| && forall k: nat | k < i :: a[k] == b[k]
    ensures History(a, i) == History(b, i)
  {
    if i > 0 {
      HistoryAgrees(a, b, i - 1);
    }
  }

  /** Promises that wait add nothing. */
  lemma {:induction false} WaitingAddNothing(promises: seq<Promise>, i: nat, n: nat)
    requires i <= n <= |promises| && forall k: nat | i <= k < n :: promises[k].status.Pending?
    ensures History(promises, n) == History(promises, i)
  {
    if i < n {
      WaitingAddNothing(promises, i, n - 1);
    }
  }

  /** A change at the frontier changes the end of the history alone. */
  lemma {:induction false} HistoryAtFrontier(promises: seq<Promise>, f: nat)
    requires f < |promises| && forall k: nat | f < k < |promises| :: promises[k].status.Pending?
    ensures History(promises, |promises|) == History(promises, f + 1)
  {
    WaitingAddNothing(promises, f + 1, |promises|);
  }

  lemma {:induction false} RequestKeepsOrder(q: Queue, frontier: nat)
    requires Ordered(q, frontier)
    ensures Ordered(RequestStep(q), frontier)
  {
    var after := RequestStep(q).promises;
    HistoryAgrees(q.promises, after, |q.promises|);
    WaitingAddNothing(after, |q.promises|, |after|);
  }

  /** The history after the status at the frontier changed. */
  lemma {:induction false} FrontierHistory(q: Queue, f: nat, status: Status)
    requires Ordered(q, f) && f < |q.promises|
    ensures var after := SetStatus(q, f, status).promises;
      && q.log == History(q.promises, f + 1)
      && History(after, |after|) == History(after, f + 1)
      && History(after, f) == History(q.promises, f)
  {
    var after := SetStatus(q, f, status).promises;
    HistoryAtFrontier(q.promises, f);
    HistoryAtFrontier(after, f);
    HistoryAgrees(q.promises, after, f);
  }

  lemma {:induction false} StartKeepsOrder(q: Queue, p: nat, frontier: nat)
    requires Ordered(q, frontier)
    ensures Ordered(StartStep(q, p), frontier)
  {
    if StartStep(q, p) != q {
      assert ShapeAt(q.promises[p], p) && StatusAt(q.promises[p], p, frontier);
      assert StatusAt(q.promises[p - 1], p - 1, frontier);
      FrontierHistory(q, frontier, Running);
    }
  }

  lemma {:induction false} EndKeepsOrder(q: Queue, p: nat, ok: bool, frontier: nat)
    requires Ordered(q, frontier)
    ensures Ordered(EndStep(q, p, ok), if EndStep(q, p, ok) == q then frontier else frontier + 1)
  {
    if EndStep(q, p, ok) != q {
      assert ShapeAt(q.promises[p], p) && StatusAt(q.promises[p], p, frontier);
      FrontierHistory(q, frontier, if ok then Fulfilled else Rejected);
      assert History(q.promises, frontier + 1) == History(q.promises, frontier) + [Began(q.promises[p].reaction.task)];
    }
  }

  lemma {:induction false} FollowKeepsOrder(q: Queue, p: nat, frontier: nat)
    requires Ordered(q, frontier)
    ensures Ordered(FollowStep(q, p), if FollowStep(q, p) == q then frontier else frontier + 1)
  {
    if FollowStep(q, p) != q {
      assert ShapeAt(q.promises[p], p) && StatusAt(q.promises[p], p, frontier);
      assert StatusAt(q.promises[p - 1], p - 1, frontier);
      FrontierHistory(q, frontier, Fulfilled);
    }
  }

  /** Every order of requests, starts, ends and failures leaves the chain in order. */
  lemma {:induction false} QueueIsOrdered(events: seq<Event>) returns (frontier: nat)
    ensures Ordered(After(events), frontier)
  {
    if events == [] {
      frontier := 1;
      assert History([Promise(Root, Fulfilled)], 0) == [];
    } else {
      frontier := QueueIsOrdered(events[..|events| - 1]);
      var q := After(events[..|events| - 1]);
      match events[|events| - 1]
      case Request => RequestKeepsOrder(q, frontier);
      case Start(p) => StartKeepsOrder(q, p, frontier);
      case End(p, ok) => EndKeepsOrder(q, p, ok, frontier); frontier := if EndStep(q, p, ok) == q then frontier else frontier + 1;
      case Follow(p) => FollowKeepsOrder(q, p, frontier); frontier := if FollowStep(q, p) == q then frontier else frontier + 1;
    }
  }

  // ---- What callers rely on ----

  /** One task after the other, in the order of the requests, each exactly once. */
  predicate Serial(log: seq<Mark>) {
    forall i: nat | i < |log| :: if i % 2 == 0 then log[i] == Began(i / 2) else log[i].Ended? && log[i].task == i / 2
  }

  lemma {:induction false} SettledHistory(q: Queue, i: nat, frontier: nat)
    requires Ordered(q, frontier) && i <= frontier
    ensures |History(q.promises, i)| == i / 2 * 2 && Serial(History(q.promises, i))
  {
    if i > 0 {
      SettledHistory(q, i - 1, frontier);
      assert ShapeAt(q.promises[i - 1], i - 1) && StatusAt(q.promises[i - 1], i - 1, frontier);
    }
  }

  lemma {:induction false} SerialGoesOn(log: seq<Mark>, task: nat)
    requires Serial(log) && |log| == 2 * task
    ensures Serial(log + [Began(task)])
  {
  }

  lemma {:induction false} OrderedIsSerial(q: Queue, frontier: nat)
    requires Ordered(q, frontier)
    ensures Serial(q.log)
  {
    SettledHistory(q, frontier, frontier);
    if frontier < |q.promises| {
      HistoryAtFrontier(q.promises, frontier);
      OpenHistory(q.promises, frontier);
      ShapeOf(q, frontier, frontier);
      if q.promises[frontier].status.Running? {
        SerialGoesOn(History(q.promises, frontier), frontier / 2);
      } else {
        assert History(q.promises, frontier) + [] == History(q.promises, frontier);
      }
    }
  }

  /** The promise at the frontier adds the start of its task, when that runs. */
  lemma {:induction false} OpenHistory(promises: seq<Promise>, f: nat)
    requires f < |promises| && !Settled(promises[f])
    ensures History(promises, f + 1) == History(promises, f) +
              if promises[f].reaction.Runs? && promises[f].status.Running? then [Began(promises[f].reaction.task)] else []
  {
  }

  /** For every arrival order and every pattern of failures tasks run one at a time, in order, each once. */
  lemma {:induction false} TasksRunSerially(events: seq<Event>)
    ensures Serial(After(events).log)
  {
    var frontier := QueueIsOrdered(events);
    OrderedIsSerial(After(events), frontier);
  }

  lemma {:induction false} EndsAreLogged(q: Queue, i: nat, n: nat)
    requires i < n <= |q.promises| && q.promises[i].reaction.Runs? && Settled(q.promises[i])
    ensures Ended(q.promises[i].reaction.task, q.promises[i].status.Fulfilled?) in History(q.promises, n)
  {
    if i < n - 1 {
      EndsAreLogged(q, i, n - 1);
    }
  }

  lemma {:induction false} ShapeOf(q: Queue, i: nat, frontier: nat)
    requires Ordered(q, frontier) && i < |q.promises|
    ensures ShapeAt(q.promises[i], i) && StatusAt(q.promises[i], i, frontier)
  {
  }

  lemma {:induction false} TaskShape(k: nat, p: Promise)
    requires ShapeAt(p, 2 * k + 1)
    ensures p.reaction == Runs(2 * k, k)
  {
  }

  lemma {:induction false} OutcomeIsLogged(q: Queue, k: nat, frontier: nat)
    requires Ordered(q, frontier) && 2 * k + 1 < |q.promises|
    ensures Settled(q.promises[2 * k + 1]) ==> Ended(k, q.promises[2 * k + 1].status.Fulfilled?) in q.log
  {
    ShapeOf(q, 2 * k + 1, frontier);
    TaskShape(k, q.promises[2 * k + 1]);
    if Settled(q.promises[2 * k + 1]) {
      EndsAreLogged(q, 2 * k + 1, |q.promises|);
    }
  }

  /** The promise of request `k` settles with the outcome of its own task: it is rejected only by
      its own failure, never by another's. */
  lemma {:induction false} FailureReachesItsCaller(events: seq<Event>, k: nat)
    requires 2 * k + 1 < |After(events).promises|
    ensures var p := After(events).promises[2 * k + 1];
      && (p.status.Rejected? ==> Ended(k, false) in After(events).log)
      && (p.status.Fulfilled? ==> Ended(k, true) in After(events).log)
  {
    var frontier := QueueIsOrdered(events);
    OutcomeIsLogged(After(events), k, frontier);
  }

  /** As long as a promise is open the event loop has something to do. */
  lemma {:induction false} NothingIsDropped(events: seq<Event>, p: nat) returns (e: Event)
    requires p < |After(events).promises| && !Settled(After(events).promises[p])
    ensures !e.Request? && Apply(After(events), e) != After(events)
  {
    var q := After(events);
    var frontier := QueueIsOrdered(events);
    ShapeOf(q, p, frontier);
    ShapeOf(q, frontier, frontier);
    ShapeOf(q, frontier - 1, frontier);
    var open := q.promises[frontier];
    e := if open.status.Running? then End(frontier, true) else if frontier % 2 == 1 then Start(frontier) else Follow(frontier);
    assert Apply(q, e).promises[frontier] != open;
  }

  lemma {:induction false} RequestInOrder(q: Queue, frontier: nat)
    requires Ordered(q, frontier)
    ensures Ordered(RequestStep(q), frontier) && Serial(q.log) && |q.promises| % 2 == 1 && q.tail == |q.promises| - 1
  {
    RequestKeepsOrder(q, frontier);
    OrderedIsSerial(q, frontier);
  }

  /** The queue with the tail settled: everything requested so far is over. */
  ghost predicate Drained(q: Queue) {
    forall i: nat | i < |q.promises| :: Settled(q.promises[i])
  }

  /** A task requested on a drained queue runs, and its promise settles as the task does; the tail is fulfilled
      either way. */
  lemma {:induction false} RequestedTaskRuns(events: seq<Event>, ok: bool)
    requires Drained(After(events))
    ensures var q := After(events);
      var r := |q.promises|;
      Apply(Apply(Apply(Apply(q, Request), Start(r)), End(r, ok)), Follow(r + 1))
      == Queue(q.promises + [Promise(Runs(q.tail, r / 2), if ok then Fulfilled else Rejected), Promise(Swallows(r), Fulfilled)], r + 1,
               q.log + [Began(r / 2), Ended(r / 2, ok)])
  {
    var q := After(events);
    var r := |q.promises|;
    var frontier := QueueIsOrdered(events);
    ShapeOf(q, r - 1, frontier);
    var requested := RequestStep(q);
    assert StartStep(requested, r) == SetStatus(requested, r, Running).(log := q.log + [Began(r / 2)]);
    var started := StartStep(requested, r);
    assert EndStep(started, r, ok).log == q.log + [Began(r / 2), Ended(r / 2, ok)];
  }

  /** The queue object: every request replaces its tail. */
  class SerializedTaskQueue {
    var promises: seq<Promise>
    var tail: nat
    var log: seq<Mark>

    function State(): Queue
      reads this
    {
      Queue(promises, tail, log)
    }

    /** The chain is in order up to some frontier. */
    ghost predicate Valid()
      reads this
    {
      exists frontier: nat :: Ordered(State(), frontier)
    }

    constructor ()
      ensures Valid() && State() == EMPTY
    {
      promises, tail, log := [Promise(Root, Fulfilled)], 0, [];
      new;
      assert History(promises, 0) == [];
      assert Ordered(State(), 1);
    }

    /** Chains a task on the tail and answers its promise.  The task is numbered by the order of the
        requests, nothing that was requested before is touched, and whatever happened so far is serial. */
    method Run() returns (result: nat)
      requires Valid()
      modifies this
      ensures Valid()
      ensures State() == RequestStep(old(State()))
      ensures |old(promises)| == result < |promises| && promises[..result] == old(promises) && log == old(log)
      ensures result % 2 == 1 && promises[result] == Promise(Runs(result - 1, result / 2), Pending)
      ensures tail == result + 1 && promises[tail] == Promise(Swallows(result), Pending)
      ensures Serial(log)
    {
      ghost var frontier: nat :| Ordered(State(), frontier);
      RequestInOrder(State(), frontier);
      result := |promises|;
      promises := promises + [Promise(Runs(tail, result / 2), Pending)];
      promises := promises + [Promise(Swallows(result), Pending)];
      tail := |promises| - 1;
      assert State() == RequestStep(old(State()));
    }
  }
}
