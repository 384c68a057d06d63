/** The fixed-size thread pool: workers pop tasks off a blocking bounded queue, and `stop` closes
    the queue and joins them.  Tasks are opaque; every step of the pool is a step of the queue's
    monitor, or the end of a task, or part of `stop`. */
module ThreadPool {
  import opened Common
  import opened BoundedQueue

  /** Where the call of `stop` that won the flag stands.  `Signalling` lasts from the close until
      both conditions have been signalled; then the call joins the workers. */
  datatype Phase = AtClear | AtClose | Signalling | Returned
  datatype Stopper = Running | Stopping(t: Tid, drain: bool, phase: Phase)

  /** `started` lists the tasks handed to workers, in lock order.  A worker is `doing` the task at
      an index of that list; `done` holds the indices of tasks that have run to the end. */
  datatype Pool<T> = Pool(
    m: Monitor<T>, workers: set<Tid>, exited: set<Tid>,
    doing: map<Tid, nat>, started: seq<T>, done: set<nat>, completed: nat, stop: Stopper)

  datatype PoolEvent<T> =
    | Queued(e: Event<T>)
    | Finish(w: Tid)
    | Stop(t: Tid, drain: bool)
    | Return(t: Tid)

  predicate FreeWorker<T>(p: Pool<T>, w: Tid) {
    w in p.workers && w !in p.exited && w !in p.doing
  }

  predicate StopIs<T>(p: Pool<T>, t: Tid, phase: Phase) {
    p.stop.Stopping? && p.stop.t == t && p.stop.phase == phase
  }

  predicate MayPost<T>(p: Pool<T>, t: Tid) {
    if t in p.workers then t in p.doing else !(p.stop.Stopping? && p.stop.t == t)
  }

  /** `post` waits for space, `try_post` does not, and workers pop without a deadline. */
  predicate QueueEventAllowed<T>(p: Pool<T>, e: Event<T>) {
    match e
    case PushCall(t, _, mode, _) => MayPost(p, t) && !mode.Timed?
    case PushRetry(_, _, _) => true
    case PopCall(t, mode, _) => FreeWorker(p, t) && mode.Forever?
    case PopRetry(t, _, _) => FreeWorker(p, t)
    case Rouse(_) => true
    case CloseFlag(t) => StopIs(p, t, AtClose)
    case CloseSignalEmpty(t) => StopIs(p, t, Signalling)
    case CloseSignalFull(t) => StopIs(p, t, Signalling)
    case Clear(t) => StopIs(p, t, AtClear)
  }

  predicate PoolEnabled<T>(p: Pool<T>, x: PoolEvent<T>) {
    match x
    case Queued(e) => Enabled(p.m, e) && QueueEventAllowed(p, e)
    case Finish(w) => w in p.doing && Idle(p.m, w)
    case Stop(t, _) => t !in p.workers && Idle(p.m, t)
    case Return(t) => StopIs(p, t, Signalling) && t !in p.m.closers && p.exited == p.workers
  }

  /** The worker got a task, or learnt that the queue is closed and drained and left. */
  function WorkerGot<T>(p: Pool<T>, w: Tid, r: PopResult<T>): Pool<T> {
    match r
    case Popped(v) => p.(doing := p.doing[w := |p.started|], started := p.started + [v])
    case Nothing => p.(exited := p.exited + {w})
    case PopWait => p
  }

  function PoolNext<T>(p: Pool<T>, x: PoolEvent<T>): Pool<T>
    requires PoolEnabled(p, x)
  {
    match x
    case Queued(e) =>
      var n := p.(m := Next(p.m, e));
      match e {
        case PopCall(t, mode, _) => WorkerGot(n, t, EnterPop(p.m.q, mode.Try?).1)
        case PopRetry(t, timedOut, _) => WorkerGot(n, t, ResumePop(p.m.q, timedOut).1)
        case Clear(_) => n.(stop := p.stop.(phase := AtClose))
        case CloseFlag(_) => n.(stop := p.stop.(phase := Signalling))
        case _ => n
      }
    case Finish(w) =>
      p.(doing := p.doing - {w}, done := p.done + {p.doing[w]}, completed := p.completed + 1)
    case Stop(t, drain) =>
      if p.stop.Running?
      then p.(stop := Stopping(t, drain, if drain then AtClose else AtClear))
      else p
    case Return(t) => p.(stop := p.stop.(phase := Returned))
  }

  function NewPool<T>(workers: set<Tid>, queueCapacity: nat): Pool<T> {
    Pool(NewMonitor(queueCapacity, Block), workers, {}, map[], [], {}, 0, Running)
  }

  // ---------------------------------------------------------------- what every step keeps

  predicate NoneCleared<T>(removed: seq<Removal<T>>) {
    forall i | 0 <= i < |removed| :: !removed[i].Cleared?
  }

  predicate NoneEvicted<T>(removed: seq<Removal<T>>) {
    forall i | 0 <= i < |removed| :: !removed[i].Evicted?
  }

  /** Every started task is either being done by exactly one worker, or has been done. */
  ghost predicate OnceEach<T>(p: Pool<T>) {
    Once(p.doing, |p.started|, p.done) && p.completed == |p.done|
  }

  ghost predicate Once(doing: map<Tid, nat>, started: nat, done: set<nat>) {
    && (forall i :: i in done ==> i < started)
    && (forall w | w in doing :: doing[w] < started && doing[w] !in done)
    && (forall v, w | v in doing && w in doing && v != w :: doing[v] != doing[w])
    && (forall i | 0 <= i < started :: i in done || IsDoing(doing, i))
  }

  ghost predicate IsDoing(doing: map<Tid, nat>, i: nat) {
    exists w :: w in doing && doing[w] == i
  }

  ghost predicate Ledger<T>(p: Pool<T>) {
    && p.started == TakenValues(p.m.removed)
    && NoneEvicted(p.m.removed)
    && (p.stop.Running? || p.stop.drain ==> NoneCleared(p.m.removed))
  }

  ghost predicate Posts<T>(p: Pool<T>) {
    && p.m.q.policy.Block?
    && p.exited <= p.workers && p.doing.Keys <= p.workers && p.exited !! p.doing.Keys
    && (forall t | t in p.m.waits && p.m.waits[t].Popping? ::
          FreeWorker(p, t) && !p.m.waits[t].timed)
    && (forall t | t in p.m.waits && p.m.waits[t].Pushing? :: t !in p.exited && !p.m.waits[t].timed)
    && (p.exited != {} ==> p.m.q.closed && p.m.q.items == [])
    && (p.m.q.closed <==> p.stop.Stopping? && (p.stop.phase.Signalling? || p.stop.phase.Returned?))
    && (forall t | t in p.m.closers :: StopIs(p, t, Signalling))
    && (p.stop.Stopping? ==> p.stop.t !in p.workers)
    && (p.stop.Stopping? && p.stop.phase.AtClear? ==> !p.stop.drain)
    && (p.stop.Stopping? && p.stop.phase.Returned? ==> p.exited == p.workers)
  }

  ghost predicate PoolInv<T>(p: Pool<T>) {
    Inv(p.m) && OnceEach(p) && Ledger(p) && Posts(p)
  }

  /** What a push means to the pool: nothing leaves the queue, and only `t` may start or stop
      waiting. */
  ghost predicate PushEffect<T>(m: Monitor<T>, n: Monitor<T>, t: Tid) {
    && n.closers == m.closers && n.removed == m.removed
    && n.q.closed == m.q.closed && n.q.policy == m.q.policy
    && (m.q.closed ==> n.q.items == m.q.items)
    && (forall u | u in n.waits && u != t :: u in m.waits && n.waits[u] == m.waits[u])
    && (t in n.waits ==> n.waits[t].Pushing? && !n.waits[t].timed)
  }

  lemma PushEffects<T>(m: Monitor<T>, e: Event<T>)
    requires m.q.policy.Block? && Enabled(m, e)
    requires (e.PushCall? && !e.mode.Timed?) || (e.PushRetry? && !m.waits[e.t].timed)
    ensures PushEffect(m, Next(m, e), e.t)
  {
  }

  /** What a pop means to the pool: the worker takes the first item, leaves a closed empty queue,
      or waits. */
  ghost predicate PopEffect<T>(m: Monitor<T>, n: Monitor<T>, t: Tid, r: PopResult<T>) {
    && n.closers == m.closers && n.q.closed == m.q.closed && n.q.policy == m.q.policy
    && (match r
        case Popped(v) =>
          n.removed == m.removed + [Taken(v)] && m.q.items != [] && t !in n.waits
        case Nothing =>
          n.removed == m.removed && n.q.items == m.q.items == [] && m.q.closed && t !in n.waits
        case PopWait =>
          n.removed == m.removed && n.q.items == m.q.items
          && t in n.waits && n.waits[t] == Popping(false))
    && (forall u | u in n.waits && u != t :: u in m.waits && n.waits[u] == m.waits[u])
  }

  function PopOutcome<T>(m: Monitor<T>, e: Event<T>): PopResult<T>
    requires e.PopCall? || e.PopRetry?
  {
    if e.PopCall? then EnterPop(m.q, e.mode.Try?).1 else ResumePop(m.q, e.timedOut).1
  }

  lemma PopCallEffects<T>(m: Monitor<T>, e: Event<T>)
    requires Enabled(m, e) && e.PopCall? && e.mode.Forever?
    ensures PopEffect(m, Next(m, e), e.t, PopOutcome(m, e))
  {
  }

  lemma PopRetryEffects<T>(m: Monitor<T>, e: Event<T>)
    requires Enabled(m, e) && e.PopRetry? && !m.waits[e.t].timed
    ensures PopEffect(m, Next(m, e), e.t, PopOutcome(m, e))
  {
    assert m.waits[e.t] == Popping(false);
  }

  lemma PopLedger<T>(p: Pool<T>, n: Monitor<T>, t: Tid, r: PopResult<T>)
    requires Ledger(p) && PopEffect(p.m, n, t, r)
    ensures Ledger(WorkerGot(p.(m := n), t, r))
  {
    if r.Popped? { TakenAppend(p.m.removed, Taken(r.value)); }
  }

  lemma ClearLedger<T>(p: Pool<T>, x: PoolEvent<T>)
    requires Ledger(p) && PoolEnabled(p, x) && x.Queued? && x.e.Clear?
    requires p.stop.Stopping? && p.stop.phase.AtClear? ==> !p.stop.drain
    ensures Ledger(PoolNext(p, x))
  {
    TakenOfCleared(p.m.removed, p.m.q.items);
  }

  lemma StartOnce(doing: map<Tid, nat>, started: nat, done: set<nat>, w: Tid)
    requires Once(doing, started, done) && w !in doing
    ensures Once(doing[w := started], started + 1, done)
  {
    var after := doing[w := started];
    forall i | 0 <= i < started + 1 ensures i in done || IsDoing(after, i) {
      if i == started {
        assert w in after && after[w] == i;
      } else if i !in done {
        var v :| v in doing && doing[v] == i;
        assert v in after && after[v] == i;
      }
    }
  }

  lemma FinishOnce(doing: map<Tid, nat>, started: nat, done: set<nat>, w: Tid)
    requires Once(doing, started, done) && w in doing
    ensures Once(doing - {w}, started, done + {doing[w]})
    ensures |done + {doing[w]}| == |done| + 1
  {
    var after := doing - {w};
    forall i | 0 <= i < started ensures i in done + {doing[w]} || IsDoing(after, i) {
      if i !in done + {doing[w]} {
        var v :| v in doing && doing[v] == i;
        assert v in after && after[v] == i;
      }
    }
  }

  lemma PushPosts<T>(p: Pool<T>, n: Monitor<T>, t: Tid)
    requires Posts(p) && PushEffect(p.m, n, t) && t !in p.exited
    ensures Posts(p.(m := n))
  {
  }

  lemma PopPosts<T>(p: Pool<T>, n: Monitor<T>, t: Tid, r: PopResult<T>)
    requires Posts(p) && PopEffect(p.m, n, t, r) && FreeWorker(p, t)
    ensures Posts(WorkerGot(p.(m := n), t, r))
  {
  }

  lemma StopPosts<T>(p: Pool<T>, x: PoolEvent<T>)
    requires Posts(p) && PoolEnabled(p, x)
    requires !x.Queued? || x.e.Clear? || x.e.CloseFlag?
    ensures Posts(PoolNext(p, x))
  {
  }

  lemma SignalPosts<T>(p: Pool<T>, x: PoolEvent<T>)
    requires Posts(p) && PoolEnabled(p, x)
    requires x.Queued? && (x.e.Rouse? || x.e.CloseSignalEmpty? || x.e.CloseSignalFull?)
    ensures Posts(PoolNext(p, x))
  {
  }

  lemma PushKeepsPool<T>(p: Pool<T>, x: PoolEvent<T>)
    requires PoolInv(p) && PoolEnabled(p, x) && x.Queued? && (x.e.PushCall? || x.e.PushRetry?)
    ensures PoolInv(PoolNext(p, x))
  {
    var n := Next(p.m, x.e);
    StepKeepsInv(p.m, x.e);
    PushEffects(p.m, x.e);
    PushPosts(p, n, x.e.t);
    assert PoolNext(p, x) == p.(m := n);
  }

  lemma PopKeepsPool<T>(p: Pool<T>, x: PoolEvent<T>)
    requires PoolInv(p) && PoolEnabled(p, x) && x.Queued? && (x.e.PopCall? || x.e.PopRetry?)
    ensures PoolInv(PoolNext(p, x))
  {
    var n, t, r := Next(p.m, x.e), x.e.t, PopOutcome(p.m, x.e);
    StepKeepsInv(p.m, x.e);
    if x.e.PopCall? { PopCallEffects(p.m, x.e); } else { PopRetryEffects(p.m, x.e); }
    PopPosts(p, n, t, r);
    PopLedger(p, n, t, r);
    StartOnce(p.doing, |p.started|, p.done, t);
    assert PoolNext(p, x) == WorkerGot(p.(m := n), t, r);
  }

  lemma OtherKeepsPool<T>(p: Pool<T>, x: PoolEvent<T>)
    requires PoolInv(p) && PoolEnabled(p, x) && x.Queued?
    requires x.e.Rouse? || x.e.Clear? || x.e.CloseFlag? || x.e.CloseSignalEmpty?
             || x.e.CloseSignalFull?
    ensures PoolInv(PoolNext(p, x))
  {
    StepKeepsInv(p.m, x.e);
    if x.e.Clear? { ClearLedger(p, x); }
    if x.e.Clear? || x.e.CloseFlag? { StopPosts(p, x); } else { SignalPosts(p, x); }
  }

  lemma StepKeepsPool<T>(p: Pool<T>, x: PoolEvent<T>)
    requires PoolInv(p) && PoolEnabled(p, x)
    ensures PoolInv(PoolNext(p, x))
  {
    match x
    case Queued(e) =>
      if e.PushCall? || e.PushRetry? {
        PushKeepsPool(p, x);
      } else if e.PopCall? || e.PopRetry? {
        PopKeepsPool(p, x);
      } else {
        OtherKeepsPool(p, x);
      }
    case Finish(w) =>
      FinishOnce(p.doing, |p.started|, p.done, w);
      StopPosts(p, x);
    case Stop(_, _) => StopPosts(p, x);
    case Return(_) => StopPosts(p, x);
  }

  // ---------------------------------------------------------------- runs

  ghost predicate IsPoolRun<T>(p: Pool<T>, xs: seq<PoolEvent<T>>)
    decreases |xs|
  {
    xs == [] || (PoolEnabled(p, xs[0]) && IsPoolRun(PoolNext(p, xs[0]), xs[1..]))
  }

  ghost function PoolAfter<T>(p: Pool<T>, xs: seq<PoolEvent<T>>): Pool<T>
    requires IsPoolRun(p, xs)
    decreases |xs|
  {
    if xs == [] then p else PoolAfter(PoolNext(p, xs[0]), xs[1..])
  }

  lemma StepKeepsWorkers<T>(p: Pool<T>, x: PoolEvent<T>)
    requires PoolEnabled(p, x)
    ensures PoolNext(p, x).workers == p.workers
  {
  }

  lemma {:induction false} PoolRunKeeps<T>(p: Pool<T>, xs: seq<PoolEvent<T>>)
    requires PoolInv(p) && IsPoolRun(p, xs)
    ensures PoolInv(PoolAfter(p, xs)) && PoolAfter(p, xs).workers == p.workers
    decreases |xs|
  {
    if xs == [] {
    } else {
      StepKeepsPool(p, xs[0]);
      StepKeepsWorkers(p, xs[0]);
      PoolRunKeeps(PoolNext(p, xs[0]), xs[1..]);
    }
  }

  lemma {:induction false} AllTaken<T>(removed: seq<Removal<T>>)
    requires NoneCleared(removed) && NoneEvicted(removed)
    ensures TakenValues(removed) == Values(removed)
    decreases |removed|
  {
    if removed == [] {
    } else {
      var before := removed[..|removed| - 1];
      AllTaken(before);
      assert Values(removed) == Values(before) + [removed[|removed| - 1].value];
    }
  }

  /** When the `stop` that won returns, every accepted task has run to the end exactly once or was
      discarded by the clear of `stop(false)`; after `stop(true)` all of them ran. */
  lemma StopSettlesEveryTask<T>(workers: set<Tid>, queueCapacity: nat, xs: seq<PoolEvent<T>>)
    requires workers != {} && IsPoolRun(NewPool<T>(workers, queueCapacity), xs)
    requires var p := PoolAfter(NewPool<T>(workers, queueCapacity), xs);
             p.stop.Stopping? && p.stop.phase.Returned?
    ensures var p := PoolAfter(NewPool<T>(workers, queueCapacity), xs);
            && p.m.accepted == Values(p.m.removed) && NoneEvicted(p.m.removed)
            && p.started == TakenValues(p.m.removed)
            && (forall i :: i in p.done <==> 0 <= i < |p.started|)
            && p.completed == |p.done|
            && p.doing == map[]
            && (p.stop.drain ==> p.started == p.m.accepted)
  {
    NewMonitorInv<T>(queueCapacity, Block);
    PoolRunKeeps(NewPool<T>(workers, queueCapacity), xs);
    var p := PoolAfter(NewPool<T>(workers, queueCapacity), xs);
    assert p.doing.Keys == {};
    assert p.doing == map[];
    assert p.m.accepted == Values(p.m.removed) + [];
    if p.stop.drain { AllTaken(p.m.removed); }
  }

  // ---------------------------------------------------------------- stop terminates

  function SignalsDue<T>(p: Pool<T>): nat {
    if p.stop.Stopping? && p.stop.t in p.m.closers
    then (if p.m.closers[p.stop.t].BeforeBoth? then 2 else 1)
    else 0
  }

  /** What is left to do once the queue is closed: every queued item is worth two, because taking
      it starts a task. */
  function Remaining<T>(p: Pool<T>): nat {
    2 * |p.m.q.items| + |p.doing| + |p.workers - p.exited| + |p.m.waits|
    + |p.m.notEmpty.parked| + |p.m.notFull.parked| + SignalsDue(p)
    + (if p.stop.Stopping? && p.stop.phase.Returned? then 0 else 1)
  }

  /** Calls that come too late: a post on the closed queue, or another stop. */
  predicate Late<T>(x: PoolEvent<T>) {
    x.Stop? || (x.Queued? && x.e.PushCall?)
  }

  lemma LateChangesNothing<T>(p: Pool<T>, x: PoolEvent<T>)
    requires PoolInv(p) && p.m.q.closed && PoolEnabled(p, x) && Late(x)
    ensures PoolNext(p, x) == p
  {
  }

  lemma NotifyOneShrinks(c: Condition, woken: Option<Tid>)
    requires Choice(c, woken)
    ensures |NotifyOne(c, woken).parked| <= |c.parked|
  {
    if woken.Some? { SetShrinks(c.parked, woken.value); }
  }

  lemma ClosedPop<T>(m: Monitor<T>, e: Event<T>)
    requires m.q.closed && Enabled(m, e) && e.PopCall?
    ensures m.q.items == [] ==> Next(m, e) == m
    ensures m.q.items != [] ==>
              Next(m, e) == m.(q := m.q.(items := m.q.items[1..]),
                               removed := m.removed + [Taken(m.q.items[0])],
                               notFull := NotifyOne(m.notFull, e.woken))
  {
  }

  lemma PopCallDecreases<T>(p: Pool<T>, x: PoolEvent<T>)
    requires p.m.q.closed && PoolEnabled(p, x) && x.Queued? && x.e.PopCall?
    ensures Remaining(PoolNext(p, x)) < Remaining(p)
  {
    ClosedPop(p.m, x.e);
    if p.m.q.items == [] {
      LeaveDecreases(p, PoolNext(p, x), x.e.t);
    } else {
      StartDecreases(p, PoolNext(p, x), x.e.t);
      NotifyOneShrinks(p.m.notFull, x.e.woken);
    }
  }

  lemma LeaveDecreases<T>(p: Pool<T>, q: Pool<T>, t: Tid)
    requires FreeWorker(p, t) && q == p.(exited := p.exited + {t})
    ensures Remaining(q) < Remaining(p)
  {
    assert p.workers - q.exited == (p.workers - p.exited) - {t};
    SetShrinks(p.workers - p.exited, t);
  }

  lemma StartDecreases<T>(p: Pool<T>, q: Pool<T>, t: Tid)
    requires FreeWorker(p, t) && p.m.q.items != []
    requires q.m.q.items == p.m.q.items[1..] && q.doing == p.doing[t := |p.started|]
    requires q.workers == p.workers && q.exited == p.exited && q.stop == p.stop
    requires q.m.waits == p.m.waits && q.m.closers == p.m.closers
    requires q.m.notEmpty == p.m.notEmpty
    ensures |q.m.notFull.parked| <= |p.m.notFull.parked| ==> Remaining(q) < Remaining(p)
  {
    MapGrows(p.doing, t, |p.started|);
  }

  lemma PopRetryDecreases<T>(p: Pool<T>, x: PoolEvent<T>)
    requires p.m.q.closed && PoolEnabled(p, x) && x.Queued? && x.e.PopRetry?
    ensures Remaining(PoolNext(p, x)) < Remaining(p)
  {
    if p.m.q.items == [] {
      NothingRetried(p, x);
      NothingDecreases(p, PoolNext(p, x), x.e.t);
    } else {
      TaskRetried(p, x);
      TaskDecreases(p, PoolNext(p, x), x.e.t, x.e.woken);
    }
  }

  lemma NothingDecreases<T>(p: Pool<T>, n: Pool<T>, t: Tid)
    requires FreeWorker(p, t) && t in p.m.waits
    requires n == p.(m := n.m, exited := p.exited + {t})
    requires n.m == p.m.(notEmpty := n.m.notEmpty, waits := p.m.waits - {t})
    requires n.m.notEmpty.parked == p.m.notEmpty.parked
    ensures Remaining(n) < Remaining(p)
  {
    MapShrinks(p.m.waits, t);
    assert p.workers - n.exited == (p.workers - p.exited) - {t};
    SetShrinks(p.workers - p.exited, t);
  }

  lemma TaskDecreases<T>(p: Pool<T>, n: Pool<T>, t: Tid, woken: Option<Tid>)
    requires t in p.m.waits && t !in p.doing && p.m.q.items != [] && Choice(p.m.notFull, woken)
    requires n == p.(m := n.m, doing := p.doing[t := |p.started|], started := n.started)
    requires n.m.q.items == p.m.q.items[1..] && n.m.closers == p.m.closers
    requires n.m.waits == p.m.waits - {t} && n.m.notEmpty.parked == p.m.notEmpty.parked
    requires n.m.notFull == NotifyOne(p.m.notFull, woken)
    ensures Remaining(n) < Remaining(p)
  {
    MapShrinks(p.m.waits, t);
    MapGrows(p.doing, t, |p.started|);
    NotifyOneShrinks(p.m.notFull, woken);
  }

  /** What a woken worker finds once the queue is closed. */
  lemma NothingRetried<T>(p: Pool<T>, x: PoolEvent<T>)
    requires p.m.q.closed && PoolEnabled(p, x) && x.Queued? && x.e.PopRetry? && p.m.q.items == []
    ensures var n := PoolNext(p, x);
            n == p.(m := n.m, exited := p.exited + {x.e.t})
            && n.m == p.m.(notEmpty := n.m.notEmpty, waits := p.m.waits - {x.e.t})
            && n.m.notEmpty.parked == p.m.notEmpty.parked
  {
  }

  lemma TaskRetried<T>(p: Pool<T>, x: PoolEvent<T>)
    requires p.m.q.closed && PoolEnabled(p, x) && x.Queued? && x.e.PopRetry? && p.m.q.items != []
    ensures var n := PoolNext(p, x);
            n == p.(m := n.m, doing := p.doing[x.e.t := |p.started|], started := n.started)
            && n.m.q.items == p.m.q.items[1..] && n.m.closers == p.m.closers
            && n.m.waits == p.m.waits - {x.e.t} && n.m.notEmpty.parked == p.m.notEmpty.parked
            && n.m.notFull == NotifyOne(p.m.notFull, x.e.woken)
  {
  }

  /** Taking an item or leaving, the worker reduces what is left. */
  lemma RetryDecreases<T>(p: Pool<T>, x: PoolEvent<T>)
    requires p.m.q.closed && PoolEnabled(p, x) && x.Queued? && x.e.PushRetry?
    ensures Remaining(PoolNext(p, x)) < Remaining(p)
  {
    MapShrinks(p.m.waits, x.e.t);
  }

  lemma RouseDecreases<T>(p: Pool<T>, x: PoolEvent<T>)
    requires PoolEnabled(p, x) && x.Queued? && x.e.Rouse?
    ensures Remaining(PoolNext(p, x)) < Remaining(p)
  {
    if x.e.t in p.m.notEmpty.parked { SetShrinks(p.m.notEmpty.parked, x.e.t); }
    else { SetShrinks(p.m.notFull.parked, x.e.t); }
  }

  lemma SignalDecreases<T>(p: Pool<T>, x: PoolEvent<T>)
    requires PoolEnabled(p, x) && x.Queued? && (x.e.CloseSignalEmpty? || x.e.CloseSignalFull?)
    ensures Remaining(PoolNext(p, x)) < Remaining(p)
  {
  }

  lemma FinishDecreases<T>(p: Pool<T>, x: PoolEvent<T>)
    requires PoolEnabled(p, x) && (x.Finish? || x.Return?)
    ensures Remaining(PoolNext(p, x)) < Remaining(p)
  {
    if x.Finish? { MapShrinks(p.doing, x.w); }
  }

  /** After close, every step that is not a late call brings the join closer. */
  lemma StopMakesProgress<T>(p: Pool<T>, x: PoolEvent<T>)
    requires PoolInv(p) && p.m.q.closed && PoolEnabled(p, x) && !Late(x)
    ensures Remaining(PoolNext(p, x)) < Remaining(p)
  {
    match x
    case Queued(e) =>
      if e.PopCall? { PopCallDecreases(p, x); }
      else if e.PopRetry? { PopRetryDecreases(p, x); }
      else if e.PushRetry? { RetryDecreases(p, x); }
      else if e.Rouse? { RouseDecreases(p, x); }
      else { SignalDecreases(p, x); }
    case Finish(_) => FinishDecreases(p, x);
    case Return(_) => FinishDecreases(p, x);
  }

  /** Until `stop` has returned, some step other than a spurious wakeup is always possible; with
      the previous lemma, `stop` terminates provided tasks do. */
  lemma StopIsNeverStuck<T>(p: Pool<T>)
    requires PoolInv(p) && p.m.q.closed && !p.stop.phase.Returned?
    ensures exists x :: PoolEnabled(p, x) && !Late(x) && !(x.Queued? && x.e.Rouse?)
  {
    var t := p.stop.t;
    if p.m.closers != map[] {
      var u :| u in p.m.closers;
      assert u == t;
      if p.m.closers[t].BeforeBoth? {
        assert PoolEnabled(p, Queued(CloseSignalEmpty(t)));
      } else {
        assert PoolEnabled(p, Queued(CloseSignalFull(t)));
      }
    } else if p.m.waits != map[] {
      var u :| u in p.m.waits;
      assert p.m.notEmpty.parked == {} && p.m.notFull.parked == {};
      if p.m.waits[u].Popping? {
        assert u in p.m.notEmpty.parked + p.m.notEmpty.awake;
        assert PoolEnabled(p, Queued(PopRetry(u, false, None)));
      } else {
        assert u in p.m.notFull.parked + p.m.notFull.awake;
        assert PoolEnabled(p, Queued(PushRetry(u, false, None)));
      }
    } else if p.exited != p.workers {
      var w :| w in p.workers && w !in p.exited;
      if w in p.doing {
        assert PoolEnabled(p, Finish(w));
      } else {
        assert p.m.notFull.parked == {};
        assert PoolEnabled(p, Queued(PopCall(w, Forever, None)));
      }
    } else {
      assert PoolEnabled(p, Return(t));
    }
  }

  /** In every reachable pool `post` ends only with its task accepted or the queue closed: on a full
      queue it waits.  `try_post` is refused only by a full or a closed queue. */
  lemma PostsAreRefusedRightly<T>(p: Pool<T>, x: PoolEvent<T>)
    requires PoolInv(p) && PoolEnabled(p, x) && x.Queued? && EndOf(p.m, x.e).Some?
    requires EndOf(p.m, x.e).value.PushEnd?
    ensures var end := EndOf(p.m, x.e).value;
            && (end.status.Ok? || end.status.Full? || end.status.Closed?)
            && (end.status.Ok? <==> PoolNext(p, x).m.accepted == p.m.accepted + [end.item])
            && (end.mode.Try? || end.mode.Forever?)
            && (end.status.Full? ==> end.mode.Try? && |p.m.q.items| == p.m.q.capacity)
            && (end.status.Closed? <==> p.m.q.closed)
  {
    EndIsTrue(p.m, x.e);
  }

  // ---------------------------------------------------------------- the pool, in place

  /** What the steps do to the part of the state that the object holds: the queue, the flag and the
      counter.  Wait sets and joining are the monitor's. */
  lemma QueueSteps<T>(p: Pool<T>, x: PoolEvent<T>)
    requires PoolEnabled(p, x) && x.Queued?
    ensures var n := PoolNext(p, x);
            n.m == Next(p.m, x.e) && n.completed == p.completed
            && (n.stop.Stopping? <==> p.stop.Stopping?)
  {
  }

  lemma PushSteps<T>(m: Monitor<T>, e: Event<T>)
    requires Enabled(m, e) && (e.PushCall? || e.PushRetry?)
    ensures Next(m, e).q == if e.PushCall? then EnterPush(m.q, e.item, e.mode.Try?).0
                            else ResumePush(m.q, m.waits[e.t].item, e.timedOut).0
  {
  }

  lemma PopSteps<T>(m: Monitor<T>, e: Event<T>)
    requires Enabled(m, e) && (e.PopCall? || e.PopRetry?)
    ensures Next(m, e).q == if e.PopCall? then EnterPop(m.q, e.mode.Try?).0
                            else ResumePop(m.q, e.timedOut).0
  {
  }

  /** Each method that takes a ghost pool and event is one atomic stretch of the source; when the
      object holds that pool and the event is possible, it then holds the next one. */
  class ThreadPool<T> {
    const queue: BoundedQueue<T>
    var stopping: bool
    var completed: nat

    ghost predicate Valid()
      reads this, queue
    {
      queue.Valid() && queue.policy.Block?
    }

    /** The object holds the queue, the flag and the counter of `p`. */
    ghost predicate Represents(p: Pool<T>)
      reads this, queue
    {
      Valid() && queue.State() == p.m.q && stopping == p.stop.Stopping? && completed == p.completed
    }

    constructor (queueCapacity: nat, ghost workers: set<Tid>)
      ensures Valid() && fresh(queue) && !stopping && completed == 0
      ensures queue.State() == NewQueue(queueCapacity, Block)
      ensures Represents(NewPool(workers, queueCapacity))
    {
      queue := new BoundedQueue(queueCapacity, Block);
      stopping, completed := false, 0;
    }

    method TryPost(task: T, ghost p: Pool<T>, ghost x: PoolEvent<T>) returns (ok: bool)
      requires Valid()
      modifies queue
      ensures Valid() && queue.State() == EnterPush(old(queue.State()), task, true).0
      ensures ok <==> !old(queue.closed) && |old(queue.items)| < queue.capacity
      ensures (old(Represents(p)) && PoolEnabled(p, x) && x.Queued? && x.e.PushCall?
               && x.e.item == task && x.e.mode.Try?) ==> Represents(PoolNext(p, x))
    {
      if PoolEnabled(p, x) && x.Queued? && x.e.PushCall? { QueueSteps(p, x); PushSteps(p.m, x.e); }
      var r := queue.PushUntil(task, true);
      return r == Pushed(Ok);
    }

    /** `post` up to a return or to the wait for space. */
    method Post(task: T, ghost p: Pool<T>, ghost x: PoolEvent<T>) returns (r: PushResult)
      requires Valid()
      modifies queue
      ensures Valid() && (queue.State(), r) == EnterPush(old(queue.State()), task, false)
      ensures (old(Represents(p)) && PoolEnabled(p, x) && x.Queued? && x.e.PushCall?
               && x.e.item == task && x.e.mode.Forever?) ==> Represents(PoolNext(p, x))
    {
      if PoolEnabled(p, x) && x.Queued? && x.e.PushCall? { QueueSteps(p, x); PushSteps(p.m, x.e); }
      r := queue.PushUntil(task, false);
    }

    method PostAfterWait(task: T, ghost p: Pool<T>, ghost x: PoolEvent<T>) returns (r: PushResult)
      requires Valid()
      modifies queue
      ensures Valid() && (queue.State(), r) == ResumePush(old(queue.State()), task, false)
      ensures (old(Represents(p)) && PoolEnabled(p, x) && x.Queued? && x.e.PushRetry?
               && p.m.waits[x.e.t].item == task && !x.e.timedOut) ==> Represents(PoolNext(p, x))
    {
      if PoolEnabled(p, x) && x.Queued? && x.e.PushRetry? { QueueSteps(p, x); PushSteps(p.m, x.e); }
      r := queue.PushAfterWait(task, false);
    }

    /** A worker's `pop`, up to a return or to the wait. */
    method TakeTask(ghost p: Pool<T>, ghost x: PoolEvent<T>) returns (r: PopResult<T>)
      requires Valid()
      modifies queue
      ensures Valid() && (queue.State(), r) == EnterPop(old(queue.State()), false)
      ensures old(Represents(p)) && PoolEnabled(p, x) && x.Queued? && x.e.PopCall? ==>
                Represents(PoolNext(p, x))
    {
      if PoolEnabled(p, x) && x.Queued? && x.e.PopCall? { QueueSteps(p, x); PopSteps(p.m, x.e); }
      r := queue.PopUntil(false);
    }

    method TakeAfterWait(ghost p: Pool<T>, ghost x: PoolEvent<T>) returns (r: PopResult<T>)
      requires Valid()
      modifies queue
      ensures Valid() && (queue.State(), r) == ResumePop(old(queue.State()), false)
      ensures (old(Represents(p)) && PoolEnabled(p, x) && x.Queued? && x.e.PopRetry?
               && !x.e.timedOut) ==> Represents(PoolNext(p, x))
    {
      if PoolEnabled(p, x) && x.Queued? && x.e.PopRetry? { QueueSteps(p, x); PopSteps(p.m, x.e); }
      r := queue.PopAfterWait(false);
    }

    /** The task has returned. */
    method FinishTask(ghost p: Pool<T>, w: Tid)
      requires Valid()
      modifies this`completed
      ensures Valid() && completed == old(completed) + 1
      ensures old(Represents(p)) && PoolEnabled(p, Finish(w)) ==> Represents(PoolNext(p, Finish(w)))
    {
      completed := completed + 1;
    }

    /** The exchange of the flag: only the first call of `stop` goes on. */
    method ClaimStop(drain: bool, ghost p: Pool<T>, ghost t: Tid) returns (won: bool)
      requires Valid()
      modifies this`stopping
      ensures Valid() && stopping && won == !old(stopping)
      ensures old(Represents(p)) && PoolEnabled(p, Stop(t, drain)) ==>
                Represents(PoolNext(p, Stop(t, drain)))
    {
      won := !stopping;
      stopping := true;
    }

    method ClearQueue(ghost p: Pool<T>, ghost t: Tid) returns (discarded: seq<T>)
      requires Valid()
      modifies queue
      ensures Valid() && discarded == old(queue.items)
      ensures queue.State() == old(queue.State()).(items := [])
      ensures old(Represents(p)) && PoolEnabled(p, Queued(Clear(t))) ==>
                Represents(PoolNext(p, Queued(Clear(t))))
    {
      discarded := queue.Clear();
    }

    method CloseQueue(ghost p: Pool<T>, ghost t: Tid)
      requires Valid()
      modifies queue
      ensures Valid() && queue.State() == old(queue.State()).(closed := true)
      ensures old(Represents(p)) && PoolEnabled(p, Queued(CloseFlag(t))) ==>
                Represents(PoolNext(p, Queued(CloseFlag(t))))
    {
      queue.Close();
    }

    /** One round of the worker loop with nothing in between, up to the wait or to the end of the
        task it got. */
    method RunOnce(ghost p: Pool<T>, ghost x: PoolEvent<T>, w: Tid) returns (r: PopResult<T>)
      requires Valid()
      modifies this, queue
      ensures Valid() && stopping == old(stopping)
      ensures (queue.State(), r) == EnterPop(old(queue.State()), false)
      ensures completed == old(completed) + if r.Popped? then 1 else 0
      ensures old(Represents(p)) && PoolEnabled(p, x) && x.Queued? && x.e.PopCall? ==>
                if !r.Popped? then Represents(PoolNext(p, x))
                else PoolEnabled(PoolNext(p, x), Finish(w)) ==>
                       Represents(PoolNext(PoolNext(p, x), Finish(w)))
    {
      r := TakeTask(p, x);
      if r.Popped? {
        FinishTask(if PoolEnabled(p, x) then PoolNext(p, x) else p, w);
      }
    }

    /** `stop` up to the join, with nothing in between.  Only the first call does anything. */
    method BeginStop(drain: bool, ghost p: Pool<T>, ghost t: Tid) returns (won: bool, discarded: seq<T>)
      requires Valid()
      modifies this, queue
      ensures Valid() && stopping && completed == old(completed)
      ensures won <==> !old(stopping)
      ensures !won ==> queue.State() == old(queue.State()) && discarded == []
      ensures won ==> discarded == if drain then [] else old(queue.items)
      ensures won ==> queue.State() ==
                        old(queue.State()).(closed := true,
                                            items := if drain then old(queue.items) else [])
      ensures old(Represents(p)) && PoolEnabled(p, Stop(t, drain)) && !won ==>
                Represents(PoolNext(p, Stop(t, drain)))
      ensures old(Represents(p)) && PoolEnabled(p, Stop(t, drain)) && won ==>
                IsPoolRun(p, StopSteps(t, drain)) && Represents(PoolAfter(p, StopSteps(t, drain)))
    {
      discarded := [];
      if Represents(p) && PoolEnabled(p, Stop(t, drain)) && !stopping { StopStepsRun(p, t, drain); }
      won := ClaimStop(drain, p, t);
      if !won { return; }
      if !drain { discarded := queue.Clear(); }
      queue.Close();
    }
  }

  /** The steps that the winning `stop` takes before it signals the conditions. */
  function StopSteps<T>(t: Tid, drain: bool): seq<PoolEvent<T>> {
    if drain then [Stop(t, drain), Queued(CloseFlag(t))]
    else [Stop(t, drain), Queued(Clear(t)), Queued(CloseFlag(t))]
  }

  lemma StopStepsRun<T>(p: Pool<T>, t: Tid, drain: bool)
    requires PoolEnabled(p, Stop(t, drain)) && p.stop.Running?
    ensures IsPoolRun(p, StopSteps(t, drain))
    ensures var n := PoolAfter(p, StopSteps(t, drain));
            && n.m.q == p.m.q.(closed := true, items := if drain then p.m.q.items else [])
            && n.stop.Stopping? && n.completed == p.completed
  {
    var p1 := PoolNext(p, Stop(t, drain));
    var last: PoolEvent<T> := Queued(CloseFlag(t));
    if drain {
      PoolStep(p1, last, []);
      PoolStep(p, Stop(t, drain), [last]);
      assert StopSteps<T>(t, drain) == [Stop(t, drain)] + [last];
    } else {
      var clear: PoolEvent<T> := Queued(Clear(t));
      var p2 := PoolNext(p1, clear);
      PoolStep(p2, last, []);
      PoolStep(p1, clear, [last]);
      PoolStep(p, Stop(t, drain), [clear, last]);
      assert [clear] + [last] == [clear, last];
      assert StopSteps<T>(t, drain) == [Stop(t, drain)] + [clear, last];
    }
  }

  lemma PoolStep<T>(p: Pool<T>, x: PoolEvent<T>, rest: seq<PoolEvent<T>>)
    requires PoolEnabled(p, x) && IsPoolRun(PoolNext(p, x), rest)
    ensures IsPoolRun(p, [x] + rest) && PoolAfter(p, [x] + rest) == PoolAfter(PoolNext(p, x), rest)
  {
    assert ([x] + rest)[1..] == rest;
  }
}
