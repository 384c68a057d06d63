/** The bounded queue: a monitor with one mutex and two condition variables.  Each stretch of code
    that runs under the mutex is one atomic step; waiting threads sit in explicit wait sets. */
module BoundedQueue {
  import opened Common

  datatype Policy = Block | DropNewest | DropOldest
  datatype Status = Ok | Full | DroppedNewest | DroppedOldest | Closed

  datatype Queue<T> = Queue(
    items: seq<T>, capacity: nat, policy: Policy, closed: bool, dropped: nat, highWater: nat)

  datatype PushResult = Pushed(status: Status) | PushWait
  datatype PopResult<T> = Popped(value: T) | Nothing | PopWait

  function NewQueue<T>(capacity: nat, policy: Policy): Queue<T> {
    Queue([], if capacity == 0 then 1 else capacity, policy, false, 0, 0)
  }

  function Max(a: nat, b: nat): nat { if a > b then a else b }

  // ---------------------------------------------------------------- the lock-held stretches

  function Append<T>(q: Queue<T>, v: T): Queue<T> {
    q.(items := q.items + [v], highWater := Max(q.highWater, |q.items| + 1))
  }

  /** `push_until` from the lock to a return or to the wait.  With `isTry` it never waits. */
  function EnterPush<T>(q: Queue<T>, v: T, isTry: bool): (r: (Queue<T>, PushResult)) {
    if q.closed then (q, Pushed(Closed))
    else if |q.items| < q.capacity then (Append(q, v), Pushed(Ok))
    else match q.policy
      case DropNewest => (q.(dropped := q.dropped + 1), Pushed(DroppedNewest))
      case DropOldest =>
        (q.(items := (if q.items == [] then [] else q.items[1..]) + [v], dropped := q.dropped + 1),
         Pushed(DroppedOldest))
      case Block => (q, if isTry then Pushed(Full) else PushWait)
  }

  /** A waiting producer has the lock again: it re-tests, and goes back to wait unless its
      deadline has passed. */
  function ResumePush<T>(q: Queue<T>, v: T, timedOut: bool): (r: (Queue<T>, PushResult)) {
    if q.closed then (q, Pushed(Closed))
    else if |q.items| < q.capacity then (Append(q, v), Pushed(Ok))
    else (q, if timedOut then Pushed(Full) else PushWait)
  }

  function EnterPop<T>(q: Queue<T>, isTry: bool): (r: (Queue<T>, PopResult<T>)) {
    if q.items != [] then (q.(items := q.items[1..]), Popped(q.items[0]))
    else (q, if q.closed || isTry then Nothing else PopWait)
  }

  function ResumePop<T>(q: Queue<T>, timedOut: bool): (r: (Queue<T>, PopResult<T>)) {
    EnterPop(q, timedOut)
  }

  // ---------------------------------------------------------------- a condition variable

  type Tid = nat

  /** `parked` threads sleep on the condition; `awake` ones have been signalled, have timed out or
      woke up for no reason, and will contend for the lock. */
  datatype Condition = Condition(parked: set<Tid>, awake: set<Tid>)

  /** `notify_one` wakes some parked thread if there is one. */
  predicate Choice(c: Condition, woken: Option<Tid>) {
    if c.parked == {} then woken.None? else woken.Some? && woken.value in c.parked
  }

  function NotifyOne(c: Condition, woken: Option<Tid>): Condition {
    match woken
    case None => c
    case Some(t) => Rise(c, t)
  }

  function Rise(c: Condition, t: Tid): Condition {
    Condition(c.parked - {t}, c.awake + {t})
  }

  function NotifyAll(c: Condition): Condition { Condition({}, c.awake + c.parked) }

  function Park(c: Condition, t: Tid): Condition { Condition(c.parked + {t}, c.awake - {t}) }

  function Leave(c: Condition, t: Tid): Condition { c.(awake := c.awake - {t}) }

  ghost predicate Apart(c: Condition) { c.parked !! c.awake }

  lemma RiseCounts(c: Condition, t: Tid)
    requires Apart(c) && t in c.parked
    ensures var d := Rise(c, t);
            Apart(d) && d.parked + d.awake == c.parked + c.awake
            && |d.awake| == |c.awake| + 1 && d.parked <= c.parked
  {
    var d := Rise(c, t);
    assert d.parked + d.awake == c.parked + c.awake;
  }

  // ---------------------------------------------------------------- the monitor

  datatype Mode = Try | Timed | Forever
  datatype Wait<T> = Pushing(item: T, timed: bool) | Popping(timed: bool)

  /** A closer has set the flag and released the lock, but has not yet signalled both conditions. */
  datatype Closing = BeforeBoth | BeforeFull

  datatype Removal<T> = Taken(value: T) | Evicted(value: T) | Cleared(value: T)

  /** `waits` says what each waiting thread wants.  The last four fields record the past: accepted
      and removed items in lock order, refused newest items, and the largest size. */
  datatype Monitor<T> = Monitor(
    q: Queue<T>, notEmpty: Condition, notFull: Condition,
    waits: map<Tid, Wait<T>>, closers: map<Tid, Closing>,
    accepted: seq<T>, removed: seq<Removal<T>>, refused: nat, peak: nat)

  datatype Event<T> =
    | PushCall(t: Tid, item: T, mode: Mode, woken: Option<Tid>)
    | PushRetry(t: Tid, timedOut: bool, woken: Option<Tid>)
    | PopCall(t: Tid, mode: Mode, woken: Option<Tid>)
    | PopRetry(t: Tid, timedOut: bool, woken: Option<Tid>)
    | Rouse(t: Tid)
    | CloseFlag(t: Tid) | CloseSignalEmpty(t: Tid) | CloseSignalFull(t: Tid)
    | Clear(t: Tid)

  predicate Idle<T>(m: Monitor<T>, t: Tid) {
    t !in m.waits && t !in m.closers
  }

  predicate Enabled<T>(m: Monitor<T>, e: Event<T>) {
    match e
    case PushCall(t, v, mode, woken) => Idle(m, t) && Choice(m.notEmpty, woken)
    case PushRetry(t, timedOut, woken) =>
      t in m.notFull.awake && t in m.waits && m.waits[t].Pushing?
      && (timedOut ==> m.waits[t].timed) && Choice(m.notEmpty, woken)
    case PopCall(t, mode, woken) => Idle(m, t) && Choice(m.notFull, woken)
    case PopRetry(t, timedOut, woken) =>
      t in m.notEmpty.awake && t in m.waits && m.waits[t].Popping?
      && (timedOut ==> m.waits[t].timed) && Choice(m.notFull, woken)
    case Rouse(t) => t in m.notEmpty.parked || t in m.notFull.parked
    case CloseFlag(t) => Idle(m, t)
    case CloseSignalEmpty(t) => t in m.closers && m.closers[t].BeforeBoth?
    case CloseSignalFull(t) => t in m.closers && m.closers[t].BeforeFull?
    case Clear(t) => Idle(m, t)
  }

  /** What the outcome of a push did to the records and to the sleepers: an item that got in is
      recorded and one consumer is signalled. */
  function AfterPush<T>(m: Monitor<T>, v: T, r: (Queue<T>, PushResult), woken: Option<Tid>): Monitor<T> {
    var evicted := r.1 == Pushed(DroppedOldest);
    var entered := r.1 == Pushed(Ok) || evicted;
    m.(q := r.0,
       notEmpty := if entered then NotifyOne(m.notEmpty, woken) else m.notEmpty,
       accepted := if entered then m.accepted + [v] else m.accepted,
       removed := if evicted && m.q.items != [] then m.removed + [Evicted(m.q.items[0])]
                  else m.removed,
       refused := if r.1 == Pushed(DroppedNewest) then m.refused + 1 else m.refused,
       peak := Max(m.peak, |r.0.items|))
  }

  function AfterPop<T>(m: Monitor<T>, r: (Queue<T>, PopResult<T>), woken: Option<Tid>): Monitor<T> {
    if r.1.Popped?
    then m.(q := r.0, removed := m.removed + [Taken(r.1.value)],
            notFull := NotifyOne(m.notFull, woken))
    else m.(q := r.0)
  }

  function ClearedAll<T>(items: seq<T>): (r: seq<Removal<T>>)
    ensures |r| == |items|
  {
    seq(|items|, i requires 0 <= i < |items| => Cleared(items[i]))
  }

  function Next<T>(m: Monitor<T>, e: Event<T>): Monitor<T>
    requires Enabled(m, e)
  {
    match e
    case PushCall(t, v, mode, woken) =>
      var r := EnterPush(m.q, v, mode.Try?);
      var n := AfterPush(m, v, r, woken);
      if r.1.PushWait?
      then n.(notFull := Park(n.notFull, t), waits := n.waits[t := Pushing(v, mode.Timed?)])
      else n
    case PushRetry(t, timedOut, woken) =>
      var r := ResumePush(m.q, m.waits[t].item, timedOut);
      var n := AfterPush(m, m.waits[t].item, r, woken);
      if r.1.PushWait? then n.(notFull := Park(n.notFull, t))
      else n.(notFull := Leave(n.notFull, t), waits := n.waits - {t})
    case PopCall(t, mode, woken) =>
      var r := EnterPop(m.q, mode.Try?);
      var n := AfterPop(m, r, woken);
      if r.1.PopWait?
      then n.(notEmpty := Park(n.notEmpty, t), waits := n.waits[t := Popping(mode.Timed?)])
      else n
    case PopRetry(t, timedOut, woken) =>
      var r := ResumePop(m.q, timedOut);
      var n := AfterPop(m, r, woken);
      if r.1.PopWait? then n.(notEmpty := Park(n.notEmpty, t))
      else n.(notEmpty := Leave(n.notEmpty, t), waits := n.waits - {t})
    case Rouse(t) =>
      if t in m.notEmpty.parked then m.(notEmpty := Rise(m.notEmpty, t))
      else m.(notFull := Rise(m.notFull, t))
    case CloseFlag(t) =>
      m.(q := m.q.(closed := true), closers := m.closers[t := BeforeBoth])
    case CloseSignalEmpty(t) =>
      m.(notEmpty := NotifyAll(m.notEmpty), closers := m.closers[t := BeforeFull])
    case CloseSignalFull(t) =>
      m.(notFull := NotifyAll(m.notFull), closers := m.closers - {t})
    case Clear(t) =>
      m.(q := m.q.(items := []), removed := m.removed + ClearedAll(m.q.items),
         notFull := NotifyAll(m.notFull))
  }

  // ---------------------------------------------------------------- the invariant

  function Values<T>(removed: seq<Removal<T>>): (r: seq<T>)
    ensures |r| == |removed|
  {
    if removed == [] then []
    else Values(removed[..|removed| - 1]) + [removed[|removed| - 1].value]
  }

  function Evictions<T>(removed: seq<Removal<T>>): nat {
    if removed == [] then 0
    else Evictions(removed[..|removed| - 1])
         + if removed[|removed| - 1].Evicted? then 1 else 0
  }

  /** Accepted pushes, in lock order, are the items removed so far followed by the items queued;
      the drop counter and the high-water mark mean what their names say. */
  ghost predicate Books<T>(m: Monitor<T>) {
    Balanced(m.q, m.accepted, m.removed, m.refused, m.peak)
  }

  ghost predicate Balanced<T>(q: Queue<T>, accepted: seq<T>, removed: seq<Removal<T>>,
                              refused: nat, peak: nat)
  {
    && accepted == Values(removed) + q.items
    && q.dropped == Evictions(removed) + refused
    && |q.items| <= peak == q.highWater <= q.capacity
    && 1 <= q.capacity
  }

  ghost predicate AllPop<T>(c: Condition, waits: map<Tid, Wait<T>>) {
    forall t :: t in c.parked + c.awake <==> t in waits && waits[t].Popping?
  }

  ghost predicate AllPush<T>(c: Condition, waits: map<Tid, Wait<T>>) {
    forall t :: t in c.parked + c.awake <==> t in waits && waits[t].Pushing?
  }

  /** Sleeping and awake threads are told apart, and each condition is waited on for its purpose. */
  ghost predicate Roles<T>(m: Monitor<T>) {
    Apart(m.notEmpty) && Apart(m.notFull)
    && AllPop(m.notEmpty, m.waits) && AllPush(m.notFull, m.waits)
  }

  /** While some thread sleeps, the work it could do is covered by threads on their way. */
  predicate Covered(work: int, c: Condition) {
    c.parked != {} ==> work <= |c.awake|
  }

  ghost predicate Owed<T>(m: Monitor<T>) {
    && (m.q.closed && m.notEmpty.parked != {} ==>
          exists t :: t in m.closers && m.closers[t].BeforeBoth?)
    && (m.q.closed && m.notFull.parked != {} ==> m.closers != map[])
    && (m.closers != map[] ==> m.q.closed)
  }

  /** No wakeup is lost: while some consumer sleeps, every queued item has a consumer on its way,
      and while some producer sleeps, every free slot has a producer on its way.  After close, a
      sleeper is still owed a signal by a closer. */
  ghost predicate Wakeups<T>(m: Monitor<T>) {
    && (!m.q.closed ==> Covered(|m.q.items|, m.notEmpty))
    && (!m.q.closed ==> Covered(m.q.capacity - |m.q.items|, m.notFull))
    && Owed(m)
  }

  ghost predicate Inv<T>(m: Monitor<T>) {
    Books(m) && Roles(m) && Wakeups(m)
  }

  function NewMonitor<T>(capacity: nat, policy: Policy): Monitor<T> {
    Monitor(NewQueue(capacity, policy), Condition({}, {}), Condition({}, {}), map[], map[],
            [], [], 0, 0)
  }

  lemma NewMonitorInv<T>(capacity: nat, policy: Policy)
    ensures Inv(NewMonitor<T>(capacity, policy))
  {
  }

  // ---------------------------------------------------------------- the books

  lemma {:induction false} ClearedIsNoEviction<T>(removed: seq<Removal<T>>, items: seq<T>)
    ensures Evictions(removed + ClearedAll(items)) == Evictions(removed)
    ensures Values(removed + ClearedAll(items)) == Values(removed) + items
    decreases |items|
  {
    if items == [] {
      assert removed + ClearedAll(items) == removed;
    } else {
      var all, init := removed + ClearedAll(items), items[..|items| - 1];
      assert all[..|all| - 1] == removed + ClearedAll(init);
      ClearedIsNoEviction(removed, init);
      assert items == init + [items[|items| - 1]];
    }
  }

  lemma AcceptBooks<T>(m: Monitor<T>, v: T, woken: Option<Tid>)
    requires Books(m) && |m.q.items| < m.q.capacity
    ensures Books(AfterPush(m, v, (Append(m.q, v), Pushed(Ok)), woken))
  {
    assert Values(m.removed) + (m.q.items + [v]) == Values(m.removed) + m.q.items + [v];
  }

  lemma EvictBooks<T>(m: Monitor<T>, v: T, woken: Option<Tid>)
    requires Books(m) && |m.q.items| == m.q.capacity && m.q.policy.DropOldest? && !m.q.closed
    ensures Books(AfterPush(m, v, EnterPush(m.q, v, true), woken))
    ensures EnterPush(m.q, v, true) == EnterPush(m.q, v, false)
  {
    assert Values(m.removed) + m.q.items + [v]
        == (Values(m.removed) + [m.q.items[0]]) + (m.q.items[1..] + [v]);
  }

  lemma EnterPushBooks<T>(m: Monitor<T>, v: T, isTry: bool, woken: Option<Tid>)
    requires Books(m)
    ensures Books(AfterPush(m, v, EnterPush(m.q, v, isTry), woken))
  {
    if !m.q.closed {
      if |m.q.items| < m.q.capacity { AcceptBooks(m, v, woken); }
      else if m.q.policy.DropOldest? { EvictBooks(m, v, woken); }
    }
  }

  lemma ResumePushBooks<T>(m: Monitor<T>, v: T, timedOut: bool, woken: Option<Tid>)
    requires Books(m)
    ensures Books(AfterPush(m, v, ResumePush(m.q, v, timedOut), woken))
  {
    if !m.q.closed && |m.q.items| < m.q.capacity { AcceptBooks(m, v, woken); }
  }

  lemma PopBooks<T>(m: Monitor<T>, isTry: bool, woken: Option<Tid>)
    requires Books(m)
    ensures Books(AfterPop(m, EnterPop(m.q, isTry), woken))
  {
    if m.q.items != [] {
      assert Values(m.removed) + m.q.items
          == Values(m.removed) + [m.q.items[0]] + m.q.items[1..];
    }
  }

  lemma ClearBooks<T>(m: Monitor<T>, t: Tid)
    requires Books(m) && Enabled(m, Clear(t))
    ensures Books(Next(m, Clear(t)))
  {
    ClearedIsNoEviction(m.removed, m.q.items);
  }

  lemma StepKeepsBooks<T>(m: Monitor<T>, e: Event<T>)
    requires Books(m) && Enabled(m, e)
    ensures Books(Next(m, e))
  {
    match e
    case PushCall(t, v, mode, woken) => EnterPushBooks(m, v, mode.Try?, woken);
    case PushRetry(t, timedOut, woken) => ResumePushBooks(m, m.waits[t].item, timedOut, woken);
    case PopCall(t, mode, woken) => PopBooks(m, mode.Try?, woken);
    case PopRetry(t, timedOut, woken) => PopBooks(m, timedOut, woken);
    case Rouse(_) =>
    case CloseFlag(_) =>
    case CloseSignalEmpty(_) =>
    case CloseSignalFull(_) =>
    case Clear(t) => ClearBooks(m, t);
  }

  /** No step changes the capacity or the policy, and close is final. */
  lemma StepKeepsSettings<T>(m: Monitor<T>, e: Event<T>)
    requires Enabled(m, e)
    ensures Next(m, e).q.capacity == m.q.capacity && Next(m, e).q.policy == m.q.policy
    ensures m.q.closed ==> Next(m, e).q.closed
  {
    match e
    case PushCall(_, _, _, _) =>
    case _ =>
  }

  // ---------------------------------------------------------------- no lost wakeup

  predicate Sized<T>(q: Queue<T>) { |q.items| <= q.capacity && 1 <= q.capacity }

  /** Only an `Ok` push makes the queue longer, and only a full open queue makes a producer wait
      or time out. */
  ghost predicate PushOutcome<T>(q: Queue<T>, r: (Queue<T>, PushResult)) {
    && r.0.closed == q.closed && r.0.capacity == q.capacity
    && |r.0.items| == |q.items| + (if r.1 == Pushed(Ok) then 1 else 0)
    && (r.1 == PushWait || r.1 == Pushed(Full) ==> |q.items| == q.capacity && !q.closed)
    && (q.closed ==> r.1 == Pushed(Closed))
  }

  /** A push that is over, or goes to wait, leaves consumers covered. */
  lemma AfterPushWakeups<T>(m: Monitor<T>, v: T, r: (Queue<T>, PushResult), woken: Option<Tid>)
    requires Roles(m) && Choice(m.notEmpty, woken) && PushOutcome(m.q, r)
    requires !m.q.closed ==> Covered(|m.q.items|, m.notEmpty)
    ensures var n := AfterPush(m, v, r, woken);
            && Apart(n.notEmpty) && AllPop(n.notEmpty, m.waits)
            && n.notFull == m.notFull && n.waits == m.waits && n.closers == m.closers
            && n.q == r.0
            && (!m.q.closed ==> Covered(|n.q.items|, n.notEmpty))
            && n.notEmpty.parked <= m.notEmpty.parked
  {
    if m.q.closed {
      assert AfterPush(m, v, r, woken).notEmpty == m.notEmpty;
    }
  }

  lemma AfterPopWakeups<T>(m: Monitor<T>, flag: bool, woken: Option<Tid>)
    requires Roles(m) && Choice(m.notFull, woken)
    requires !m.q.closed ==> Covered(m.q.capacity - |m.q.items|, m.notFull)
    ensures var r := EnterPop(m.q, flag);
            var n := AfterPop(m, r, woken);
            && Apart(n.notFull) && AllPush(n.notFull, m.waits)
            && n.notEmpty == m.notEmpty && n.waits == m.waits && n.closers == m.closers
            && n.q.closed == m.q.closed && n.q.capacity == m.q.capacity
            && (!m.q.closed ==> Covered(n.q.capacity - |n.q.items|, n.notFull))
            && n.notFull.parked <= m.notFull.parked
            && |n.q.items| == |m.q.items| - (if r.1.Popped? then 1 else 0)
            && (!r.1.Popped? ==> m.q.items == [])
            && (r.1.PopWait? ==> !m.q.closed)
  {
  }

  /** A thread that was not waiting starts to wait. */
  lemma WaitsChange<T>(c: Condition, waits: map<Tid, Wait<T>>, t: Tid, w: Wait<T>)
    requires t !in c.parked + c.awake
    ensures AllPop(c, waits) && w.Pushing? ==> AllPop(c, waits[t := w])
    ensures AllPush(c, waits) && w.Popping? ==> AllPush(c, waits[t := w])
    ensures AllPop(c, waits) && w.Popping? ==> AllPop(Park(c, t), waits[t := w])
    ensures AllPush(c, waits) && w.Pushing? ==> AllPush(Park(c, t), waits[t := w])
  {
  }

  lemma PushCallWakeups<T>(m: Monitor<T>, e: Event<T>)
    requires Roles(m) && Wakeups(m) && Sized(m.q) && Enabled(m, e) && e.PushCall?
    ensures Roles(Next(m, e)) && Wakeups(Next(m, e))
  {
    var r := EnterPush(m.q, e.item, e.mode.Try?);
    AfterPushWakeups(m, e.item, r, e.woken);
    var n := AfterPush(m, e.item, r, e.woken);
    if r.1.PushWait? {
      var w := Pushing(e.item, e.mode.Timed?);
      assert n.notEmpty == m.notEmpty;
      WaitsChange(m.notEmpty, m.waits, e.t, w);
      WaitsChange(m.notFull, m.waits, e.t, w);
      assert m.q.capacity - |r.0.items| == 0;
    } else {
      assert Next(m, e) == n;
    }
  }

  lemma PushRetryWakeups<T>(m: Monitor<T>, e: Event<T>)
    requires Roles(m) && Wakeups(m) && Sized(m.q) && Enabled(m, e) && e.PushRetry?
    ensures Roles(Next(m, e)) && Wakeups(Next(m, e))
  {
    var v := m.waits[e.t].item;
    var r := ResumePush(m.q, v, e.timedOut);
    AfterPushWakeups(m, v, r, e.woken);
    var n := AfterPush(m, v, r, e.woken);
    WaitsEnd(m.notFull, n.notEmpty, m.waits, e.t);
  }

  lemma PopCallWakeups<T>(m: Monitor<T>, e: Event<T>)
    requires Roles(m) && Wakeups(m) && Sized(m.q) && Enabled(m, e) && e.PopCall?
    ensures Roles(Next(m, e)) && Wakeups(Next(m, e))
  {
    var r := EnterPop(m.q, e.mode.Try?);
    AfterPopWakeups(m, e.mode.Try?, e.woken);
    var n := AfterPop(m, r, e.woken);
    if r.1.PopWait? {
      var w: Wait<T> := Popping(e.mode.Timed?);
      assert n.notFull == m.notFull;
      WaitsChange(m.notEmpty, m.waits, e.t, w);
      WaitsChange(m.notFull, m.waits, e.t, w);
    } else {
      assert Next(m, e) == n;
    }
  }

  /** A thread that was waiting stops, or goes back to sleep. */
  lemma WaitsEnd<T>(c: Condition, d: Condition, waits: map<Tid, Wait<T>>, t: Tid)
    requires t in c.awake && Apart(c) && t !in d.parked + d.awake
    ensures AllPop(c, waits) && AllPush(d, waits) ==>
              AllPop(Leave(c, t), waits - {t}) && AllPush(d, waits - {t})
              && AllPop(Park(c, t), waits)
    ensures AllPush(c, waits) && AllPop(d, waits) ==>
              AllPush(Leave(c, t), waits - {t}) && AllPop(d, waits - {t})
              && AllPush(Park(c, t), waits)
  {
  }

  lemma PopRetryWakeups<T>(m: Monitor<T>, e: Event<T>)
    requires Roles(m) && Wakeups(m) && Sized(m.q) && Enabled(m, e) && e.PopRetry?
    ensures Roles(Next(m, e)) && Wakeups(Next(m, e))
  {
    var r := EnterPop(m.q, e.timedOut);
    AfterPopWakeups(m, e.timedOut, e.woken);
    var n := AfterPop(m, r, e.woken);
    WaitsEnd(m.notEmpty, n.notFull, m.waits, e.t);
  }

  lemma RouseWakeups<T>(m: Monitor<T>, e: Event<T>)
    requires Roles(m) && Wakeups(m) && Sized(m.q) && Enabled(m, e) && e.Rouse?
    ensures Roles(Next(m, e)) && Wakeups(Next(m, e))
  {
    if e.t in m.notEmpty.parked { RiseCounts(m.notEmpty, e.t); }
    else { RiseCounts(m.notFull, e.t); }
  }

  lemma CloseWakeups<T>(m: Monitor<T>, e: Event<T>)
    requires Roles(m) && Wakeups(m) && Sized(m.q) && Enabled(m, e)
    requires e.CloseFlag? || e.CloseSignalEmpty? || e.CloseSignalFull? || e.Clear?
    ensures Roles(Next(m, e)) && Wakeups(Next(m, e))
  {
    var n := Next(m, e);
    if e.CloseFlag? {
      assert e.t in n.closers && n.closers[e.t].BeforeBoth?;
    } else if e.CloseSignalEmpty? {
      assert e.t in n.closers;
    } else if e.CloseSignalFull? && m.notEmpty.parked != {} {
      var t :| t in m.closers && m.closers[t].BeforeBoth?;
      assert t in n.closers;
    }
  }

  lemma StepKeepsInv<T>(m: Monitor<T>, e: Event<T>)
    requires Inv(m) && Enabled(m, e)
    ensures Inv(Next(m, e))
  {
    StepKeepsBooks(m, e);
    match e
    case PushCall(_, _, _, _) => PushCallWakeups(m, e);
    case PushRetry(_, _, _) => PushRetryWakeups(m, e);
    case PopCall(_, _, _) => PopCallWakeups(m, e);
    case PopRetry(_, _, _) => PopRetryWakeups(m, e);
    case Rouse(_) => RouseWakeups(m, e);
    case CloseFlag(_) => CloseWakeups(m, e);
    case CloseSignalEmpty(_) => CloseWakeups(m, e);
    case CloseSignalFull(_) => CloseWakeups(m, e);
    case Clear(_) => CloseWakeups(m, e);
  }

  // ---------------------------------------------------------------- runs

  ghost predicate IsRun<T>(m: Monitor<T>, events: seq<Event<T>>)
    decreases |events|
  {
    events == [] || (Enabled(m, events[0]) && IsRun(Next(m, events[0]), events[1..]))
  }

  ghost function After<T>(m: Monitor<T>, events: seq<Event<T>>): Monitor<T>
    requires IsRun(m, events)
    decreases |events|
  {
    if events == [] then m else After(Next(m, events[0]), events[1..])
  }

  lemma {:induction false} RunKeepsInv<T>(m: Monitor<T>, events: seq<Event<T>>)
    requires Inv(m) && IsRun(m, events)
    ensures Inv(After(m, events))
    ensures After(m, events).q.capacity == m.q.capacity && After(m, events).q.policy == m.q.policy
    decreases |events|
  {
    if events == [] {
    } else {
      StepKeepsInv(m, events[0]);
      StepKeepsSettings(m, events[0]);
      RunKeepsInv(Next(m, events[0]), events[1..]);
    }
  }

  /** In every reachable state, while the queue is open and some consumer sleeps, there are at most
      as many items as consumers on their way; likewise for producers and free slots.  So when
      nobody is on the way, either only consumers sleep and the queue is empty, or only producers
      sleep and it is full. */
  lemma NoLostWakeup<T>(capacity: nat, policy: Policy, events: seq<Event<T>>)
    requires IsRun(NewMonitor<T>(capacity, policy), events)
    ensures var m := After(NewMonitor(capacity, policy), events);
            !m.q.closed ==>
              && (m.notEmpty.parked != {} ==> |m.q.items| <= |m.notEmpty.awake|)
              && (m.notFull.parked != {} ==> m.q.capacity - |m.q.items| <= |m.notFull.awake|)
    ensures var m := After(NewMonitor(capacity, policy), events);
            m.notEmpty.awake == {} && m.notFull.awake == {} && m.closers == map[] ==>
              && (m.notEmpty.parked != {} ==>
                    !m.q.closed && m.q.items == [] && m.notFull.parked == {})
              && (m.notFull.parked != {} ==>
                    !m.q.closed && |m.q.items| == m.q.capacity && m.notEmpty.parked == {})
  {
    RunKeepsInv(NewMonitor<T>(capacity, policy), events);
  }

  /** The sequence law and the counters, in every reachable state. */
  lemma QueueLaw<T>(capacity: nat, policy: Policy, events: seq<Event<T>>)
    requires IsRun(NewMonitor<T>(capacity, policy), events)
    ensures var m := After(NewMonitor(capacity, policy), events);
            && m.accepted == Values(m.removed) + m.q.items
            && m.q.dropped == Evictions(m.removed) + m.refused
            && m.q.highWater == m.peak
            && m.q.capacity == (if capacity == 0 then 1 else capacity) && m.q.policy == policy
            && |m.q.items| <= m.peak <= m.q.capacity
  {
    RunKeepsInv(NewMonitor<T>(capacity, policy), events);
  }

  // ---------------------------------------------------------------- what callers are told

  /** A push on a full open queue: one policy refuses the new item, one gives up exactly the oldest
      item for it, and one waits unless the caller does not want to. */
  lemma PushOnFullQueue<T>(q: Queue<T>, v: T, isTry: bool)
    requires !q.closed && |q.items| == q.capacity >= 1
    ensures var (n, r) := EnterPush(q, v, isTry);
            && (q.policy.DropNewest? ==>
                  r == Pushed(DroppedNewest) && n.items == q.items && n.dropped == q.dropped + 1)
            && (q.policy.DropOldest? ==>
                  r == Pushed(DroppedOldest) && |n.items| == q.capacity
                  && n.items[q.capacity - 1] == v && n.dropped == q.dropped + 1
                  && forall k | 0 <= k < q.capacity - 1 :: n.items[k] == q.items[k + 1])
            && (q.policy.Block? ==> n == q && (r.PushWait? <==> !isTry)
                                    && (r == Pushed(Full) <==> isTry))
  {
  }

  predicate Pushes<T>(e: Event<T>) { e.PushCall? || e.PushRetry? }
  predicate Pops<T>(e: Event<T>) { e.PopCall? || e.PopRetry? }

  /** One sleeper, if there is one, is up and about; the others sleep on. */
  predicate WokeOne(c: Condition, d: Condition, woken: Option<Tid>) {
    if c.parked == {} then d == c
    else
      woken.Some? && woken.value in c.parked
      && d.parked == c.parked - {woken.value} && d.awake == c.awake + {woken.value}
  }

  /** A consumer is woken by exactly the pushes that got an item in, evicting ones included, and a
      producer by exactly the pops that took one out. */
  lemma SignalsExactly<T>(m: Monitor<T>, e: Event<T>)
    requires Enabled(m, e) && (Pushes(e) || Pops(e))
    ensures var n := Next(m, e);
            && (Pushes(e) ==> if |n.accepted| > |m.accepted| then WokeOne(m.notEmpty, n.notEmpty, e.woken)
                              else n.notEmpty == m.notEmpty)
            && (Pops(e) ==> if |n.removed| > |m.removed| then WokeOne(m.notFull, n.notFull, e.woken)
                            else n.notFull == m.notFull)
  {
  }

  /** How a call of `push` or `pop` ended: for a call that waited, `timedOut` says whether its
      deadline had passed. */
  datatype End<T> =
    | PushEnd(item: T, mode: Mode, timedOut: bool, status: Status)
    | PopEnd(mode: Mode, timedOut: bool, got: Option<T>)

  function ModeOf(timed: bool): Mode { if timed then Timed else Forever }

  function EndPush<T>(v: T, mode: Mode, timedOut: bool, r: PushResult): Option<End<T>> {
    match r
    case Pushed(status) => Some(PushEnd(v, mode, timedOut, status))
    case PushWait => None
  }

  function EndPop<T>(mode: Mode, timedOut: bool, r: PopResult<T>): Option<End<T>> {
    match r
    case Popped(v) => Some(PopEnd(mode, timedOut, Some(v)))
    case Nothing => Some(PopEnd(mode, timedOut, None))
    case PopWait => None
  }

  /** What the caller gets back at this step, if the call ends. */
  function EndOf<T>(m: Monitor<T>, e: Event<T>): Option<End<T>>
    requires Enabled(m, e)
  {
    match e
    case PushCall(_, v, mode, _) => EndPush(v, mode, false, EnterPush(m.q, v, mode.Try?).1)
    case PushRetry(t, timedOut, _) =>
      var w := m.waits[t];
      EndPush(w.item, ModeOf(w.timed), timedOut, ResumePush(m.q, w.item, timedOut).1)
    case PopCall(_, mode, _) => EndPop(mode, false, EnterPop(m.q, mode.Try?).1)
    case PopRetry(t, timedOut, _) =>
      EndPop(ModeOf(m.waits[t].timed), timedOut, ResumePop(m.q, timedOut).1)
    case _ => None
  }

  function Listed<T>(o: Option<T>): seq<T> { if o.Some? then [o.value] else [] }

  /** The ended calls of a run, in lock order. */
  ghost function Ends<T>(m: Monitor<T>, events: seq<Event<T>>): seq<End<T>>
    requires IsRun(m, events)
    decreases |events|
  {
    if events == [] then []
    else Listed(EndOf(m, events[0])) + Ends(Next(m, events[0]), events[1..])
  }

  /** Only a call that did not want to wait, or whose deadline has passed, is told that the queue is
      full or empty; otherwise nothing but success, the policy of the queue or its being closed ends
      a call. */
  ghost predicate EndOk<T>(q: Queue<T>, e: End<T>) {
    && (e.timedOut ==> e.mode.Timed?)
    && match e
       case PushEnd(_, mode, timedOut, status) =>
         && (status.Full? ==> q.policy.Block? && (mode.Try? || timedOut))
         && (status.DroppedNewest? ==> q.policy.DropNewest?)
         && (status.DroppedOldest? ==> q.policy.DropOldest?)
         && (status.Closed? ==> q.closed)
       case PopEnd(mode, timedOut, got) => got.None? ==> mode.Try? || timedOut || q.closed
  }

  predicate Accepted(status: Status) { status.Ok? || status.DroppedOldest? }

  function Entered<T>(o: Option<End<T>>): seq<T> {
    if o.Some? && o.value.PushEnd? && Accepted(o.value.status) then [o.value.item] else []
  }

  function Got<T>(o: Option<End<T>>): seq<T> {
    if o.Some? && o.value.PopEnd? && o.value.got.Some? then [o.value.got.value] else []
  }

  function Refusal<T>(o: Option<End<T>>): nat {
    if o.Some? && o.value.PushEnd? && o.value.status.DroppedNewest? then 1 else 0
  }

  function EnteredItems<T>(ends: seq<End<T>>): seq<T> {
    if ends == [] then [] else Entered(Some(ends[0])) + EnteredItems(ends[1..])
  }

  function GotItems<T>(ends: seq<End<T>>): seq<T> {
    if ends == [] then [] else Got(Some(ends[0])) + GotItems(ends[1..])
  }

  function Refusals<T>(ends: seq<End<T>>): nat {
    if ends == [] then 0 else Refusal(Some(ends[0])) + Refusals(ends[1..])
  }

  /** The values that consumers took, in lock order. */
  function TakenValues<T>(removed: seq<Removal<T>>): seq<T> {
    if removed == [] then []
    else
      var last := removed[|removed| - 1];
      TakenValues(removed[..|removed| - 1]) + if last.Taken? then [last.value] else []
  }

  lemma {:induction false} TakenOfCleared<T>(removed: seq<Removal<T>>, items: seq<T>)
    ensures TakenValues(removed + ClearedAll(items)) == TakenValues(removed)
    decreases |items|
  {
    if items == [] {
      assert removed + ClearedAll(items) == removed;
    } else {
      var all := removed + ClearedAll(items);
      assert all[..|all| - 1] == removed + ClearedAll(items[..|items| - 1]);
      TakenOfCleared(removed, items[..|items| - 1]);
    }
  }

  /** One step: what the caller is told is what happened. */
  ghost predicate Truth<T>(m: Monitor<T>, n: Monitor<T>, o: Option<End<T>>) {
    && (o.Some? ==> EndOk(n.q, o.value))
    && n.accepted == m.accepted + Entered(o) && n.refused == m.refused + Refusal(o)
    && TakenValues(n.removed) == TakenValues(m.removed) + Got(o)
  }

  lemma TakenAppend<T>(removed: seq<Removal<T>>, x: Removal<T>)
    ensures TakenValues(removed + [x])
         == TakenValues(removed) + if x.Taken? then [x.value] else []
  {
    assert (removed + [x])[..|removed|] == removed;
  }

  lemma PushIsTrue<T>(m: Monitor<T>, v: T, r: (Queue<T>, PushResult), woken: Option<Tid>,
                      mode: Mode, timedOut: bool)
    requires r.0.policy == m.q.policy && r.0.closed == m.q.closed && (timedOut ==> mode.Timed?)
    requires r.1 == Pushed(Full) ==> m.q.policy.Block? && (mode.Try? || timedOut)
    requires r.1 == Pushed(DroppedNewest) ==> m.q.policy.DropNewest?
    requires r.1 == Pushed(DroppedOldest) ==> m.q.policy.DropOldest?
    requires r.1 == Pushed(Closed) ==> m.q.closed
    ensures Truth(m, AfterPush(m, v, r, woken), EndPush(v, mode, timedOut, r.1))
  {
    if r.1 == Pushed(DroppedOldest) && m.q.items != [] {
      TakenAppend(m.removed, Evicted(m.q.items[0]));
    }
  }

  lemma PopIsTrue<T>(m: Monitor<T>, r: (Queue<T>, PopResult<T>), woken: Option<Tid>,
                     mode: Mode, timedOut: bool)
    requires r.0.closed == m.q.closed && (timedOut ==> mode.Timed?)
    requires r.1.Nothing? ==> mode.Try? || timedOut || m.q.closed
    ensures Truth(m, AfterPop(m, r, woken), EndPop(mode, timedOut, r.1))
  {
    if r.1.Popped? { TakenAppend(m.removed, Taken(r.1.value)); }
  }

  /** Parking or leaving changes none of the records. */
  lemma TruthOfRecords<T>(m: Monitor<T>, n: Monitor<T>, k: Monitor<T>, o: Option<End<T>>)
    requires Truth(m, n, o) && k.q == n.q && k.accepted == n.accepted && k.refused == n.refused
    requires k.removed == n.removed
    ensures Truth(m, k, o)
  {
  }

  lemma EndIsTrue<T>(m: Monitor<T>, e: Event<T>)
    requires Enabled(m, e) && Sized(m.q)
    requires e.PushRetry? ==> m.q.policy.Block?
    ensures Truth(m, Next(m, e), EndOf(m, e))
  {
    match e
    case PushCall(_, v, mode, woken) =>
      var r := EnterPush(m.q, v, mode.Try?);
      PushIsTrue(m, v, r, woken, mode, false);
      TruthOfRecords(m, AfterPush(m, v, r, woken), Next(m, e), EndOf(m, e));
    case PushRetry(t, timedOut, woken) =>
      var w := m.waits[t];
      var r := ResumePush(m.q, w.item, timedOut);
      PushIsTrue(m, w.item, r, woken, ModeOf(w.timed), timedOut);
      TruthOfRecords(m, AfterPush(m, w.item, r, woken), Next(m, e), EndOf(m, e));
    case PopCall(_, mode, woken) =>
      var r := EnterPop(m.q, mode.Try?);
      PopIsTrue(m, r, woken, mode, false);
      TruthOfRecords(m, AfterPop(m, r, woken), Next(m, e), EndOf(m, e));
    case PopRetry(t, timedOut, woken) =>
      var r := ResumePop(m.q, timedOut);
      PopIsTrue(m, r, woken, ModeOf(m.waits[t].timed), timedOut);
      TruthOfRecords(m, AfterPop(m, r, woken), Next(m, e), EndOf(m, e));
    case Clear(_) => TakenOfCleared(m.removed, m.q.items);
    case _ =>
  }

  /** Only a queue that blocks ever has producers waiting. */
  ghost predicate OnlyBlockWaits<T>(m: Monitor<T>) {
    forall t | t in m.waits && m.waits[t].Pushing? :: m.q.policy.Block?
  }

  lemma StepKeepsOnlyBlockWaits<T>(m: Monitor<T>, e: Event<T>)
    requires Enabled(m, e) && OnlyBlockWaits(m)
    ensures OnlyBlockWaits(Next(m, e))
  {
    StepKeepsSettings(m, e);
  }

  lemma {:induction false} EndOkFinally<T>(m: Monitor<T>, events: seq<Event<T>>, end: End<T>)
    requires IsRun(m, events) && EndOk(m.q, end)
    ensures EndOk(After(m, events).q, end)
    decreases |events|
  {
    if events == [] {
    } else {
      StepKeepsSettings(m, events[0]);
      EndOkFinally(Next(m, events[0]), events[1..], end);
    }
  }

  ghost predicate Truths<T>(m: Monitor<T>, n: Monitor<T>, ends: seq<End<T>>) {
    && (forall k | 0 <= k < |ends| :: EndOk(n.q, ends[k]))
    && n.accepted == m.accepted + EnteredItems(ends) && n.refused == m.refused + Refusals(ends)
    && TakenValues(n.removed) == TakenValues(m.removed) + GotItems(ends)
  }

  lemma {:induction false} TruthsCons<T>(m: Monitor<T>, n: Monitor<T>, z: Monitor<T>,
                                         o: Option<End<T>>, ends: seq<End<T>>)
    requires Truth(m, n, o) && Truths(n, z, ends) && (o.Some? ==> EndOk(z.q, o.value))
    ensures Truths(m, z, Listed(o) + ends)
  {
    var all := Listed(o) + ends;
    if o.None? {
      assert all == ends;
    } else {
      assert all[1..] == ends && all[0] == o.value;
    }
    assert m.accepted + Entered(o) + EnteredItems(ends) == m.accepted + (Entered(o) + EnteredItems(ends));
    assert TakenValues(m.removed) + Got(o) + GotItems(ends)
        == TakenValues(m.removed) + (Got(o) + GotItems(ends));
  }

  lemma {:induction false} RunEndsTrue<T>(m: Monitor<T>, events: seq<Event<T>>)
    requires Inv(m) && OnlyBlockWaits(m) && IsRun(m, events)
    ensures Truths(m, After(m, events), Ends(m, events))
    decreases |events|
  {
    if events == [] {
    } else {
      var n, o := Next(m, events[0]), EndOf(m, events[0]);
      EndIsTrue(m, events[0]);
      StepKeepsInv(m, events[0]);
      StepKeepsOnlyBlockWaits(m, events[0]);
      RunEndsTrue(n, events[1..]);
      if o.Some? { EndOkFinally(n, events[1..], o.value); }
      TruthsCons(m, n, After(m, events), o, Ends(n, events[1..]));
    }
  }

  /** Over every run: a push without a deadline ends only in acceptance, in the refusal or eviction
      that the policy calls for, or because the queue is closed; only a try or a passed deadline is
      told that the queue is full; and the items whose callers were told that they got in are, in
      order, the accepted ones, as those that callers got are the ones taken. */
  lemma CallersAreToldTheTruth<T>(capacity: nat, policy: Policy, events: seq<Event<T>>)
    requires IsRun(NewMonitor<T>(capacity, policy), events)
    ensures var m := After(NewMonitor<T>(capacity, policy), events);
            var ends := Ends(NewMonitor<T>(capacity, policy), events);
            && m.q.policy == policy
            && (forall k | 0 <= k < |ends| :: EndOk(m.q, ends[k]))
            && m.accepted == EnteredItems(ends) && m.refused == Refusals(ends)
            && TakenValues(m.removed) == GotItems(ends)
  {
    RunKeepsInv(NewMonitor<T>(capacity, policy), events);
    RunEndsTrue(NewMonitor<T>(capacity, policy), events);
  }

  /** A try, or a call whose deadline has passed, ends at once and leaves nobody waiting for it. */
  lemma PromptCallsEnd<T>(m: Monitor<T>, e: Event<T>)
    requires Enabled(m, e)
    requires ((e.PushCall? || e.PopCall?) && e.mode.Try?)
             || ((e.PushRetry? || e.PopRetry?) && e.timedOut)
    ensures EndOf(m, e).Some? && e.t !in Next(m, e).waits
  {
  }

  // ---------------------------------------------------------------- the queue, in place

  /** The object whose fields the lock-held stretches update. */
  class BoundedQueue<T> {
    var items: seq<T>
    const capacity: nat
    const policy: Policy
    var closed: bool
    var dropped: nat
    var highWater: nat

    ghost predicate Valid()
      reads this
    {
      |items| <= highWater <= capacity && 1 <= capacity
    }

    ghost function State(): Queue<T>
      reads this
    {
      Queue(items, capacity, policy, closed, dropped, highWater)
    }

    constructor (capacity: nat, policy: Policy)
      ensures Valid() && State() == NewQueue(capacity, policy)
    {
      items := [];
      this.capacity := if capacity == 0 then 1 else capacity;
      this.policy := policy;
      closed, dropped, highWater := false, 0, 0;
    }

    method PushUntil(value: T, isTry: bool) returns (r: PushResult)
      requires Valid()
      modifies this
      ensures Valid() && (State(), r) == EnterPush(old(State()), value, isTry)
    {
      if closed { return Pushed(Closed); }
      if |items| >= capacity {
        match policy
        case DropNewest =>
          dropped := dropped + 1;
          return Pushed(DroppedNewest);
        case DropOldest =>
          items := items[1..];
          dropped := dropped + 1;
          items := items + [value];
          return Pushed(DroppedOldest);
        case Block =>
          return if isTry then Pushed(Full) else PushWait;
      }
      r := AppendItem(value);
    }

    method PushAfterWait(value: T, timedOut: bool) returns (r: PushResult)
      requires Valid()
      modifies this
      ensures Valid() && (State(), r) == ResumePush(old(State()), value, timedOut)
    {
      if !closed && |items| >= capacity {
        return if timedOut then Pushed(Full) else PushWait;
      }
      if closed { return Pushed(Closed); }
      r := AppendItem(value);
    }

    method AppendItem(value: T) returns (r: PushResult)
      requires Valid() && |items| < capacity
      modifies this
      ensures Valid() && State() == Append(old(State()), value) && r == Pushed(Ok)
    {
      items := items + [value];
      if |items| > highWater { highWater := |items|; }
      return Pushed(Ok);
    }

    method PopUntil(isTry: bool) returns (r: PopResult<T>)
      requires Valid()
      modifies this
      ensures Valid() && (State(), r) == EnterPop(old(State()), isTry)
    {
      if items == [] && !closed {
        return if isTry then Nothing else PopWait;
      }
      r := TakeItem();
    }

    method PopAfterWait(timedOut: bool) returns (r: PopResult<T>)
      requires Valid()
      modifies this
      ensures Valid() && (State(), r) == ResumePop(old(State()), timedOut)
    {
      if !closed && items == [] {
        return if timedOut then Nothing else PopWait;
      }
      r := TakeItem();
    }

    method TakeItem() returns (r: PopResult<T>)
      requires Valid()
      modifies this
      ensures Valid()
      ensures old(items) == [] ==> State() == old(State()) && r == Nothing
      ensures old(items) != [] ==>
                State() == old(State()).(items := old(items)[1..]) && r == Popped(old(items)[0])
    {
      if items == [] { return Nothing; }
      var value := items[0];
      items := items[1..];
      return Popped(value);
    }

    method Close()
      requires Valid()
      modifies this
      ensures Valid() && State() == old(State()).(closed := true)
    {
      closed := true;
    }

    method Clear() returns (discarded: seq<T>)
      requires Valid()
      modifies this
      ensures Valid() && State() == old(State()).(items := []) && discarded == old(items)
    {
      discarded := items;
      items := [];
    }
  }
}
