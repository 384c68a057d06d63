/** The frame-by-frame DAG executor: a frame runs every node of a static graph once, in dependency
    order, under any mix of exceptions, refused submissions, cancellations and deadlines. */
module DagExecutor {
  import opened Common

  // ---------------------------------------------------------------- the graph

  /** `succ` may list a node more than once: each edge added counts. */
  datatype Node = Node(succ: seq<nat>, inDegree: nat)

  function Count(s: seq<nat>, x: nat): nat {
    if s == [] then 0 else Count(s[..|s| - 1], x) + if s[|s| - 1] == x then 1 else 0
  }

  /** How many edges lead to `i` from nodes below `n` that are not yet done. */
  function EdgesInto(g: seq<Node>, done: set<nat>, i: nat, n: nat): nat
    requires n <= |g|
  {
    if n == 0 then 0
    else EdgesInto(g, done, i, n - 1) + if n - 1 in done then 0 else Count(g[n - 1].succ, i)
  }

  predicate GraphOk(g: seq<Node>) {
    && (forall p | 0 <= p < |g| :: forall k | 0 <= k < |g[p].succ| :: g[p].succ[k] < |g|)
    && (forall i | 0 <= i < |g| :: g[i].inDegree == EdgesInto(g, {}, i, |g|))
  }

  predicate Edge(g: seq<Node>, p: nat, i: nat) {
    p < |g| && i in g[p].succ
  }

  /** A numbering of the nodes that grows along every edge: the graph has no cycle. */
  ghost predicate Topological(g: seq<Node>, rank: seq<nat>) {
    |rank| == |g| && forall p: nat, i: nat | Edge(g, p, i) && i < |g| :: rank[p] < rank[i]
  }

  function AddedEdge(g: seq<Node>, from: nat, to: nat): seq<Node>
    requires from < |g| && to < |g|
  {
    var h := g[from := g[from].(succ := g[from].succ + [to])];
    h[to := h[to].(inDegree := h[to].inDegree + 1)]
  }

  lemma {:induction false} CountMember(s: seq<nat>, x: nat)
    ensures Count(s, x) > 0 <==> x in s
  {
    if s == [] {
    } else {
      CountMember(s[..|s| - 1], x);
      assert s == s[..|s| - 1] + [s[|s| - 1]];
    }
  }

  /** Finishing `p` takes its edges away, and only those. */
  lemma {:induction false} EdgesDone(g: seq<Node>, done: set<nat>, p: nat, i: nat, n: nat)
    requires n <= |g| && p < |g| && p !in done
    ensures EdgesInto(g, done + {p}, i, n)
         == EdgesInto(g, done, i, n) - if p < n then Count(g[p].succ, i) else 0
    decreases n
  {
    if n == 0 {
    } else {
      EdgesDone(g, done, p, i, n - 1);
    }
  }

  lemma {:induction false} NoEdgesLeft(g: seq<Node>, done: set<nat>, i: nat, n: nat, p: nat)
    requires n <= |g| && p < n && EdgesInto(g, done, i, n) == 0 && Edge(g, p, i)
    ensures p in done
    decreases n
  {
    CountMember(g[p].succ, i);
    if p == n - 1 {
    } else {
      NoEdgesLeft(g, done, i, n - 1, p);
    }
  }

  lemma {:induction false} SomeEdgeLeft(g: seq<Node>, done: set<nat>, i: nat, n: nat) returns (p: nat)
    requires n <= |g| && EdgesInto(g, done, i, n) > 0
    ensures p < n && p !in done && Edge(g, p, i)
    decreases n
  {
    if n - 1 !in done && Count(g[n - 1].succ, i) > 0 {
      p := n - 1;
      CountMember(g[p].succ, i);
    } else {
      p := SomeEdgeLeft(g, done, i, n - 1);
    }
  }

  lemma {:induction false} EdgesAdded(g: seq<Node>, from: nat, to: nat, i: nat, n: nat)
    requires n <= |g| && from < |g| && to < |g|
    ensures EdgesInto(AddedEdge(g, from, to), {}, i, n)
         == EdgesInto(g, {}, i, n) + if from < n && i == to then 1 else 0
    decreases n
  {
    if n == 0 {
    } else {
      EdgesAdded(g, from, to, i, n - 1);
    }
  }

  /** Building the graph keeps the in-degrees equal to the number of edges. */
  lemma AddEdgeKeepsGraph(g: seq<Node>, from: nat, to: nat)
    requires GraphOk(g) && from < |g| && to < |g|
    ensures GraphOk(AddedEdge(g, from, to))
  {
    var h := AddedEdge(g, from, to);
    forall i | 0 <= i < |h| ensures h[i].inDegree == EdgesInto(h, {}, i, |h|) {
      EdgesAdded(g, from, to, i, |g|);
    }
  }

  /** The edge is there afterwards, and no other one. */
  lemma AddEdgeAdds(g: seq<Node>, from: nat, to: nat, p: nat, i: nat)
    requires from < |g| && to < |g|
    ensures Edge(AddedEdge(g, from, to), p, i) <==> Edge(g, p, i) || (p == from && i == to)
    ensures |AddedEdge(g, from, to)| == |g|
  {
  }

  lemma {:induction false} EdgesWithout(g: seq<Node>, i: nat, n: nat)
    requires n <= |g| && forall p, k | 0 <= p < n && 0 <= k < |g[p].succ| :: g[p].succ[k] != i
    ensures EdgesInto(g, {}, i, n) == 0
    decreases n
  {
    if n == 0 {
    } else {
      EdgesWithout(g, i, n - 1);
      CountMember(g[n - 1].succ, i);
    }
  }

  lemma {:induction false} EdgesPrefix(g: seq<Node>, x: Node, i: nat, n: nat)
    requires n <= |g|
    ensures EdgesInto(g + [x], {}, i, n) == EdgesInto(g, {}, i, n)
    decreases n
  {
    if n == 0 {
    } else {
      EdgesPrefix(g, x, i, n - 1);
    }
  }

  lemma AddNodeKeepsGraph(g: seq<Node>)
    requires GraphOk(g)
    ensures GraphOk(g + [Node([], 0)])
  {
    var h := g + [Node([], 0)];
    forall i | 0 <= i < |h| ensures h[i].inDegree == EdgesInto(h, {}, i, |h|) {
      EdgesPrefix(g, Node([], 0), i, |g|);
      if i == |g| { EdgesWithout(g, i, |g|); }
    }
  }

  // ---------------------------------------------------------------- the record of a frame

  /** What the executor stores per frame. */
  datatype Record = Record(remaining: seq<nat>, pending: nat, cancelled: bool)

  function NewRecord(g: seq<Node>): Record {
    Record(seq(|g|, i requires 0 <= i < |g| => g[i].inDegree), |g|, false)
  }

  /** `--remaining[s]`, on an unsigned word. */
  function Minus1(x: nat): nat { if x == 0 then 0xFFFF_FFFF_FFFF_FFFF else x - 1 }

  /** The loop over the successors: their counters go down, and those that reach zero are ready. */
  function Decrement(remaining: seq<nat>, succ: seq<nat>): (r: (seq<nat>, seq<nat>))
    requires forall k | 0 <= k < |succ| :: succ[k] < |remaining|
    ensures |r.0| == |remaining|
    decreases |succ|
  {
    if succ == [] then (remaining, [])
    else
      var (before, ready) := Decrement(remaining, succ[..|succ| - 1]);
      var s := succ[|succ| - 1];
      var left := Minus1(before[s]);
      (before[s := left], if left == 0 then ready + [s] else ready)
  }

  predicate Fits(g: seq<Node>, rec: Record, i: nat) {
    i < |g| == |rec.remaining| && rec.pending > 0
    && forall k | 0 <= k < |g[i].succ| :: g[i].succ[k] < |g|
  }

  /** The record once node `i` has settled, and the nodes to submit next. */
  function SettledRecord(g: seq<Node>, rec: Record, i: nat): (Record, seq<nat>)
    requires Fits(g, rec, i)
  {
    var (remaining, ready) := Decrement(rec.remaining, g[i].succ);
    (rec.(remaining := remaining, pending := rec.pending - 1), ready)
  }

  /** With enough left to take away there is no underflow, and each node becomes ready at most
      once: exactly when its last edge goes. */
  lemma {:induction false} DecrementCounts(remaining: seq<nat>, succ: seq<nat>)
    requires forall k | 0 <= k < |succ| :: succ[k] < |remaining|
    requires forall i | 0 <= i < |remaining| :: Count(succ, i) <= remaining[i]
    ensures var (after, ready) := Decrement(remaining, succ);
            && (forall i | 0 <= i < |remaining| :: after[i] == remaining[i] - Count(succ, i))
            && (forall i :: i in ready <==> i < |remaining| && i in succ && after[i] == 0)
            && (forall k, l | 0 <= k < l < |ready| :: ready[k] != ready[l])
    decreases |succ|
  {
    if succ == [] {
    } else {
      var init, s := succ[..|succ| - 1], succ[|succ| - 1];
      assert succ == init + [s];
      DecrementCounts(remaining, init);
      CountMember(init, s);
    }
  }

  // ---------------------------------------------------------------- the life of a frame

  /** Waiting for predecessors; ready but not yet submitted; in a pool's queue; running; the work
      is over (or skipped) but not yet settled; settled. */
  datatype Stage = Waiting | Ready | Queued | Running | Finishing | Done

  /** `log` lists the settled nodes in order. */
  datatype Frame = Frame(rec: Record, stage: seq<Stage>, log: seq<nat>)

  function Settled(log: seq<nat>): set<nat> { set i | i in log }

  function Unsettled(stage: seq<Stage>): nat {
    if stage == [] then 0
    else Unsettled(stage[..|stage| - 1]) + if stage[|stage| - 1].Done? then 0 else 1
  }

  /** No node twice, and every node after all its predecessors. */
  ghost predicate Ordered(g: seq<Node>, log: seq<nat>) {
    && (forall k | 0 <= k < |log| :: log[k] < |g|)
    && (forall k, l | 0 <= k < l < |log| :: log[k] != log[l])
    && (forall k: nat, p: nat | k < |log| && Edge(g, p, log[k]) :: p in log[..k])
  }

  ghost predicate FrameOk(g: seq<Node>, f: Frame) {
    && |f.rec.remaining| == |f.stage| == |g|
    && (forall i | 0 <= i < |g| :: f.rec.remaining[i] == EdgesInto(g, Settled(f.log), i, |g|))
    && (forall i | 0 <= i < |g| :: f.stage[i].Waiting? <==> f.rec.remaining[i] > 0)
    && (forall i | 0 <= i < |g| :: f.stage[i].Done? <==> i in f.log)
    && f.rec.pending == Unsettled(f.stage) && |f.log| + f.rec.pending == |g|
    && Ordered(g, f.log)
  }

  function NewFrame(g: seq<Node>): Frame {
    var rec := NewRecord(g);
    Frame(rec, seq(|g|, i requires 0 <= i < |g| => if rec.remaining[i] == 0 then Ready else Waiting),
          [])
  }

  function MarkReady(stage: seq<Stage>, ready: seq<nat>): seq<Stage> {
    seq(|stage|, i requires 0 <= i < |stage| => if i in ready then Ready else stage[i])
  }

  /** `on_done` under the lock, for a frame that exists. */
  function Settle(g: seq<Node>, f: Frame, i: nat): Frame
    requires CanSettle(g, f, i)
  {
    var (rec, ready) := SettledRecord(g, f.rec, i);
    Frame(rec, MarkReady(f.stage[i := Done], ready), f.log + [i])
  }

  function Moved(f: Frame, i: nat, s: Stage): Frame
    requires i < |f.stage|
  {
    f.(stage := f.stage[i := s])
  }

  function CancelledFrame(f: Frame): Frame { f.(rec := f.rec.(cancelled := true)) }

  lemma {:induction false} UnsettledAll(stage: seq<Stage>)
    requires forall i | 0 <= i < |stage| :: !stage[i].Done?
    ensures Unsettled(stage) == |stage|
  {
    if stage == [] {
    } else {
      UnsettledAll(stage[..|stage| - 1]);
    }
  }

  lemma {:induction false} UnsettledSame(s: seq<Stage>, t: seq<Stage>)
    requires |s| == |t| && forall i | 0 <= i < |s| :: s[i].Done? <==> t[i].Done?
    ensures Unsettled(s) == Unsettled(t)
    decreases |s|
  {
    if s == [] {
    } else {
      UnsettledSame(s[..|s| - 1], t[..|t| - 1]);
    }
  }

  lemma {:induction false} UnsettledLess(s: seq<Stage>, i: nat)
    requires i < |s| && !s[i].Done?
    ensures Unsettled(s[i := Done]) == Unsettled(s) - 1
    decreases |s|
  {
    var t := s[i := Done];
    if i == |s| - 1 {
      assert t[..|t| - 1] == s[..|s| - 1];
    } else {
      assert t[..|t| - 1] == s[..|s| - 1][i := Done];
      UnsettledLess(s[..|s| - 1], i);
    }
  }

  lemma {:induction false} UnsettledNone(s: seq<Stage>)
    requires Unsettled(s) == 0
    ensures forall i | 0 <= i < |s| :: s[i].Done?
  {
    if s == [] {
    } else {
      UnsettledNone(s[..|s| - 1]);
    }
  }

  lemma NewFrameOk(g: seq<Node>)
    requires GraphOk(g)
    ensures FrameOk(g, NewFrame(g))
  {
    var f := NewFrame(g);
    UnsettledAll(f.stage);
    assert Settled([]) == {};
  }

  lemma MoveKeepsFrame(g: seq<Node>, f: Frame, i: nat, s: Stage)
    requires FrameOk(g, f) && i < |g|
    requires !f.stage[i].Waiting? && !f.stage[i].Done? && !s.Waiting? && !s.Done?
    ensures FrameOk(g, Moved(f, i, s)) && FrameOk(g, CancelledFrame(f))
  {
    UnsettledSame(f.stage, f.stage[i := s]);
  }

  lemma EnoughEdges(g: seq<Node>, f: Frame, i: nat)
    requires GraphOk(g) && FrameOk(g, f) && i < |g| && i !in f.log
    ensures forall j | 0 <= j < |g| ::
              && Count(g[i].succ, j) <= f.rec.remaining[j]
              && EdgesInto(g, Settled(f.log + [i]), j, |g|)
                 == f.rec.remaining[j] - Count(g[i].succ, j)
  {
    assert Settled(f.log + [i]) == Settled(f.log) + {i};
    forall j | 0 <= j < |g|
      ensures Count(g[i].succ, j) <= f.rec.remaining[j]
      ensures EdgesInto(g, Settled(f.log + [i]), j, |g|)
           == f.rec.remaining[j] - Count(g[i].succ, j)
    {
      EdgesDone(g, Settled(f.log), i, j, |g|);
    }
  }

  lemma OrderedAppend(g: seq<Node>, f: Frame, i: nat)
    requires FrameOk(g, f) && i < |g| && i !in f.log && f.rec.remaining[i] == 0
    ensures Ordered(g, f.log + [i])
  {
    var log := f.log + [i];
    forall k: nat, p: nat | k < |log| && Edge(g, p, log[k]) ensures p in log[..k] {
      if k == |f.log| {
        NoEdgesLeft(g, Settled(f.log), i, |g|, p);
        assert log[..k] == f.log;
      } else {
        assert log[..k] == f.log[..k];
      }
    }
  }

  /** The counters fit the graph; this holds of every frame in flight. */
  predicate CanSettle(g: seq<Node>, f: Frame, i: nat) {
    |f.stage| == |g| && Fits(g, f.rec, i)
  }

  lemma FinishingCanSettle(g: seq<Node>, f: Frame, i: nat)
    requires GraphOk(g) && FrameOk(g, f) && i < |g| && !f.stage[i].Done?
    ensures CanSettle(g, f, i)
  {
    UnsettledLess(f.stage, i);
  }

  /** What settling does to the counters, and whom it wakes. */
  ghost predicate SettleEffect(g: seq<Node>, f: Frame, i: nat, h: Frame) {
    && |f.rec.remaining| == |f.stage| == |g| && i < |g|
    && |h.rec.remaining| == |h.stage| == |g|
    && h.log == f.log + [i] && h.rec.pending == f.rec.pending - 1
    && (forall j | 0 <= j < |g| ::
          h.rec.remaining[j] == EdgesInto(g, Settled(h.log), j, |g|) <= f.rec.remaining[j])
    && (forall j | 0 <= j < |g| ::
          h.stage[j] == if f.rec.remaining[j] > 0 && h.rec.remaining[j] == 0 then Ready
                        else if j == i then Done else f.stage[j])
  }

  lemma SettleHasEffect(g: seq<Node>, f: Frame, i: nat)
    requires GraphOk(g) && FrameOk(g, f) && CanSettle(g, f, i) && i !in f.log
    ensures SettleEffect(g, f, i, Settle(g, f, i))
  {
    EnoughEdges(g, f, i);
    SettleDecrements(g, f, i, Settled(f.log + [i]));
  }

  lemma SettleDecrements(g: seq<Node>, f: Frame, i: nat, done: set<nat>)
    requires CanSettle(g, f, i) && done == Settled(f.log + [i])
    requires forall j | 0 <= j < |g| ::
               && Count(g[i].succ, j) <= f.rec.remaining[j]
               && EdgesInto(g, done, j, |g|) == f.rec.remaining[j] - Count(g[i].succ, j)
    ensures SettleEffect(g, f, i, Settle(g, f, i))
  {
    DecrementCounts(f.rec.remaining, g[i].succ);
    var (remaining, ready) := Decrement(f.rec.remaining, g[i].succ);
    forall j | 0 <= j < |g|
      ensures j in ready <==> f.rec.remaining[j] > 0 && remaining[j] == 0
    {
      CountMember(g[i].succ, j);
    }
  }

  lemma SettleKeepsPending(stage: seq<Stage>, i: nat, after: seq<Stage>)
    requires i < |stage| == |after| && !stage[i].Done?
    requires forall j | 0 <= j < |stage| :: after[j].Done? <==> stage[j].Done? || j == i
    ensures Unsettled(after) == Unsettled(stage) - 1
  {
    UnsettledLess(stage, i);
    UnsettledSame(stage[i := Done], after);
  }

  /** Settling a node keeps the frame consistent; the nodes it makes ready were waiting. */
  lemma SettleKeepsFrame(g: seq<Node>, f: Frame, i: nat)
    requires GraphOk(g) && FrameOk(g, f) && CanSettle(g, f, i) && f.stage[i].Finishing?
    ensures FrameOk(g, Settle(g, f, i))
  {
    SettleHasEffect(g, f, i);
    EffectKeepsFrame(g, f, i, Settle(g, f, i));
  }

  lemma EffectKeepsFrame(g: seq<Node>, f: Frame, i: nat, h: Frame)
    requires FrameOk(g, f) && SettleEffect(g, f, i, h) && f.stage[i].Finishing?
    ensures FrameOk(g, h)
  {
    SettleKeepsPending(f.stage, i, h.stage);
    OrderedAppend(g, f, i);
  }

  // ---------------------------------------------------------------- the executor, as a value

  datatype Outcome = Outcome(id: nat, log: seq<nat>, cancelled: bool)

  /** `accepted` counts the dispatches that got in, `outcomes` lists the frames that ended. */
  datatype Exec = Exec(
    g: seq<Node>, maxInflight: nat, frames: map<nat, Frame>,
    completed: nat, cancelled: nat, failed: nat, overloadDropped: nat,
    accepted: nat, outcomes: seq<Outcome>)

  /** `Start` with `expired` models the deadline check at the beginning of a task; `Return` with
      `threw` an exception out of the node function. */
  datatype Event =
    | Dispatch(id: nat)
    | Submit(id: nat, i: nat, ok: bool)
    | Start(id: nat, i: nat, expired: bool)
    | Return(id: nat, i: nat, threw: bool)
    | OnDone(id: nat, i: nat)
    | Cancel(id: nat)

  predicate At(x: Exec, id: nat, i: nat, s: Stage) {
    id in x.frames && i < |x.frames[id].stage| && x.frames[id].stage[i] == s
  }

  predicate Enabled(x: Exec, e: Event) {
    match e
    case Dispatch(id) => |x.frames| >= x.maxInflight || id !in x.frames
    case Submit(id, i, _) => At(x, id, i, Ready)
    case Start(id, i, _) => At(x, id, i, Queued)
    case Return(id, i, _) => At(x, id, i, Running)
    case OnDone(id, i) => At(x, id, i, Finishing) && CanSettle(x.g, x.frames[id], i)
    case Cancel(_) => true
  }

  function Fail(x: Exec, id: nat): Exec {
    var y := x.(failed := x.failed + 1);
    if id in x.frames then y.(frames := x.frames[id := CancelledFrame(x.frames[id])]) else y
  }

  function Put(x: Exec, id: nat, f: Frame): Exec { x.(frames := x.frames[id := f]) }

  /** The frame whose last node settles is erased and counted. */
  function StoreSettled(x: Exec, id: nat, f: Frame): Exec {
    if f.rec.pending > 0 then Put(x, id, f)
    else
      x.(frames := x.frames - {id},
         completed := x.completed + (if f.rec.cancelled then 0 else 1),
         cancelled := x.cancelled + (if f.rec.cancelled then 1 else 0),
         outcomes := x.outcomes + [Outcome(id, f.log, f.rec.cancelled)])
  }

  function Next(x: Exec, e: Event): Exec
    requires Enabled(x, e)
  {
    match e
    case Dispatch(id) =>
      if |x.frames| >= x.maxInflight then x.(overloadDropped := x.overloadDropped + 1)
      else Put(x, id, NewFrame(x.g)).(accepted := x.accepted + 1)
    case Submit(id, i, ok) =>
      if ok then Put(x, id, Moved(x.frames[id], i, Queued))
      else Fail(Put(x, id, Moved(x.frames[id], i, Finishing)), id)
    case Start(id, i, expired) =>
      var f := x.frames[id];
      Put(x, id, Moved(f, i, if f.rec.cancelled || expired then Finishing else Running))
    case Return(id, i, threw) =>
      var y := Put(x, id, Moved(x.frames[id], i, Finishing));
      if threw then Fail(y, id) else y
    case OnDone(id, i) =>
      StoreSettled(x, id, Settle(x.g, x.frames[id], i))
    case Cancel(id) =>
      if id in x.frames then Put(x, id, CancelledFrame(x.frames[id])) else x
  }

  /** Every frame that ended settled each node exactly once, after all its predecessors. */
  ghost predicate Complete(g: seq<Node>, log: seq<nat>) {
    (forall i | 0 <= i < |g| :: i in log) && Ordered(g, log)
  }

  ghost predicate FramesOk(g: seq<Node>, frames: map<nat, Frame>) {
    forall id | id in frames :: FrameOk(g, frames[id])
  }

  ghost predicate OutcomesOk(g: seq<Node>, outcomes: seq<Outcome>) {
    forall k | 0 <= k < |outcomes| :: Complete(g, outcomes[k].log)
  }

  function Cancellations(outcomes: seq<Outcome>): nat {
    if outcomes == [] then 0
    else Cancellations(outcomes[..|outcomes| - 1])
         + if outcomes[|outcomes| - 1].cancelled then 1 else 0
  }

  ghost predicate Counted(x: Exec) {
    && |x.frames| <= x.maxInflight
    && x.accepted == |x.frames| + x.completed + x.cancelled
    && |x.outcomes| == x.completed + x.cancelled && x.cancelled == Cancellations(x.outcomes)
  }

  ghost predicate ExecInv(x: Exec) {
    GraphOk(x.g) && FramesOk(x.g, x.frames) && OutcomesOk(x.g, x.outcomes) && Counted(x)
  }

  /** A submission, a start or a return moves one node on and may cancel the frame. */
  ghost predicate TaskEffect(x: Exec, e: Event, y: Exec, s: Stage, f: Frame)
    requires !e.Dispatch? && !e.Cancel? && e.id in x.frames && e.i < |x.frames[e.id].stage|
  {
    && y == Put(x, e.id, f).(failed := y.failed)
    && (f == Moved(x.frames[e.id], e.i, s) || f == CancelledFrame(Moved(x.frames[e.id], e.i, s)))
  }

  lemma TaskMoves(x: Exec, e: Event) returns (s: Stage)
    requires Enabled(x, e) && (e.Submit? || e.Start? || e.Return?)
    ensures !x.frames[e.id].stage[e.i].Waiting? && !x.frames[e.id].stage[e.i].Done?
    ensures s.Queued? || s.Running? || s.Finishing?
    ensures Weight(s) < Weight(x.frames[e.id].stage[e.i])
    ensures e.id in Next(x, e).frames && TaskEffect(x, e, Next(x, e), s, Next(x, e).frames[e.id])
  {
    s := match e
         case Submit(_, _, ok) => if ok then Queued else Finishing
         case Start(_, _, expired) =>
           if x.frames[e.id].rec.cancelled || expired then Finishing else Running
         case _ => Finishing;
  }

  lemma FramesPut(g: seq<Node>, frames: map<nat, Frame>, id: nat, f: Frame)
    requires FramesOk(g, frames) && FrameOk(g, f)
    ensures FramesOk(g, frames[id := f])
  {
  }

  lemma FramesErased(g: seq<Node>, frames: map<nat, Frame>, id: nat)
    requires FramesOk(g, frames)
    ensures FramesOk(g, frames - {id})
  {
  }

  lemma OutcomesGrow(g: seq<Node>, outcomes: seq<Outcome>, o: Outcome)
    requires OutcomesOk(g, outcomes) && Complete(g, o.log)
    ensures OutcomesOk(g, outcomes + [o])
  {
  }

  lemma PutKeeps(x: Exec, y: Exec, id: nat, f: Frame)
    requires ExecInv(x) && id in x.frames && FrameOk(x.g, f)
    requires y == Put(x, id, f).(failed := y.failed)
    ensures ExecInv(y)
  {
    FramesPut(x.g, x.frames, id, f);
    MapGrows(x.frames, id, f);
  }

  lemma CancelKeepsFrame(g: seq<Node>, f: Frame)
    requires FrameOk(g, f)
    ensures FrameOk(g, CancelledFrame(f))
  {
  }

  lemma EraseKeeps(x: Exec, y: Exec, id: nat, o: Outcome)
    requires ExecInv(x) && id in x.frames && Complete(x.g, o.log)
    requires y == x.(frames := x.frames - {id}, completed := y.completed, cancelled := y.cancelled,
                     outcomes := x.outcomes + [o])
    requires y.completed == x.completed + (if o.cancelled then 0 else 1)
    requires y.cancelled == x.cancelled + (if o.cancelled then 1 else 0)
    ensures ExecInv(y)
  {
    FramesErased(x.g, x.frames, id);
    OutcomesGrow(x.g, x.outcomes, o);
    MapShrinks(x.frames, id);
    assert y.outcomes[..|y.outcomes| - 1] == x.outcomes;
  }

  lemma MovedOrCancelled(g: seq<Node>, f: Frame, i: nat, s: Stage, h: Frame)
    requires FrameOk(g, f) && i < |g| && !f.stage[i].Waiting? && !f.stage[i].Done?
    requires !s.Waiting? && !s.Done?
    requires h == Moved(f, i, s) || h == CancelledFrame(Moved(f, i, s))
    ensures FrameOk(g, h)
  {
    MoveKeepsFrame(g, f, i, s);
    CancelKeepsFrame(g, Moved(f, i, s));
  }

  lemma TaskKeeps(x: Exec, e: Event)
    requires ExecInv(x) && Enabled(x, e) && (e.Submit? || e.Start? || e.Return?)
    ensures ExecInv(Next(x, e))
  {
    var s := TaskMoves(x, e);
    TaskKeepsInv(x, e, Next(x, e), s, Next(x, e).frames[e.id]);
  }

  lemma TaskKeepsInv(x: Exec, e: Event, y: Exec, s: Stage, f: Frame)
    requires ExecInv(x) && !e.Dispatch? && !e.Cancel? && e.id in x.frames
    requires e.i < |x.frames[e.id].stage| && !s.Waiting? && !s.Done?
    requires !x.frames[e.id].stage[e.i].Waiting? && !x.frames[e.id].stage[e.i].Done?
    requires TaskEffect(x, e, y, s, f)
    ensures ExecInv(y)
  {
    MovedOrCancelled(x.g, x.frames[e.id], e.i, s, f);
    PutKeeps(x, y, e.id, f);
  }

  lemma AllSettled(g: seq<Node>, f: Frame)
    requires FrameOk(g, f) && f.rec.pending == 0
    ensures Complete(g, f.log)
  {
    UnsettledNone(f.stage);
    assert forall i | 0 <= i < |g| :: f.stage[i].Done?;
  }

  lemma OnDoneKeeps(x: Exec, e: Event)
    requires ExecInv(x) && Enabled(x, e) && e.OnDone?
    ensures ExecInv(Next(x, e))
  {
    SettleKeepsFrame(x.g, x.frames[e.id], e.i);
    SettledFrameKeeps(x, e.id, Settle(x.g, x.frames[e.id], e.i));
  }

  lemma SettledFrameKeeps(x: Exec, id: nat, f: Frame)
    requires ExecInv(x) && id in x.frames && FrameOk(x.g, f)
    ensures ExecInv(StoreSettled(x, id, f))
  {
    if f.rec.pending > 0 {
      PutKeeps(x, StoreSettled(x, id, f), id, f);
    } else {
      AllSettled(x.g, f);
      EraseKeeps(x, StoreSettled(x, id, f), id, Outcome(id, f.log, f.rec.cancelled));
    }
  }

  lemma DispatchKeeps(x: Exec, e: Event)
    requires ExecInv(x) && Enabled(x, e) && e.Dispatch?
    ensures ExecInv(Next(x, e))
  {
    NewFrameOk(x.g);
    FramesPut(x.g, x.frames, e.id, NewFrame(x.g));
    MapGrows(x.frames, e.id, NewFrame(x.g));
  }

  lemma CancelKeeps(x: Exec, e: Event)
    requires ExecInv(x) && Enabled(x, e) && e.Cancel?
    ensures ExecInv(Next(x, e))
  {
    if e.id in x.frames {
      CancelKeepsFrame(x.g, x.frames[e.id]);
      PutKeeps(x, Next(x, e), e.id, CancelledFrame(x.frames[e.id]));
    }
  }

  lemma StepKeepsExec(x: Exec, e: Event)
    requires ExecInv(x) && Enabled(x, e)
    ensures ExecInv(Next(x, e))
  {
    match e
    case Dispatch(_) => DispatchKeeps(x, e);
    case Submit(_, _, _) => TaskKeeps(x, e);
    case Start(_, _, _) => TaskKeeps(x, e);
    case Return(_, _, _) => TaskKeeps(x, e);
    case OnDone(_, _) => OnDoneKeeps(x, e);
    case Cancel(_) => CancelKeeps(x, e);
  }

  lemma StepKeepsSettings(x: Exec, e: Event)
    requires Enabled(x, e)
    ensures Next(x, e).g == x.g && Next(x, e).maxInflight == x.maxInflight
  {
  }

  // ---------------------------------------------------------------- runs

  ghost predicate IsRun(x: Exec, events: seq<Event>)
    decreases |events|
  {
    events == [] || (Enabled(x, events[0]) && IsRun(Next(x, events[0]), events[1..]))
  }

  ghost function After(x: Exec, events: seq<Event>): Exec
    requires IsRun(x, events)
    decreases |events|
  {
    if events == [] then x else After(Next(x, events[0]), events[1..])
  }

  function NewExec(g: seq<Node>, maxInflight: nat): Exec {
    Exec(g, maxInflight, map[], 0, 0, 0, 0, 0, [])
  }

  lemma {:induction false} RunKeepsExec(x: Exec, events: seq<Event>)
    requires ExecInv(x) && IsRun(x, events)
    ensures ExecInv(After(x, events))
    ensures After(x, events).g == x.g && After(x, events).maxInflight == x.maxInflight
    decreases |events|
  {
    if events == [] {
    } else {
      StepKeepsExec(x, events[0]);
      StepKeepsSettings(x, events[0]);
      RunKeepsExec(Next(x, events[0]), events[1..]);
    }
  }

  /** Under every mix of exceptions, refused submissions, cancels and deadlines: a frame that ended
      settled every node exactly once and in dependency order, the frames in flight never exceed
      the limit, and every accepted frame is in flight, completed or cancelled. */
  lemma EveryFrameRunsTheGraph(g: seq<Node>, maxInflight: nat, events: seq<Event>)
    requires GraphOk(g) && IsRun(NewExec(g, maxInflight), events)
    ensures var x := After(NewExec(g, maxInflight), events);
            && (forall k | 0 <= k < |x.outcomes| :: Complete(g, x.outcomes[k].log))
            && (forall id | id in x.frames :: Ordered(g, x.frames[id].log))
            && |x.frames| <= maxInflight
            && x.accepted == |x.frames| + x.completed + x.cancelled
            && |x.outcomes| == x.completed + x.cancelled && x.cancelled == Cancellations(x.outcomes)
  {
    RunKeepsExec(NewExec(g, maxInflight), events);
  }

  predicate Fails(e: Event) { (e.Submit? && !e.ok) || (e.Return? && e.threw) }

  function Failures(events: seq<Event>): nat {
    if events == [] then 0 else (if Fails(events[0]) then 1 else 0) + Failures(events[1..])
  }

  function Dispatches(events: seq<Event>): nat {
    if events == [] then 0 else (if events[0].Dispatch? then 1 else 0) + Dispatches(events[1..])
  }

  /** `failed_` counts the exceptions and the refused submissions; every dispatch is accepted or
      counted as overload. */
  lemma {:induction false} RunCounts(x: Exec, events: seq<Event>)
    requires IsRun(x, events)
    ensures After(x, events).failed == x.failed + Failures(events)
    ensures After(x, events).accepted + After(x, events).overloadDropped
         == x.accepted + x.overloadDropped + Dispatches(events)
    decreases |events|
  {
    if events == [] {
    } else {
      RunCounts(Next(x, events[0]), events[1..]);
    }
  }

  /** A dispatch gets in exactly when fewer frames than the limit are in flight; then the new frame
      is in flight with nothing settled, otherwise only the overload is counted. */
  lemma DispatchExactly(x: Exec, id: nat)
    requires Enabled(x, Dispatch(id))
    ensures var n := Next(x, Dispatch(id));
            if |x.frames| < x.maxInflight
            then n.accepted == x.accepted + 1 && n.overloadDropped == x.overloadDropped
                 && n.frames.Keys == x.frames.Keys + {id}
                 && n.frames[id].log == [] && n.frames[id].rec.pending == |x.g|
                 && !n.frames[id].rec.cancelled
                 && forall k | k in x.frames && k != id :: n.frames[k] == x.frames[k]
            else n == x.(overloadDropped := x.overloadDropped + 1)
  {
  }

  // ---------------------------------------------------------------- cancellation

  /** The frame stays in flight throughout. */
  ghost predicate InFlight(x: Exec, events: seq<Event>, id: nat)
    requires IsRun(x, events)
    decreases |events|
  {
    id in x.frames && (events == [] || InFlight(Next(x, events[0]), events[1..], id))
  }

  predicate Hits(e: Event, id: nat) { (e.Cancel? || Fails(e)) && e.id == id }

  ghost predicate HitIn(past: seq<Event>, id: nat) {
    exists k :: 0 <= k < |past| && Hits(past[k], id)
  }

  lemma HitCons(e: Event, rest: seq<Event>, id: nat)
    ensures HitIn([e] + rest, id) <==> Hits(e, id) || HitIn(rest, id)
  {
    var all := [e] + rest;
    assert all[0] == e && forall k | 0 <= k < |rest| :: all[k + 1] == rest[k];
    if HitIn(rest, id) {
      var k :| 0 <= k < |rest| && Hits(rest[k], id);
      assert Hits(all[k + 1], id);
    }
    if HitIn(all, id) && !Hits(e, id) {
      var k :| 0 <= k < |all| && Hits(all[k], id);
      assert rest[k - 1] == all[k];
    }
  }

  lemma StepFlags(x: Exec, e: Event, id: nat)
    requires Enabled(x, e) && id in x.frames && id in Next(x, e).frames
    requires e.Dispatch? ==> e.id != id || |x.frames| >= x.maxInflight
    ensures Next(x, e).frames[id].rec.cancelled <==> x.frames[id].rec.cancelled || Hits(e, id)
  {
  }

  /** A frame is cancelled exactly when it was cancelled from outside, or one of its nodes threw or
      was refused, since it was dispatched. */
  lemma {:induction false} CancelledWhenHit(x: Exec, events: seq<Event>, id: nat)
    requires IsRun(x, events) && InFlight(x, events, id)
    ensures id in After(x, events).frames
    ensures After(x, events).frames[id].rec.cancelled
            <==> x.frames[id].rec.cancelled || HitIn(events, id)
    decreases |events|
  {
    if events == [] {
    } else {
      StepFlags(x, events[0], id);
      CancelledWhenHit(Next(x, events[0]), events[1..], id);
      HitCons(events[0], events[1..], id);
      assert events == [events[0]] + events[1..];
    }
  }

  /** Once a frame is cancelled no further node function of it begins. */
  lemma {:induction false} CancelledStartsNothing(x: Exec, events: seq<Event>, id: nat, i: nat)
    requires IsRun(x, events) && InFlight(x, events, id)
    requires x.frames[id].rec.cancelled && At(After(x, events), id, i, Running)
    ensures At(x, id, i, Running)
    decreases |events|
  {
    if events == [] {
    } else {
      StepFlags(x, events[0], id);
      CancelledStartsNothing(Next(x, events[0]), events[1..], id, i);
    }
  }

  // ---------------------------------------------------------------- frames end

  function Weight(s: Stage): nat {
    match s
    case Waiting => 5
    case Ready => 4
    case Queued => 3
    case Running => 2
    case Finishing => 1
    case Done => 0
  }

  function Work(stage: seq<Stage>): nat {
    if stage == [] then 0 else Work(stage[..|stage| - 1]) + Weight(stage[|stage| - 1])
  }

  lemma {:induction false} WorkLess(s: seq<Stage>, t: seq<Stage>)
    requires |s| == |t| && forall i | 0 <= i < |s| :: Weight(t[i]) <= Weight(s[i])
    ensures Work(t) <= Work(s)
    ensures (exists i :: 0 <= i < |s| && Weight(t[i]) < Weight(s[i])) ==> Work(t) < Work(s)
    decreases |s|
  {
    if s == [] {
    } else {
      WorkLess(s[..|s| - 1], t[..|t| - 1]);
    }
  }

  predicate IsNodeEvent(e: Event) { !e.Dispatch? && !e.Cancel? }

  /** Each step on a node of a frame ends the frame or leaves it with less work. */
  lemma FrameStepsEnd(x: Exec, e: Event)
    requires ExecInv(x) && Enabled(x, e) && IsNodeEvent(e)
    ensures e.id in Next(x, e).frames ==>
              Work(Next(x, e).frames[e.id].stage) < Work(x.frames[e.id].stage)
  {
    var f := x.frames[e.id];
    if e.OnDone? {
      SettleWorks(x.g, f, e.i);
    } else {
      var s := TaskMoves(x, e);
      WorkOfMove(f.stage, e.i, s);
    }
  }

  lemma SettleWorks(g: seq<Node>, f: Frame, i: nat)
    requires GraphOk(g) && FrameOk(g, f) && CanSettle(g, f, i) && f.stage[i].Finishing?
    ensures Work(Settle(g, f, i).stage) < Work(f.stage)
  {
    SettleHasEffect(g, f, i);
    SettleLess(g, f, i, Settle(g, f, i));
  }

  lemma WorkOfMove(stage: seq<Stage>, i: nat, s: Stage)
    requires i < |stage| && Weight(s) < Weight(stage[i])
    ensures Work(stage[i := s]) < Work(stage)
  {
    var t := stage[i := s];
    assert Weight(t[i]) < Weight(stage[i]);
    WorkLess(stage, t);
  }

  lemma SettleLess(g: seq<Node>, f: Frame, i: nat, h: Frame)
    requires FrameOk(g, f) && SettleEffect(g, f, i, h) && f.stage[i].Finishing?
    ensures Work(h.stage) < Work(f.stage)
  {
    assert Weight(h.stage[i]) < Weight(f.stage[i]);
    WorkLess(f.stage, h.stage);
  }

  /** The other steps leave its work alone. */
  lemma OtherStepsKeepWork(x: Exec, e: Event, id: nat)
    requires Enabled(x, e) && id in x.frames && id in Next(x, e).frames
    requires e.Dispatch? || e.Cancel? || e.id != id
    ensures Next(x, e).frames[id].stage == x.frames[id].stage
  {
  }

  function StepsOf(events: seq<Event>, id: nat): nat {
    if events == [] then 0
    else (if IsNodeEvent(events[0]) && events[0].id == id then 1 else 0) + StepsOf(events[1..], id)
  }

  /** While a frame is in flight only so many steps can be taken on its nodes: no schedule keeps it
      busy for ever. */
  lemma {:induction false} FrameRunsAreShort(x: Exec, events: seq<Event>, id: nat)
    requires ExecInv(x) && IsRun(x, events) && InFlight(x, events, id)
    ensures StepsOf(events, id) <= Work(x.frames[id].stage)
    decreases |events|
  {
    if events == [] {
    } else {
      var e := events[0];
      StepKeepsExec(x, e);
      if IsNodeEvent(e) && e.id == id { FrameStepsEnd(x, e); } else { OtherStepsKeepWork(x, e, id); }
      FrameRunsAreShort(Next(x, e), events[1..], id);
    }
  }

  lemma {:induction false} WorkAtMost(stage: seq<Stage>)
    ensures Work(stage) <= 5 * |stage|
  {
    if stage == [] {
    } else {
      WorkAtMost(stage[..|stage| - 1]);
    }
  }

  /** So a frame takes at most five steps per node from its dispatch. */
  lemma NewFrameRunsAreShort(x: Exec, id: nat, events: seq<Event>)
    requires ExecInv(x) && Enabled(x, Dispatch(id)) && |x.frames| < x.maxInflight
    requires IsRun(Next(x, Dispatch(id)), events) && InFlight(Next(x, Dispatch(id)), events, id)
    ensures StepsOf(events, id) <= 5 * |x.g|
  {
    var y := Next(x, Dispatch(id));
    StepKeepsExec(x, Dispatch(id));
    FrameRunsAreShort(y, events, id);
    WorkAtMost(y.frames[id].stage);
  }

  /** An ended frame is counted as completed exactly when nothing hit it since its dispatch, and
      its outcome lists its nodes, the last one included.  A deadline is no hit: tasks that it
      skipped make no difference. */
  lemma CompletedUnlessHit(x: Exec, id: nat, events: seq<Event>, i: nat)
    requires Enabled(x, Dispatch(id)) && |x.frames| < x.maxInflight
    requires IsRun(Next(x, Dispatch(id)), events) && InFlight(Next(x, Dispatch(id)), events, id)
    requires var y := After(Next(x, Dispatch(id)), events);
             Enabled(y, OnDone(id, i)) && id !in Next(y, OnDone(id, i)).frames
    ensures var y := After(Next(x, Dispatch(id)), events);
            var z := Next(y, OnDone(id, i));
            var hit := HitIn(events, id);
            && z.completed == y.completed + (if hit then 0 else 1)
            && z.cancelled == y.cancelled + (if hit then 1 else 0)
            && z.outcomes == y.outcomes + [Outcome(id, y.frames[id].log + [i], hit)]
  {
    CancelledWhenHit(Next(x, Dispatch(id)), events, id);
  }

  /** A frame whose deadline passed before its only task began is counted as completed: the
      deadline skips the work but does not cancel the frame. */
  lemma ExpiredFrameCountsAsCompleted(g: seq<Node>)
    requires g == [Node([], 0)]
    ensures var events := [Dispatch(7), Submit(7, 0, true), Start(7, 0, true), OnDone(7, 0)];
            IsRun(NewExec(g, 1), events) && After(NewExec(g, 1), events).completed == 1
  {
    var x0 := NewExec(g, 1);
    var x1 := Next(x0, Dispatch(7));
    var x2 := Next(x1, Submit(7, 0, true));
    var x3 := Next(x2, Start(7, 0, true));
    assert x3.frames[7].stage == [Finishing] && x3.frames[7].rec == Record([0], 1, false);
    var x4 := Next(x3, OnDone(7, 0));
  }

  // ---------------------------------------------------------------- node functions do run

  /** What has happened to a node of a frame, read off the events alone. */
  datatype Story = Untouched | Sent | Refused | Skipped | Begun | Returned | Ended(how: Story)

  predicate About(e: Event, id: nat, i: nat) { IsNodeEvent(e) && e.id == id && e.i == i }

  /** A start is skipped when its deadline has passed or the frame was hit before. */
  ghost function StoryOf(past: seq<Event>, id: nat, i: nat): Story {
    if past == [] then Untouched
    else
      var before, e := past[..|past| - 1], past[|past| - 1];
      if !About(e, id, i) then StoryOf(before, id, i)
      else match e
        case Submit(_, _, ok) => if ok then Sent else Refused
        case Start(_, _, expired) => if expired || HitIn(before, id) then Skipped else Begun
        case Return(_, _, _) => Returned
        case _ => Ended(StoryOf(before, id, i))
  }

  /** How often the function of the node has returned. */
  function Returns(past: seq<Event>, id: nat, i: nat): nat {
    if past == [] then 0
    else
      var e := past[|past| - 1];
      Returns(past[..|past| - 1], id, i) + if e.Return? && e.id == id && e.i == i then 1 else 0
  }

  predicate Over(s: Story) { s.Refused? || s.Skipped? || s.Returned? }

  predicate Ran(s: Story) { s.Returned? || (s.Ended? && s.how.Returned?) }

  ghost predicate StageTells(stage: Stage, story: Story, runs: nat) {
    && runs == (if Ran(story) then 1 else 0)
    && match stage
       case Waiting => story.Untouched?
       case Ready => story.Untouched?
       case Queued => story.Sent?
       case Running => story.Begun?
       case Finishing => Over(story)
       case Done => story.Ended? && Over(story.how)
  }

  ghost predicate Tells(f: Frame, past: seq<Event>, id: nat) {
    && (forall i: nat | i < |f.stage| ::
          StageTells(f.stage[i], StoryOf(past, id, i), Returns(past, id, i)))
    && (f.rec.cancelled <==> HitIn(past, id))
  }

  lemma HitAppend(past: seq<Event>, e: Event, id: nat)
    ensures HitIn(past + [e], id) <==> HitIn(past, id) || Hits(e, id)
  {
    var all := past + [e];
    if HitIn(past, id) {
      var k :| 0 <= k < |past| && Hits(past[k], id);
      assert all[k] == past[k];
    }
    if Hits(e, id) { assert all[|past|] == e; }
  }

  lemma StoryAppend(past: seq<Event>, e: Event, id: nat, i: nat)
    ensures !About(e, id, i) ==> StoryOf(past + [e], id, i) == StoryOf(past, id, i)
                                 && Returns(past + [e], id, i) == Returns(past, id, i)
    ensures About(e, id, i) ==>
              StoryOf(past + [e], id, i)
              == (match e
                  case Submit(_, _, ok) => if ok then Sent else Refused
                  case Start(_, _, expired) => if expired || HitIn(past, id) then Skipped else Begun
                  case Return(_, _, _) => Returned
                  case _ => Ended(StoryOf(past, id, i)))
              && Returns(past + [e], id, i) == Returns(past, id, i) + if e.Return? then 1 else 0
  {
    assert (past + [e])[..|past|] == past;
  }

  /** What one event does to the stages of a frame that stays in flight. */
  ghost predicate StageStep(x: Exec, e: Event, id: nat, before: Frame, after: Frame) {
    && |after.stage| == |before.stage|
    && forall i: nat | i < |before.stage| ::
         if !About(e, id, i)
         then after.stage[i] == before.stage[i]
              || (before.stage[i].Waiting? && after.stage[i].Ready?)
         else match e
           case Submit(_, _, ok) =>
             before.stage[i].Ready? && after.stage[i] == if ok then Queued else Finishing
           case Start(_, _, expired) =>
             before.stage[i].Queued?
             && after.stage[i] == if expired || before.rec.cancelled then Finishing else Running
           case Return(_, _, _) => before.stage[i].Running? && after.stage[i].Finishing?
           case _ => before.stage[i].Finishing? && after.stage[i].Done?
  }

  lemma EffectStages(x: Exec, e: Event, f: Frame, h: Frame)
    requires e.OnDone? && SettleEffect(x.g, f, e.i, h) && f.stage[e.i].Finishing?
    requires forall j | 0 <= j < |x.g| :: f.stage[j].Waiting? <==> f.rec.remaining[j] > 0
    ensures StageStep(x, e, e.id, f, h)
  {
  }

  lemma OnDoneStages(x: Exec, e: Event)
    requires GraphOk(x.g) && Enabled(x, e) && e.OnDone? && FrameOk(x.g, x.frames[e.id])
    ensures StageStep(x, e, e.id, x.frames[e.id], Settle(x.g, x.frames[e.id], e.i))
  {
    SettleHasEffect(x.g, x.frames[e.id], e.i);
    EffectStages(x, e, x.frames[e.id], Settle(x.g, x.frames[e.id], e.i));
  }

  lemma TaskStages(x: Exec, e: Event)
    requires Enabled(x, e) && (e.Submit? || e.Start? || e.Return?)
    ensures e.id in Next(x, e).frames
    ensures StageStep(x, e, e.id, x.frames[e.id], Next(x, e).frames[e.id])
  {
  }

  lemma SettledIsStored(x: Exec, e: Event)
    requires Enabled(x, e) && e.OnDone? && e.id in Next(x, e).frames
    ensures Next(x, e).frames[e.id] == Settle(x.g, x.frames[e.id], e.i)
  {
  }

  lemma StepIsStageStep(x: Exec, e: Event, id: nat)
    requires ExecInv(x) && Enabled(x, e) && id in x.frames && id in Next(x, e).frames
    ensures StageStep(x, e, id, x.frames[id], Next(x, e).frames[id])
  {
    if e.Dispatch? || e.Cancel? || e.id != id {
      OtherStepsKeepWork(x, e, id);
    } else if e.OnDone? {
      SettledIsStored(x, e);
      assert FrameOk(x.g, x.frames[e.id]);
      OnDoneStages(x, e);
    } else {
      TaskStages(x, e);
    }
  }

  lemma StepTells(x: Exec, e: Event, past: seq<Event>, id: nat)
    requires ExecInv(x) && Enabled(x, e) && id in x.frames && id in Next(x, e).frames
    requires Tells(x.frames[id], past, id)
    ensures Tells(Next(x, e).frames[id], past + [e], id)
  {
    StepIsStageStep(x, e, id);
    StepFlags(x, e, id);
    HitAppend(past, e, id);
    StageStepTells(x, e, past, id, x.frames[id], Next(x, e).frames[id]);
  }

  lemma StageStepTells(x: Exec, e: Event, past: seq<Event>, id: nat, before: Frame, after: Frame)
    requires Tells(before, past, id) && StageStep(x, e, id, before, after)
    requires after.rec.cancelled <==> HitIn(past + [e], id)
    ensures Tells(after, past + [e], id)
  {
    forall i: nat | i < |after.stage|
      ensures StageTells(after.stage[i], StoryOf(past + [e], id, i), Returns(past + [e], id, i))
    {
      StoryAppend(past, e, id, i);
      assert StageTells(before.stage[i], StoryOf(past, id, i), Returns(past, id, i));
    }
  }

  lemma StepTellsAll(x: Exec, e: Event, past: seq<Event>, id: nat)
    requires ExecInv(x) && Enabled(x, e) && id in x.frames && id in Next(x, e).frames
    requires Tells(x.frames[id], past, id)
    ensures Tells(Next(x, e).frames[id], past + [e], id)
    ensures ExecInv(Next(x, e)) && Next(x, e).g == x.g
  {
    StepTells(x, e, past, id);
    StepKeepsExec(x, e);
    StepKeepsSettings(x, e);
  }

  lemma Regroup(past: seq<Event>, events: seq<Event>)
    requires events != []
    ensures past + [events[0]] + events[1..] == past + events
  {
  }

  lemma InFlightNext(x: Exec, events: seq<Event>, id: nat)
    requires IsRun(x, events) && InFlight(x, events, id) && events != []
    ensures Enabled(x, events[0]) && id in x.frames && id in Next(x, events[0]).frames
    ensures IsRun(Next(x, events[0]), events[1..])
    ensures InFlight(Next(x, events[0]), events[1..], id)
    ensures After(x, events) == After(Next(x, events[0]), events[1..])
  {
  }

  lemma {:induction false} RunTells(x: Exec, past: seq<Event>, events: seq<Event>, id: nat)
    requires ExecInv(x) && IsRun(x, events) && InFlight(x, events, id)
    requires Tells(x.frames[id], past, id)
    ensures id in After(x, events).frames && ExecInv(After(x, events))
    ensures After(x, events).g == x.g
    ensures Tells(After(x, events).frames[id], past + events, id)
    decreases |events|
  {
    if events == [] {
      assert past + events == past;
    } else {
      InFlightNext(x, events, id);
      StepTellsAll(x, events[0], past, id);
      Regroup(past, events);
      RunTells(Next(x, events[0]), past + [events[0]], events[1..], id);
    }
  }

  /** A refusal or a skipped start, as found among the events. */
  ghost predicate WasSkipped(past: seq<Event>, id: nat, i: nat) {
    exists k :: 0 <= k < |past| && past[k].Start? && past[k].id == id && past[k].i == i
                && (past[k].expired || HitIn(past[..k], id))
  }

  lemma {:induction false} StoryMeans(past: seq<Event>, id: nat, i: nat)
    ensures var s := StoryOf(past, id, i);
            && (s.Refused? || (s.Ended? && s.how.Refused?) ==> Submit(id, i, false) in past)
            && (s.Skipped? || (s.Ended? && s.how.Skipped?) ==> WasSkipped(past, id, i))
  {
    if past == [] {
    } else {
      var before, last := past[..|past| - 1], |past| - 1;
      StoryMeans(before, id, i);
      if WasSkipped(before, id, i) {
        var k :| 0 <= k < |before| && before[k].Start? && before[k].id == id && before[k].i == i
                 && (before[k].expired || HitIn(before[..k], id));
        assert past[k] == before[k] && past[..k] == before[..k];
      }
      assert past == before + [past[last]];
    }
  }

  /** No deadline of the frame passed before one of its tasks began. */
  predicate NoneExpired(events: seq<Event>, id: nat) {
    forall k | 0 <= k < |events| :: events[k].Start? && events[k].id == id ==> !events[k].expired
  }

  ghost predicate Undisturbed(events: seq<Event>, id: nat) {
    !HitIn(events, id) && NoneExpired(events, id)
  }

  lemma RefusalIsHit(events: seq<Event>, id: nat, i: nat)
    requires Submit(id, i, false) in events
    ensures HitIn(events, id)
  {
    var k :| 0 <= k < |events| && events[k] == Submit(id, i, false);
    assert Hits(events[k], id);
  }

  lemma SkipIsDisturbance(events: seq<Event>, id: nat, i: nat)
    requires WasSkipped(events, id, i)
    ensures !Undisturbed(events, id)
  {
    var k :| 0 <= k < |events| && events[k].Start? && events[k].id == id && events[k].i == i
             && (events[k].expired || HitIn(events[..k], id));
    if !events[k].expired {
      var j :| 0 <= j < |events[..k]| && Hits(events[..k][j], id);
      assert Hits(events[j], id);
    }
  }

  lemma UndisturbedStory(events: seq<Event>, id: nat, i: nat)
    requires Undisturbed(events, id)
    ensures var s := StoryOf(events, id, i);
            && !s.Refused? && !s.Skipped?
            && (s.Ended? ==> !s.how.Refused? && !s.how.Skipped?)
  {
    StoryMeans(events, id, i);
    if Submit(id, i, false) in events { RefusalIsHit(events, id, i); }
    if WasSkipped(events, id, i) { SkipIsDisturbance(events, id, i); }
  }

  lemma NewFrameTells(g: seq<Node>, id: nat)
    ensures Tells(NewFrame(g), [], id)
  {
  }

  lemma DispatchPutsNewFrame(x: Exec, id: nat)
    requires Enabled(x, Dispatch(id)) && |x.frames| < x.maxInflight
    ensures id in Next(x, Dispatch(id)).frames
    ensures Next(x, Dispatch(id)).frames[id] == NewFrame(x.g) && Next(x, Dispatch(id)).g == x.g
  {
  }

  /** A frame in flight since its dispatch tells its events. */
  lemma DispatchedTells(x: Exec, id: nat, events: seq<Event>)
    requires ExecInv(x) && Enabled(x, Dispatch(id)) && |x.frames| < x.maxInflight
    requires IsRun(Next(x, Dispatch(id)), events) && InFlight(Next(x, Dispatch(id)), events, id)
    ensures var y := After(Next(x, Dispatch(id)), events);
            ExecInv(y) && y.g == x.g && id in y.frames && Tells(y.frames[id], events, id)
  {
    var y := Next(x, Dispatch(id));
    StepKeepsExec(x, Dispatch(id));
    DispatchPutsNewFrame(x, id);
    NewFrameTells(x.g, id);
    RunTells(y, [], events, id);
    assert [] + events == events;
  }

  /** Since its dispatch, a settled node of a frame in flight has had its function return exactly
      once before it settled, unless its submission was refused, or its start came after a hit or a
      passed deadline, and then never.  On an undisturbed frame every settled node has run. */
  lemma SettledNodesRan(x: Exec, id: nat, events: seq<Event>, i: nat)
    requires ExecInv(x) && Enabled(x, Dispatch(id)) && |x.frames| < x.maxInflight
    requires IsRun(Next(x, Dispatch(id)), events) && InFlight(Next(x, Dispatch(id)), events, id)
    requires var y := After(Next(x, Dispatch(id)), events);
             id in y.frames && i in y.frames[id].log
    ensures StoryOf(events, id, i).Ended? && Returns(events, id, i) <= 1
    ensures Returns(events, id, i) == 1 <==> StoryOf(events, id, i) == Ended(Returned)
    ensures Returns(events, id, i) == 1 || Submit(id, i, false) in events
            || WasSkipped(events, id, i)
    ensures Undisturbed(events, id) ==> StoryOf(events, id, i) == Ended(Returned)
  {
    var y := After(Next(x, Dispatch(id)), events);
    DispatchedTells(x, id, events);
    DoneIsLogged(y, id, i);
    DoneStory(y.frames[id], events, id, i);
    if Undisturbed(events, id) { UndisturbedStory(events, id, i); }
  }

  lemma DoneStory(f: Frame, events: seq<Event>, id: nat, i: nat)
    requires Tells(f, events, id) && i < |f.stage| && f.stage[i].Done?
    ensures StoryOf(events, id, i).Ended? && Over(StoryOf(events, id, i).how)
    ensures Returns(events, id, i) == if StoryOf(events, id, i) == Ended(Returned) then 1 else 0
    ensures Returns(events, id, i) == 1 || Submit(id, i, false) in events
            || WasSkipped(events, id, i)
  {
    StoryMeans(events, id, i);
    assert StageTells(f.stage[i], StoryOf(events, id, i), Returns(events, id, i));
  }

  lemma DoneIsLogged(x: Exec, id: nat, i: nat)
    requires ExecInv(x) && id in x.frames && i in x.frames[id].log
    ensures i < |x.frames[id].stage| && x.frames[id].stage[i].Done?
  {
    assert FrameOk(x.g, x.frames[id]);
    var k: nat :| k < |x.frames[id].log| && x.frames[id].log[k] == i;
  }

  /** A frame that ends undisturbed has run every node function exactly once. */
  lemma EndedFrameRanEverything(x: Exec, id: nat, events: seq<Event>, i: nat, j: nat)
    requires ExecInv(x) && Enabled(x, Dispatch(id)) && |x.frames| < x.maxInflight && j < |x.g|
    requires IsRun(Next(x, Dispatch(id)), events) && InFlight(Next(x, Dispatch(id)), events, id)
    requires Undisturbed(events, id)
    requires var y := After(Next(x, Dispatch(id)), events);
             Enabled(y, OnDone(id, i)) && id !in Next(y, OnDone(id, i)).frames
    ensures Returns(events, id, j) == 1
  {
    var y := After(Next(x, Dispatch(id)), events);
    DispatchedTells(x, id, events);
    LastNodeEnds(y, id, i, j);
    UndisturbedStory(events, id, j);
    OverStory(y.frames[id], events, id, j);
  }

  lemma OverStory(f: Frame, events: seq<Event>, id: nat, j: nat)
    requires Tells(f, events, id) && j < |f.stage| && (f.stage[j].Done? || f.stage[j].Finishing?)
    requires var s := StoryOf(events, id, j);
             !s.Refused? && !s.Skipped? && (s.Ended? ==> !s.how.Refused? && !s.how.Skipped?)
    ensures Returns(events, id, j) == 1
  {
    assert StageTells(f.stage[j], StoryOf(events, id, j), Returns(events, id, j));
  }

  /** When a frame ends, its last node is finishing and all others are settled. */
  lemma LastNodeEnds(y: Exec, id: nat, i: nat, j: nat)
    requires ExecInv(y) && Enabled(y, OnDone(id, i)) && id !in Next(y, OnDone(id, i)).frames
    requires j < |y.g|
    ensures j < |y.frames[id].stage|
    ensures y.frames[id].stage[j].Done? || (j == i && y.frames[id].stage[j].Finishing?)
  {
    var f := y.frames[id];
    assert FrameOk(y.g, f);
    SettleKeepsFrame(y.g, f, i);
    AllSettled(y.g, Settle(y.g, f, i));
    LastNode(y.g, f, i, j);
  }

  lemma LastNode(g: seq<Node>, f: Frame, i: nat, j: nat)
    requires FrameOk(g, f) && Complete(g, f.log + [i]) && j < |g|
    ensures f.stage[j].Done? || j == i
  {
    assert j in f.log + [i];
  }

  /** The work of a frame in flight is never stuck: in a graph without cycles some node can be
      submitted, started, returned from or settled. */
  lemma FrameNeverStuck(x: Exec, id: nat, rank: seq<nat>) returns (e: Event)
    requires ExecInv(x) && id in x.frames && x.frames[id].rec.pending > 0
    requires Topological(x.g, rank)
    ensures IsNodeEvent(e) && e.id == id && Enabled(x, e)
  {
    var f := x.frames[id];
    var j := SomeUnsettled(f.stage);
    var i := Descend(x.g, f, rank, j);
    FinishingCanSettle(x.g, f, i);
    e := match f.stage[i]
         case Ready => Submit(id, i, true)
         case Queued => Start(id, i, false)
         case Running => Return(id, i, false)
         case _ => OnDone(id, i);
  }

  lemma {:induction false} SomeUnsettled(s: seq<Stage>) returns (i: nat)
    requires Unsettled(s) > 0
    ensures i < |s| && !s[i].Done?
  {
    if s[|s| - 1].Done? { i := SomeUnsettled(s[..|s| - 1]); } else { i := |s| - 1; }
  }

  lemma {:induction false} Descend(g: seq<Node>, f: Frame, rank: seq<nat>, j: nat) returns (i: nat)
    requires FrameOk(g, f) && Topological(g, rank) && j < |g| && !f.stage[j].Done?
    ensures i < |g| && !f.stage[i].Done? && !f.stage[i].Waiting?
    decreases if j < |rank| then rank[j] else 0
  {
    if f.stage[j].Waiting? {
      var p := SomeEdgeLeft(g, Settled(f.log), j, |g|);
      i := Descend(g, f, rank, p);
    } else {
      i := j;
    }
  }

  ghost predicate Unfinished(frames: map<nat, Frame>) {
    forall id | id in frames :: frames[id].rec.pending > 0
  }

  /** Unless the graph is empty, a frame in flight always has a node left to settle: it is erased
      exactly when its last node settles. */
  lemma {:induction false} ErasedWithLastNode(x: Exec, events: seq<Event>)
    requires IsRun(x, events) && x.g != [] && Unfinished(x.frames)
    ensures Unfinished(After(x, events).frames)
    decreases |events|
  {
    if events == [] {
    } else {
      StepKeepsSettings(x, events[0]);
      ErasedWithLastNode(Next(x, events[0]), events[1..]);
    }
  }

  function Position(log: seq<nat>, i: nat): nat
    requires i in log
  {
    if log[0] == i then 0 else 1 + Position(log[1..], i)
  }

  lemma {:induction false} PositionAt(log: seq<nat>, k: nat)
    requires k < |log| && forall a, b | 0 <= a < b < |log| :: log[a] != log[b]
    ensures Position(log, log[k]) == k
    decreases k
  {
    if k == 0 {
    } else {
      assert log[1..][k - 1] == log[k];
      PositionAt(log[1..], k - 1);
    }
  }

  lemma {:induction false} PositionInPrefix(log: seq<nat>, k: nat, p: nat)
    requires k <= |log| && p in log[..k]
    ensures p in log && Position(log, p) < k
    decreases k
  {
    if log[0] == p {
    } else {
      assert log[..k][1..] == log[1..][..k - 1];
      PositionInPrefix(log[1..], k - 1, p);
    }
  }

  /** Conversely, the order in which one frame settled numbers the graph: frames can end only if it
      has no cycle. */
  lemma EndedFrameOrdersGraph(g: seq<Node>, log: seq<nat>) returns (rank: seq<nat>)
    requires Complete(g, log)
    ensures Topological(g, rank)
  {
    rank := seq(|g|, i requires 0 <= i < |g| => Position(log, i));
    forall p: nat, i: nat | Edge(g, p, i) && i < |g| ensures rank[p] < rank[i] {
      assert i in log;
      var k: nat :| k < |log| && log[k] == i;
      PositionAt(log, k);
      PositionInPrefix(log, k, p);
    }
  }

  lemma {:induction false} EmptyGraphKeeps(x: Exec, events: seq<Event>, id: nat)
    requires IsRun(x, events) && x.g == [] && id in x.frames
    ensures id in After(x, events).frames
    decreases |events|
  {
    if events == [] {
    } else {
      EmptyGraphKeeps(Next(x, events[0]), events[1..], id);
    }
  }

  /** On an empty graph a dispatched frame has no node to settle: it stays in flight for ever, and
      takes its place among the frames in flight. */
  lemma EmptyGraphLeaks(maxInflight: nat, id: nat, events: seq<Event>)
    requires maxInflight > 0 && IsRun(Next(NewExec([], maxInflight), Dispatch(id)), events)
    ensures IsRun(NewExec([], maxInflight), [Dispatch(id)] + events)
    ensures id in After(NewExec([], maxInflight), [Dispatch(id)] + events).frames
  {
    EmptyGraphKeeps(Next(NewExec([], maxInflight), Dispatch(id)), events, id);
  }

  // ---------------------------------------------------------------- the executor, in place

  function Roots(g: seq<Node>, n: nat): seq<nat>
    requires n <= |g|
  {
    if n == 0 then [] else Roots(g, n - 1) + if g[n - 1].inDegree == 0 then [n - 1] else []
  }

  /** The roots are the nodes a new frame has ready. */
  lemma {:induction false} RootsAreReady(g: seq<Node>, n: nat)
    requires n <= |g|
    ensures forall i: nat :: i in Roots(g, n) <==> i < n && NewFrame(g).stage[i].Ready?
    ensures forall k, l | 0 <= k < l < |Roots(g, n)| :: Roots(g, n)[k] < Roots(g, n)[l]
  {
    if n == 0 {
    } else {
      RootsAreReady(g, n - 1);
      var before := Roots(g, n - 1);
      forall k | 0 <= k < |before| ensures before[k] < n - 1 { assert before[k] in before; }
    }
  }

  function Records(frames: map<nat, Frame>): map<nat, Record> {
    map id | id in frames :: frames[id].rec
  }

  function MarkCancelled(frames: map<nat, Record>, id: nat): map<nat, Record> {
    if id in frames then frames[id := frames[id].(cancelled := true)] else frames
  }

  class DagExecutor {
    var nodes: seq<Node>
    var frames: map<nat, Record>
    const maxInflight: nat
    var completed: nat
    var cancelled: nat
    var failed: nat
    var overloadDropped: nat

    constructor (maxInflight: nat)
      ensures Represents(NewExec([], maxInflight))
    {
      this.maxInflight := maxInflight;
      nodes, frames := [], map[];
      completed, cancelled, failed, overloadDropped := 0, 0, 0, 0;
    }

    /** The object holds the graph, the records and the counters of `x`. */
    ghost predicate Represents(x: Exec)
      reads this
    {
      && nodes == x.g && maxInflight == x.maxInflight && frames == Records(x.frames)
      && completed == x.completed && cancelled == x.cancelled
      && failed == x.failed && overloadDropped == x.overloadDropped
    }

    method AddNode() returns (index: nat)
      modifies this`nodes
      ensures index == |old(nodes)| && nodes == old(nodes) + [Node([], 0)]
    {
      nodes := nodes + [Node([], 0)];
      index := |nodes| - 1;
    }

    method AddEdge(from: nat, to: nat)
      requires from < |nodes| && to < |nodes|
      modifies this`nodes
      ensures nodes == AddedEdge(old(nodes), from, to)
    {
      nodes := nodes[from := nodes[from].(succ := nodes[from].succ + [to])];
      nodes := nodes[to := nodes[to].(inDegree := nodes[to].inDegree + 1)];
    }

    /** The stretch of `dispatch` under the lock.  A frame whose id is still in flight counts as
        started but leaves the record of the old one as it is.  `x` is a state of the executor that
        this object holds. */
    method DispatchLocked(id: nat, ghost x: Exec) returns (ok: bool, roots: seq<nat>)
      modifies this`frames, this`overloadDropped
      ensures ok == (|old(frames)| < maxInflight)
      ensures ok ==> roots == Roots(nodes, |nodes|) && overloadDropped == old(overloadDropped)
                     && frames == if id in old(frames) then old(frames)
                                  else old(frames)[id := NewRecord(nodes)]
      ensures !ok ==> roots == [] && frames == old(frames)
                      && overloadDropped == old(overloadDropped) + 1
      ensures old(Represents(x)) && Enabled(x, Dispatch(id)) ==> Represents(Next(x, Dispatch(id)))
    {
      roots := [];
      if old(Represents(x)) && Enabled(x, Dispatch(id)) { DispatchOnRecords(x, id); }
      if |frames| >= maxInflight {
        overloadDropped := overloadDropped + 1;
        return false, [];
      }
      var remaining := CopyInDegrees();
      var i := 0;
      while i < |nodes|
        invariant i <= |nodes| && roots == Roots(nodes, i)
      {
        if remaining[i] == 0 { roots := roots + [i]; }
        i := i + 1;
      }
      if id !in frames { frames := frames[id := Record(remaining, |nodes|, false)]; }
      ok := true;
    }

    method CopyInDegrees() returns (remaining: seq<nat>)
      ensures remaining == NewRecord(nodes).remaining
    {
      remaining := [];
      var n := 0;
      while n < |nodes|
        invariant n == |remaining| <= |nodes|
        invariant forall i | 0 <= i < n :: remaining[i] == nodes[i].inDegree
      {
        remaining := remaining + [nodes[n].inDegree];
        n := n + 1;
      }
    }

    /** The stretch of `on_done` under the lock. */
    method OnDoneLocked(i: nat, id: nat, ghost x: Exec) returns (ready: seq<nat>)
      requires i < |nodes| && (id in frames ==> Fits(nodes, frames[id], i))
      modifies this`frames, this`completed, this`cancelled
      ensures id !in old(frames) ==>
                ready == [] && frames == old(frames)
                && completed == old(completed) && cancelled == old(cancelled)
      ensures id in old(frames) ==>
                ready == SettledRecord(nodes, old(frames)[id], i).1
                && Stored(SettledRecord(nodes, old(frames)[id], i).0, id, old(frames),
                          old(completed), old(cancelled), frames, completed, cancelled)
      ensures old(Represents(x)) && Enabled(x, OnDone(id, i)) ==> Represents(Next(x, OnDone(id, i)))
    {
      if id !in frames { return []; }
      if Represents(x) && Enabled(x, OnDone(id, i)) { SettleOnRecords(x, id, i); }
      var remaining;
      remaining, ready := DecrementSuccessors(i, frames[id].remaining);
      StoreRecord(id, frames[id].(remaining := remaining, pending := frames[id].pending - 1));
    }

    method StoreRecord(id: nat, rec: Record)
      modifies this`frames, this`completed, this`cancelled
      ensures Stored(rec, id, old(frames), old(completed), old(cancelled),
                     frames, completed, cancelled)
    {
      if rec.pending == 0 {
        if rec.cancelled { cancelled := cancelled + 1; } else { completed := completed + 1; }
        frames := frames - {id};
      } else {
        frames := frames[id := rec];
      }
    }

    /** The loop over the successors. */
    method DecrementSuccessors(i: nat, before: seq<nat>) returns (remaining: seq<nat>, ready: seq<nat>)
      requires i < |nodes| == |before|
      requires forall k | 0 <= k < |nodes[i].succ| :: nodes[i].succ[k] < |nodes|
      ensures (remaining, ready) == Decrement(before, nodes[i].succ)
    {
      var succ := nodes[i].succ;
      remaining, ready := before, [];
      var k := 0;
      while k < |succ|
        invariant k <= |succ| && |remaining| == |nodes|
        invariant (remaining, ready) == Decrement(before, succ[..k])
      {
        assert succ[..k + 1][..k] == succ[..k];
        var s := succ[k];
        remaining := remaining[s := Minus1(remaining[s])];
        if remaining[s] == 0 { ready := ready + [s]; }
        k := k + 1;
      }
      assert succ[..k] == succ;
    }

    /** `e` is the refused submission or the exception that led here. */
    method Fail(id: nat, ghost x: Exec, ghost e: Event)
      modifies this`frames, this`failed
      ensures failed == old(failed) + 1 && frames == MarkCancelled(old(frames), id)
      ensures old(Represents(x)) && Fails(e) && e.id == id && Enabled(x, e) ==> Represents(Next(x, e))
    {
      if old(Represents(x)) && Fails(e) && e.id == id && Enabled(x, e) { FailOnRecords(x, e); }
      failed := failed + 1;
      if id in frames { frames := frames[id := frames[id].(cancelled := true)]; }
    }

    method Cancel(id: nat, ghost x: Exec)
      modifies this`frames
      ensures frames == MarkCancelled(old(frames), id)
      ensures old(Represents(x)) ==> Represents(Next(x, Event.Cancel(id)))
    {
      if id in frames { frames := frames[id := frames[id].(cancelled := true)]; }
    }
  }

  /** The frame whose last node has settled is erased and counted. */
  ghost predicate Stored(rec: Record, id: nat, before: map<nat, Record>, completed: nat,
                         cancelled: nat, after: map<nat, Record>, completed': nat, cancelled': nat)
  {
    && after == (if rec.pending > 0 then before[id := rec] else before - {id})
    && completed' == completed + (if rec.pending == 0 && !rec.cancelled then 1 else 0)
    && cancelled' == cancelled + (if rec.pending == 0 && rec.cancelled then 1 else 0)
  }

  /** What the steps of the state machine do to the records. */
  lemma SettleOnRecords(x: Exec, id: nat, i: nat)
    requires Enabled(x, OnDone(id, i))
    ensures Fits(x.g, x.frames[id].rec, i)
    ensures var n := Next(x, OnDone(id, i));
            && Stored(SettledRecord(x.g, x.frames[id].rec, i).0, id, Records(x.frames), x.completed,
                      x.cancelled, Records(n.frames), n.completed, n.cancelled)
            && n.g == x.g && n.maxInflight == x.maxInflight && n.failed == x.failed
            && n.overloadDropped == x.overloadDropped
  {
  }

  /** The list of ready nodes is exactly the nodes that the step takes from waiting to ready. */
  lemma ReadyAreWoken(g: seq<Node>, f: Frame, i: nat)
    requires GraphOk(g) && FrameOk(g, f) && CanSettle(g, f, i) && f.stage[i].Finishing?
    ensures forall j: nat :: j in SettledRecord(g, f.rec, i).1 <==>
              j < |g| && f.stage[j].Waiting? && Settle(g, f, i).stage[j].Ready?
  {
    SettleHasEffect(g, f, i);
    EnoughEdges(g, f, i);
    DecrementCounts(f.rec.remaining, g[i].succ);
    forall j: nat | j < |g| ensures j in g[i].succ <==> Count(g[i].succ, j) > 0 {
      CountMember(g[i].succ, j);
    }
  }

  lemma DispatchOnRecords(x: Exec, id: nat)
    requires Enabled(x, Dispatch(id))
    ensures |Records(x.frames)| == |x.frames|
    ensures var n := Next(x, Dispatch(id));
            && Records(n.frames) == (if |x.frames| >= x.maxInflight then Records(x.frames)
                                     else Records(x.frames)[id := NewRecord(x.g)])
            && (id in x.frames ==> |x.frames| >= x.maxInflight)
            && n == x.(frames := n.frames, accepted := n.accepted,
                       overloadDropped := n.overloadDropped)
            && n.overloadDropped
               == x.overloadDropped + if |x.frames| >= x.maxInflight then 1 else 0
  {
    SameKeysSameSize(Records(x.frames), x.frames);
  }

  lemma FailOnRecords(x: Exec, e: Event)
    requires Enabled(x, e) && Fails(e)
    ensures var n := Next(x, e);
            && Records(n.frames) == MarkCancelled(Records(x.frames), e.id)
            && n == x.(frames := n.frames, failed := x.failed + 1)
  {
  }

  /** Every other step leaves the object as it is: it only moves a task from one stage to the
      next. */
  lemma OtherStepsKeepRecords(x: Exec, e: Event)
    requires Enabled(x, e) && (e.Submit? || e.Start? || e.Return?) && !Fails(e)
    ensures var n := Next(x, e);
            Records(n.frames) == Records(x.frames) && n == x.(frames := n.frames)
  {
  }
}
