/** The two-way approximate time synchroniser: two bounded queues sorted by source stamp, and a
    greedy match of their heads. */
module ApproxTimeSync {
  import opened Common

  datatype Item<T> = Item(t: int, v: T)
  datatype Pair<A, B> = Pair(a: A, b: B, dt: int)

  function Abs(x: int): nat { if x < 0 then -x else x }

  predicate InOrder<T>(q: seq<Item<T>>) {
    forall i, j | 0 <= i < j < |q| :: q[i].t <= q[j].t
  }

  // ---------------------------------------------------------------- the greedy match

  datatype Drained<A, B> = Drained(
    pairs: seq<Pair<A, B>>, qa: seq<Item<A>>, qb: seq<Item<B>>, droppedA: nat, droppedB: nat)

  /** Match or drop heads until a queue runs empty. */
  function Drain<A, B>(qa: seq<Item<A>>, qb: seq<Item<B>>, window: int): Drained<A, B>
    decreases |qa| + |qb|
  {
    if qa == [] || qb == [] then Drained([], qa, qb, 0, 0)
    else
      var dt := qa[0].t - qb[0].t;
      if Abs(dt) <= window then
        Prepend([Pair(qa[0].v, qb[0].v, dt)], 0, 0, Drain(qa[1..], qb[1..], window))
      else if dt < 0 then Prepend([], 1, 0, Drain(qa[1..], qb, window))
      else Prepend([], 0, 1, Drain(qa, qb[1..], window))
  }

  function Prepend<A, B>(pairs: seq<Pair<A, B>>, a: nat, b: nat, d: Drained<A, B>): Drained<A, B> {
    Drained(pairs + d.pairs, d.qa, d.qb, a + d.droppedA, b + d.droppedB)
  }

  /** Continue a match with newly arrived items. */
  function More<A, B>(d: Drained<A, B>, xa: seq<Item<A>>, xb: seq<Item<B>>, window: int): Drained<A, B> {
    Prepend(d.pairs, d.droppedA, d.droppedB, Drain(d.qa + xa, d.qb + xb, window))
  }

  /** One queue is always run empty, nothing is lost or invented, what stays is a tail of what
      came, and only stamps within the window are paired. */
  lemma {:induction false} DrainAccounts<A, B>(qa: seq<Item<A>>, qb: seq<Item<B>>, window: int)
    ensures var d := Drain(qa, qb, window);
            && (d.qa == [] || d.qb == [])
            && |qa| == |d.pairs| + d.droppedA + |d.qa|
            && |qb| == |d.pairs| + d.droppedB + |d.qb|
            && d.qa == qa[|qa| - |d.qa|..] && d.qb == qb[|qb| - |d.qb|..]
            && forall i | 0 <= i < |d.pairs| :: Abs(d.pairs[i].dt) <= window
    decreases |qa| + |qb|
  {
    if qa == [] || qb == [] {
    } else {
      var dt := qa[0].t - qb[0].t;
      if Abs(dt) <= window { DrainAccounts(qa[1..], qb[1..], window); }
      else if dt < 0 { DrainAccounts(qa[1..], qb, window); }
      else { DrainAccounts(qa, qb[1..], window); }
    }
  }

  lemma PrependMore<A, B>(pairs: seq<Pair<A, B>>, a: nat, b: nat, d: Drained<A, B>,
                          xa: seq<Item<A>>, xb: seq<Item<B>>, window: int)
    ensures More(Prepend(pairs, a, b, d), xa, xb, window)
         == Prepend(pairs, a, b, More(d, xa, xb, window))
  {
    var rest := Drain(d.qa + xa, d.qb + xb, window).pairs;
    assert (pairs + d.pairs) + rest == pairs + (d.pairs + rest);
  }

  /** Matching is online: what arrives later only continues the match, it never revises it. */
  lemma {:induction false} DrainOnline<A, B>(qa: seq<Item<A>>, qb: seq<Item<B>>,
                                            xa: seq<Item<A>>, xb: seq<Item<B>>, window: int)
    ensures Drain(qa + xa, qb + xb, window) == More(Drain(qa, qb, window), xa, xb, window)
    decreases |qa| + |qb|
  {
    if qa == [] || qb == [] {
      var d := Drain(qa + xa, qb + xb, window);
      assert [] + d.pairs == d.pairs;
    } else {
      assert (qa + xa)[1..] == qa[1..] + xa && (qb + xb)[1..] == qb[1..] + xb;
      var dt := qa[0].t - qb[0].t;
      if Abs(dt) <= window {
        DrainOnline(qa[1..], qb[1..], xa, xb, window);
        PrependMore([Pair(qa[0].v, qb[0].v, dt)], 0, 0, Drain(qa[1..], qb[1..], window), xa, xb, window);
      } else if dt < 0 {
        DrainOnline(qa[1..], qb, xa, xb, window);
        PrependMore([], 1, 0, Drain(qa[1..], qb, window), xa, xb, window);
      } else {
        DrainOnline(qa, qb[1..], xa, xb, window);
        PrependMore([], 0, 1, Drain(qa, qb[1..], window), xa, xb, window);
      }
    }
  }

  // ---------------------------------------------------------------- the match is maximum

  /** A pairing of the items from `i` and `j` on: each item is used at most once and partners are
      within the window. */
  ghost predicate Pairing<A, B>(m: map<nat, nat>, as': seq<Item<A>>, bs: seq<Item<B>>,
                                i: nat, j: nat, window: int)
  {
    (forall k | k in m :: Near(as', bs, i, j, k, m[k], window)) && Injective(m)
  }

  ghost predicate Near<A, B>(as': seq<Item<A>>, bs: seq<Item<B>>, i: nat, j: nat,
                             k: nat, l: nat, window: int)
  {
    i <= k < |as'| && j <= l < |bs| && Abs(as'[k].t - bs[l].t) <= window
  }

  ghost predicate Injective(m: map<nat, nat>) {
    forall k, l | k in m && l in m && k != l :: m[k] != m[l]
  }

  /** A pairing that uses neither head is a pairing of the tails. */
  lemma HeadsUnused<A, B>(m: map<nat, nat>, n: map<nat, nat>, as': seq<Item<A>>,
                          bs: seq<Item<B>>, i: nat, j: nat, window: int)
    requires Pairing(m, as', bs, i, j, window)
    requires forall k | k in n :: k in m && n[k] == m[k] && k != i && m[k] != j
    ensures Pairing(n, as', bs, i + 1, j + 1, window)
  {
    forall k | k in n ensures Near(as', bs, i + 1, j + 1, k, n[k], window) {
      assert Near(as', bs, i, j, k, m[k], window);
    }
  }

  /** When one head is too old for the other, no pairing uses it. */
  lemma TooOld<A, B>(m: map<nat, nat>, as': seq<Item<A>>, bs: seq<Item<B>>,
                     i: nat, j: nat, window: int)
    requires InOrder(as') && InOrder(bs) && i < |as'| && j < |bs|
    requires Pairing(m, as', bs, i, j, window) && Abs(as'[i].t - bs[j].t) > window
    ensures as'[i].t < bs[j].t ==> Pairing(m, as', bs, i + 1, j, window)
    ensures as'[i].t >= bs[j].t ==> Pairing(m, as', bs, i, j + 1, window)
  {
    forall k | k in m
      ensures as'[i].t < bs[j].t ==> Near(as', bs, i + 1, j, k, m[k], window)
      ensures as'[i].t >= bs[j].t ==> Near(as', bs, i, j + 1, k, m[k], window)
    {
      assert Near(as', bs, i, j, k, m[k], window);
    }
  }

  /** The greedy match, read by position. */
  lemma DrainAt<A, B>(as': seq<Item<A>>, bs: seq<Item<B>>, i: nat, j: nat, window: int)
    requires i <= |as'| && j <= |bs|
    ensures var pairs := Drain(as'[i..], bs[j..], window).pairs;
            if i == |as'| || j == |bs| then pairs == []
            else
              var dt := as'[i].t - bs[j].t;
              if Abs(dt) <= window then
                pairs == [Pair(as'[i].v, bs[j].v, dt)]
                         + Drain(as'[i + 1..], bs[j + 1..], window).pairs
              else if dt < 0 then pairs == Drain(as'[i + 1..], bs[j..], window).pairs
              else pairs == Drain(as'[i..], bs[j + 1..], window).pairs
  {
    if i < |as'| && j < |bs| {
      assert as'[i..][1..] == as'[i + 1..] && bs[j..][1..] == bs[j + 1..];
    }
  }

  /** The exchange step: once the heads are paired with each other, at most one pair of any other
      pairing is given up. */
  lemma Exchange<A, B>(m: map<nat, nat>, as': seq<Item<A>>, bs: seq<Item<B>>,
                       i: nat, j: nat, window: int) returns (n: map<nat, nat>)
    requires InOrder(as') && InOrder(bs) && i < |as'| && j < |bs|
    requires Pairing(m, as', bs, i, j, window)
    ensures Pairing(n, as', bs, i + 1, j + 1, window) && |m| <= |n| + 1
  {
    if k :| k in m && m[k] == j {
      if i in m && k != i {
        n := ExchangeBoth(m, as', bs, i, j, k, window);
      } else {
        MapShrinks(m, k);
        n := m - {k};
        HeadsUnused(m, n, as', bs, i, j, window);
      }
    } else if i in m {
      MapShrinks(m, i);
      n := m - {i};
      HeadsUnused(m, n, as', bs, i, j, window);
    } else {
      n := m;
      HeadsUnused(m, n, as', bs, i, j, window);
    }
  }

  /** The partners of the two heads can be paired with each other instead. */
  lemma PartnersMeet<A, B>(as': seq<Item<A>>, bs: seq<Item<B>>, i: nat, j: nat,
                           k: nat, l: nat, window: int)
    requires InOrder(as') && InOrder(bs) && i < k < |as'| && j < l < |bs|
    requires Abs(as'[i].t - bs[l].t) <= window && Abs(as'[k].t - bs[j].t) <= window
    ensures Abs(as'[k].t - bs[l].t) <= window
  {
  }

  /** `k` takes over the partner of `i`. */
  lemma RewiredInjective(m: map<nat, nat>, i: nat, k: nat)
    requires Injective(m) && i in m && k in m && i != k
    ensures Injective((m - {i})[k := m[i]]) && |(m - {i})[k := m[i]]| == |m| - 1
  {
    MapShrinks(m, i);
  }

  lemma ExchangeBoth<A, B>(m: map<nat, nat>, as': seq<Item<A>>, bs: seq<Item<B>>,
                           i: nat, j: nat, k: nat, window: int) returns (n: map<nat, nat>)
    requires InOrder(as') && InOrder(bs) && i < |as'| && j < |bs|
    requires Pairing(m, as', bs, i, j, window) && i in m && k in m && k != i && m[k] == j
    ensures Pairing(n, as', bs, i + 1, j + 1, window) && |m| == |n| + 1
  {
    assert Near(as', bs, i, j, i, m[i], window) && Near(as', bs, i, j, k, m[k], window);
    PartnersMeet(as', bs, i, j, k, m[i], window);
    RewiredInjective(m, i, k);
    n := (m - {i})[k := m[i]];
    forall l | l in n ensures Near(as', bs, i + 1, j + 1, l, n[l], window) {
      if l != k { assert Near(as', bs, i, j, l, m[l], window); }
    }
  }

  /** No pairing within the window has more pairs than the greedy one. */
  lemma {:induction false} GreedyIsMaximum<A, B>(m: map<nat, nat>, as': seq<Item<A>>,
                                                bs: seq<Item<B>>, i: nat, j: nat, window: int)
    requires InOrder(as') && InOrder(bs) && i <= |as'| && j <= |bs|
    requires Pairing(m, as', bs, i, j, window)
    ensures |m| <= |Drain(as'[i..], bs[j..], window).pairs|
    decreases |as'| - i + |bs| - j
  {
    DrainAt(as', bs, i, j, window);
    if i == |as'| || j == |bs| {
    } else if Abs(as'[i].t - bs[j].t) <= window {
      var n := Exchange(m, as', bs, i, j, window);
      GreedyIsMaximum(n, as', bs, i + 1, j + 1, window);
    } else {
      TooOld(m, as', bs, i, j, window);
      if as'[i].t < bs[j].t {
        GreedyIsMaximum(m, as', bs, i + 1, j, window);
      } else {
        GreedyIsMaximum(m, as', bs, i, j + 1, window);
      }
    }
  }

  ghost predicate Increasing(s: seq<nat>, from: nat, to: nat) {
    (forall k | 0 <= k < |s| :: from <= s[k] < to)
    && forall k, l | 0 <= k < l < |s| :: s[k] < s[l]
  }

  ghost predicate PairsAt<A, B>(pairs: seq<Pair<A, B>>, ia: seq<nat>, ib: seq<nat>,
                                as': seq<Item<A>>, bs: seq<Item<B>>)
  {
    |ia| == |ib| == |pairs|
    && forall k | 0 <= k < |pairs| ::
         ia[k] < |as'| && ib[k] < |bs|
         && pairs[k] == Pair(as'[ia[k]].v, bs[ib[k]].v, as'[ia[k]].t - bs[ib[k]].t)
  }

  lemma IncreasingCons(i: nat, s: seq<nat>, to: nat)
    requires i < to && Increasing(s, i + 1, to)
    ensures Increasing([i] + s, i, to)
  {
  }

  lemma PairsCons<A, B>(pairs: seq<Pair<A, B>>, ia: seq<nat>, ib: seq<nat>, i: nat, j: nat,
                        as': seq<Item<A>>, bs: seq<Item<B>>)
    requires PairsAt(pairs, ia, ib, as', bs) && i < |as'| && j < |bs|
    ensures PairsAt([Pair(as'[i].v, bs[j].v, as'[i].t - bs[j].t)] + pairs, [i] + ia, [j] + ib, as', bs)
  {
  }

  /** The greedy pairs are themselves such a pairing, in the order of both streams. */
  lemma {:induction false} GreedyIsPairing<A, B>(as': seq<Item<A>>, bs: seq<Item<B>>,
                                                i: nat, j: nat, window: int)
    returns (ia: seq<nat>, ib: seq<nat>)
    requires i <= |as'| && j <= |bs|
    ensures PairsAt(Drain(as'[i..], bs[j..], window).pairs, ia, ib, as', bs)
    ensures Increasing(ia, i, |as'|) && Increasing(ib, j, |bs|)
    decreases |as'| - i + |bs| - j
  {
    DrainAt(as', bs, i, j, window);
    if i == |as'| || j == |bs| {
      ia, ib := [], [];
    } else if Abs(as'[i].t - bs[j].t) <= window {
      ia, ib := GreedyIsPairing(as', bs, i + 1, j + 1, window);
      PairsCons(Drain(as'[i + 1..], bs[j + 1..], window).pairs, ia, ib, i, j, as', bs);
      IncreasingCons(i, ia, |as'|);
      IncreasingCons(j, ib, |bs|);
      ia, ib := [i] + ia, [j] + ib;
    } else if as'[i].t < bs[j].t {
      ia, ib := GreedyIsPairing(as', bs, i + 1, j, window);
    } else {
      ia, ib := GreedyIsPairing(as', bs, i, j + 1, window);
    }
  }

  // ---------------------------------------------------------------- the synchroniser, as a value

  datatype Stats = Stats(
    paired: nat, droppedA: nat, droppedB: nat, overflowA: nat, overflowB: nat,
    reordered: nat, sumAbsDt: nat, maxAbsDt: nat)

  datatype Sync<A, B> = Sync(qa: seq<Item<A>>, qb: seq<Item<B>>, st: Stats)

  /** The first position whose stamp is above `t`, in an ordered queue. */
  function UpperBound<T>(q: seq<Item<T>>, t: int): (k: nat)
    ensures k <= |q|
  {
    if q == [] then 0
    else if t < q[0].t then 0
    else 1 + UpperBound(q[1..], t)
  }

  predicate Late<T>(q: seq<Item<T>>, t: int) {
    q != [] && t < q[|q| - 1].t
  }

  function Inserted<T>(q: seq<Item<T>>, x: Item<T>): seq<Item<T>> {
    if Late(q, x.t) then q[..UpperBound(q, x.t)] + [x] + q[UpperBound(q, x.t)..] else q + [x]
  }

  /** Dropping the oldest until the bound holds. */
  function Trimmed<T>(q: seq<Item<T>>, maxQueue: nat): seq<Item<T>> {
    if |q| > maxQueue then q[|q| - maxQueue..] else q
  }

  function Overflow<T>(q: seq<Item<T>>, maxQueue: nat): nat {
    if |q| > maxQueue then |q| - maxQueue else 0
  }

  function SumAbs<A, B>(pairs: seq<Pair<A, B>>): nat {
    if pairs == [] then 0 else SumAbs(pairs[..|pairs| - 1]) + Abs(pairs[|pairs| - 1].dt)
  }

  function MaxAbs<A, B>(pairs: seq<Pair<A, B>>): nat {
    if pairs == [] then 0
    else
      var m, last := MaxAbs(pairs[..|pairs| - 1]), Abs(pairs[|pairs| - 1].dt);
      if last > m then last else m
  }

  function Tally<A, B>(st: Stats, d: Drained<A, B>): Stats {
    st.(paired := st.paired + |d.pairs|,
        droppedA := st.droppedA + d.droppedA, droppedB := st.droppedB + d.droppedB,
        sumAbsDt := st.sumAbsDt + SumAbs(d.pairs),
        maxAbsDt := if MaxAbs(d.pairs) > st.maxAbsDt then MaxAbs(d.pairs) else st.maxAbsDt)
  }

  datatype Op<A, B> = PushA(a: Item<A>) | PushB(b: Item<B>)

  /** The queues and the counters just before the match. */
  function Stored<A, B>(s: Sync<A, B>, op: Op<A, B>, maxQueue: nat): Sync<A, B> {
    match op
    case PushA(x) =>
      var q := Inserted(s.qa, x);
      Sync(Trimmed(q, maxQueue), s.qb,
           s.st.(reordered := s.st.reordered + (if Late(s.qa, x.t) then 1 else 0),
                 overflowA := s.st.overflowA + Overflow(q, maxQueue)))
    case PushB(x) =>
      var q := Inserted(s.qb, x);
      Sync(s.qa, Trimmed(q, maxQueue),
           s.st.(reordered := s.st.reordered + (if Late(s.qb, x.t) then 1 else 0),
                 overflowB := s.st.overflowB + Overflow(q, maxQueue)))
  }

  function Push<A, B>(s: Sync<A, B>, op: Op<A, B>, window: int, maxQueue: nat)
    : (r: (Sync<A, B>, seq<Pair<A, B>>))
  {
    var n := Stored(s, op, maxQueue);
    var d := Drain(n.qa, n.qb, window);
    (Sync(d.qa, d.qb, Tally(n.st, d)), d.pairs)
  }

  function Run<A, B>(ops: seq<Op<A, B>>, window: int, maxQueue: nat)
    : (r: (Sync<A, B>, seq<Pair<A, B>>))
  {
    if ops == [] then (Sync([], [], Stats(0, 0, 0, 0, 0, 0, 0, 0)), [])
    else
      var (s, out) := Run(ops[..|ops| - 1], window, maxQueue);
      var (n, more) := Push(s, ops[|ops| - 1], window, maxQueue);
      (n, out + more)
  }

  function StreamA<A, B>(ops: seq<Op<A, B>>): seq<Item<A>> {
    if ops == [] then []
    else
      var s, op := StreamA(ops[..|ops| - 1]), ops[|ops| - 1];
      if op.PushA? then s + [op.a] else s
  }

  function StreamB<A, B>(ops: seq<Op<A, B>>): seq<Item<B>> {
    if ops == [] then []
    else
      var s, op := StreamB(ops[..|ops| - 1]), ops[|ops| - 1];
      if op.PushB? then s + [op.b] else s
  }

  // ---------------------------------------------------------------- every run

  lemma {:induction false} UpperBoundSplits<T>(q: seq<Item<T>>, t: int)
    requires InOrder(q)
    ensures var k := UpperBound(q, t);
            (forall i | 0 <= i < k :: q[i].t <= t) && forall i | k <= i < |q| :: t < q[i].t
  {
    if q == [] || t < q[0].t {
    } else {
      UpperBoundSplits(q[1..], t);
    }
  }

  /** Inserting keeps the order and loses nothing; trimming keeps the order. */
  lemma InsertKeepsOrder<T>(q: seq<Item<T>>, x: Item<T>)
    requires InOrder(q)
    ensures InOrder(Inserted(q, x)) && |Inserted(q, x)| == |q| + 1
  {
    UpperBoundSplits(q, x.t);
    InsertAtKeepsOrder(q, x, if Late(q, x.t) then UpperBound(q, x.t) else |q|);
    assert q[..|q|] + [x] + q[|q|..] == q + [x];
  }

  lemma InsertAtKeepsOrder<T>(q: seq<Item<T>>, x: Item<T>, k: nat)
    requires InOrder(q) && k <= |q|
    requires (forall i | 0 <= i < k :: q[i].t <= x.t) && forall i | k <= i < |q| :: x.t <= q[i].t
    ensures InOrder(q[..k] + [x] + q[k..])
  {
    var r := q[..k] + [x] + q[k..];
    forall i, j | 0 <= i < j < |r| ensures r[i].t <= r[j].t {
      assert r[i] == if i < k then q[i] else if i == k then x else q[i - 1];
      assert r[j] == if j < k then q[j] else if j == k then x else q[j - 1];
    }
  }

  /** The new item goes behind all that are not later, equal stamps included. */
  lemma InsertGoesBehindEquals<T>(q: seq<Item<T>>, x: Item<T>) returns (k: nat)
    requires InOrder(q)
    ensures k <= |q| && Inserted(q, x) == q[..k] + [x] + q[k..]
    ensures (forall i | 0 <= i < k :: q[i].t <= x.t) && forall i | k <= i < |q| :: x.t < q[i].t
  {
    UpperBoundSplits(q, x.t);
    k := if Late(q, x.t) then UpperBound(q, x.t) else |q|;
    assert q[..|q|] + [x] + q[|q|..] == q + [x];
  }

  /** An item counts as reordered exactly when a later one is queued already. */
  lemma LateExactly<T>(q: seq<Item<T>>, t: int)
    requires InOrder(q)
    ensures Late(q, t) <==> exists i :: 0 <= i < |q| && t < q[i].t
  {
  }

  /** What exceeds the bound is lost at the old end. */
  lemma {:induction false} TrimDropsOldest<T>(q: seq<Item<T>>, maxQueue: nat)
    ensures var n := Trimmed(q, maxQueue);
            && |n| == (if |q| <= maxQueue then |q| else maxQueue)
            && |n| + Overflow(q, maxQueue) == |q|
            && forall k | 0 <= k < |n| :: n[k] == q[Overflow(q, maxQueue) + k]
  {
    var n, lost := Trimmed(q, maxQueue), Overflow(q, maxQueue);
    assert n == q[lost..];
    forall k | 0 <= k < |n| ensures n[k] == q[lost + k] { assert q[lost..][k] == q[lost + k]; }
  }

  lemma {:induction false} MaxAbsIsLargest<A, B>(pairs: seq<Pair<A, B>>)
    ensures forall k | 0 <= k < |pairs| :: Abs(pairs[k].dt) <= MaxAbs(pairs)
    ensures if pairs == [] then MaxAbs(pairs) == 0
            else exists k :: 0 <= k < |pairs| && Abs(pairs[k].dt) == MaxAbs(pairs)
  {
    if pairs == [] {
    } else {
      var n := |pairs| - 1;
      MaxAbsIsLargest(pairs[..n]);
      if n > 0 {
        var k :| 0 <= k < n && Abs(pairs[..n][k].dt) == MaxAbs(pairs[..n]);
        assert pairs[..n][k] == pairs[k];
      }
      assert forall k | 0 <= k < n :: pairs[..n][k] == pairs[k];
    }
  }

  /** The mean distance in time is at most the largest, and all are summed. */
  lemma {:induction false} SumIsWithinLargest<A, B>(pairs: seq<Pair<A, B>>)
    ensures MaxAbs(pairs) <= SumAbs(pairs) <= |pairs| * MaxAbs(pairs)
  {
    if pairs == [] {
    } else {
      var n := |pairs| - 1;
      SumIsWithinLargest(pairs[..n]);
      MulAtMost(n, MaxAbs(pairs[..n]), MaxAbs(pairs));
    }
  }

  lemma MulAtMost(n: nat, a: nat, b: nat)
    requires a <= b
    ensures n * a <= n * b && (n + 1) * b == n * b + b
  {
  }

  lemma InsertKeepsItems<T>(q: seq<Item<T>>, x: Item<T>)
    ensures multiset(Inserted(q, x)) == multiset(q) + multiset{x}
  {
    var k := UpperBound(q, x.t);
    assert q == q[..k] + q[k..];
  }

  lemma {:induction false} SumsConcat<A, B>(s: seq<Pair<A, B>>, t: seq<Pair<A, B>>)
    ensures SumAbs(s + t) == SumAbs(s) + SumAbs(t)
    ensures MaxAbs(s + t) == if MaxAbs(t) > MaxAbs(s) then MaxAbs(t) else MaxAbs(s)
    decreases |t|
  {
    if t == [] {
      assert s + t == s;
    } else {
      assert (s + t)[..|s + t| - 1] == s + t[..|t| - 1];
      SumsConcat(s, t[..|t| - 1]);
    }
  }

  /** What holds after any pushes at all, in order or not, with or without overflow. */
  ghost predicate Accounts<A, B>(s: Sync<A, B>, out: seq<Pair<A, B>>, pushesA: nat, pushesB: nat,
                                 window: int, maxQueue: nat)
  {
    && InOrder(s.qa) && InOrder(s.qb) && (s.qa == [] || s.qb == [])
    && |s.qa| <= maxQueue && |s.qb| <= maxQueue
    && pushesA == s.st.paired + s.st.droppedA + s.st.overflowA + |s.qa|
    && pushesB == s.st.paired + s.st.droppedB + s.st.overflowB + |s.qb|
    && s.st.paired == |out| && s.st.sumAbsDt == SumAbs(out) && s.st.maxAbsDt == MaxAbs(out)
    && forall i | 0 <= i < |out| :: Abs(out[i].dt) <= window
  }

  lemma PushAccounts<A, B>(s: Sync<A, B>, out: seq<Pair<A, B>>, op: Op<A, B>,
                           a: nat, b: nat, window: int, maxQueue: nat)
    requires Accounts(s, out, a, b, window, maxQueue)
    ensures var (n, more) := Push(s, op, window, maxQueue);
            Accounts(n, out + more, a + (if op.PushA? then 1 else 0),
                     b + (if op.PushB? then 1 else 0), window, maxQueue)
  {
    if op.PushA? {
      InsertKeepsOrder(s.qa, op.a);
    } else {
      InsertKeepsOrder(s.qb, op.b);
    }
    var n := Stored(s, op, maxQueue);
    DrainKeepsAccounts(n, out, a + (if op.PushA? then 1 else 0), b + (if op.PushB? then 1 else 0),
                       window, maxQueue);
  }

  lemma DrainKeepsAccounts<A, B>(s: Sync<A, B>, out: seq<Pair<A, B>>, a: nat, b: nat,
                                 window: int, maxQueue: nat)
    requires InOrder(s.qa) && InOrder(s.qb) && |s.qa| <= maxQueue && |s.qb| <= maxQueue
    requires a == s.st.paired + s.st.droppedA + s.st.overflowA + |s.qa|
    requires b == s.st.paired + s.st.droppedB + s.st.overflowB + |s.qb|
    requires s.st.paired == |out| && s.st.sumAbsDt == SumAbs(out) && s.st.maxAbsDt == MaxAbs(out)
    requires forall i | 0 <= i < |out| :: Abs(out[i].dt) <= window
    ensures var d := Drain(s.qa, s.qb, window);
            Accounts(Sync(d.qa, d.qb, Tally(s.st, d)), out + d.pairs, a, b, window, maxQueue)
  {
    var d := Drain(s.qa, s.qb, window);
    DrainAccounts(s.qa, s.qb, window);
    SumsConcat(out, d.pairs);
  }

  lemma {:induction false} RunAccounts<A, B>(ops: seq<Op<A, B>>, window: int, maxQueue: nat)
    ensures var (s, out) := Run(ops, window, maxQueue);
            Accounts(s, out, |StreamA(ops)|, |StreamB(ops)|, window, maxQueue)
    decreases |ops|
  {
    if ops == [] {
    } else {
      var before := ops[..|ops| - 1];
      RunAccounts(before, window, maxQueue);
      var (s, out) := Run(before, window, maxQueue);
      PushAccounts(s, out, ops[|ops| - 1], |StreamA(before)|, |StreamB(before)|, window, maxQueue);
    }
  }

  // ---------------------------------------------------------------- interleaving is invisible

  ghost predicate SameAsWhole<A, B>(s: Sync<A, B>, out: seq<Pair<A, B>>, as': seq<Item<A>>,
                                    bs: seq<Item<B>>, window: int)
  {
    Drain(as', bs, window) == Drained(out, s.qa, s.qb, s.st.droppedA, s.st.droppedB)
  }

  /** An item that is not late goes to the back, and without overflow nothing is trimmed. */
  lemma InOrderAppends<T>(as': seq<Item<T>>, x: Item<T>, q: seq<Item<T>>, maxQueue: nat)
    requires InOrder(as' + [x]) && |q| <= |as'| && q == as'[|as'| - |q|..]
    requires Overflow(Inserted(q, x), maxQueue) == 0
    ensures Trimmed(Inserted(q, x), maxQueue) == q + [x]
  {
    if q != [] {
      assert (as' + [x])[|as'| - 1] == as'[|as'| - 1] == q[|q| - 1];
      assert (as' + [x])[|as'|] == x;
    }
  }

  lemma PushSameAsWhole<A, B>(s: Sync<A, B>, out: seq<Pair<A, B>>, op: Op<A, B>,
                              as': seq<Item<A>>, bs: seq<Item<B>>, window: int, maxQueue: nat)
    requires SameAsWhole(s, out, as', bs, window)
    requires op.PushA? ==> InOrder(as' + [op.a])
    requires op.PushB? ==> InOrder(bs + [op.b])
    requires Stored(s, op, maxQueue).st.overflowA == s.st.overflowA
    requires Stored(s, op, maxQueue).st.overflowB == s.st.overflowB
    ensures var (n, more) := Push(s, op, window, maxQueue);
            SameAsWhole(n, out + more, if op.PushA? then as' + [op.a] else as',
                        if op.PushB? then bs + [op.b] else bs, window)
  {
    match op
    case PushA(x) => PushASameAsWhole(s, out, x, as', bs, window, maxQueue);
    case PushB(x) => PushBSameAsWhole(s, out, x, as', bs, window, maxQueue);
  }

  /** What is queued is the tail of the streams. */
  lemma QueuesAreTails<A, B>(s: Sync<A, B>, out: seq<Pair<A, B>>, as': seq<Item<A>>,
                             bs: seq<Item<B>>, window: int)
    requires SameAsWhole(s, out, as', bs, window)
    ensures |s.qa| <= |as'| && s.qa == as'[|as'| - |s.qa|..]
    ensures |s.qb| <= |bs| && s.qb == bs[|bs| - |s.qb|..]
  {
    DrainAccounts(as', bs, window);
  }

  lemma {:induction false} ContinueSameAsWhole<A, B>(
      s: Sync<A, B>, out: seq<Pair<A, B>>, n: Sync<A, B>, xa: seq<Item<A>>, xb: seq<Item<B>>,
      as': seq<Item<A>>, bs: seq<Item<B>>, window: int)
    requires SameAsWhole(s, out, as', bs, window)
    requires n.qa == s.qa + xa && n.qb == s.qb + xb
    requires n.st.droppedA == s.st.droppedA && n.st.droppedB == s.st.droppedB
    ensures var d := Drain(n.qa, n.qb, window);
            SameAsWhole(Sync(d.qa, d.qb, Tally(n.st, d)), out + d.pairs, as' + xa, bs + xb, window)
  {
    DrainOnline(as', bs, xa, xb, window);
  }

  lemma {:induction false} PushASameAsWhole<A, B>(
      s: Sync<A, B>, out: seq<Pair<A, B>>, x: Item<A>,
      as': seq<Item<A>>, bs: seq<Item<B>>, window: int, maxQueue: nat)
    requires SameAsWhole(s, out, as', bs, window) && InOrder(as' + [x])
    requires Overflow(Inserted(s.qa, x), maxQueue) == 0
    ensures var (n, more) := Push(s, PushA(x), window, maxQueue);
            SameAsWhole(n, out + more, as' + [x], bs, window)
  {
    QueuesAreTails(s, out, as', bs, window);
    InOrderAppends(as', x, s.qa, maxQueue);
    assert bs + [] == bs && s.qb + [] == s.qb;
    ContinueSameAsWhole(s, out, Stored(s, PushA(x), maxQueue), [x], [], as', bs, window);
  }

  lemma {:induction false} PushBSameAsWhole<A, B>(
      s: Sync<A, B>, out: seq<Pair<A, B>>, x: Item<B>,
      as': seq<Item<A>>, bs: seq<Item<B>>, window: int, maxQueue: nat)
    requires SameAsWhole(s, out, as', bs, window) && InOrder(bs + [x])
    requires Overflow(Inserted(s.qb, x), maxQueue) == 0
    ensures var (n, more) := Push(s, PushB(x), window, maxQueue);
            SameAsWhole(n, out + more, as', bs + [x], window)
  {
    QueuesAreTails(s, out, as', bs, window);
    InOrderAppends(bs, x, s.qb, maxQueue);
    assert as' + [] == as' && s.qa + [] == s.qa;
    ContinueSameAsWhole(s, out, Stored(s, PushB(x), maxQueue), [], [x], as', bs, window);
  }

  /** Pushing item by item has done what draining the whole streams at once would do. */
  lemma {:induction false} RunSameAsWhole<A, B>(ops: seq<Op<A, B>>, window: int, maxQueue: nat)
    requires InOrder(StreamA(ops)) && InOrder(StreamB(ops))
    requires var st := Run(ops, window, maxQueue).0.st; st.overflowA == 0 && st.overflowB == 0
    ensures var (s, out) := Run(ops, window, maxQueue);
            SameAsWhole(s, out, StreamA(ops), StreamB(ops), window)
    decreases |ops|
  {
    if ops == [] {
    } else {
      var before, op := ops[..|ops| - 1], ops[|ops| - 1];
      var (s, out) := Run(before, window, maxQueue);
      PrefixInOrder(StreamA(before), StreamA(ops));
      PrefixInOrder(StreamB(before), StreamB(ops));
      RunSameAsWhole(before, window, maxQueue);
      PushSameAsWhole(s, out, op, StreamA(before), StreamB(before), window, maxQueue);
    }
  }

  lemma PrefixInOrder<T>(s: seq<Item<T>>, t: seq<Item<T>>)
    requires InOrder(t) && s <= t
    ensures InOrder(s)
  {
    assert forall i | 0 <= i < |s| :: s[i] == t[i];
  }

  /** For two in-order streams and queues that never overflow, the pairs depend on the streams
      alone: every interleaving of the pushes emits the greedy pairs of the whole streams, and no
      pairing within the window has more. */
  lemma PairsDependOnStreamsOnly<A, B>(ops: seq<Op<A, B>>, m: map<nat, nat>, window: int, maxQueue: nat)
    requires InOrder(StreamA(ops)) && InOrder(StreamB(ops))
    requires var st := Run(ops, window, maxQueue).0.st; st.overflowA == 0 && st.overflowB == 0
    ensures Run(ops, window, maxQueue).1 == Drain(StreamA(ops), StreamB(ops), window).pairs
    ensures Pairing(m, StreamA(ops), StreamB(ops), 0, 0, window) ==>
              |m| <= |Run(ops, window, maxQueue).1|
  {
    RunSameAsWhole(ops, window, maxQueue);
    assert StreamA(ops)[0..] == StreamA(ops) && StreamB(ops)[0..] == StreamB(ops);
    if Pairing(m, StreamA(ops), StreamB(ops), 0, 0, window) {
      GreedyIsMaximum(m, StreamA(ops), StreamB(ops), 0, 0, window);
    }
  }

  // ---------------------------------------------------------------- the synchroniser, in place

  class ApproxTimeSync<A, B> {
    var qa: seq<Item<A>>
    var qb: seq<Item<B>>
    const window: int
    const maxQueue: nat
    var st: Stats

    ghost function State(): Sync<A, B>
      reads this
    {
      Sync(qa, qb, st)
    }

    constructor (window: int, maxQueue: nat)
      ensures State() == Sync([], [], Stats(0, 0, 0, 0, 0, 0, 0, 0))
      ensures this.window == window && this.maxQueue == maxQueue
    {
      qa, qb, st := [], [], Stats(0, 0, 0, 0, 0, 0, 0, 0);
      this.window, this.maxQueue := window, maxQueue;
    }

    /** Returns the pairs for the callback, which runs outside the lock. */
    method PushOnA(stamp: int, msg: A) returns (ready: seq<Pair<A, B>>)
      modifies this
      ensures (State(), ready) == Push(old(State()), PushA(Item(stamp, msg)), window, maxQueue)
    {
      var q, reordered, overflow := InsertSorted(qa, Item(stamp, msg));
      qa := q;
      st := st.(reordered := st.reordered + reordered, overflowA := st.overflowA + overflow);
      ready := DrainQueues();
    }

    method PushOnB(stamp: int, msg: B) returns (ready: seq<Pair<A, B>>)
      modifies this
      ensures (State(), ready) == Push(old(State()), PushB(Item(stamp, msg)), window, maxQueue)
    {
      var q, reordered, overflow := InsertSorted(qb, Item(stamp, msg));
      qb := q;
      st := st.(reordered := st.reordered + reordered, overflowB := st.overflowB + overflow);
      ready := DrainQueues();
    }

    method InsertSorted<T>(q: seq<Item<T>>, x: Item<T>)
      returns (q': seq<Item<T>>, reordered: nat, overflow: nat)
      ensures q' == Trimmed(Inserted(q, x), maxQueue)
      ensures reordered == (if Late(q, x.t) then 1 else 0)
      ensures overflow == Overflow(Inserted(q, x), maxQueue)
    {
      reordered, overflow := 0, 0;
      if |q| == 0 || x.t >= q[|q| - 1].t {
        q' := q + [x];
      } else {
        reordered := 1;
        var k := UpperBound(q, x.t);
        q' := q[..k] + [x] + q[k..];
      }
      ghost var full := q';
      while |q'| > maxQueue
        invariant overflow <= |full| && q' == full[overflow..]
        invariant overflow > 0 ==> |q'| >= maxQueue
      {
        q' := q'[1..];
        overflow := overflow + 1;
      }
    }

    method DrainQueues() returns (out: seq<Pair<A, B>>)
      modifies this
      ensures var d := Drain(old(qa), old(qb), window);
              out == d.pairs && State() == Sync(d.qa, d.qb, Tally(old(st), d))
    {
      out := [];
      ghost var a, b := 0, 0;
      PrependStep(out, [], 0, 0, Drain(qa, qb, window));
      while |qa| > 0 && |qb| > 0
        invariant Drain(old(qa), old(qb), window) == Prepend(out, a, b, Drain(qa, qb, window))
        invariant st == Tally(old(st), Drained(out, [], [], a, b))
        decreases |qa| + |qb|
      {
        ghost var k, l;
        out, k, l := MatchHeads(out, a, b, old(st));
        a, b := a + k, b + l;
      }
      assert out + [] == out;
    }

    /** One turn of the loop: pair the heads, or drop the one that is too old. */
    method MatchHeads(out: seq<Pair<A, B>>, ghost a: nat, ghost b: nat, ghost st0: Stats)
      returns (out': seq<Pair<A, B>>, ghost k: nat, ghost l: nat)
      requires |qa| > 0 && |qb| > 0
      requires st == Tally(st0, Drained(out, [], [], a, b))
      modifies this
      ensures |qa| + |qb| < |old(qa)| + |old(qb)|
      ensures Prepend(out, a, b, Drain(old(qa), old(qb), window))
           == Prepend(out', a + k, b + l, Drain(qa, qb, window))
      ensures st == Tally(st0, Drained(out', [], [], a + k, b + l))
    {
      var dt := qa[0].t - qb[0].t;
      out', k, l := out, 0, 0;
      if Abs(dt) <= window {
        var p := Pair(qa[0].v, qb[0].v, dt);
        PrependStep(out, [p], a, b, Drain(qa[1..], qb[1..], window));
        out' := out + [p];
        qa, qb := qa[1..], qb[1..];
        st := st.(paired := st.paired + 1, sumAbsDt := st.sumAbsDt + Abs(dt),
                  maxAbsDt := if Abs(dt) > st.maxAbsDt then Abs(dt) else st.maxAbsDt);
      } else if dt < 0 {
        PrependStep(out, [], a, b, Drain(qa[1..], qb, window));
        qa := qa[1..];
        st := st.(droppedA := st.droppedA + 1);
        k := 1;
      } else {
        PrependStep(out, [], a, b, Drain(qa, qb[1..], window));
        qb := qb[1..];
        st := st.(droppedB := st.droppedB + 1);
        l := 1;
      }
    }
  }

  lemma PrependStep<A, B>(out: seq<Pair<A, B>>, more: seq<Pair<A, B>>, a: nat, b: nat, d: Drained<A, B>)
    ensures Prepend(out, a, b, Prepend(more, 0, 0, d)) == Prepend(out + more, a, b, d)
    ensures Prepend(out, a, b, Prepend(more, 1, 0, d)) == Prepend(out + more, a + 1, b, d)
    ensures Prepend(out, a, b, Prepend(more, 0, 1, d)) == Prepend(out + more, a, b + 1, d)
    ensures out + [] == out
  {
    assert out + (more + d.pairs) == (out + more) + d.pairs;
  }
}
