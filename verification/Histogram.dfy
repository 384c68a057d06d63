/** The log-bucket latency histogram: every power-of-two range is cut into 64 equal buckets. */
module Histogram {
  import opened Bits

  const SUB_BITS: nat := 6
  const SUB_COUNT: nat := 64
  const BUCKET_COUNT: nat := SUB_COUNT * (64 - SUB_BITS + 1)

  // 64-bit unsigned arithmetic
  function Add64(a: Word, b: Word): Word { (a + b) % WORD }
  function Sub64(a: Word, b: Word): Word { (a + WORD - b) % WORD }
  function Mul64(a: Word, b: Word): Word { a * b % WORD }

  /** A count kept in a 64-bit word. */
  function Wrap64(n: nat): Word { n % WORD }

  // ---------------------------------------------------------------- buckets

  function BitWidth(v: nat): nat { if v == 0 then 0 else 1 + BitWidth(v / 2) }

  function IndexOf(v: Word): nat {
    if v < SUB_COUNT then v
    else
      WidthShift(v);
      var exponent := BitWidth(v) - 1;
      var shift := exponent - SUB_BITS;
      ShiftAdjoint(64, v, shift); FootOfOctave(shift);
      SUB_COUNT + shift * SUB_COUNT + Shr(v - Pow2(exponent), shift)
  }

  function BucketUpper(index: nat): Word
    requires index < BUCKET_COUNT
  {
    if index < SUB_COUNT then index
    else
      var rel := index - SUB_COUNT;
      var shift := rel / SUB_COUNT;
      var sub := rel % SUB_COUNT;
      var exponent := shift + SUB_BITS;
      Pow2Values();
      Pow2Mono(shift, 63);
      Pow2Mono(exponent, 63);
      Sub64(Add64(Pow2(exponent), Mul64(sub + 1, Pow2(shift))), 1)
  }

  /** How many values bucket `index` holds, and the least of them: buckets lie end to end. */
  ghost function BucketWidth(index: nat): nat {
    if index < SUB_COUNT then 1 else Pow2(index / 64 - 1)
  }

  ghost function BucketLower(index: nat): nat {
    if index == 0 then 0 else BucketLower(index - 1) + BucketWidth(index - 1)
  }

  lemma {:induction false} WidthBelow(v: nat, n: nat)
    requires v < Pow2(n)
    ensures BitWidth(v) <= n
  {
    if v == 0 {
    } else {
      WidthBelow(v / 2, n - 1);
    }
  }

  /** Shifting right by the width minus seven leaves exactly seven bits. */
  lemma {:induction false} WidthShift(v: nat)
    requires v >= 64
    ensures BitWidth(v) >= 7 && 64 <= Shr(v, BitWidth(v) - 7) < 128
  {
    if v < 128 {
      assert BitWidth(v / 16) == 3;
      assert BitWidth(v / 2) == 1 + BitWidth(v / 4) == 2 + BitWidth(v / 8) == 3 + BitWidth(v / 16);
    } else {
      WidthShift(v / 2);
    }
  }

  /** Above 64 the index is `64 * s + (v >> s)`, where `s` scales `v` into 64..127. */
  lemma IndexForm(v: Word) returns (s: nat)
    requires v >= SUB_COUNT
    ensures s <= 57 && 64 <= Shr(v, s) < 128 && IndexOf(v) == 64 * s + Shr(v, s)
  {
    WidthShift(v);
    s := BitWidth(v) - 7;
    ShiftAdjoint(64, v, s);
    FootOfOctave(s);
    ShrSub(v, 64, s);
    WordWidth(v);
  }

  lemma WordWidth(v: Word)
    ensures BitWidth(v) <= 64
  {
    Pow2Values();
    WidthBelow(v, 64);
  }

  lemma {:induction false} FootOfOctave(s: nat)
    ensures Pow2(s + 6) == Shl(64, s)
  {
    if s == 0 { Pow2Values(); } else { FootOfOctave(s - 1); }
  }

  /** Where a bucket begins: the linear range, then 64 equal steps per octave. */
  lemma {:induction false} LowerLinear(index: nat)
    requires index <= SUB_COUNT
    ensures BucketLower(index) == index
  {
    if index == 0 {
    } else {
      LowerLinear(index - 1);
    }
  }

  lemma {:induction false} LowerForm(s: nat, q: nat)
    requires 64 <= q <= 128
    ensures BucketLower(64 * s + q) == Shl(q, s)
    decreases s, q
  {
    var index := 64 * s + q;
    if q > 64 {
      LowerForm(s, q - 1);
      ShlAdd(q - 1, 1, s);
      ShlOne(s);
      assert (index - 1) / 64 - 1 == s;
    } else if s > 0 {
      LowerForm(s - 1, 128);
      ShlAdd(64, 64, s - 1);
    } else {
      LowerLinear(64);
    }
  }

  lemma {:induction false} LowerMono(i: nat, j: nat)
    requires i <= j
    ensures BucketLower(i) <= BucketLower(j)
    ensures i < j ==> BucketLower(i) < BucketLower(j)
    decreases j - i
  {
    if i == j {
    } else {
      LowerMono(i, j - 1);
    }
  }

  /** The buckets cover exactly the 64-bit values. */
  lemma BucketsCover()
    ensures BUCKET_COUNT == 3776
    ensures BucketLower(0) == 0 && BucketLower(BUCKET_COUNT) == WORD
  {
    LowerForm(57, 128);
    ShlProduct(128, 57);
    FootOfOctave(57);
    ShlAdd(64, 64, 57);
    Pow2Values();
  }

  lemma OwnBucket(v: Word)
    ensures IndexOf(v) < BUCKET_COUNT
    ensures BucketLower(IndexOf(v)) <= v < BucketLower(IndexOf(v) + 1)
  {
    if v >= SUB_COUNT {
      var s := IndexForm(v);
      var q := Shr(v, s);
      LowerForm(s, q);
      LowerForm(s, q + 1);
      ShiftAdjoint(q, v, s);
      ShiftAdjoint(q + 1, v, s);
    } else {
      LowerLinear(v);
      LowerLinear(v + 1);
    }
  }

  /** The buckets partition the 64-bit values: `v` has index `i` exactly when it lies in bucket
      `i`, and every value has an index in range. */
  lemma BucketsPartition(v: Word, i: nat)
    ensures IndexOf(v) < BUCKET_COUNT
    ensures IndexOf(v) == i <==> BucketLower(i) <= v < BucketLower(i + 1)
  {
    OwnBucket(v);
    OneBucket(v, IndexOf(v), i);
  }

  lemma OneBucket(v: nat, j: nat, i: nat)
    requires BucketLower(j) <= v < BucketLower(j + 1)
    ensures i == j <==> BucketLower(i) <= v < BucketLower(i + 1)
  {
    if i < j { LowerMono(i + 1, j); }
    if j < i { LowerMono(j + 1, i); }
  }

  /** A smaller value never has a greater index. */
  lemma IndexMonotone(v: Word, w: Word)
    requires v <= w
    ensures IndexOf(v) <= IndexOf(w)
  {
    OwnBucket(v);
    OwnBucket(w);
    BucketOrder(v, IndexOf(v), w, IndexOf(w));
  }

  lemma BucketOrder(v: nat, i: nat, w: nat, j: nat)
    requires BucketLower(i) <= v <= w < BucketLower(j + 1)
    ensures i <= j
  {
    if j < i { LowerMono(j + 1, i); }
  }

  /** `BucketUpper` is one below the foot of the next bucket.  In the last bucket the sum wraps to
      zero, and the subtraction wraps it back to the greatest 64-bit value. */
  lemma UpperMeetsNextLower(index: nat)
    requires index < BUCKET_COUNT
    ensures BucketUpper(index) + 1 == BucketLower(index + 1)
  {
    if index < SUB_COUNT {
      LowerLinear(index + 1);
    } else {
      var s, q := index / 64 - 1, 64 + index % 64;
      LowerForm(s, q + 1);
      UpperForm(index, s, q);
    }
  }

  lemma UpperForm(index: nat, s: nat, q: nat)
    requires SUB_COUNT <= index < BUCKET_COUNT && s == index / 64 - 1 && q == 64 + index % 64
    ensures BucketUpper(index) + 1 == Shl(q + 1, s)
  {
    FootOfOctave(s);
    ShlProduct(q - 63, s);
    ShlAdd(64, q - 63, s);
    ShlMono(q - 63, 64, s);
    ShlMono(0, q - 63, s);
    ShlOne(s);
    TopOfRange(s);
    WrapTop(Shl(64, s), Shl(q - 63, s));
  }

  lemma TopOfRange(s: nat)
    requires s <= 57
    ensures 2 * Shl(64, s) <= WORD
  {
    FootOfOctave(s);
    Pow2Mono(s + 6, 63);
    Pow2Values();
  }

  /** One below a sum that may just have wrapped to zero. */
  lemma WrapTop(a: nat, x: nat)
    requires 1 <= x <= a && 2 * a <= WORD
    ensures x % WORD == x && Sub64(Add64(a, x), 1) == a + x - 1
  {
  }

  /** `BucketUpper` picks the greatest value of each bucket. */
  lemma UpperIsGreatest(i: nat, v: Word)
    requires i < BUCKET_COUNT
    ensures IndexOf(BucketUpper(i)) == i
    ensures IndexOf(v) == i ==> v <= BucketUpper(i)
  {
    UpperMeetsNextLower(i);
    var top := BucketUpper(i);
    LowerMono(i, i + 1);
    BucketsPartition(top, i);
    BucketsPartition(v, i);
  }

  /** The relative error of reporting the top of the bucket is below 1/64. */
  lemma RelativeError(v: Word)
    ensures IndexOf(v) < BUCKET_COUNT
    ensures v <= BucketUpper(IndexOf(v))
    ensures 64 * (BucketUpper(IndexOf(v)) - v) <= v
    ensures v > 0 ==> 64 * (BucketUpper(IndexOf(v)) - v) < v
  {
    OwnBucket(v);
    var j := IndexOf(v);
    UpperMeetsNextLower(j);
    NarrowBucket(j);
  }

  lemma NarrowBucket(j: nat)
    ensures BucketLower(j + 1) == BucketLower(j) + 1 || 64 * BucketWidth(j) <= BucketLower(j)
  {
    if j >= SUB_COUNT {
      var s, q := j / 64 - 1, 64 + j % 64;
      LowerForm(s, q);
      ShlMono(64, q, s);
      ShlProduct(64, s);
    }
  }

  /** No better constant holds for all values: at the foot of every octave the error is v/64 less
      one unit. */
  lemma RelativeErrorIsTight(s: nat, v: Word)
    requires v == Shl(64, s)
    ensures IndexOf(v) < BUCKET_COUNT
    ensures 64 * (BucketUpper(IndexOf(v)) - v) == v - 64
    ensures s >= 2 ==> 128 * (BucketUpper(IndexOf(v)) - v) > v
  {
    FootBucket(s, v, 64 * s + 64);
    UpperMeetsNextLower(64 * s + 64);
    ShlProduct(64, s);
    if s >= 2 { Pow2Mono(2, s); assert Pow2(2) == 4; }
  }

  /** The bound that the comment on the constants promises. */
  ghost predicate WithinComment(i: nat)
    requires i < BUCKET_COUNT
  {
    forall v: Word | IndexOf(v) == i :: 128 * (BucketUpper(i) - v) <= v
  }

  /** Exactly the buckets that meet the 1/128 of the comment: bucket `64 * s + q` does when its
      number of steps `q` is close enough to 128, and the whole linear range does. */
  lemma CommentBoundHoldsExactly(i: nat)
    requires i < BUCKET_COUNT
    ensures WithinComment(i) <==>
              i < SUB_COUNT || (128 - (64 + i % 64)) * Pow2(i / 64 - 1) <= 128
  {
    UpperMeetsNextLower(i);
    if i < SUB_COUNT {
      LowerLinear(i);
      LowerLinear(i + 1);
      forall v: Word | IndexOf(v) == i ensures 128 * (BucketUpper(i) - v) <= v {
        BucketsPartition(v, i);
      }
    } else {
      var s, q := i / 64 - 1, 64 + i % 64;
      LowerForm(s, q);
      LowerForm(s, q + 1);
      ShlAdd(q, 1, s);
      ShlOne(s);
      ShlProduct(q, s);
      CommentBoundAtFoot(i, q, Pow2(s));
    }
  }

  /** The foot of a bucket is where the error is largest. */
  lemma CommentBoundAtFoot(i: nat, q: nat, width: nat)
    requires i < BUCKET_COUNT && q <= 128 && width >= 1
    requires BucketLower(i) == q * width && BucketUpper(i) + 1 == q * width + width
    requires BucketLower(i + 1) == BucketUpper(i) + 1
    ensures WithinComment(i) <==> (128 - q) * width <= 128
  {
    var foot: Word := BucketLower(i);
    BucketsPartition(foot, i);
    assert (128 - q) * width == 128 * width - q * width;
    forall v: Word | IndexOf(v) == i ensures foot <= v <= BucketUpper(i) {
      BucketsPartition(v, i);
    }
  }

  lemma FootBucket(s: nat, v: Word, j: nat)
    requires v == Shl(64, s) && j == 64 * s + 64
    ensures IndexOf(v) == j < BUCKET_COUNT && BucketLower(j + 1) == v + Pow2(s)
  {
    LowerForm(s, 64);
    LowerForm(s, 65);
    ShlAdd(64, 1, s);
    ShlOne(s);
    BucketsPartition(v, j);
  }

  // ---------------------------------------------------------------- recorded samples

  /** How many samples are below `v`. */
  ghost function CountBelow(s: seq<Word>, v: nat): nat {
    if s == [] then 0
    else CountBelow(s[..|s| - 1], v) + if s[|s| - 1] < v then 1 else 0
  }

  /** How many samples fall in bucket `i`. */
  ghost function CountIn(s: seq<Word>, i: nat): nat {
    if s == [] then 0
    else CountIn(s[..|s| - 1], i) + if IndexOf(s[|s| - 1]) == i then 1 else 0
  }

  ghost function Sum(s: seq<Word>): nat {
    if s == [] then 0 else Sum(s[..|s| - 1]) + s[|s| - 1]
  }

  ghost function Least(s: seq<Word>): Word {
    if s == [] then WORD - 1
    else
      var m := Least(s[..|s| - 1]);
      if s[|s| - 1] < m then s[|s| - 1] else m
  }

  ghost function Greatest(s: seq<Word>): Word {
    if s == [] then 0
    else
      var m := Greatest(s[..|s| - 1]);
      if s[|s| - 1] > m then s[|s| - 1] else m
  }

  /** `x` is the k-th smallest sample, counting from one. */
  ghost predicate IsKth(s: seq<Word>, k: nat, x: Word) {
    x in s && CountBelow(s, x) < k <= CountBelow(s, x + 1)
  }

  lemma {:induction false} CountBelowMono(s: seq<Word>, v: nat, w: nat)
    requires v <= w
    ensures CountBelow(s, v) <= CountBelow(s, w) <= |s|
  {
    if s == [] {
    } else {
      CountBelowMono(s[..|s| - 1], v, w);
    }
  }

  lemma {:induction false} CountBelowTop(s: seq<Word>)
    ensures CountBelow(s, 0) == 0 && CountBelow(s, WORD) == |s|
  {
    if s == [] {
    } else {
      CountBelowTop(s[..|s| - 1]);
    }
  }

  lemma {:induction false} CountBelowStep(s: seq<Word>, v: nat)
    requires CountBelow(s, v) < CountBelow(s, v + 1)
    ensures v < WORD && v in s
  {
    if s[|s| - 1] == v {
    } else {
      CountBelowStep(s[..|s| - 1], v);
      assert v in s[..|s| - 1];
    }
  }

  /** Every rank is held by some sample. */
  lemma KthExists(s: seq<Word>, k: nat)
    requires 1 <= k <= |s|
    ensures exists x: Word :: IsKth(s, k, x)
  {
    CountBelowTop(s);
    var v := FirstReaching(s, k, WORD);
    CountBelowStep(s, v);
    assert IsKth(s, k, v);
  }

  lemma {:induction false} FirstReaching(s: seq<Word>, k: nat, top: nat) returns (v: nat)
    requires 1 <= k <= CountBelow(s, top)
    ensures CountBelow(s, v) < k <= CountBelow(s, v + 1)
    decreases top
  {
    CountBelowTop(s);
    if CountBelow(s, top - 1) < k { v := top - 1; }
    else { v := FirstReaching(s, k, top - 1); }
  }

  /** Adding one bucket moves the count from one bucket boundary to the next. */
  lemma {:induction false} CountBuckets(s: seq<Word>, i: nat)
    requires i < BUCKET_COUNT
    ensures CountBelow(s, BucketLower(i)) + CountIn(s, i) == CountBelow(s, BucketLower(i + 1))
  {
    if s == [] {
    } else {
      LowerMono(i, i + 1);
      CountBuckets(s[..|s| - 1], i);
      BucketsPartition(s[|s| - 1], i);
    }
  }

  lemma {:induction false} CountInConcat(s: seq<Word>, t: seq<Word>, i: nat)
    ensures CountIn(s + t, i) == CountIn(s, i) + CountIn(t, i)
    decreases |t|
  {
    if t == [] {
      assert s + t == s;
    } else {
      assert (s + t)[..|s + t| - 1] == s + t[..|t| - 1];
      CountInConcat(s, t[..|t| - 1], i);
    }
  }

  lemma {:induction false} SumConcat(s: seq<Word>, t: seq<Word>)
    ensures Sum(s + t) == Sum(s) + Sum(t)
    decreases |t|
  {
    if t == [] {
      assert s + t == s;
    } else {
      assert (s + t)[..|s + t| - 1] == s + t[..|t| - 1];
      SumConcat(s, t[..|t| - 1]);
    }
  }

  lemma {:induction false} ExtremesConcat(s: seq<Word>, t: seq<Word>)
    ensures Extremes(if Least(t) < Least(s) then Least(t) else Least(s),
                     if Greatest(t) > Greatest(s) then Greatest(t) else Greatest(s), s + t)
    decreases |t|
  {
    if t == [] {
      assert s + t == s;
    } else {
      assert (s + t)[..|s + t| - 1] == s + t[..|t| - 1];
      ExtremesConcat(s, t[..|t| - 1]);
    }
  }

  /** The counters are 64-bit words: they count modulo 2^64. */
  ghost predicate Tallies(counts: seq<Word>, s: seq<Word>) {
    |counts| == BUCKET_COUNT
    && forall i | 0 <= i < BUCKET_COUNT :: counts[i] == Wrap64(CountIn(s, i))
  }

  lemma TallyRecord(counts: seq<Word>, s: seq<Word>, v: Word)
    requires Tallies(counts, s)
    ensures IndexOf(v) < BUCKET_COUNT
    ensures Tallies(counts[IndexOf(v) := Add64(counts[IndexOf(v)], 1)], s + [v])
  {
    OwnBucket(v);
    assert (s + [v])[..|s|] == s;
    WrapAdd(CountIn(s, IndexOf(v)), 1);
  }

  lemma TallyMerge(counts: seq<Word>, others: seq<Word>, sum: seq<Word>, s: seq<Word>, t: seq<Word>)
    requires Tallies(counts, s) && Tallies(others, t) && |sum| == BUCKET_COUNT
    requires forall i | 0 <= i < BUCKET_COUNT :: sum[i] == Add64(counts[i], others[i])
    ensures Tallies(sum, s + t)
  {
    forall i | 0 <= i < BUCKET_COUNT ensures sum[i] == Wrap64(CountIn(s + t, i)) {
      CountInConcat(s, t, i);
      WrapAdd(CountIn(s, i), CountIn(t, i));
    }
  }

  /** The other fields, as functions of the samples. */
  ghost predicate Totals(count: Word, sum: Word, s: seq<Word>) {
    count == Wrap64(|s|) && sum == Wrap64(Sum(s))
  }

  ghost predicate Extremes(min: Word, max: Word, s: seq<Word>) {
    min == Least(s) && max == Greatest(s)
  }

  lemma {:induction false} TotalsMerge(c: Word, n: Word, s: seq<Word>, t: seq<Word>)
    requires c == Wrap64(|s| + |t|) && n == Wrap64(Sum(s) + Sum(t))
    ensures Totals(c, n, s + t)
  {
    SumConcat(s, t);
    assert |s + t| == |s| + |t|;
  }

  // ---------------------------------------------------------------- ranks

  function Clamp(p: real): real {
    if p < 0.0 then 0.0 else if p > 100.0 then 100.0 else p
  }

  function Target(p: real, n: nat): real { Clamp(p) / 100.0 * n as real }

  /** The rank that a percentile asks for: the target rounded up. */
  function Rank(p: real, n: nat): int { -(-Target(p, n)).Floor }

  /** An integer reaches the target exactly when it reaches the rank. */
  ghost predicate ReachesAtRank(p: real, n: nat) {
    forall c: nat {:trigger c as real} :: c as real >= Target(p, n) <==> c >= Rank(p, n)
  }

  lemma RankInRange(p: real, n: nat)
    requires p > 0.0 && n > 0
    ensures 1 <= Rank(p, n) <= n
    ensures ReachesAtRank(p, n)
  {
    var f := Clamp(p) / 100.0;
    assert 0.0 < f <= 1.0;
    assert f * n as real <= 1.0 * n as real;
    assert f * n as real > 0.0;
  }

  /** The rank asked for: `p * n / 100` rounded up. */
  lemma RankExactly(p: real, n: nat)
    requires 0.0 < p <= 100.0
    ensures 100.0 * (Rank(p, n) - 1) as real < p * n as real <= 100.0 * Rank(p, n) as real
  {
    assert Target(p, n) == p / 100.0 * n as real;
    TimesHundred(p, n as real);
  }

  lemma TimesHundred(p: real, n: real)
    ensures 100.0 * (p / 100.0 * n) == p * n
  {
  }

  /** The extremes are what their names say. */
  lemma {:induction false} ExtremesExactly(s: seq<Word>)
    requires s != []
    ensures Least(s) in s && Greatest(s) in s && forall x | x in s :: Least(s) <= x <= Greatest(s)
  {
    var init, last := s[..|s| - 1], s[|s| - 1];
    assert s == init + [last];
    if init == [] {
    } else {
      ExtremesExactly(init);
    }
  }

  /** The two bucket boundaries around the rank pin down the bucket of the k-th smallest sample. */
  lemma BucketOfKth(s: seq<Word>, k: nat, i: nat, x: Word)
    requires i < BUCKET_COUNT
    requires CountBelow(s, BucketLower(i)) < k <= CountBelow(s, BucketLower(i + 1))
    requires IsKth(s, k, x)
    ensures IndexOf(x) == i
  {
    BucketsPartition(x, i);
    if x < BucketLower(i) { CountBelowMono(s, x + 1, BucketLower(i)); }
    if x >= BucketLower(i + 1) { CountBelowMono(s, BucketLower(i + 1), x); }
  }

  /** Not below the sample of the requested rank, and above it by at most 1/64. */
  ghost predicate CloseToRank(s: seq<Word>, p: real, r: Word) {
    exists x: Word :: IsKth(s, Rank(p, |s|), x) && x <= r && 64 * (r - x) <= x
  }

  /** Whatever the samples, a reported percentile is never below the sample of that rank and
      exceeds it by at most 1/64. */
  lemma PercentileError(s: seq<Word>, p: real, r: Word)
    requires s != [] && p > 0.0
    requires forall x: Word | IsKth(s, Rank(p, |s|), x) ::
               IndexOf(x) < BUCKET_COUNT && r == BucketUpper(IndexOf(x))
    ensures CloseToRank(s, p, r)
  {
    RankInRange(p, |s|);
    KthExists(s, Rank(p, |s|));
    var x: Word :| IsKth(s, Rank(p, |s|), x);
    RelativeError(x);
  }

  /** The scan for a target has stopped at bucket `i`, the first at which the running count reaches
      it. */
  ghost predicate StoppedAt(s: seq<Word>, target: real, i: nat) {
    && Wrap64(CountBelow(s, BucketLower(i + 1))) as real >= target
    && (i == 0 || Wrap64(CountBelow(s, BucketLower(i))) as real < target)
  }

  lemma ExactCount(s: seq<Word>, count: Word)
    requires count == Wrap64(|s|)
    ensures |s| < WORD ==> count == |s|
  {
  }

  lemma {:induction false} ExactCountBelow(s: seq<Word>, v: nat)
    requires |s| < WORD
    ensures Wrap64(CountBelow(s, v)) == CountBelow(s, v) && CountBelow(s, 0) == 0
  {
    CountBelowTop(s);
    CountBelowMono(s, v, v);
  }

  lemma {:induction false} RankBetween(s: seq<Word>, p: real, i: nat)
    requires 0 < |s| < WORD && p > 0.0 && i < BUCKET_COUNT && StoppedAt(s, Target(p, |s|), i)
    ensures CountBelow(s, BucketLower(i)) < Rank(p, |s|) <= CountBelow(s, BucketLower(i + 1))
  {
    RankInRange(p, |s|);
    ExactCountBelow(s, BucketLower(i));
    ExactCountBelow(s, BucketLower(i + 1));
    assert BucketLower(0) == 0;
  }

  lemma {:induction false} BucketReached(s: seq<Word>, p: real, i: nat)
    requires 0 < |s| < WORD && p > 0.0 && i < BUCKET_COUNT && StoppedAt(s, Target(p, |s|), i)
    ensures forall x: Word | IsKth(s, Rank(p, |s|), x) :: IndexOf(x) == i
    ensures CloseToRank(s, p, BucketUpper(i))
  {
    RankBetween(s, p, i);
    forall x: Word | IsKth(s, Rank(p, |s|), x) ensures IndexOf(x) == i {
      BucketOfKth(s, Rank(p, |s|), i, x);
    }
    PercentileError(s, p, BucketUpper(i));
  }

  // ---------------------------------------------------------------- the histogram, in place

  class Histogram {
    var counts: array<Word>
    var count: Word
    var sum: Word
    var min: Word
    var max: Word
    ghost var samples: seq<Word>

    /** All fields are determined by the samples recorded since the last reset. */
    ghost predicate Valid()
      reads this, counts
    {
      Tallies(counts[..], samples) && Totals(count, sum, samples) && Extremes(min, max, samples)
    }

    constructor ()
      ensures Valid() && fresh(counts) && samples == []
    {
      counts := new Word[BUCKET_COUNT](_ => 0);
      count, sum, min, max := 0, 0, WORD - 1, 0;
      samples := [];
    }

    method Record(value: Word)
      requires Valid()
      modifies this, counts
      ensures Valid() && counts == old(counts)
      ensures samples == old(samples) + [value]
    {
      RecordCount(value);
      WrapAdd(|samples|, 1);
      WrapAdd(Sum(samples), value);
      count := Add64(count, 1);
      sum := Add64(sum, value);
      if value < min { min := value; }
      if value > max { max := value; }
      samples := samples + [value];
    }

    method RecordCount(value: Word)
      requires Tallies(counts[..], samples)
      modifies counts
      ensures Tallies(counts[..], samples + [value])
    {
      TallyRecord(counts[..], samples, value);
      var k := IndexOf(value);
      counts[k] := Add64(counts[k], 1);
      assert counts[..] == old(counts[..])[k := Add64(old(counts[k]), 1)];
    }

    method Merge(other: Histogram)
      requires Valid() && other.Valid()
      requires other == this || other.counts != counts
      modifies this, counts
      ensures Valid() && counts == old(counts)
      ensures samples == old(samples) + old(other.samples)
      ensures other != this ==> other.Valid() && other.samples == old(other.samples)
    {
      ghost var s, t := samples, other.samples;
      MergeCounts(other);
      WrapAdd(|s|, |t|);
      WrapAdd(Sum(s), Sum(t));
      TotalsMerge(Add64(count, other.count), Add64(sum, other.sum), s, t);
      ExtremesConcat(s, t);
      count := Add64(count, other.count);
      sum := Add64(sum, other.sum);
      min := if other.min < min then other.min else min;
      max := if other.max > max then other.max else max;
      samples := s + t;
    }

    method MergeCounts(other: Histogram)
      requires Tallies(counts[..], samples) && Tallies(other.counts[..], other.samples)
      requires other == this || other.counts != counts
      modifies counts
      ensures Tallies(counts[..], samples + other.samples)
      ensures other != this ==> other.counts[..] == old(other.counts[..])
    {
      ghost var mine, others := counts[..], other.counts[..];
      for i := 0 to BUCKET_COUNT
        invariant forall j | 0 <= j < i :: counts[j] == Add64(mine[j], others[j])
        invariant forall j | i <= j < BUCKET_COUNT :: counts[j] == mine[j]
        invariant other.counts == counts || other.counts[..] == others
      {
        counts[i] := Add64(counts[i], other.counts[i]);
      }
      TallyMerge(mine, others, counts[..], samples, other.samples);
    }

    method Reset()
      requires Valid()
      modifies this, counts
      ensures Valid() && counts == old(counts) && samples == []
    {
      for i := 0 to BUCKET_COUNT
        invariant counts == old(counts) && unchanged(this)
        invariant forall j | 0 <= j < i :: counts[j] == 0
      {
        counts[i] := 0;
      }
      count, sum, min, max := 0, 0, WORD - 1, 0;
      samples := [];
    }

    /** The top of the bucket that holds the sample of the requested rank: never below that sample,
        and above it by at most 1/64.  (As long as the counters have not wrapped.) */
    method Percentile(p: real) returns (r: Word)
      requires Valid()
      ensures samples == [] || p <= 0.0 ==> r == 0
      ensures 0 < |samples| < WORD && p > 0.0 ==>
                forall x: Word | IsKth(samples, Rank(p, |samples|), x) ::
                  IndexOf(x) < BUCKET_COUNT && r == BucketUpper(IndexOf(x))
      ensures 0 < |samples| < WORD && p > 0.0 ==> CloseToRank(samples, p, r)
    {
      ExactCount(samples, count);
      if count == 0 { return 0; }
      var i := Scan(Target(p, count));
      if i == BUCKET_COUNT {
        RankBelowCount(p, count);
        assert false;
        return max;
      }
      if 0 < |samples| < WORD && p > 0.0 { BucketReached(samples, p, i); }
      r := BucketUpper(i);
    }

    /** The scan for the first bucket at which the running count reaches the target. */
    method Scan(target: real) returns (i: nat)
      requires Tallies(counts[..], samples)
      ensures i <= BUCKET_COUNT
      ensures i == BUCKET_COUNT ==> Wrap64(|samples|) as real < target
      ensures i < BUCKET_COUNT ==> StoppedAt(samples, target, i)
    {
      i := 0;
      var seen: Word := 0;
      CountBelowTop(samples);
      while i < BUCKET_COUNT
        invariant i <= BUCKET_COUNT && seen == Wrap64(CountBelow(samples, BucketLower(i)))
        invariant i == 0 || (seen as real) < target
      {
        WrapBucket(samples, i, seen, counts[i]);
        seen := Add64(seen, counts[i]);
        if seen as real >= target { return; }
        i := i + 1;
      }
      BucketsCover();
    }
  }

  lemma WrapBucket(s: seq<Word>, i: nat, seen: Word, c: Word)
    requires i < BUCKET_COUNT
    requires seen == Wrap64(CountBelow(s, BucketLower(i))) && c == Wrap64(CountIn(s, i))
    ensures Add64(seen, c) == Wrap64(CountBelow(s, BucketLower(i + 1)))
  {
    CountBuckets(s, i);
    WrapAdd(CountBelow(s, BucketLower(i)), CountIn(s, i));
  }

  lemma RankBelowCount(p: real, n: nat)
    ensures n as real >= Target(p, n)
  {
    var f := Clamp(p) / 100.0;
    assert f * n as real <= 1.0 * n as real;
  }

  lemma WrapAdd(a: nat, b: nat)
    ensures Wrap64(a + b) == Add64(Wrap64(a), Wrap64(b))
    ensures b < WORD ==> Wrap64(b) == b
  {
    var x := a % WORD + b % WORD;
    var q := a / WORD + b / WORD;
    if x < WORD {
      DivModUnique(a + b, WORD, q, x);
      DivModUnique(x, WORD, 0, x);
    } else {
      DivModUnique(a + b, WORD, q + 1, x - WORD);
      DivModUnique(x, WORD, 1, x - WORD);
    }
  }
}
