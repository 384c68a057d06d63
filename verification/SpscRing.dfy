/** Single-producer single-consumer ring.  The two threads are interleaved at every shared access;
    the index each has of the other may be stale, and the indices are wrapping 64-bit words. */
module SpscRing {
  import opened Bits

  // ---------------------------------------------------------------- rounding up the capacity

  const HALF_WORD: Word := 0x8000_0000_0000_0000

  /** `r` is the least power of two that is at least 2 and at least `v`. */
  ghost predicate LeastPow2(v: nat, r: nat) {
    (exists k: nat :: r == Pow2(k))
    && r >= 2 && r >= v
    && forall j: nat :: Pow2(j) >= 2 && Pow2(j) >= v ==> r <= Pow2(j)
  }

  /** `v` has `n` bits and its top `s` bits are all set. */
  ghost predicate TopFilled(v: nat, n: nat, s: nat) {
    v < Pow2(n) && v + Pow2(if s < n then n - s else 0) >= Pow2(n)
  }

  lemma {:induction false} BitLength(x: nat) returns (n: nat)
    requires x >= 1
    ensures n >= 1 && Pow2(n - 1) <= x < Pow2(n)
  {
    if x == 1 {
      n := 1;
    } else {
      var m := BitLength(x / 2);
      n := m + 1;
    }
  }

  lemma {:induction false} ShrBelow(v: nat, n: nat, s: nat)
    requires s <= n && v < Pow2(n)
    ensures Shr(v, s) < Pow2(n - s)
    decreases s
  {
    if s == 0 {
    } else {
      ShrBelow(v / 2, n - 1, s - 1);
    }
  }

  lemma {:induction false} ShlPow2(m: nat, k: nat)
    ensures Shl(Pow2(m), k) == Pow2(m + k)
  {
    if k == 0 {
    } else {
      ShlPow2(m, k - 1);
    }
  }

  /** The shift moves a run of set bits down: at least `2^(n-s)` less one block of `2^j`. */
  lemma ShrOfFilled(v: nat, n: nat, s: nat, j: nat)
    requires s <= n && j <= n - s
    requires v >= Pow2(n) - Pow2(j + s)
    ensures Shr(v, s) >= Pow2(n - s) - Pow2(j)
  {
    Pow2Mono(j, n - s);
    ShlAdd(Pow2(n - s) - Pow2(j), Pow2(j), s);
    ShlPow2(n - s, s);
    ShlPow2(j, s);
    ShiftAdjoint(Pow2(n - s) - Pow2(j), v, s);
  }

  /** One round of `v |= v >> s` doubles the run of set bits at the top. */
  lemma Smear(v: nat, n: nat, s: nat)
    requires s >= 1 && TopFilled(v, n, s)
    ensures TopFilled(Or(v, Shr(v, s)), n, 2 * s)
  {
    if s >= n {
      ShrSmaller(v, s);
      OrBelow(v, Shr(v, s), n);
    } else {
      ShrBelow(v, n, s);
      Pow2Mono(n - s, n);
      OrBelow(v, Shr(v, s), n);
      SmearLow(v, n, s, if 2 * s < n then n - 2 * s else 0);
    }
  }

  lemma SmearLow(v: nat, n: nat, s: nat, j: nat)
    requires 1 <= s < n && v < Pow2(n) && v + Pow2(n - s) >= Pow2(n)
    requires j == if 2 * s < n then n - 2 * s else 0
    ensures Or(v, Shr(v, s)) + Pow2(j) >= Pow2(n)
  {
    var k := n - s;
    Pow2Mono(k, j + s);
    ShrOfFilled(v, n, s, j);
    ShrBelow(v, n, s);
    ShlAdd(Pow2(s) - 1, 1, k);
    ShlPow2(s, k);
    ShlOne(k);
    OrHigh(Pow2(s) - 1, v - Shl(Pow2(s) - 1, k), Shr(v, s), k);
  }

  lemma {:induction false} ShrSmaller(v: nat, s: nat)
    ensures Shr(v, s) <= v
    decreases s
  {
    if s == 0 {
    } else {
      ShrSmaller(v / 2, s - 1);
    }
  }

  method RoundUpPow2(v: Word) returns (r: Word)
    ensures v <= HALF_WORD ==> LeastPow2(v, r)
    ensures v > HALF_WORD ==> r == 0
  {
    if v < 2 {
      LeastIsTwo(v);
      return 2;
    }
    var x: nat := v - 1;
    ghost var n := BitLength(x);
    LengthOfWord(x, n);
    var shift := 1;
    while shift < 64
      invariant shift >= 1
      invariant TopFilled(x, n, shift)
      decreases 64 - shift
    {
      Smear(x, n, shift);
      x := Or(x, Shr(x, shift));
      shift := 2 * shift;
    }
    RoundedIsLeast(v, n);
    return (x + 1) % WORD;
  }

  lemma LeastIsTwo(v: nat)
    requires v < 2
    ensures LeastPow2(v, 2) && v <= HALF_WORD
  {
    assert Pow2(1) == 2;
  }

  lemma LengthOfWord(x: Word, n: nat)
    requires n >= 1 && Pow2(n - 1) <= x
    ensures n <= 64
  {
    Pow2Values();
    if n > 64 { Pow2Mono(64, n - 1); }
  }

  lemma RoundedIsLeast(v: Word, n: nat)
    requires v >= 2 && 1 <= n <= 64 && Pow2(n - 1) <= v - 1 < Pow2(n)
    ensures n == 64 <==> v > HALF_WORD
    ensures n < 64 ==> Pow2(n) < WORD && LeastPow2(v, Pow2(n))
    ensures n == 64 ==> Pow2(n) == WORD
  {
    Pow2Values();
    if n < 64 { Pow2Mono(n, 63); }
    Pow2Mono(1, n);
    assert Pow2(1) == 2;
    forall j: nat | Pow2(j) >= 2 && Pow2(j) >= v ensures Pow2(n) <= Pow2(j) {
      if j < n { Pow2Mono(j, n - 1); } else { Pow2Mono(n, j); }
    }
  }

  // ---------------------------------------------------------------- the protocol on 64-bit words

  /** Where a thread stands between two shared accesses of `push` or `pop`. */
  datatype Producer<T> = PIdle | PStale(item: T) | PRoom(item: T) | PStored(item: T)
  datatype Consumer<T> = CIdle | CStale | CReady | CTaken(item: T)

  /** `writeLog` and `readLog` are the modification orders of the two atomics (the last entry is the
      current value).  `readSeen` and `writeSeen` are the positions in them that the other thread
      last read; a later load may return any entry from there on.  `pushed` and `popped` record
      what has been published. */
  datatype Ring<T> = Ring(
    mask: Word, slots: seq<T>, writeLog: seq<Word>, readLog: seq<Word>,
    readCache: Word, readSeen: nat, writeCache: Word, writeSeen: nat,
    producer: Producer<T>, consumer: Consumer<T>, pushed: seq<T>, popped: seq<T>)

  datatype Step<T> =
    | PushBegin(item: T) | PushRefresh(pos: nat) | PushStore | PushPublish
    | PopBegin | PopRefresh(pos: nat) | PopTake | PopPublish

  function Minus(a: Word, b: Word): Word { (a + WORD - b) % WORD }
  function Next(a: Word): Word { (a + 1) % WORD }

  predicate Shaped<T>(c: Ring<T>) {
    |c.writeLog| > 0 && |c.readLog| > 0
  }

  function Write<T>(c: Ring<T>): Word requires Shaped(c) { c.writeLog[|c.writeLog| - 1] }
  function Read<T>(c: Ring<T>): Word requires Shaped(c) { c.readLog[|c.readLog| - 1] }

  predicate Full<T>(c: Ring<T>) requires Shaped(c) {
    Minus(Write(c), c.readCache) == c.mask + 1
  }

  predicate Empty<T>(c: Ring<T>) requires Shaped(c) {
    Read(c) == c.writeCache
  }

  predicate Enabled<T>(c: Ring<T>, step: Step<T>) {
    Shaped(c) &&
    match step
    case PushBegin(_) => c.producer.PIdle?
    case PushRefresh(pos) => c.producer.PStale? && c.readSeen <= pos < |c.readLog|
    case PushStore => c.producer.PRoom? && And(Write(c), c.mask) < |c.slots|
    case PushPublish => c.producer.PStored?
    case PopBegin => c.consumer.CIdle?
    case PopRefresh(pos) => c.consumer.CStale? && c.writeSeen <= pos < |c.writeLog|
    case PopTake => c.consumer.CReady? && And(Read(c), c.mask) < |c.slots|
    case PopPublish => c.consumer.CTaken?
  }

  function Apply<T>(c: Ring<T>, step: Step<T>): Ring<T>
    requires Enabled(c, step)
  {
    match step
    case PushBegin(v) =>
      c.(producer := if Full(c) then PStale(v) else PRoom(v))
    case PushRefresh(pos) =>
      var d := c.(readCache := c.readLog[pos], readSeen := pos);
      d.(producer := if Full(d) then PIdle else PRoom(c.producer.item))
    case PushStore =>
      c.(slots := c.slots[And(Write(c), c.mask) := c.producer.item],
         producer := PStored(c.producer.item))
    case PushPublish =>
      c.(writeLog := c.writeLog + [Next(Write(c))], pushed := c.pushed + [c.producer.item],
         producer := PIdle)
    case PopBegin =>
      c.(consumer := if Empty(c) then CStale else CReady)
    case PopRefresh(pos) =>
      var d := c.(writeCache := c.writeLog[pos], writeSeen := pos);
      d.(consumer := if Empty(d) then CIdle else CReady)
    case PopTake =>
      c.(consumer := CTaken(c.slots[And(Read(c), c.mask)]))
    case PopPublish =>
      c.(readLog := c.readLog + [Next(Read(c))], popped := c.popped + [c.consumer.item],
         consumer := CIdle)
  }

  // ---------------------------------------------------------------- the same with counters

  /** The ring one would write if counters never wrapped: `w` and `r` count publications, `rc` and
      `wc` are the counts last seen of the other side. */
  datatype Counted<T> = Counted(
    cap: nat, slots: seq<T>, w: nat, r: nat, rc: nat, wc: nat,
    producer: Producer<T>, consumer: Consumer<T>, pushed: seq<T>, popped: seq<T>)

  predicate CountedEnabled<T>(a: Counted<T>, step: Step<T>) {
    a.cap >= 1 && |a.slots| == a.cap &&
    match step
    case PushBegin(_) => a.producer.PIdle?
    case PushRefresh(pos) => a.producer.PStale? && a.rc <= pos <= a.r
    case PushStore => a.producer.PRoom?
    case PushPublish => a.producer.PStored?
    case PopBegin => a.consumer.CIdle?
    case PopRefresh(pos) => a.consumer.CStale? && a.wc <= pos <= a.w
    case PopTake => a.consumer.CReady?
    case PopPublish => a.consumer.CTaken?
  }

  function CountedApply<T>(a: Counted<T>, step: Step<T>): Counted<T>
    requires CountedEnabled(a, step)
  {
    match step
    case PushBegin(v) =>
      a.(producer := if a.w == a.rc + a.cap then PStale(v) else PRoom(v))
    case PushRefresh(pos) =>
      a.(rc := pos, producer := if a.w == pos + a.cap then PIdle else PRoom(a.producer.item))
    case PushStore =>
      a.(slots := a.slots[a.w % a.cap := a.producer.item], producer := PStored(a.producer.item))
    case PushPublish =>
      a.(w := a.w + 1, pushed := a.pushed + [a.producer.item], producer := PIdle)
    case PopBegin =>
      a.(consumer := if a.r == a.wc then CStale else CReady)
    case PopRefresh(pos) =>
      a.(wc := pos, consumer := if a.r == pos then CIdle else CReady)
    case PopTake =>
      a.(consumer := CTaken(a.slots[a.r % a.cap]))
    case PopPublish =>
      a.(r := a.r + 1, popped := a.popped + [a.consumer.item], consumer := CIdle)
  }

  /** What every step keeps.  The producer stays within one lap of the reads it has seen, the
      consumer behind the writes it has seen, and the slots in between hold the unpopped items. */
  ghost predicate Inv<T>(a: Counted<T>) {
    && 2 <= a.cap == |a.slots|
    && a.w == |a.pushed| && a.r == |a.popped|
    && a.rc <= a.r <= a.wc <= a.w <= a.rc + a.cap
    && (a.producer.PStale? ==> a.w == a.rc + a.cap)
    && (a.producer.PRoom? || a.producer.PStored? ==> a.w < a.rc + a.cap)
    && (a.producer.PStored? ==> a.slots[a.w % a.cap] == a.producer.item)
    && (a.consumer.CStale? ==> a.r == a.wc)
    && (a.consumer.CReady? || a.consumer.CTaken? ==> a.r < a.wc)
    && (a.consumer.CTaken? ==> a.consumer.item == a.pushed[a.r])
    && a.popped == a.pushed[..a.r]
    && (forall i | a.r <= i < a.w :: a.slots[i % a.cap] == a.pushed[i])
  }

  lemma DistinctSlots(i: nat, j: nat, cap: nat)
    requires i < j < i + cap
    ensures i % cap != j % cap
  {
    if i % cap == j % cap {
      var d := j / cap - i / cap;
      assert i == cap * (i / cap) + i % cap && j == cap * (j / cap) + j % cap;
      assert cap * d == j - i by { assert cap * d == cap * (j / cap) - cap * (i / cap); }
      if d >= 1 { MulMono(1, d, cap); } else { MulMono(d, 0, cap); }
    }
  }

  lemma CountedStep<T>(a: Counted<T>, step: Step<T>)
    requires Inv(a) && CountedEnabled(a, step)
    ensures Inv(CountedApply(a, step))
  {
    var b := CountedApply(a, step);
    if step.PushStore? {
      forall i | a.r <= i < a.w ensures b.slots[i % a.cap] == a.pushed[i] {
        DistinctSlots(i, a.w, a.cap);
      }
    }
  }

  // ---------------------------------------------------------------- refinement

  /** The words are the counters modulo 2^64 and the mask is the capacity less one. */
  ghost predicate Represents<T>(c: Ring<T>) {
    && (exists k: nat :: 1 <= k <= 63 && c.mask + 1 == Pow2(k))
    && |c.slots| == c.mask + 1
    && |c.writeLog| == |c.pushed| + 1 && |c.readLog| == |c.popped| + 1
    && (forall i | 0 <= i < |c.writeLog| :: c.writeLog[i] == i % WORD)
    && (forall i | 0 <= i < |c.readLog| :: c.readLog[i] == i % WORD)
    && c.readSeen < |c.readLog| && c.writeSeen < |c.writeLog|
    && c.readCache == c.readSeen % WORD && c.writeCache == c.writeSeen % WORD
  }

  ghost function Abstract<T>(c: Ring<T>): Counted<T> {
    Counted(c.mask as nat + 1, c.slots, |c.pushed|, |c.popped|, c.readSeen, c.writeSeen,
            c.producer, c.consumer, c.pushed, c.popped)
  }

  ghost predicate Good<T>(c: Ring<T>) {
    Represents(c) && Inv(Abstract(c))
  }

  /** Wrapping differences of nearby counters are exact, and so are their equality tests. */
  lemma WrapDifference(x: nat, y: nat)
    requires y <= x < y + WORD
    ensures Minus(x % WORD, y % WORD) == x - y
    ensures x % WORD == y % WORD <==> x == y
  {
  }

  lemma NextWord(x: nat)
    ensures Next(x % WORD) == (x + 1) % WORD
  {
  }

  lemma WordModPow2(x: nat, k: nat)
    requires k <= 64
    ensures (x % WORD) % Pow2(k) == x % Pow2(k)
  {
    Pow2Values();
    Pow2Add(k, 64 - k);
    ModOfMod(x, Pow2(k), Pow2(64 - k));
  }

  /** The masked word index is the counter modulo the capacity. */
  lemma IndexOfCount(mask: Word, x: nat)
    requires exists k: nat :: 1 <= k <= 63 && mask + 1 == Pow2(k)
    ensures And(x % WORD, mask) == x % (mask + 1) && mask + 1 < WORD
  {
    var k: nat :| 1 <= k <= 63 && mask + 1 == Pow2(k);
    AndMask(x % WORD, k);
    WordModPow2(x, k);
    Pow2Mono(k, 63);
    Pow2Values();
  }

  /** One step of the words does what the step of the counters does. */
  ghost predicate Refines<T>(c: Ring<T>, step: Step<T>)
    requires Enabled(c, step)
  {
    && CountedEnabled(Abstract(c), step)
    && Abstract(Apply(c, step)) == CountedApply(Abstract(c), step)
    && Represents(Apply(c, step))
  }

  lemma SmallMask<T>(c: Ring<T>)
    requires Represents(c)
    ensures c.mask + 1 < WORD
  {
    IndexOfCount(c.mask, 0);
  }

  lemma PushBeginRefines<T>(c: Ring<T>, step: Step<T>)
    requires Good(c) && Enabled(c, step) && step.PushBegin?
    ensures Refines(c, step)
  {
    SmallMask(c);
    WrapDifference(|c.pushed|, c.readSeen);
  }

  lemma PushRefreshRefines<T>(c: Ring<T>, step: Step<T>)
    requires Good(c) && Enabled(c, step) && step.PushRefresh?
    ensures Refines(c, step)
  {
    SmallMask(c);
    WrapDifference(|c.pushed|, step.pos);
  }

  lemma PushStoreRefines<T>(c: Ring<T>, step: Step<T>)
    requires Good(c) && Enabled(c, step) && step.PushStore?
    ensures Refines(c, step)
  {
    IndexOfCount(c.mask, |c.pushed|);
  }

  lemma PushPublishRefines<T>(c: Ring<T>, step: Step<T>)
    requires Good(c) && Enabled(c, step) && step.PushPublish?
    ensures Refines(c, step)
  {
    NextWord(|c.pushed|);
  }

  lemma PopLookRefines<T>(c: Ring<T>, step: Step<T>)
    requires Good(c) && Enabled(c, step) && (step.PopBegin? || step.PopRefresh?)
    ensures Refines(c, step)
  {
    SmallMask(c);
    WrapDifference(if step.PopBegin? then c.writeSeen else step.pos, |c.popped|);
  }

  lemma PopTakeRefines<T>(c: Ring<T>, step: Step<T>)
    requires Good(c) && Enabled(c, step) && step.PopTake?
    ensures Refines(c, step)
  {
    IndexOfCount(c.mask, |c.popped|);
  }

  lemma PopPublishRefines<T>(c: Ring<T>, step: Step<T>)
    requires Good(c) && Enabled(c, step) && step.PopPublish?
    ensures Refines(c, step)
  {
    NextWord(|c.popped|);
  }

  /** The word ring refines the counter ring step by step, across any number of wraparounds. */
  lemma StepRefines<T>(c: Ring<T>, step: Step<T>)
    requires Good(c) && Enabled(c, step)
    ensures CountedEnabled(Abstract(c), step)
    ensures Abstract(Apply(c, step)) == CountedApply(Abstract(c), step)
    ensures Good(Apply(c, step))
  {
    match step {
      case PushBegin(_) => PushBeginRefines(c, step);
      case PushRefresh(_) => PushRefreshRefines(c, step);
      case PushStore => PushStoreRefines(c, step);
      case PushPublish => PushPublishRefines(c, step);
      case PopTake => PopTakeRefines(c, step);
      case PopPublish => PopPublishRefines(c, step);
      case _ => PopLookRefines(c, step);
    }
    CountedStep(Abstract(c), step);
  }

  /** The tests of the words agree with the counters in every good state, so an enabled step of the
      counter ring is enabled on the words too. */
  lemma StepReflects<T>(c: Ring<T>, step: Step<T>)
    requires Good(c) && CountedEnabled(Abstract(c), step)
    ensures Enabled(c, step)
  {
    IndexOfCount(c.mask, |c.pushed|);
    IndexOfCount(c.mask, |c.popped|);
  }

  // ---------------------------------------------------------------- runs

  ghost predicate IsRun<T>(c: Ring<T>, steps: seq<Step<T>>)
    decreases |steps|
  {
    steps == [] || (Enabled(c, steps[0]) && IsRun(Apply(c, steps[0]), steps[1..]))
  }

  ghost function After<T>(c: Ring<T>, steps: seq<Step<T>>): Ring<T>
    requires IsRun(c, steps)
    decreases |steps|
  {
    if steps == [] then c else After(Apply(c, steps[0]), steps[1..])
  }

  ghost predicate Initial<T>(c: Ring<T>) {
    && (exists k: nat :: 1 <= k <= 63 && c.mask + 1 == Pow2(k))
    && |c.slots| == c.mask + 1
    && c.writeLog == [0] && c.readLog == [0]
    && c.readCache == c.readSeen == c.writeCache == c.writeSeen == 0
    && c.producer.PIdle? && c.consumer.CIdle? && c.pushed == [] && c.popped == []
  }

  lemma InitialIsGood<T>(c: Ring<T>)
    requires Initial(c)
    ensures Good(c)
  {
    var k: nat :| 1 <= k <= 63 && c.mask + 1 == Pow2(k);
    Pow2Mono(1, k);
    assert Pow2(1) == 2;
  }

  lemma {:induction false} RunKeepsGood<T>(c: Ring<T>, steps: seq<Step<T>>)
    requires Good(c) && IsRun(c, steps)
    ensures Good(After(c, steps))
    decreases |steps|
  {
    if steps == [] {
    } else {
      StepRefines(c, steps[0]);
      RunKeepsGood(Apply(c, steps[0]), steps[1..]);
    }
  }

  /** Under every interleaving and every admissible staleness, what has been popped is a prefix of
      what has been pushed, and the rest sits in the masked slots in order. */
  lemma RingIsFifo<T>(c: Ring<T>, steps: seq<Step<T>>)
    requires Initial(c) && IsRun(c, steps)
    ensures var d := After(c, steps);
            && |d.popped| <= |d.pushed| <= |d.popped| + (d.mask + 1)
            && d.popped == d.pushed[..|d.popped|]
            && forall i | |d.popped| <= i < |d.pushed| ::
                 And(i % WORD, d.mask) < |d.slots|
                 && d.slots[And(i % WORD, d.mask)] == d.pushed[i]
  {
    InitialIsGood(c);
    RunKeepsGood(c, steps);
    var d := After(c, steps);
    forall i | |d.popped| <= i < |d.pushed|
      ensures And(i % WORD, d.mask) < |d.slots|
              && d.slots[And(i % WORD, d.mask)] == d.pushed[i]
    {
      IndexOfCount(d.mask, i);
    }
  }

  /** When the producer is about to fill a slot and the consumer about to read one, they are
      different slots; and the producer has already acquired the read index that freed its slot,
      as the consumer has acquired the write index that published the one it reads. */
  lemma NoSlotRace<T>(c: Ring<T>, steps: seq<Step<T>>)
    requires Initial(c) && IsRun(c, steps)
    ensures var d := After(c, steps);
            && Shaped(d)
            && (d.producer.PRoom? && d.consumer.CReady? ==>
                  And(Write(d), d.mask) != And(Read(d), d.mask))
            && (d.producer.PRoom? ==> |d.pushed| < d.readSeen + (d.mask + 1))
            && (d.consumer.CReady? ==> |d.popped| < d.writeSeen)
  {
    InitialIsGood(c);
    RunKeepsGood(c, steps);
    var d := After(c, steps);
    IndexOfCount(d.mask, |d.pushed|);
    IndexOfCount(d.mask, |d.popped|);
    if d.producer.PRoom? && d.consumer.CReady? {
      DistinctSlots(|d.popped|, |d.pushed|, d.mask + 1);
    }
  }

  /** `push` gives up exactly when the pops it can see leave no room; with a fresh load of the read
      index that is exactly when the ring is full.  `pop` likewise. */
  lemma GivingUp<T>(c: Ring<T>, step: Step<T>)
    requires Good(c) && Enabled(c, step)
    ensures step.PushRefresh? ==>
              (Apply(c, step).producer.PIdle? <==> |c.pushed| == step.pos + (c.mask + 1))
    ensures step.PopRefresh? ==>
              (Apply(c, step).consumer.CIdle? <==> |c.popped| == step.pos)
  {
    StepRefines(c, step);
  }

  /** `size()` called by an owning thread, whose own index is exact and whose load of the other one
      may be stale: always between 0 and the capacity. */
  lemma OwnerSize<T>(c: Ring<T>, steps: seq<Step<T>>, pos: nat)
    requires Initial(c) && IsRun(c, steps)
    ensures var d := After(c, steps);
            && Shaped(d)
            && (d.readSeen <= pos < |d.readLog| ==>
                  Minus(Write(d), d.readLog[pos]) == |d.pushed| - pos <= d.mask + 1)
            && (d.writeSeen <= pos < |d.writeLog| ==>
                  Minus(d.writeLog[pos], Read(d)) == pos - |d.popped| <= d.mask + 1)
  {
    InitialIsGood(c);
    RunKeepsGood(c, steps);
    var d := After(c, steps);
    IndexOfCount(d.mask, 0);
    if d.readSeen <= pos < |d.readLog| { WrapDifference(|d.pushed|, pos); }
    if d.writeSeen <= pos < |d.writeLog| { WrapDifference(pos, |d.popped|); }
  }

  /** A third thread is not so lucky: it may load the write index before an item passes through
      and the read index after, and then the difference underflows. */
  lemma OutsiderSizeUnderflows<T>(c: Ring<T>, v: T) returns (d: Ring<T>, steps: seq<Step<T>>)
    requires Initial(c)
    ensures IsRun(c, steps) && After(c, steps) == d && Shaped(d)
    ensures Minus(Write(c), Read(d)) == WORD - 1
  {
    InitialIsGood(c);
    IndexOfCount(c.mask, 0);
    d, steps := Extend(c, c, [], PushBegin(v));
    d, steps := Extend(c, d, steps, PushStore);
    d, steps := Extend(c, d, steps, PushPublish);
    d, steps := Extend(c, d, steps, PopBegin);
    d, steps := Extend(c, d, steps, PopRefresh(1));
    d, steps := Extend(c, d, steps, PopTake);
    d, steps := Extend(c, d, steps, PopPublish);
  }

  /** What a third thread computes from any two loads, however stale: the entries at positions `a`
      and `b` of the two modification orders.  The value is the difference of the counts exactly
      when the pops it saw do not outnumber the pushes it saw; and unless a whole turn of the words
      lies between them, it is within 0..capacity exactly when that difference is. */
  lemma OutsiderSizeExactly<T>(c: Ring<T>, d: Ring<T>, a: nat, b: nat)
    requires Good(c) && Good(d) && c.mask == d.mask && a < |c.writeLog| && b < |d.readLog|
    ensures Minus(c.writeLog[a], d.readLog[b]) == a - b <==> b <= a < b + WORD
    ensures a < b + WORD && b + (c.mask + 1) < a + WORD ==>
              (Minus(c.writeLog[a], d.readLog[b]) <= c.mask + 1 <==> b <= a <= b + (c.mask + 1))
  {
    IndexOfCount(c.mask, 0);
    MinusOfCounts(a, b, c.mask + 1);
  }

  lemma MinusOfCounts(a: nat, b: nat, cap: nat)
    requires cap < WORD
    ensures Minus(a % WORD, b % WORD) == a - b <==> b <= a < b + WORD
    ensures a < b + WORD && b + cap < a + WORD ==>
              (Minus(a % WORD, b % WORD) <= cap <==> b <= a <= b + cap)
  {
    if b <= a < b + WORD {
      WrapDifference(a, b);
    } else if a < b < a + WORD {
      WrapDifference(a + WORD, b);
      DivModUnique(a + WORD, WORD, a / WORD + 1, a % WORD);
    }
  }

  lemma {:induction false} RunGrows<T>(c: Ring<T>, steps: seq<Step<T>>)
    requires IsRun(c, steps)
    ensures |c.popped| <= |After(c, steps).popped| && After(c, steps).mask == c.mask
    decreases |steps|
  {
    if steps == [] {
    } else {
      RunGrows(Apply(c, steps[0]), steps[1..]);
    }
  }

  /** With fresh loads, the write index at one point of a run and the read index at a later one:
      `size()` is right exactly when no more has been popped by the second load than had been
      pushed by the first, and (short of a whole turn in between) that is exactly when it is within
      0..capacity. */
  lemma OutsiderSizeInRun<T>(c: Ring<T>, before: seq<Step<T>>, during: seq<Step<T>>)
    requires Initial(c) && IsRun(c, before) && IsRun(After(c, before), during)
    ensures var d := After(c, before);
            var e := After(d, during);
            && Shaped(d) && Shaped(e)
            && (Minus(Write(d), Read(e)) == |d.pushed| - |e.popped| <==> |e.popped| <= |d.pushed|)
            && (|e.popped| + (d.mask + 1) < |d.pushed| + WORD ==>
                  (Minus(Write(d), Read(e)) <= d.mask + 1 <==> |e.popped| <= |d.pushed|))
  {
    InitialIsGood(c);
    RunKeepsGood(c, before);
    var d := After(c, before);
    RunKeepsGood(d, during);
    RunGrows(d, during);
    IndexOfCount(d.mask, 0);
    OutsiderSizeExactly(d, After(d, during), |d.pushed|, |After(d, during).popped|);
  }

  lemma {:induction false} Extend<T>(c: Ring<T>, d: Ring<T>, steps: seq<Step<T>>, step: Step<T>)
    returns (e: Ring<T>, more: seq<Step<T>>)
    requires IsRun(c, steps) && After(c, steps) == d && Enabled(d, step)
    ensures more == steps + [step] && e == Apply(d, step)
    ensures IsRun(c, more) && After(c, more) == e
    decreases |steps|
  {
    e, more := Apply(d, step), steps + [step];
    if steps == [] {
      assert more[1..] == [];
    } else {
      var _, tail := Extend(Apply(c, steps[0]), d, steps[1..], step);
      assert more[1..] == tail;
    }
  }

  // ---------------------------------------------------------------- the ring, in place

  predicate Quiet<T>(a: Counted<T>) { a.producer.PIdle? && a.consumer.CIdle? }

  /** Items published and not yet popped. */
  ghost function Pending<T>(a: Counted<T>): seq<T>
    requires Inv(a)
  {
    a.pushed[a.r..]
  }

  /** A whole push with no interference, in one go: the stale count is refreshed when needed. */
  function PushAlone<T>(a: Counted<T>, v: T): Counted<T>
    requires a.cap >= 1 && |a.slots| == a.cap
  {
    var b := if a.w == a.rc + a.cap then a.(rc := a.r) else a;
    if b.w == b.rc + b.cap then b
    else b.(slots := b.slots[b.w % b.cap := v], w := b.w + 1, pushed := b.pushed + [v])
  }

  function PopAlone<T>(a: Counted<T>): Counted<T>
    requires a.cap >= 1 && |a.slots| == a.cap
  {
    var b := if a.r == a.wc then a.(wc := a.w) else a;
    if b.r == b.wc then b
    else b.(r := b.r + 1, popped := b.popped + [b.slots[b.r % b.cap]])
  }

  /** The one-go push is the chain of protocol steps with a fresh load, so it keeps the invariant;
      it succeeds exactly when there is room, and appends its item. */
  lemma PushAloneSteps<T>(a: Counted<T>, v: T)
    requires Inv(a) && Quiet(a)
    ensures var b := PushAlone(a, v);
            Inv(b) && Quiet(b)
            && Pending(b) == Pending(a) + if |Pending(a)| < a.cap then [v] else []
  {
    CountedStep(a, PushBegin(v));
    var b := CountedApply(a, PushBegin(v));
    if b.producer.PStale? {
      CountedStep(b, PushRefresh(b.r));
      b := CountedApply(b, PushRefresh(b.r));
    }
    assert b == a.(rc := if a.w == a.rc + a.cap then a.r else a.rc, producer := b.producer);
    if b.producer.PRoom? {
      PushWithRoom(b);
      assert PushAlone(a, v) == CountedApply(CountedApply(b, PushStore), PushPublish);
    } else {
      assert PushAlone(a, v) == b;
    }
  }

  /** The two steps of a push that has found room. */
  lemma PushWithRoom<T>(b: Counted<T>)
    requires Inv(b) && b.producer.PRoom? && b.consumer.CIdle?
    ensures CountedEnabled(b, PushStore) && CountedEnabled(CountedApply(b, PushStore), PushPublish)
    ensures var c := CountedApply(CountedApply(b, PushStore), PushPublish);
            Inv(c) && Quiet(c) && Pending(c) == Pending(b) + [b.producer.item]
  {
    CountedStep(b, PushStore);
    CountedStep(CountedApply(b, PushStore), PushPublish);
  }

  /** Likewise a pop takes the oldest pending item, or finds none. */
  lemma PopAloneSteps<T>(a: Counted<T>)
    requires Inv(a) && Quiet(a)
    ensures var b := PopAlone(a);
            Inv(b) && Quiet(b)
            && (Pending(a) == [] ==> b.popped == a.popped && Pending(b) == [])
            && (Pending(a) != [] ==>
                  b.popped == a.popped + [Pending(a)[0]] && Pending(b) == Pending(a)[1..])
  {
    CountedStep(a, PopBegin);
    var b := CountedApply(a, PopBegin);
    if b.consumer.CStale? {
      CountedStep(b, PopRefresh(b.w));
      b := CountedApply(b, PopRefresh(b.w));
    }
    if b.consumer.CReady? {
      CountedStep(b, PopTake);
      b := CountedApply(b, PopTake);
      CountedStep(b, PopPublish);
      b := CountedApply(b, PopPublish);
    }
    assert PopAlone(a) == b;
  }

  class SpscRing<T(0)> {
    var mask: Word
    var slots: array<T>
    var write: Word
    var readCache: Word
    var read: Word
    var writeCache: Word
    /** The counted ring this object stands for between calls. */
    ghost var state: Counted<T>

    ghost predicate Valid()
      reads this, slots
    {
      Inv(state) && Quiet(state) && state.slots == slots[..]
      && (exists k: nat :: 1 <= k <= 63 && mask + 1 == Pow2(k))
      && state.cap == mask + 1
      && write == state.w % WORD && read == state.r % WORD
      && readCache == state.rc % WORD && writeCache == state.wc % WORD
    }

    constructor (capacity: Word)
      requires capacity <= HALF_WORD
      ensures Valid() && fresh(slots) && Pending(state) == []
      ensures LeastPow2(capacity, mask + 1)
    {
      var rounded := RoundUpPow2(capacity);
      ghost var k := PowerOf(capacity, rounded);
      var fill := new T[rounded];
      mask := rounded - 1;
      slots := fill;
      write, read, readCache, writeCache := 0, 0, 0, 0;
      state := Counted(rounded, fill[..], 0, 0, 0, 0, PIdle, CIdle, [], []);
    }

    method Push(value: T) returns (ok: bool)
      requires Valid()
      modifies this, slots
      ensures Valid() && slots == old(slots) && mask == old(mask)
      ensures state == PushAlone(old(state), value)
      ensures ok <==> |old(Pending(state))| < mask + 1
      ensures Pending(state) == old(Pending(state)) + if ok then [value] else []
    {
      PushAloneSteps(state, value);
      IndexOfCount(mask, 0);
      WrapDifference(state.w, state.rc);
      WrapDifference(state.w, state.r);
      var w := write;
      if Minus(w, readCache) == mask + 1 {
        readCache := read;
        state := state.(rc := state.r);
        if Minus(w, readCache) == mask + 1 { return false; }
      }
      StoreAndPublish(value);
      return true;
    }

    /** The slot access and the release store, once there is room. */
    method StoreAndPublish(value: T)
      requires Valid() && state.w < state.rc + state.cap
      modifies slots, this`write, this`state
      ensures Valid() && state == PushAlone(old(state), value)
    {
      PushAloneSteps(state, value);
      IndexOfCount(mask, state.w);
      NextWord(state.w);
      var w := write;
      slots[And(w, mask)] := value;
      write := Next(w);
      state := PushAlone(state, value);
      assert slots[..] == state.slots;
    }

    /** `init` is what the caller's variable holds; it stays when there is nothing to pop. */
    method Pop(init: T) returns (ok: bool, out: T)
      requires Valid()
      modifies this
      ensures Valid() && slots == old(slots) && mask == old(mask)
      ensures state == PopAlone(old(state))
      ensures ok <==> old(Pending(state)) != []
      ensures ok ==> out == old(Pending(state))[0] && Pending(state) == old(Pending(state))[1..]
      ensures !ok ==> out == init && Pending(state) == []
    {
      PopAloneSteps(state);
      IndexOfCount(mask, state.r);
      NextWord(state.r);
      WrapDifference(state.wc, state.r);
      WrapDifference(state.w, state.r);
      state := PopAlone(state);
      var r := read;
      out := init;
      if r == writeCache {
        writeCache := write;
        if r == writeCache { return false, out; }
      }
      out := slots[And(r, mask)];
      read := Next(r);
      return true, out;
    }

    method Size() returns (n: nat)
      requires Valid()
      ensures n == |Pending(state)| <= mask + 1
    {
      IndexOfCount(mask, state.w);
      WrapDifference(state.w, state.r);
      return Minus(write, read);
    }
  }

  lemma PowerOf(capacity: Word, r: Word) returns (k: nat)
    requires capacity <= HALF_WORD && LeastPow2(capacity, r)
    ensures 1 <= k <= 63 && r == Pow2(k)
  {
    k :| r == Pow2(k);
    Pow2Values();
    if k > 63 { Pow2Mono(63, k); }
  }
}
