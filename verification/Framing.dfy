/** Byte-stream framing: `[magic u32][length u32][payload]`, decoded incrementally out of a
    buffer that is compacted now and then. */
module Framing {
  import opened Bits
  import opened Bytes
  import opened Common

  const FRAME_MAGIC: Word32 := 0x314D5246
  const FRAME_PREFIX_SIZE: nat := 8

  // ---------------------------------------------------------------- encoding

  function Prefix(len: nat): (s: seq<Byte>)
    ensures |s| == FRAME_PREFIX_SIZE
  {
    Le(FRAME_MAGIC, 4) + Le(len, 4)
  }

  /** The wire image of one frame; the length field is a 32-bit truncation of the size. */
  function Frame(payload: seq<Byte>): (s: seq<Byte>)
    ensures |s| == FRAME_PREFIX_SIZE + |payload|
  {
    Prefix(|payload| % WORD32) + payload
  }

  function Stream(payloads: seq<seq<Byte>>): seq<Byte> {
    if payloads == [] then [] else Frame(payloads[0]) + Stream(payloads[1..])
  }

  method EncodeFrame(payload: seq<Byte>, out: seq<Byte>) returns (out': seq<Byte>)
    ensures out' == out + Frame(payload)
  {
    var offset := |out|;
    out' := out + seq(FRAME_PREFIX_SIZE + |payload|, _ => 0);
    out' := PutU32(out', offset, FRAME_MAGIC);
    var len := |payload| % WORD32;
    out' := PutU32(out', offset + 4, len);
    out' := out'[..offset + FRAME_PREFIX_SIZE] + payload;
  }

  /** The loops over the four bytes of the magic and of the length. */
  method PutU32(s: seq<Byte>, at: nat, v: Word32) returns (s': seq<Byte>)
    requires at + 4 <= |s|
    ensures |s'| == |s| && forall k | 0 <= k < |s| && !(at <= k < at + 4) :: s'[k] == s[k]
    ensures forall k | 0 <= k < 4 :: s'[at + k] == Le(v, 4)[k]
  {
    s' := s;
    for i := 0 to 4
      invariant |s'| == |s|
      invariant forall k | 0 <= k < |s| && !(at <= k < at + i) :: s'[k] == s[k]
      invariant forall k | 0 <= k < i :: s'[at + k] == Le(v, 4)[k]
    {
      LeAt(v, 4, i);
      s' := s'[at + i := And(Shr(v, 8 * i), 255)];
    }
  }

  // ---------------------------------------------------------------- the whole-stream parser

  datatype Head = NeedMore | Bad | Got(payload: seq<Byte>, total: nat)

  /** What the front of a byte string holds. */
  function First(s: seq<Byte>, maxBytes: nat): (h: Head)
    ensures h.Got? ==> FRAME_PREFIX_SIZE <= h.total <= |s|
  {
    if |s| < FRAME_PREFIX_SIZE then NeedMore
    else if Val(s[0..4]) != FRAME_MAGIC || Val(s[4..8]) > maxBytes then Bad
    else
      var total := FRAME_PREFIX_SIZE + Val(s[4..8]);
      if |s| < total then NeedMore else Got(s[FRAME_PREFIX_SIZE..total], total)
  }

  datatype Parsed = Parsed(frames: seq<seq<Byte>>, rest: seq<Byte>, bad: bool)

  /** The reference: split the whole byte string into frames until it is cut short or bad. */
  function Parse(s: seq<Byte>, maxBytes: nat): Parsed
    decreases |s|
  {
    match First(s, maxBytes)
    case NeedMore => Parsed([], s, false)
    case Bad => Parsed([], s, true)
    case Got(p, n) =>
      var tail := Parse(s[n..], maxBytes);
      Parsed([p] + tail.frames, tail.rest, tail.bad)
  }

  lemma FirstExtend(s: seq<Byte>, t: seq<Byte>, maxBytes: nat)
    ensures First(s, maxBytes).Bad? ==> First(s + t, maxBytes).Bad?
    ensures First(s, maxBytes).Got? ==> First(s + t, maxBytes) == First(s, maxBytes)
  {
    if |s| >= FRAME_PREFIX_SIZE {
      assert (s + t)[0..4] == s[0..4] && (s + t)[4..8] == s[4..8];
      var total := FRAME_PREFIX_SIZE + Val(s[4..8]);
      if |s| >= total { assert (s + t)[8..total] == s[8..total]; }
    }
  }

  function Prepend(outs: seq<seq<Byte>>, p: Parsed): Parsed {
    Parsed(outs + p.frames, p.rest, p.bad)
  }

  /** Continue a parse that was cut short with more bytes. */
  function Continue(p: Parsed, t: seq<Byte>, maxBytes: nat): Parsed {
    if p.bad then Parsed(p.frames, p.rest + t, true)
    else Prepend(p.frames, Parse(p.rest + t, maxBytes))
  }

  lemma ContinuePrepend(outs: seq<seq<Byte>>, p: Parsed, t: seq<Byte>, maxBytes: nat)
    ensures Continue(Prepend(outs, p), t, maxBytes) == Prepend(outs, Continue(p, t, maxBytes))
  {
    var more := Parse(p.rest + t, maxBytes).frames;
    assert (outs + p.frames) + more == outs + (p.frames + more);
  }

  /** Parsing is incremental: more bytes only continue from where the parse was cut short. */
  lemma {:induction false} ParseExtend(s: seq<Byte>, t: seq<Byte>, maxBytes: nat)
    ensures Parse(s + t, maxBytes) == Continue(Parse(s, maxBytes), t, maxBytes)
    decreases |s|
  {
    FirstExtend(s, t, maxBytes);
    match First(s, maxBytes)
    case NeedMore =>
      assert [] + Parse(s + t, maxBytes).frames == Parse(s + t, maxBytes).frames;
    case Bad =>
    case Got(p, n) =>
      assert (s + t)[n..] == s[n..] + t;
      ParseExtend(s[n..], t, maxBytes);
      ContinuePrepend([p], Parse(s[n..], maxBytes), t, maxBytes);
  }

  // ---------------------------------------------------------------- the decoder, as a value

  /** What a caller can observe: the bytes not yet consumed and the sticky error. */
  datatype Decoder = Decoder(unread: seq<Byte>, error: bool)

  function Fed(d: Decoder, data: seq<Byte>): Decoder {
    if d.error then d else d.(unread := d.unread + data)
  }

  function Advanced(d: Decoder, maxBytes: nat): (r: (Decoder, Option<seq<Byte>>)) {
    if d.error then (d, None)
    else match First(d.unread, maxBytes)
      case NeedMore => (d, None)
      case Bad => (d.(error := true), None)
      case Got(p, n) => (d.(unread := d.unread[n..]), Some(p))
  }

  datatype Op = Feed(data: seq<Byte>) | Next

  function Run(ops: seq<Op>, maxBytes: nat): (r: (Decoder, seq<seq<Byte>>)) {
    if ops == [] then (Decoder([], false), [])
    else
      var (d, outs) := Run(ops[..|ops| - 1], maxBytes);
      match ops[|ops| - 1]
      case Feed(data) => (Fed(d, data), outs)
      case Next =>
        var (d', r) := Advanced(d, maxBytes);
        (d', if r.Some? then outs + [r.value] else outs)
  }

  function FedBytes(ops: seq<Op>): seq<Byte> {
    if ops == [] then []
    else
      var before := FedBytes(ops[..|ops| - 1]);
      match ops[|ops| - 1]
      case Feed(data) => before + data
      case Next => before
  }

  /** The run ends with a call to `next` that returned false. */
  predicate Drained(ops: seq<Op>, maxBytes: nat) {
    ops != [] && ops[|ops| - 1].Next?
    && Advanced(Run(ops[..|ops| - 1], maxBytes).0, maxBytes).1.None?
  }

  /** What has been handed out so far, plus what the unread bytes still hold, is the parse of
      everything fed. */
  ghost predicate Agrees(d: Decoder, outs: seq<seq<Byte>>, fed: seq<Byte>, maxBytes: nat) {
    var all := Parse(fed, maxBytes);
    if d.error then all.bad && all.frames == outs
    else all == Prepend(outs, Parse(d.unread, maxBytes))
  }

  lemma {:induction false} RunAgrees(ops: seq<Op>, maxBytes: nat)
    ensures var (d, outs) := Run(ops, maxBytes); Agrees(d, outs, FedBytes(ops), maxBytes)
    decreases |ops|
  {
    if ops == [] {
    } else {
      var before := ops[..|ops| - 1];
      RunAgrees(before, maxBytes);
      var (d, outs) := Run(before, maxBytes);
      match ops[|ops| - 1]
      case Feed(data) =>
        FeedAgrees(d, outs, FedBytes(before), data, maxBytes);
      case Next =>
        NextAgrees(d, outs, FedBytes(before), maxBytes);
    }
  }

  lemma FeedAgrees(d: Decoder, outs: seq<seq<Byte>>, fed: seq<Byte>, data: seq<Byte>, maxBytes: nat)
    requires Agrees(d, outs, fed, maxBytes)
    ensures Agrees(Fed(d, data), outs, fed + data, maxBytes)
  {
    ParseExtend(fed, data, maxBytes);
    if !d.error {
      ParseExtend(d.unread, data, maxBytes);
      ContinuePrepend(outs, Parse(d.unread, maxBytes), data, maxBytes);
    }
  }

  lemma NextAgrees(d: Decoder, outs: seq<seq<Byte>>, fed: seq<Byte>, maxBytes: nat)
    requires Agrees(d, outs, fed, maxBytes)
    ensures var (d', r) := Advanced(d, maxBytes);
            Agrees(d', if r.Some? then outs + [r.value] else outs, fed, maxBytes)
  {
    if !d.error {
      match First(d.unread, maxBytes)
      case NeedMore =>
      case Bad =>
      case Got(p, n) =>
        var tail := Parse(d.unread[n..], maxBytes);
        assert outs + ([p] + tail.frames) == (outs + [p]) + tail.frames;
    }
  }

  /** However the bytes were cut into chunks and wherever `next` was called in between, a drained
      decoder has handed out exactly the frames of the whole stream, and its error flag is the
      whole stream's. */
  lemma ChunkingIsInvisible(ops: seq<Op>, maxBytes: nat)
    requires Drained(ops, maxBytes)
    ensures Run(ops, maxBytes).1 == Parse(FedBytes(ops), maxBytes).frames
    ensures Run(ops, maxBytes).0.error == Parse(FedBytes(ops), maxBytes).bad
  {
    RunAgrees(ops, maxBytes);
    var (d, outs) := Run(ops, maxBytes);
    if !d.error { assert outs + [] == outs; }
  }

  /** An error is final: whatever is fed or asked for afterwards, nothing is stored or handed out. */
  lemma {:induction false} ErrorIsFinal(ops: seq<Op>, more: seq<Op>, maxBytes: nat)
    requires Run(ops, maxBytes).0.error
    ensures Run(ops + more, maxBytes) == Run(ops, maxBytes)
    decreases |more|
  {
    if more == [] {
      assert ops + more == ops;
    } else {
      ErrorIsFinal(ops, more[..|more| - 1], maxBytes);
      assert (ops + more)[..|ops + more| - 1] == ops + more[..|more| - 1];
    }
  }

  // ---------------------------------------------------------------- decoding undoes encoding

  predicate Fits(payload: seq<Byte>, maxBytes: nat) {
    |payload| <= maxBytes && |payload| < WORD32
  }

  lemma PrefixReads(s: seq<Byte>, len: Word32)
    requires |s| >= FRAME_PREFIX_SIZE && s[..FRAME_PREFIX_SIZE] == Prefix(len)
    ensures Val(s[0..4]) == FRAME_MAGIC && Val(s[4..8]) == len
  {
    ValLe4(FRAME_MAGIC);
    ValLe4(len);
    assert s[0..4] == s[..8][0..4] == Le(FRAME_MAGIC, 4);
    assert s[4..8] == s[..8][4..8] == Le(len, 4);
  }

  lemma FirstOfPrefix(len: Word32, body: seq<Byte>, maxBytes: nat)
    ensures First(Prefix(len) + body, maxBytes) ==
            if len > maxBytes then Bad
            else if |body| < len then NeedMore
            else Got(body[..len], FRAME_PREFIX_SIZE + len)
  {
    var s := Prefix(len) + body;
    assert s[..FRAME_PREFIX_SIZE] == Prefix(len);
    PrefixReads(s, len);
    if len <= |body| { assert s[8..8 + len] == body[..len]; }
  }

  lemma ParsePayload(p: seq<Byte>, t: seq<Byte>, maxBytes: nat)
    requires Fits(p, maxBytes)
    ensures Parse(Frame(p) + t, maxBytes) == Prepend([p], Parse(t, maxBytes))
  {
    FrameSplit(p, t);
    FirstOfPrefix(|p|, p + t, maxBytes);
  }

  lemma {:induction false} CutAt(a: seq<Byte>, b: seq<Byte>)
    ensures (a + b)[..|a|] == a && (a + b)[|a|..] == b
  {
  }

  lemma {:induction false} Regroup(a: seq<Byte>, b: seq<Byte>, c: seq<Byte>)
    ensures a + b + c == a + (b + c)
  {
  }

  lemma {:induction false} SmallFrame(p: seq<Byte>)
    requires |p| < WORD32
    ensures Frame(p) == Prefix(|p|) + p
  {
    assert |p| % WORD32 == |p|;
  }

  lemma {:induction false} FrameSplit(p: seq<Byte>, t: seq<Byte>)
    requires |p| < WORD32
    ensures Frame(p) + t == Prefix(|p|) + (p + t)
    ensures (p + t)[..|p|] == p && (Prefix(|p|) + (p + t))[FRAME_PREFIX_SIZE + |p|..] == t
  {
    SmallFrame(p);
    Regroup(Prefix(|p|), p, t);
    CutAt(p, t);
    CutAt(Frame(p), t);
  }

  lemma PrependTwice(outs: seq<seq<Byte>>, more: seq<seq<Byte>>, p: Parsed)
    ensures Prepend(outs, Prepend(more, p)) == Prepend(outs + more, p)
  {
    assert outs + (more + p.frames) == (outs + more) + p.frames;
  }

  lemma ParseStreamCons(ps: seq<seq<Byte>>, t: seq<Byte>, maxBytes: nat)
    requires ps != [] && Fits(ps[0], maxBytes)
    ensures Parse(Stream(ps) + t, maxBytes)
         == Prepend([ps[0]], Parse(Stream(ps[1..]) + t, maxBytes))
  {
    assert Stream(ps) + t == Frame(ps[0]) + (Stream(ps[1..]) + t);
    ParsePayload(ps[0], Stream(ps[1..]) + t, maxBytes);
  }

  lemma {:induction false} ParseStream(ps: seq<seq<Byte>>, t: seq<Byte>, maxBytes: nat)
    requires forall p | p in ps :: Fits(p, maxBytes)
    ensures Parse(Stream(ps) + t, maxBytes) == Prepend(ps, Parse(t, maxBytes))
    decreases |ps|
  {
    var tail := Parse(t, maxBytes);
    if ps == [] {
      assert Stream(ps) + t == t && ps + tail.frames == tail.frames;
    } else {
      ParseStreamCons(ps, t, maxBytes);
      ParseStream(ps[1..], t, maxBytes);
      PrependTwice([ps[0]], ps[1..], tail);
      assert [ps[0]] + ps[1..] == ps;
    }
  }

  /** One payload survives the trip exactly when it fits the limit and the 32-bit length. */
  lemma FrameRoundTrip(p: seq<Byte>, maxBytes: nat)
    ensures Parse(Frame(p), maxBytes) == Parsed([p], [], false) <==> Fits(p, maxBytes)
  {
    if Fits(p, maxBytes) {
      ParsePayload(p, [], maxBytes);
      assert Frame(p) + [] == Frame(p) && [p] + [] == [p];
    } else {
      FirstOfPrefix(|p| % WORD32, p, maxBytes);
      assert |p| % WORD32 <= maxBytes ==> |p| >= WORD32 && |p[..|p| % WORD32]| < |p|;
    }
  }

  lemma {:induction false} StreamSplit(ps: seq<seq<Byte>>, m: nat)
    requires m <= |ps|
    ensures Stream(ps) == Stream(ps[..m]) + Stream(ps[m..])
    decreases m
  {
    if m == 0 {
      assert ps[..0] == [] && ps[0..] == ps;
    } else {
      assert ps[..m][1..] == ps[1..][..m - 1] && ps[1..][m - 1..] == ps[m..];
      StreamSplit(ps[1..], m - 1);
    }
  }

  lemma {:induction false} CutInside(a: seq<Byte>, b: seq<Byte>, k: nat)
    requires |a| <= k <= |a| + |b|
    ensures (a + b)[..k] == a + b[..k - |a|]
  {
  }

  /** A proper prefix of a frame holds no frame and no error. */
  lemma {:induction false} CutFrame(p: seq<Byte>, k: nat, maxBytes: nat)
    requires Fits(p, maxBytes) && k < |Frame(p)|
    ensures Parse(Frame(p)[..k], maxBytes) == Parsed([], Frame(p)[..k], false)
  {
    if k >= FRAME_PREFIX_SIZE {
      SmallFrame(p);
      CutInside(Prefix(|p|), p, k);
      FirstOfPrefix(|p|, p[..k - FRAME_PREFIX_SIZE], maxBytes);
    }
  }

  /** Any prefix of an encoded stream yields exactly the frames that are complete in it. */
  lemma PrefixYieldsCompleteFrames(ps: seq<seq<Byte>>, k: nat, m: nat, maxBytes: nat)
    requires forall p | p in ps :: Fits(p, maxBytes)
    requires m <= |ps| && k <= |Stream(ps)|
    requires |Stream(ps[..m])| <= k
    requires m < |ps| ==> k < |Stream(ps[..m + 1])|
    ensures Parse(Stream(ps)[..k], maxBytes).frames == ps[..m]
    ensures !Parse(Stream(ps)[..k], maxBytes).bad
  {
    var done := Stream(ps[..m]);
    StreamSplit(ps, m);
    var part := Stream(ps[m..])[..k - |done|];
    assert Stream(ps)[..k] == done + part;
    ParseStream(ps[..m], part, maxBytes);
    if m < |ps| {
      CutStream(ps, m);
      assert part == Frame(ps[m])[..k - |done|];
      CutFrame(ps[m], k - |done|, maxBytes);
    } else {
      assert part == [];
    }
    assert ps[..m] + [] == ps[..m];
  }

  lemma CutStream(ps: seq<seq<Byte>>, m: nat)
    requires m < |ps|
    ensures Frame(ps[m]) <= Stream(ps[m..])
    ensures |Stream(ps[..m + 1])| == |Stream(ps[..m])| + |Frame(ps[m])|
  {
    StreamSplit(ps[..m + 1], m);
    assert ps[..m + 1][..m] == ps[..m] && ps[..m + 1][m..] == [ps[m]];
    assert Stream([ps[m]]) == Frame(ps[m]) + Stream([]);
  }

  /** End to end: payloads framed by the encoder, sent in arbitrary chunks and drained at the far
      end, arrive complete, in order and without an error. */
  lemma PayloadsArrive(ops: seq<Op>, ps: seq<seq<Byte>>, maxBytes: nat)
    requires forall p | p in ps :: Fits(p, maxBytes)
    requires FedBytes(ops) == Stream(ps) && Drained(ops, maxBytes)
    ensures Run(ops, maxBytes).1 == ps && !Run(ops, maxBytes).0.error
  {
    ChunkingIsInvisible(ops, maxBytes);
    ParseStream(ps, [], maxBytes);
    assert Stream(ps) + [] == Stream(ps) && ps + [] == ps;
  }

  // ---------------------------------------------------------------- any byte string

  /** "FRM1", in the order in which the bytes are sent. */
  lemma FrameMagicSpells()
    ensures Le(FRAME_MAGIC, 4) == [0x46, 0x52, 0x4D, 0x31]
  {
    assert Le(FRAME_MAGIC, 4) == [0x46] + Le(FRAME_MAGIC / 256, 3);
    assert Le(0x314D52, 3) == [0x52] + Le(0x314D, 2);
    assert Le(0x314D, 2) == [0x4D] + Le(0x31, 1);
    assert Le(0x31, 1) == [0x31] + Le(0, 0);
  }

  /** The eight bytes of a prefix are there, and they are not those of an acceptable frame. */
  predicate Refused(s: seq<Byte>, maxBytes: nat) {
    |s| >= FRAME_PREFIX_SIZE && (s[0..4] != Le(FRAME_MAGIC, 4) || Val(s[4..8]) > maxBytes)
  }

  /** Not even one frame is complete. */
  predicate Unfinished(s: seq<Byte>) {
    |s| < FRAME_PREFIX_SIZE || |s| < FRAME_PREFIX_SIZE + Val(s[4..8])
  }

  lemma MagicBytes(s: seq<Byte>)
    requires |s| == 4
    ensures s == Le(FRAME_MAGIC, 4) <==> Val(s) == FRAME_MAGIC
  {
    LeVal(s);
    ValLe4(FRAME_MAGIC);
  }

  /** What `First` says of bytes from anywhere. */
  lemma FirstOfAny(s: seq<Byte>, maxBytes: nat)
    ensures First(s, maxBytes).Bad? <==> Refused(s, maxBytes)
    ensures First(s, maxBytes).NeedMore? <==> !Refused(s, maxBytes) && Unfinished(s)
  {
    if |s| >= FRAME_PREFIX_SIZE { MagicBytes(s[0..4]); }
  }

  lemma FourBytes(s: seq<Byte>)
    requires |s| == 4
    ensures Val(s) < WORD32 && s == Le(Val(s), 4)
  {
    LeVal(s);
    ValBelow(s);
    Pow2Values();
  }

  lemma {:induction false} ThreeParts(s: seq<Byte>, i: nat, j: nat, n: nat)
    requires i <= j <= n <= |s|
    ensures s[..n] == s[0..i] + s[i..j] + s[j..n]
  {
  }

  lemma {:induction false} GotIsFrame(s: seq<Byte>, maxBytes: nat)
    requires First(s, maxBytes).Got?
    ensures var Got(p, n) := First(s, maxBytes);
            Fits(p, maxBytes) && n == |Frame(p)| && s[..n] == Frame(p)
  {
    var Got(p, n) := First(s, maxBytes);
    MagicBytes(s[0..4]);
    FourBytes(s[4..8]);
    SmallFrame(p);
    ThreeParts(s, 4, 8, n);
  }

  /** Whatever the bytes: the frames put together again, and what is left of the bytes, are the
      bytes; no frame exceeds the limit; and the parse is an error exactly when what is left is a
      prefix with the wrong magic or too large a length, else it is cut short. */
  lemma {:induction false} ParseRebuilds(s: seq<Byte>, maxBytes: nat)
    ensures var Parsed(frames, rest, bad) := Parse(s, maxBytes);
            && Stream(frames) + rest == s
            && (forall k | 0 <= k < |frames| :: Fits(frames[k], maxBytes))
            && (bad <==> Refused(rest, maxBytes)) && (!bad ==> Unfinished(rest))
    decreases |s|
  {
    FirstOfAny(s, maxBytes);
    match First(s, maxBytes)
    case NeedMore =>
    case Bad =>
    case Got(p, n) =>
      GotIsFrame(s, maxBytes);
      ParseRebuilds(s[n..], maxBytes);
      RebuildCons(s, p, n, Parse(s[n..], maxBytes));
  }

  lemma {:induction false} RebuildCons(s: seq<Byte>, p: seq<Byte>, n: nat, tail: Parsed)
    requires n <= |s| && s[..n] == Frame(p) && Stream(tail.frames) + tail.rest == s[n..]
    ensures Stream([p] + tail.frames) + tail.rest == s
  {
    assert ([p] + tail.frames)[1..] == tail.frames;
    Regroup(Frame(p), Stream(tail.frames), tail.rest);
    assert s == s[..n] + s[n..];
  }

  /** And there is no other way to take the bytes apart like that. */
  lemma ParseIsTheOnly(frames: seq<seq<Byte>>, rest: seq<Byte>, maxBytes: nat)
    requires forall p | p in frames :: Fits(p, maxBytes)
    requires Refused(rest, maxBytes) || Unfinished(rest)
    ensures Parse(Stream(frames) + rest, maxBytes)
         == Parsed(frames, rest, Refused(rest, maxBytes))
  {
    FirstOfAny(rest, maxBytes);
    ParseStream(frames, rest, maxBytes);
    assert frames + [] == frames;
  }

  // ---------------------------------------------------------------- the decoder, in place

  class FrameDecoder {
    var buffer: seq<Byte>
    var head: nat
    const maxFrameBytes: nat
    var frames: nat
    var error: bool
    /** Bytes moved by compaction and bytes of frames handed out, over the whole life. */
    ghost var moved: nat
    ghost var consumed: nat

    /** Less than half of the buffer is dead, and compaction has been paid for by consumption. */
    ghost predicate Valid()
      reads this
    {
      head <= |buffer|
      && (head == 0 || 2 * head < |buffer|)
      && moved + head <= consumed
    }

    ghost function State(): Decoder
      reads this
      requires head <= |buffer|
    {
      Decoder(buffer[head..], error)
    }

    constructor (maxFrameBytes: nat)
      ensures Valid() && State() == Decoder([], false)
      ensures this.maxFrameBytes == maxFrameBytes && frames == moved == consumed == 0
    {
      this.maxFrameBytes := maxFrameBytes;
      buffer, head, frames, error := [], 0, 0, false;
      moved, consumed := 0, 0;
    }

    method Feed(data: seq<Byte>)
      requires Valid()
      modifies this
      ensures Valid() && State() == Fed(old(State()), data)
      ensures |buffer| <= 2 * |State().unread|
      ensures frames == old(frames) && moved == old(moved) && consumed == old(consumed)
    {
      if error { return; }
      buffer := buffer + data;
    }

    method Next() returns (ok: bool, out: seq<Byte>)
      requires Valid()
      modifies this
      ensures Valid()
      ensures (State(), if ok then Some(out) else None) == Advanced(old(State()), maxFrameBytes)
      ensures |buffer| <= 2 * |State().unread|
      ensures frames == old(frames) + (if ok then 1 else 0)
      ensures consumed == old(consumed) + |old(State()).unread| - |State().unread|
    {
      out := [];
      if error { return false, out; }
      if |buffer| - head < FRAME_PREFIX_SIZE {
        Compact();
        return false, out;
      }
      var magic := ReadU32(0);
      if magic != FRAME_MAGIC {
        error := true;
        return false, out;
      }
      var len := ReadU32(4);
      if len > maxFrameBytes {
        error := true;
        return false, out;
      }
      var total := FRAME_PREFIX_SIZE + len;
      if |buffer| - head < total {
        Compact();
        return false, out;
      }
      out := TakeFrame(total);
      return true, out;
    }

    /** The frame at the front is complete: hand out its payload and step over it. */
    method TakeFrame(total: nat) returns (out: seq<Byte>)
      requires Valid() && FRAME_PREFIX_SIZE <= total <= |State().unread|
      modifies this
      ensures Valid() && error == old(error)
      ensures out == old(State()).unread[FRAME_PREFIX_SIZE..total]
      ensures State().unread == old(State()).unread[total..]
      ensures frames == old(frames) + 1 && consumed == old(consumed) + total
    {
      out := buffer[head + FRAME_PREFIX_SIZE..head + total];
      head := head + total;
      frames := frames + 1;
      consumed := consumed + total;
      Compact();
    }

    /** The loop that assembles a little-endian word from the bytes at `head + at`. */
    method ReadU32(at: nat) returns (v: nat)
      requires head + at + 4 <= |buffer|
      ensures v == Val(State().unread[at..at + 4])
    {
      ghost var s := buffer[head..];
      v := 0;
      for i := 0 to 4
        invariant v == Val(s[at..at + i])
      {
        var b := buffer[head + at + i];
        ValBelow(s[at..at + i]);
        OrDisjoint(v, b, 8 * i);
        ValAppend(s[at..at + i], b);
        assert s[at..at + i + 1] == s[at..at + i] + [b];
        v := Or(v, Shl(b, 8 * i));
      }
    }

    method Reset()
      requires Valid()
      modifies this
      ensures Valid() && State() == Decoder([], false)
      ensures frames == old(frames) && moved == old(moved) && consumed == old(consumed)
    {
      buffer := [];
      head := 0;
      error := false;
    }

    /** Moving the unread bytes down costs at most the dead bytes it frees. */
    method Compact()
      requires head <= |buffer| && moved + head <= consumed
      modifies this`buffer, this`head, this`moved
      ensures Valid() && State() == old(State())
      ensures moved + head <= old(moved) + old(head)
      ensures moved == old(moved) + if old(head) != 0 && 2 * old(head) >= |old(buffer)|
                                    then |old(State()).unread| else 0
    {
      if head == 0 { return; }
      if head == |buffer| {
        buffer := [];
        head := 0;
        return;
      }
      if head * 2 >= |buffer| {
        moved := moved + (|buffer| - head);
        buffer := buffer[head..];
        head := 0;
      }
    }
  }
}
