/** The topic bus: sequence numbers are handed out under a lock, envelopes are pushed to the
    subscribers outside it, and late joiners first get a backlog.  Each subscriber has its own
    queue and its own worker. */
module TopicBus {
  import opened Common
  import BQ = BoundedQueue

  type Tid = nat
  type SubId = nat

  // ---------------------------------------------------------------- quality of service

  datatype Reliability = BestEffort | Reliable
  datatype Durability = Volatile | TransientLocal

  /** Deadline 0 means none. */
  datatype QoS = QoS(reliability: Reliability, durability: Durability, depth: nat, deadline: nat,
                     lifespan: nat)

  datatype Mismatch = NoMismatch | ReliabilityMismatch | DurabilityMismatch | DeadlineMismatch

  function CheckCompatible(offered: QoS, requested: QoS): Mismatch {
    if offered.reliability.BestEffort? && requested.reliability.Reliable? then ReliabilityMismatch
    else if offered.durability.Volatile? && requested.durability.TransientLocal?
    then DurabilityMismatch
    else if requested.deadline > 0
            && (offered.deadline == 0 || offered.deadline > requested.deadline)
    then DeadlineMismatch
    else NoMismatch
  }

  predicate Compatible(offered: QoS, requested: QoS) {
    CheckCompatible(offered, requested).NoMismatch?
  }

  /** How strong an offer or a request is, policy by policy; no deadline is the weakest. */
  predicate AtLeast(offered: QoS, requested: QoS) {
    && (requested.reliability.Reliable? ==> offered.reliability.Reliable?)
    && (requested.durability.TransientLocal? ==> offered.durability.TransientLocal?)
    && (requested.deadline > 0 ==> 0 < offered.deadline <= requested.deadline)
  }

  /** The requested-versus-offered rule: compatible means nothing requested exceeds what is offered,
      and so a stronger offer or a weaker request never spoils a match. */
  lemma RequestedVersusOffered(better: QoS, offered: QoS, requested: QoS, weaker: QoS)
    ensures Compatible(offered, requested) <==> AtLeast(offered, requested)
    ensures (Compatible(better, offered) && Compatible(offered, requested)
             && Compatible(requested, weaker)) ==> Compatible(better, weaker)
    ensures Compatible(offered, offered)
    ensures var m := CheckCompatible(offered, requested);
            var reliable := requested.reliability.Reliable? ==> offered.reliability.Reliable?;
            var durable := requested.durability.TransientLocal? ==> offered.durability.TransientLocal?;
            && (m.ReliabilityMismatch? <==> !reliable)
            && (m.DurabilityMismatch? <==> reliable && !durable)
            && (m.DeadlineMismatch? <==> reliable && durable && !AtLeast(offered, requested))
  {
  }

  // ---------------------------------------------------------------- the tables

  /** `publisher` is the publishing thread and `offer` its quality of service; `stamp` is the time
      of publication. */
  datatype Envelope = Envelope(number: nat, publisher: Tid, offer: QoS, payload: nat, stamp: nat)

  /** `backlog` is what is still to be pushed before the worker starts; `hand` is what the worker
      holds; `last` is when it delivered last.  `exited` means that the worker has returned, which
      is what a join waits for.  From `reports` on, the fields record the past: mismatch reports;
      how many envelopes were published at the last shutdown before it joined, when it joined and
      when it left; the backlog it was given; all attempted pushes in order, the refused and the
      evicted ones; whether a thread's push overtook its own envelope in the backlog; the times of
      the deliveries; and what expired, with the time. */
  datatype Loss = Loss(envelope: Envelope, at: nat)

  datatype Sub = Sub(
    topic: string, ty: nat, qos: QoS, queue: BQ.Queue<Envelope>,
    backlog: seq<Envelope>, started: bool, hand: Option<Envelope>, exited: bool,
    delivered: seq<Envelope>, expired: nat, missed: nat, last: nat, rejected: nat, reported: bool,
    reports: nat, since: nat, joined: nat, left: Option<nat>, offered: seq<Envelope>,
    attempted: seq<Envelope>, refused: nat, evicted: nat, overtaken: bool,
    times: seq<nat>, lost: seq<Loss>)

  /** `log` records everything published; `cleared` is its length at the last shutdown. */
  datatype Topic = Topic(
    ty: nat, subs: seq<SubId>, latched: seq<Envelope>, published: nat,
    log: seq<Envelope>, cleared: nat)

  /** `subs` keeps every subscription ever made. */
  datatype Table = Table(
    topics: map<string, Topic>, subs: seq<Sub>, mismatches: nat, typeMismatches: nat)

  function Ensured(topics: map<string, Topic>, name: string, ty: nat): map<string, Topic> {
    if name in topics then topics else topics[name := Topic(ty, [], [], 0, [], 0)]
  }

  function Min(a: nat, b: nat): nat { if a < b then a else b }

  function Last<T>(s: seq<T>, n: nat): seq<T> { s[|s| - Min(n, |s|)..] }

  // ---------------------------------------------------------------- one subscriber

  function NewSub(name: string, ty: nat, qos: QoS, topic: Topic): Sub {
    var backlog := if qos.durability.TransientLocal? then topic.latched else [];
    Sub(name, ty, qos,
        BQ.NewQueue(qos.depth, if qos.reliability.Reliable? then BQ.Block else BQ.DropOldest),
        backlog, false, None, false, [], 0, 0, 0, 0, false,
        0, topic.cleared, |topic.log|, None, backlog, [], 0, 0, false, [], [])
  }

  /** One push to the subscriber's queue, at the moment it is decided. */
  function Attempt(s: Sub, e: Envelope): Sub {
    var (queue, result) := BQ.EnterPush(s.queue, e, true);
    s.(queue := queue, attempted := s.attempted + [e],
       refused := s.refused + (if result == BQ.Pushed(BQ.Full) || result == BQ.Pushed(BQ.Closed)
                               then 1 else 0),
       evicted := s.evicted + (if result == BQ.Pushed(BQ.DroppedOldest) then 1 else 0))
  }

  function BacklogPushed(s: Sub): Sub
    requires s.backlog != []
  {
    Attempt(s, s.backlog[0]).(backlog := s.backlog[1..])
  }

  /** The backlog still holds something by this thread. */
  predicate Waits(backlog: seq<Envelope>, publisher: Tid) {
    exists k :: 0 <= k < |backlog| && backlog[k].publisher == publisher
  }

  function LivePushed(s: Sub, e: Envelope): Sub {
    Attempt(s, e).(overtaken := s.overtaken || Waits(s.backlog, e.publisher))
  }

  function Reject(s: Sub): Sub {
    s.(rejected := s.rejected + 1, reported := true,
       reports := if s.reported then s.reports else s.reports + 1)
  }

  function Taken(s: Sub): Sub
    requires s.queue.items != []
  {
    s.(queue := BQ.EnterPop(s.queue, false).0, hand := Some(s.queue.items[0]))
  }

  /** Older than the subscriber's lifespan; lifespan 0 means none. */
  predicate Expired(qos: QoS, e: Envelope, now: nat) {
    qos.lifespan > 0 && now > e.stamp && now - e.stamp > qos.lifespan
  }

  function Dropped(s: Sub, now: nat): Sub
    requires s.hand.Some?
  {
    s.(hand := None, expired := s.expired + 1, lost := s.lost + [Loss(s.hand.value, now)])
  }

  predicate Slow(s: Sub, now: nat) {
    s.qos.deadline > 0 && s.last != 0 && now - s.last > s.qos.deadline
  }

  function CalledBack(s: Sub, now: nat): Sub
    requires s.hand.Some?
  {
    s.(hand := None, last := now, missed := if Slow(s, now) then s.missed + 1 else s.missed,
       delivered := s.delivered + [s.hand.value], times := s.times + [now])
  }

  /** The rest of the worker's iteration at time `now`: drop what has expired, else note a missed
      deadline and call back. */
  function Finished(s: Sub, now: nat): Sub
    requires s.hand.Some?
  {
    if Expired(s.qos, s.hand.value, now) then Dropped(s, now) else CalledBack(s, now)
  }

  /** The worker finds its queue closed and drained, and returns. */
  function Left(s: Sub): Sub { s.(exited := true) }

  function Shut(s: Sub): Sub { s.(queue := s.queue.(closed := true)) }

  /** Delivered, in the worker's hand, or queued: in this order. */
  function Pipeline(s: Sub): seq<Envelope> {
    s.delivered + (if s.hand.Some? then [s.hand.value] else []) + s.queue.items
  }

  /** Every attempted push ended one way; only best effort evicts, only a reliable or a closed queue
      refuses, and nothing expires without a lifespan or is late without a deadline. */
  ghost predicate Accounted(s: Sub) {
    && s.queue.policy == (if s.qos.reliability.Reliable? then BQ.Block else BQ.DropOldest)
    && s.evicted == s.queue.dropped
    && (s.queue.policy.Block? ==> s.evicted == 0)
    && (s.queue.policy.DropOldest? && !s.queue.closed ==> s.refused == 0)
    && (s.qos.lifespan == 0 ==> s.expired == 0)
    && (s.qos.deadline == 0 ==> s.missed == 0) && (s.missed > 0 ==> s.missed < |s.delivered|)
    && (s.last != 0 ==> s.delivered != [])
    && |s.attempted| == |s.delivered| + s.expired + s.evicted + s.refused + |s.queue.items|
                        + (if s.hand.Some? then 1 else 0)
    && 1 <= s.queue.capacity && |s.queue.items| <= s.queue.capacity
  }

  ghost predicate DistinctNumbers(es: seq<Envelope>) {
    forall j, k | 0 <= j < k < |es| :: es[j].number != es[k].number
  }

  ghost predicate Rising(es: seq<Envelope>) {
    forall j, k | 0 <= j < k < |es| :: es[j].number < es[k].number
  }

  /** What one thread published comes in the order it was published. */
  ghost predicate PublisherOrder(es: seq<Envelope>) {
    forall j, k | 0 <= j < k < |es| && es[j].publisher == es[k].publisher ::
      es[j].number < es[k].number
  }

  ghost predicate AllIn(es: seq<Envelope>, all: seq<Envelope>) {
    forall k | 0 <= k < |es| :: es[k] in all
  }

  ghost predicate Before(es: seq<Envelope>, e: Envelope) {
    forall k | 0 <= k < |es| && es[k].publisher == e.publisher :: es[k].number < e.number
  }

  ghost predicate Unlike(es: seq<Envelope>, e: Envelope) {
    forall k | 0 <= k < |es| :: es[k].number != e.number
  }

  ghost predicate PipeOk(s: Sub) {
    && AllIn(Pipeline(s), s.attempted) && DistinctNumbers(Pipeline(s))
    && (!s.overtaken ==> PublisherOrder(Pipeline(s)))
    && (s.evicted == s.refused == s.expired == 0 ==> Pipeline(s) == s.attempted)
  }

  /** The order of the attempts, past and to come. */
  ghost predicate OrderOk(s: Sub) {
    !s.overtaken <==> PublisherOrder(s.attempted + s.backlog)
  }

  /** A worker leaves nothing behind. */
  ghost predicate ExitOk(s: Sub) {
    s.exited ==> s.started && s.queue.closed && s.queue.items == [] && s.hand.None?
  }

  /** The attempts at the backlog, in order. */
  function Early(es: seq<Envelope>, joined: nat): seq<Envelope> {
    if es == [] then []
    else Early(es[..|es| - 1], joined)
         + if es[|es| - 1].number <= joined then [es[|es| - 1]] else []
  }

  ghost predicate BacklogOk(s: Sub) {
    && Early(s.attempted, s.joined) + s.backlog == s.offered
    && Rising(s.offered)
    && (forall k | 0 <= k < |s.offered| :: s.offered[k].number <= s.joined)
    && (s.qos.durability.Volatile? ==> s.offered == [] && !s.overtaken)
    && (s.started ==> s.backlog == [])
  }

  ghost predicate InLog(log: seq<Envelope>, es: seq<Envelope>) {
    forall k | 0 <= k < |es| :: 1 <= es[k].number <= |log| && log[es[k].number - 1] == es[k]
  }

  ghost predicate ReportsOk(s: Sub) {
    s.reported == (s.rejected > 0) && s.reports == if s.rejected > 0 then 1 else 0
  }

  ghost predicate SubOk(log: seq<Envelope>, s: Sub) {
    && Accounted(s) && PipeOk(s) && BacklogOk(s) && OrderOk(s) && ExitOk(s) && ReportsOk(s)
    && DistinctNumbers(s.attempted)
    && InLog(log, s.attempted) && InLog(log, s.offered) && s.joined <= |log|
  }

  /** What the worker has taken out of the queue. */
  function Drawn(s: Sub): seq<Envelope> {
    s.delivered + if s.hand.Some? then [s.hand.value] else []
  }

  lemma AttemptPipeline(s: Sub, e: Envelope)
    requires 1 <= s.queue.capacity && !s.queue.policy.DropNewest?
    ensures var n := Attempt(s, e);
            || (Pipeline(n) == Pipeline(s) && n.refused > s.refused)
            || Pipeline(n) == Pipeline(s) + [e]
            || (s.queue.items != [] && Pipeline(n) == Drawn(s) + s.queue.items[1..] + [e]
                && n.evicted > s.evicted)
  {
    var n := Attempt(s, e);
    assert Pipeline(n) == Drawn(s) + n.queue.items;
    if n.queue.items == s.queue.items + [e] {
      assert Drawn(s) + (s.queue.items + [e]) == Pipeline(s) + [e];
    } else if s.queue.items != [] && n.queue.items == s.queue.items[1..] + [e] {
      assert Drawn(s) + (s.queue.items[1..] + [e]) == Drawn(s) + s.queue.items[1..] + [e];
    }
  }

  /** Leaving one element out keeps an order. */
  lemma DropOne(a: seq<Envelope>, b: seq<Envelope>, all: seq<Envelope>)
    requires b != [] && AllIn(a + b, all) && DistinctNumbers(a + b)
    ensures AllIn(a + b[1..], all) && DistinctNumbers(a + b[1..])
    ensures PublisherOrder(a + b) ==> PublisherOrder(a + b[1..])
  {
    var s, t := a + b, a + b[1..];
    assert forall k | 0 <= k < |t| :: t[k] == s[if k < |a| then k else k + 1];
  }

  lemma AppendOne(es: seq<Envelope>, all: seq<Envelope>, e: Envelope)
    requires AllIn(es, all) && DistinctNumbers(es) && Unlike(all, e)
    ensures AllIn(es + [e], all + [e]) && DistinctNumbers(es + [e])
    ensures PublisherOrder(es) && Before(all, e) ==> PublisherOrder(es + [e])
  {
  }

  lemma AttemptKeepsPipe(s: Sub, e: Envelope, n: Sub)
    requires Accounted(s) && PipeOk(s) && Unlike(s.attempted, e)
    requires n == Attempt(s, e).(backlog := n.backlog, overtaken := n.overtaken)
    requires !n.overtaken ==> !s.overtaken && Before(s.attempted, e)
    ensures PipeOk(n)
  {
    AttemptPipeline(s, e);
    AppendOne(Pipeline(s), s.attempted, e);
    if s.queue.items != [] {
      DropOne(Drawn(s), s.queue.items, s.attempted);
      AppendOne(Drawn(s) + s.queue.items[1..], s.attempted, e);
    }
    assert Pipeline(n) == Pipeline(Attempt(s, e));
  }

  lemma {:induction false} EarlyHas(es: seq<Envelope>, joined: nat, k: nat)
    requires k < |es| && es[k].number <= joined
    ensures es[k] in Early(es, joined)
    decreases |es|
  {
    if k == |es| - 1 {
    } else {
      EarlyHas(es[..|es| - 1], joined, k);
    }
  }

  /** Leaving one element out keeps the order of the rest. */
  lemma OrderWithout(a: seq<Envelope>, e: Envelope, b: seq<Envelope>)
    requires PublisherOrder(a + [e] + b)
    ensures PublisherOrder(a + b)
    ensures Before(a, e)
    ensures forall k | 0 <= k < |b| && b[k].publisher == e.publisher :: e.number < b[k].number
  {
    var s, t := a + [e] + b, a + b;
    assert s[|a|] == e;
    assert forall k | 0 <= k < |t| :: t[k] == s[if k < |a| then k else k + 1];
    assert forall k | 0 <= k < |a| :: a[k] == s[k];
    assert forall k | 0 <= k < |b| :: b[k] == s[|a| + 1 + k];
  }

  lemma OrderWith(a: seq<Envelope>, e: Envelope, b: seq<Envelope>)
    requires PublisherOrder(a + b) && Before(a, e)
    requires forall k | 0 <= k < |b| && b[k].publisher == e.publisher :: e.number < b[k].number
    ensures PublisherOrder(a + [e] + b)
  {
    var s, t := a + [e] + b, a + b;
    forall j, k | 0 <= j < k < |s| && s[j].publisher == s[k].publisher
      ensures s[j].number < s[k].number
    {
      if k == |a| {
        assert s[j] == a[j];
      } else if j == |a| {
        assert s[k] == b[k - |a| - 1];
      } else {
        var j', k' := if j < |a| then j else j - 1, if k < |a| then k else k - 1;
        assert s[j] == t[j'] && s[k] == t[k'];
      }
    }
  }

  lemma BacklogIsOld(s: Sub)
    requires BacklogOk(s)
    ensures forall k | 0 <= k < |s.backlog| :: s.backlog[k].number <= s.joined
  {
    var early := Early(s.attempted, s.joined);
    forall k | 0 <= k < |s.backlog| ensures s.backlog[k].number <= s.joined {
      assert (early + s.backlog)[|early| + k] == s.backlog[k];
    }
  }

  /** Exactly when a live push keeps the order of the attempts: when the order was kept so far and
      nothing by the same thread still waits in the backlog. */
  lemma LivePushOrder(s: Sub, e: Envelope)
    requires BacklogOk(s) && e.number > s.joined && Before(s.attempted, e)
    ensures var n := LivePushed(s, e);
            PublisherOrder(n.attempted + n.backlog)
            <==> PublisherOrder(s.attempted + s.backlog) && !Waits(s.backlog, e.publisher)
  {
    BacklogIsOld(s);
    if PublisherOrder(s.attempted + [e] + s.backlog) {
      OrderWithout(s.attempted, e, s.backlog);
    }
    if PublisherOrder(s.attempted + s.backlog) && !Waits(s.backlog, e.publisher) {
      OrderWith(s.attempted, e, s.backlog);
    }
  }

  /** The next backlog entry comes after everything of the backlog that was tried already. */
  lemma BacklogIsNext(s: Sub)
    requires BacklogOk(s) && OrderOk(s) && s.backlog != []
    ensures Unlike(s.attempted, s.backlog[0])
    ensures !s.overtaken ==> Before(s.attempted, s.backlog[0])
    ensures OrderOk(BacklogPushed(s))
  {
    SplitBacklog(s.attempted, s.backlog);
    var b := s.backlog[0];
    var early := Early(s.attempted, s.joined);
    assert s.offered[|early|] == b;
    forall k | 0 <= k < |s.attempted| && s.attempted[k].number <= s.joined
      ensures s.attempted[k].number < b.number
    {
      EarlyHas(s.attempted, s.joined, k);
      var j :| 0 <= j < |early| && early[j] == s.attempted[k];
      assert s.offered[j] == early[j];
    }
  }

  lemma SplitBacklog(a: seq<Envelope>, b: seq<Envelope>)
    requires b != []
    ensures a + [b[0]] + b[1..] == a + b
    ensures PublisherOrder(a + b) ==> Before(a, b[0])
  {
    assert a + [b[0]] + b[1..] == a + b;
    if PublisherOrder(a + b) { OrderWithout(a, b[0], b[1..]); }
  }

  lemma BacklogPushKeepsBacklog(s: Sub)
    requires BacklogOk(s) && s.backlog != []
    ensures BacklogOk(BacklogPushed(s))
  {
    var early := Early(s.attempted, s.joined);
    assert s.offered[|early|] == s.backlog[0];
    assert early + s.backlog == early + [s.backlog[0]] + s.backlog[1..];
  }

  lemma BacklogHeadInLog(log: seq<Envelope>, s: Sub)
    requires BacklogOk(s) && s.backlog != [] && InLog(log, s.offered)
    ensures var b := s.backlog[0];
            1 <= b.number <= |log| && log[b.number - 1] == b && b.number <= s.joined
  {
    assert s.offered[|Early(s.attempted, s.joined)|] == s.backlog[0];
  }

  lemma BacklogPushKeeps(log: seq<Envelope>, s: Sub)
    requires SubOk(log, s) && s.backlog != []
    ensures SubOk(log, BacklogPushed(s))
  {
    BacklogIsNext(s);
    BacklogHeadInLog(log, s);
    BacklogPushKeepsBacklog(s);
    AttemptKeeps(log, s, s.backlog[0], BacklogPushed(s));
  }

  lemma AttemptKeepsLog(log: seq<Envelope>, es: seq<Envelope>, e: Envelope)
    requires InLog(log, es) && DistinctNumbers(es) && Unlike(es, e)
    requires 1 <= e.number <= |log| && log[e.number - 1] == e
    ensures InLog(log, es + [e]) && DistinctNumbers(es + [e])
  {
  }

  lemma AttemptAccounted(s: Sub, e: Envelope, n: Sub)
    requires Accounted(s) && n == Attempt(s, e).(backlog := n.backlog, overtaken := n.overtaken)
    ensures Accounted(n)
  {
  }

  lemma AttemptKeeps(log: seq<Envelope>, s: Sub, e: Envelope, n: Sub)
    requires SubOk(log, s) && 1 <= e.number <= |log| && log[e.number - 1] == e
    requires n == Attempt(s, e).(backlog := n.backlog, overtaken := n.overtaken) && BacklogOk(n)
    requires Unlike(s.attempted, e) && OrderOk(n)
    requires !n.overtaken ==> !s.overtaken && Before(s.attempted, e)
    ensures SubOk(log, n)
  {
    AttemptAccounted(s, e, n);
    AttemptKeepsPipe(s, e, n);
    AttemptKeepsLog(log, s.attempted, e);
  }

  lemma LivePushKeeps(log: seq<Envelope>, s: Sub, e: Envelope)
    requires SubOk(log, s) && s.joined < e.number <= |log| && log[e.number - 1] == e
    requires Unlike(s.attempted, e) && Before(s.attempted, e)
    ensures SubOk(log, LivePushed(s, e))
  {
    LivePushOrder(s, e);
    AttemptKeeps(log, s, e, LivePushed(s, e));
  }

  lemma TakeKeeps(log: seq<Envelope>, s: Sub)
    requires SubOk(log, s) && s.hand.None? && s.queue.items != []
    ensures SubOk(log, Taken(s))
  {
    assert Pipeline(Taken(s)) == Pipeline(s);
  }

  lemma DroppedPipe(s: Sub, now: nat)
    requires PipeOk(s) && s.hand.Some?
    ensures PipeOk(Dropped(s, now))
  {
    var rest := [s.hand.value] + s.queue.items;
    assert Pipeline(s) == s.delivered + rest;
    assert Pipeline(Dropped(s, now)) == s.delivered + rest[1..];
    DropOne(s.delivered, rest, s.attempted);
  }

  lemma DroppedKeeps(log: seq<Envelope>, s: Sub, now: nat)
    requires SubOk(log, s) && s.hand.Some? && s.qos.lifespan > 0
    ensures SubOk(log, Dropped(s, now))
  {
    DroppedPipe(s, now);
    assert Accounted(Dropped(s, now));
  }

  lemma CalledBackKeeps(log: seq<Envelope>, s: Sub, now: nat)
    requires SubOk(log, s) && s.hand.Some?
    ensures SubOk(log, CalledBack(s, now))
  {
    assert Pipeline(CalledBack(s, now)) == Pipeline(s);
  }

  lemma FinishKeeps(log: seq<Envelope>, s: Sub, now: nat)
    requires SubOk(log, s) && s.hand.Some?
    ensures SubOk(log, Finished(s, now))
  {
    if Expired(s.qos, s.hand.value, now) {
      DroppedKeeps(log, s, now);
    } else {
      CalledBackKeeps(log, s, now);
    }
  }

  lemma ExitKeeps(log: seq<Envelope>, s: Sub)
    requires SubOk(log, s) && MayExit(s)
    ensures SubOk(log, Left(s))
  {
    assert Pipeline(Left(s)) == Pipeline(s);
  }

  predicate MayExit(s: Sub) {
    s.started && !s.exited && s.hand.None? && s.queue.closed && s.queue.items == []
  }

  lemma ShutKeeps(log: seq<Envelope>, s: Sub)
    requires SubOk(log, s)
    ensures SubOk(log, Shut(s))
  {
    assert Pipeline(Shut(s)) == Pipeline(s);
  }

  /** A rejection, a departure or a started worker leaves the queue alone. */
  lemma TouchKeeps(log: seq<Envelope>, s: Sub, n: Sub)
    requires SubOk(log, s) && ReportsOk(n)
    requires n == s.(rejected := n.rejected, reported := n.reported, reports := n.reports,
                     left := n.left, started := n.started)
    requires (n.started ==> s.backlog == []) && (s.started ==> n.started)
    ensures SubOk(log, n)
  {
    assert Pipeline(n) == Pipeline(s);
  }

  // ---------------------------------------------------------------- the steps under the lock

  datatype Classified = Classified(subs: seq<Sub>, targets: seq<SubId>, rejected: nat)

  /** The loop over a topic's subscribers: those whose request exceeds the offer are charged with a
      rejection, the others become targets. */
  function Classify(subs: seq<Sub>, ids: seq<SubId>, offer: QoS): (r: Classified)
    ensures |r.subs| == |subs|
  {
    if ids == [] then Classified(subs, [], 0)
    else
      var c := Classify(subs, ids[..|ids| - 1], offer);
      var id := ids[|ids| - 1];
      if id >= |c.subs| then c
      else if Compatible(offer, c.subs[id].qos) then c.(targets := c.targets + [id])
      else Classified(c.subs[id := Reject(c.subs[id])], c.targets, c.rejected + 1)
  }

  function SumRejected(subs: seq<Sub>): nat {
    if subs == [] then 0 else SumRejected(subs[..|subs| - 1]) + subs[|subs| - 1].rejected
  }

  lemma {:induction false} SumUpdate(subs: seq<Sub>, id: SubId, s: Sub)
    requires id < |subs|
    ensures SumRejected(subs[id := s]) == SumRejected(subs) - subs[id].rejected + s.rejected
    decreases |subs|
  {
    var t := subs[id := s];
    if id == |subs| - 1 {
      assert t[..|t| - 1] == subs[..|subs| - 1];
    } else {
      assert t[..|t| - 1] == subs[..|subs| - 1][id := s];
      SumUpdate(subs[..|subs| - 1], id, s);
    }
  }

  ghost predicate Distinct(ids: seq<SubId>) {
    forall j, k | 0 <= j < k < |ids| :: ids[j] != ids[k]
  }

  predicate Excluded(subs: seq<Sub>, ids: seq<SubId>, offer: QoS, id: SubId) {
    id < |subs| && id in ids && !Compatible(offer, subs[id].qos)
  }

  ghost predicate ClassifyEffect(subs: seq<Sub>, ids: seq<SubId>, offer: QoS, c: Classified) {
    && |c.subs| == |subs|
    && (forall i: nat | i < |subs| ::
          c.subs[i] == if Excluded(subs, ids, offer, i) then Reject(subs[i]) else subs[i])
    && (forall i: nat :: i in c.targets <==>
                         i in ids && i < |subs| && Compatible(offer, subs[i].qos))
    && Distinct(c.targets)
    && SumRejected(c.subs) == SumRejected(subs) + c.rejected
  }

  lemma {:induction false} ClassifyHasEffect(subs: seq<Sub>, ids: seq<SubId>, offer: QoS)
    requires Distinct(ids)
    ensures ClassifyEffect(subs, ids, offer, Classify(subs, ids, offer))
    decreases |ids|
  {
    if ids == [] {
    } else {
      var init, id := ids[..|ids| - 1], ids[|ids| - 1];
      assert ids == init + [id] && id !in init;
      ClassifyHasEffect(subs, init, offer);
      ClassifyOne(subs, init, id, offer, Classify(subs, init, offer), Classify(subs, ids, offer));
    }
  }

  ghost predicate OnlyRejected(s: Sub, n: Sub) {
    n == s.(rejected := n.rejected, reported := n.reported, reports := n.reports)
  }

  lemma {:induction false} ClassifyOnlyRejects(subs: seq<Sub>, ids: seq<SubId>, offer: QoS, i: nat)
    requires i < |subs|
    ensures OnlyRejected(subs[i], Classify(subs, ids, offer).subs[i])
    decreases |ids|
  {
    if ids == [] {
    } else {
      ClassifyOnlyRejects(subs, ids[..|ids| - 1], offer, i);
    }
  }

  lemma ClassifyOne(subs: seq<Sub>, init: seq<SubId>, id: SubId, offer: QoS,
                    c: Classified, d: Classified)
    requires ClassifyEffect(subs, init, offer, c) && id !in init
    requires d == if id >= |c.subs| then c
                  else if Compatible(offer, c.subs[id].qos) then c.(targets := c.targets + [id])
                  else Classified(c.subs[id := Reject(c.subs[id])], c.targets, c.rejected + 1)
    ensures ClassifyEffect(subs, init + [id], offer, d)
  {
    if id < |subs| { SumUpdate(c.subs, id, Reject(c.subs[id])); }
  }

  function Without(ids: seq<SubId>, id: SubId): seq<SubId> {
    if ids == [] then []
    else if ids[0] == id then ids[1..]
    else [ids[0]] + Without(ids[1..], id)
  }

  lemma {:induction false} WithoutOne(ids: seq<SubId>, id: SubId)
    requires Distinct(ids)
    ensures Distinct(Without(ids, id))
    ensures forall i :: i in Without(ids, id) <==> i in ids && i != id
  {
    if ids == [] {
    } else if ids[0] != id {
      var rest := Without(ids[1..], id);
      WithoutOne(ids[1..], id);
      forall k | 0 <= k < |rest| ensures rest[k] != ids[0] {
        assert rest[k] in rest;
        var j :| 0 <= j < |ids[1..]| && ids[1..][j] == rest[k];
        assert ids[j + 1] == rest[k];
      }
      assert forall i :: i in ids <==> i == ids[0] || i in ids[1..];
    } else {
      assert forall i :: i in ids <==> i == ids[0] || i in ids[1..];
    }
  }

  function Subscribed(tab: Table, name: string, ty: nat, qos: QoS): Table {
    var topics := Ensured(tab.topics, name, ty);
    if topics[name].ty != ty then tab
    else tab.(topics := topics[name := topics[name].(subs := topics[name].subs + [|tab.subs|])],
              subs := tab.subs + [NewSub(name, ty, qos, topics[name])])
  }

  /** A publication on its way: the subscribers still to be served. */
  datatype Call = Call(topic: string, envelope: Envelope, targets: seq<SubId>)

  function NextEnvelope(topic: Topic, t: Tid, offer: QoS, payload: nat, stamp: nat): Envelope {
    Envelope(topic.published + 1, t, offer, payload, stamp)
  }

  function Recorded(topic: Topic, e: Envelope): Topic {
    topic.(published := topic.published + 1, log := topic.log + [e],
           latched := if e.offer.durability.TransientLocal? then Last(topic.latched + [e], e.offer.depth)
                      else topic.latched)
  }

  function Published(tab: Table, t: Tid, name: string, ty: nat, offer: QoS, payload: nat, stamp: nat)
      : (Table, Option<Call>)
  {
    if name !in tab.topics then (tab, None)
    else if tab.topics[name].ty != ty
    then (tab.(typeMismatches := tab.typeMismatches + 1), None)
    else
      var e := NextEnvelope(tab.topics[name], t, offer, payload, stamp);
      var c := Classify(tab.subs, tab.topics[name].subs, offer);
      (tab.(topics := tab.topics[name := Recorded(tab.topics[name], e)], subs := c.subs,
            mismatches := tab.mismatches + c.rejected),
       Some(Call(name, e, c.targets)))
  }

  function Gone(topics: map<string, Topic>, s: Sub): Sub {
    if s.left.None? && s.topic in topics then s.(left := Some(|topics[s.topic].log|)) else s
  }

  function Unlinked(tab: Table, id: SubId): Table
    requires id < |tab.subs|
  {
    var name := tab.subs[id].topic;
    if name in tab.topics && id in tab.topics[name].subs
    then tab.(topics := tab.topics[name := tab.topics[name].(
                                     subs := Without(tab.topics[name].subs, id))],
              subs := tab.subs[id := Gone(tab.topics, tab.subs[id])])
    else tab
  }

  function Emptied(topic: Topic): Topic {
    topic.(subs := [], latched := [], cleared := |topic.log|)
  }

  function AllEmptied(topics: map<string, Topic>): map<string, Topic> {
    map name | name in topics :: Emptied(topics[name])
  }

  function ShutDown(tab: Table): Table {
    tab.(topics := AllEmptied(tab.topics),
         subs := seq(|tab.subs|, i requires 0 <= i < |tab.subs| => Gone(tab.topics, tab.subs[i])))
  }

  // ---------------------------------------------------------------- the bus

  datatype Bus = Bus(tab: Table, calls: map<Tid, Call>)

  datatype Event =
    | Advertise(name: string, ty: nat)
    | Subscribe(name: string, ty: nat, qos: QoS)
    | PushBacklog(id: SubId)
    | StartWorker(id: SubId)
    | Publish(t: Tid, name: string, ty: nat, offer: QoS, payload: nat, stamp: nat)
    | Deliver(t: Tid, timedOut: bool)
    | Return(t: Tid)
    | Take(id: SubId)
    | Finish(id: SubId, now: nat)
    | Exit(id: SubId)
    | Unsubscribe(id: SubId)
    | CloseQueue(id: SubId)
    | Shutdown

  /** A publisher waits while a blocking queue is full, unless its timeout has passed. */
  predicate Ready(s: Sub, e: Envelope, timedOut: bool) {
    if timedOut then s.qos.reliability.Reliable?
    else BQ.EnterPush(s.queue, e, false).1 != BQ.PushWait
  }

  predicate Enabled(b: Bus, e: Event) {
    var subs := b.tab.subs;
    match e
    case PushBacklog(id) => id < |subs| && subs[id].backlog != []
    case StartWorker(id) => id < |subs| && subs[id].backlog == [] && !subs[id].started
    case Publish(t, _, _, _, _, _) => t !in b.calls
    case Deliver(t, timedOut) =>
      t in b.calls && b.calls[t].targets != [] && b.calls[t].targets[0] < |subs|
      && Ready(subs[b.calls[t].targets[0]], b.calls[t].envelope, timedOut)
    case Return(t) => t in b.calls && b.calls[t].targets == []
    case Take(id) =>
      id < |subs| && subs[id].started && subs[id].hand.None? && subs[id].queue.items != []
    case Finish(id, now) => id < |subs| && subs[id].hand.Some? && now >= subs[id].last
    case Exit(id) => id < |subs| && MayExit(subs[id])
    case Unsubscribe(id) => id < |subs| && subs[id].started
    case CloseQueue(id) => id < |subs| && subs[id].left.Some?
    case _ => true
  }

  function SetSub(b: Bus, id: SubId, s: Sub): Bus
    requires id < |b.tab.subs|
  {
    b.(tab := b.tab.(subs := b.tab.subs[id := s]))
  }

  function Next(b: Bus, e: Event): Bus
    requires Enabled(b, e)
  {
    var subs := b.tab.subs;
    match e
    case Advertise(name, ty) => b.(tab := b.tab.(topics := Ensured(b.tab.topics, name, ty)))
    case Subscribe(name, ty, qos) => b.(tab := Subscribed(b.tab, name, ty, qos))
    case PushBacklog(id) => SetSub(b, id, BacklogPushed(subs[id]))
    case StartWorker(id) => SetSub(b, id, subs[id].(started := true))
    case Publish(t, name, ty, offer, payload, stamp) =>
      var (tab, call) := Published(b.tab, t, name, ty, offer, payload, stamp);
      Bus(tab, if call.Some? then b.calls[t := call.value] else b.calls)
    case Deliver(t, _) =>
      var c := b.calls[t];
      SetSub(b, c.targets[0], LivePushed(subs[c.targets[0]], c.envelope)).(
        calls := b.calls[t := c.(targets := c.targets[1..])])
    case Return(t) => b.(calls := b.calls - {t})
    case Take(id) => SetSub(b, id, Taken(subs[id]))
    case Finish(id, now) => SetSub(b, id, Finished(subs[id], now))
    case Exit(id) => SetSub(b, id, Left(subs[id]))
    case Unsubscribe(id) => b.(tab := Unlinked(b.tab, id))
    case CloseQueue(id) => SetSub(b, id, Shut(subs[id]))
    case Shutdown => b.(tab := ShutDown(b.tab))
  }

  // ---------------------------------------------------------------- what holds throughout

  ghost predicate TopicOk(topic: Topic) {
    && topic.published == |topic.log| && topic.cleared <= |topic.log|
    && (forall k | 0 <= k < |topic.log| :: topic.log[k].number == k + 1)
    && InLog(topic.log, topic.latched) && Rising(topic.latched)
  }

  ghost predicate TopicsOk(topics: map<string, Topic>) {
    forall name | name in topics :: TopicOk(topics[name])
  }

  predicate Listens(subs: seq<Sub>, name: string, id: SubId) {
    id < |subs| && subs[id].topic == name && subs[id].left.None?
  }

  ghost predicate MembersOk(subs: seq<Sub>, name: string, ids: seq<SubId>) {
    Distinct(ids) && forall id: SubId :: id in ids <==> Listens(subs, name, id)
  }

  ghost predicate Links(topics: map<string, Topic>, subs: seq<Sub>) {
    && (forall name | name in topics :: MembersOk(subs, name, topics[name].subs))
    && (forall id | 0 <= id < |subs| :: subs[id].topic in topics)
  }

  ghost predicate SubsOk(topics: map<string, Topic>, subs: seq<Sub>) {
    forall id | 0 <= id < |subs| ::
      subs[id].topic in topics && SubOk(topics[subs[id].topic].log, subs[id])
  }

  /** How much was published while the subscriber was there. */
  function Until(log: seq<Envelope>, s: Sub): nat {
    if s.left.Some? then s.left.value else |log|
  }

  ghost predicate TargetOk(log: seq<Envelope>, s: Sub, name: string, e: Envelope) {
    s.topic == name && s.joined < e.number <= Until(log, s) <= |log| && Compatible(e.offer, s.qos)
  }

  /** The envelope of a call is the last one its thread has published on the topic. */
  ghost predicate CallOk(log: seq<Envelope>, subs: seq<Sub>, t: Tid, c: Call) {
    && 1 <= c.envelope.number <= |log| && log[c.envelope.number - 1] == c.envelope
    && c.envelope.publisher == t
    && (forall k | c.envelope.number <= k < |log| :: log[k].publisher != t)
    && Distinct(c.targets)
    && forall j | 0 <= j < |c.targets| ::
         c.targets[j] < |subs| && TargetOk(log, subs[c.targets[j]], c.topic, c.envelope)
  }

  ghost predicate CallsOk(topics: map<string, Topic>, subs: seq<Sub>, calls: map<Tid, Call>) {
    forall t | t in calls ::
      calls[t].topic in topics && CallOk(topics[calls[t].topic].log, subs, t, calls[t])
  }

  /** The numbers of the live pushes attempted so far. */
  ghost function Live(s: Sub): set<nat> {
    set e | e in s.attempted && e.number > s.joined :: e.number
  }

  /** Envelope `q` of the topic is still to be pushed to subscriber `id`. */
  predicate Pending(log: seq<Envelope>, calls: map<Tid, Call>, name: string, id: SubId, q: nat)
    requires 1 <= q <= |log|
  {
    var t := log[q - 1].publisher;
    t in calls && calls[t].topic == name && calls[t].envelope.number == q && id in calls[t].targets
  }

  function Incompatible(log: seq<Envelope>, qos: QoS, low: nat, high: nat): nat
    requires low <= high <= |log|
    decreases high
  {
    if high == low then 0
    else Incompatible(log, qos, low, high - 1)
         + if Compatible(log[high - 1].offer, qos) then 0 else 1
  }

  /** Envelope `q` is either rejected, or exactly one of: already tried, still to be pushed. */
  ghost predicate Served(log: seq<Envelope>, calls: map<Tid, Call>, id: SubId, s: Sub, q: nat)
    requires 1 <= q <= |log|
  {
    && (Compatible(log[q - 1].offer, s.qos) <==> (q in Live(s) || Pending(log, calls, s.topic, id, q)))
    && !(q in Live(s) && Pending(log, calls, s.topic, id, q))
  }

  /** No gap and no duplicate among what was published while the subscriber was there. */
  ghost predicate LawOk(log: seq<Envelope>, calls: map<Tid, Call>, id: SubId, s: Sub) {
    && s.joined <= Until(log, s) <= |log|
    && (forall q: nat | s.joined < q <= Until(log, s) :: Served(log, calls, id, s, q))
    && (forall q | q in Live(s) :: s.joined < q <= Until(log, s))
    && s.rejected == Incompatible(log, s.qos, s.joined, Until(log, s))
  }

  ghost predicate LawsOk(topics: map<string, Topic>, subs: seq<Sub>, calls: map<Tid, Call>) {
    forall id | 0 <= id < |subs| ::
      subs[id].topic in topics && LawOk(topics[subs[id].topic].log, calls, id, subs[id])
  }

  ghost predicate Inv(b: Bus) {
    && TopicsOk(b.tab.topics) && Links(b.tab.topics, b.tab.subs)
    && SubsOk(b.tab.topics, b.tab.subs) && CallsOk(b.tab.topics, b.tab.subs, b.calls)
    && LawsOk(b.tab.topics, b.tab.subs, b.calls)
    && b.tab.mismatches == SumRejected(b.tab.subs)
  }

  // ---------------------------------------------------------------- steps of one subscriber

  ghost predicate SameStanding(s: Sub, n: Sub) {
    n.topic == s.topic && n.qos == s.qos && n.joined == s.joined && n.left == s.left
    && n.rejected == s.rejected
  }

  lemma LawSame(log: seq<Envelope>, calls: map<Tid, Call>, id: SubId, s: Sub, n: Sub)
    requires LawOk(log, calls, id, s) && SameStanding(s, n) && Live(n) == Live(s)
    ensures LawOk(log, calls, id, n)
  {
    forall q: nat | n.joined < q <= Until(log, n) ensures Served(log, calls, id, n, q) {
      assert Served(log, calls, id, s, q);
    }
  }

  lemma LinksSame(topics: map<string, Topic>, subs: seq<Sub>, id: SubId, n: Sub)
    requires Links(topics, subs) && id < |subs| && SameStanding(subs[id], n)
    ensures Links(topics, subs[id := n])
  {
    var next := subs[id := n];
    forall name | name in topics ensures MembersOk(next, name, topics[name].subs) {
      assert MembersOk(subs, name, topics[name].subs);
      assert forall i: SubId :: Listens(next, name, i) <==> Listens(subs, name, i);
    }
  }

  lemma CallsSame(topics: map<string, Topic>, subs: seq<Sub>, calls: map<Tid, Call>, id: SubId, n: Sub)
    requires CallsOk(topics, subs, calls) && id < |subs| && SameStanding(subs[id], n)
    ensures CallsOk(topics, subs[id := n], calls)
  {
    forall t | t in calls ensures CallOk(topics[calls[t].topic].log, subs[id := n], t, calls[t]) {
    }
  }

  lemma LocalKeeps(b: Bus, id: SubId, n: Sub)
    requires Inv(b) && id < |b.tab.subs| && SameStanding(b.tab.subs[id], n)
    requires SubOk(b.tab.topics[b.tab.subs[id].topic].log, n)
    requires Live(n) == Live(b.tab.subs[id])
    ensures Inv(SetSub(b, id, n))
  {
    LinksSame(b.tab.topics, b.tab.subs, id, n);
    CallsSame(b.tab.topics, b.tab.subs, b.calls, id, n);
    SumUpdate(b.tab.subs, id, n);
    LawSame(b.tab.topics[n.topic].log, b.calls, id, b.tab.subs[id], n);
  }

  lemma PushBacklogKeeps(b: Bus, id: SubId)
    requires Inv(b) && Enabled(b, PushBacklog(id))
    ensures Inv(Next(b, PushBacklog(id)))
  {
    var s := b.tab.subs[id];
    var log := b.tab.topics[s.topic].log;
    BacklogPushKeeps(log, s);
    BacklogHeadInLog(log, s);
    LocalKeeps(b, id, BacklogPushed(s));
  }

  /** A step that tries nothing new. */
  ghost predicate Quiet(s: Sub, n: Sub) { SameStanding(s, n) && n.attempted == s.attempted }

  lemma QuietKeeps(b: Bus, id: SubId, n: Sub)
    requires Inv(b) && id < |b.tab.subs| && Quiet(b.tab.subs[id], n)
    requires SubOk(b.tab.topics[b.tab.subs[id].topic].log, n)
    ensures Inv(SetSub(b, id, n))
  {
    assert Live(n) == Live(b.tab.subs[id]);
    LocalKeeps(b, id, n);
  }

  lemma QuietSteps(log: seq<Envelope>, s: Sub)
    requires SubOk(log, s)
    ensures s.backlog == [] ==> SubOk(log, s.(started := true)) && Quiet(s, s.(started := true))
    ensures s.hand.None? && s.queue.items != [] ==> SubOk(log, Taken(s)) && Quiet(s, Taken(s))
    ensures MayExit(s) ==> SubOk(log, Left(s)) && Quiet(s, Left(s))
    ensures SubOk(log, Shut(s)) && Quiet(s, Shut(s))
  {
    if s.backlog == [] { TouchKeeps(log, s, s.(started := true)); }
    if s.hand.None? && s.queue.items != [] { TakeKeeps(log, s); }
    if MayExit(s) { ExitKeeps(log, s); }
    ShutKeeps(log, s);
  }

  lemma QuietFinish(log: seq<Envelope>, s: Sub, now: nat)
    requires SubOk(log, s) && s.hand.Some?
    ensures SubOk(log, Finished(s, now)) && Quiet(s, Finished(s, now))
  {
    FinishKeeps(log, s, now);
  }

  predicate IsQuiet(e: Event) {
    e.StartWorker? || e.Take? || e.Finish? || e.Exit? || e.CloseQueue?
  }

  predicate QuietReady(s: Sub, e: Event)
    requires IsQuiet(e)
  {
    match e
    case StartWorker(_) => s.backlog == []
    case Take(_) => s.hand.None? && s.queue.items != []
    case Finish(_, _) => s.hand.Some?
    case Exit(_) => MayExit(s)
    case _ => true
  }

  function QuietNext(s: Sub, e: Event): Sub
    requires IsQuiet(e) && QuietReady(s, e)
  {
    match e
    case StartWorker(_) => s.(started := true)
    case Take(_) => Taken(s)
    case Finish(_, now) => Finished(s, now)
    case Exit(_) => Left(s)
    case _ => Shut(s)
  }

  lemma NextIsQuiet(b: Bus, e: Event)
    requires Enabled(b, e) && IsQuiet(e)
    ensures e.id < |b.tab.subs| && QuietReady(b.tab.subs[e.id], e)
    ensures Next(b, e) == SetSub(b, e.id, QuietNext(b.tab.subs[e.id], e))
  {
  }

  lemma QuietNextOk(log: seq<Envelope>, s: Sub, e: Event)
    requires SubOk(log, s) && IsQuiet(e) && QuietReady(s, e)
    ensures SubOk(log, QuietNext(s, e)) && Quiet(s, QuietNext(s, e))
  {
    if e.Finish? { QuietFinish(log, s, e.now); } else { QuietSteps(log, s); }
  }

  lemma QuietStepKeeps(b: Bus, e: Event)
    requires Inv(b) && Enabled(b, e) && IsQuiet(e)
    ensures Inv(Next(b, e))
  {
    NextIsQuiet(b, e);
    var s := b.tab.subs[e.id];
    QuietNextOk(b.tab.topics[s.topic].log, s, e);
    QuietKeeps(b, e.id, QuietNext(s, e));
  }

  // ---------------------------------------------------------------- deliveries

  lemma ServedOnce(log: seq<Envelope>, calls: map<Tid, Call>, id: SubId, s: Sub, e: Envelope)
    requires LawOk(log, calls, id, s) && e.publisher in calls
    requires 1 <= e.number <= |log| && log[e.number - 1] == e
    requires calls[e.publisher].envelope == e && calls[e.publisher].topic == s.topic
    requires id in calls[e.publisher].targets && s.joined < e.number <= Until(log, s)
    ensures e.number !in Live(s)
  {
    assert Served(log, calls, id, s, e.number);
    assert Pending(log, calls, s.topic, id, e.number);
  }

  /** The target of the next push: it moves from the pending to the tried ones. */
  lemma DeliverLaw(log: seq<Envelope>, calls: map<Tid, Call>, next: map<Tid, Call>, t: Tid,
                   id: SubId, s: Sub, n: Sub)
    requires LawOk(log, calls, id, s) && t in calls && CallShape(log, t, calls[t])
    requires calls[t].targets != [] && calls[t].targets[0] == id && calls[t].topic == s.topic
    requires s.joined < calls[t].envelope.number <= Until(log, s)
    requires next == calls[t := calls[t].(targets := calls[t].targets[1..])]
    requires SameStanding(s, n) && Live(n) == Live(s) + {calls[t].envelope.number}
    ensures LawOk(log, next, id, n)
  {
    var e := calls[t].envelope;
    assert id !in calls[t].targets[1..];
    forall q: nat | n.joined < q <= Until(log, n) ensures Served(log, next, id, n, q) {
      assert Served(log, calls, id, s, q);
      if q == e.number {
        assert Pending(log, calls, s.topic, id, q);
        assert !Pending(log, next, n.topic, id, q);
      } else {
        assert Pending(log, next, n.topic, id, q) == Pending(log, calls, s.topic, id, q);
      }
    }
  }

  ghost predicate CallShape(log: seq<Envelope>, t: Tid, c: Call) {
    && 1 <= c.envelope.number <= |log| && log[c.envelope.number - 1] == c.envelope
    && c.envelope.publisher == t && Distinct(c.targets)
  }

  /** For the other subscribers nothing changes. */
  lemma DeliverLawOther(log: seq<Envelope>, calls: map<Tid, Call>, next: map<Tid, Call>, t: Tid,
                        id: SubId, s: Sub)
    requires LawOk(log, calls, id, s) && t in calls && calls[t].targets != []
    requires calls[t].targets[0] != id || calls[t].topic != s.topic
    requires next == calls[t := calls[t].(targets := calls[t].targets[1..])]
    ensures LawOk(log, next, id, s)
  {
    assert calls[t].targets == [calls[t].targets[0]] + calls[t].targets[1..];
    forall q: nat | s.joined < q <= Until(log, s) ensures Served(log, next, id, s, q) {
      assert Served(log, calls, id, s, q);
      assert Pending(log, next, s.topic, id, q) == Pending(log, calls, s.topic, id, q);
    }
  }

  lemma DeliverCalls(topics: map<string, Topic>, subs: seq<Sub>, calls: map<Tid, Call>, t: Tid)
    requires CallsOk(topics, subs, calls) && t in calls && calls[t].targets != []
    ensures CallsOk(topics, subs, calls[t := calls[t].(targets := calls[t].targets[1..])])
  {
    var c := calls[t].(targets := calls[t].targets[1..]);
    assert CallOk(topics[c.topic].log, subs, t, c);
  }

  lemma DeliverSub(b: Bus, t: Tid, timedOut: bool)
    requires Inv(b) && Enabled(b, Deliver(t, timedOut))
    ensures var c := b.calls[t];
            var s := b.tab.subs[c.targets[0]];
            && s.topic == c.topic && s.topic in b.tab.topics
            && s.joined < c.envelope.number <= Until(b.tab.topics[c.topic].log, s)
            && CallShape(b.tab.topics[c.topic].log, t, c)
            && SubOk(b.tab.topics[c.topic].log, LivePushed(s, c.envelope))
            && Live(LivePushed(s, c.envelope)) == Live(s) + {c.envelope.number}
            && SameStanding(s, LivePushed(s, c.envelope))
  {
    var c := b.calls[t];
    var id := c.targets[0];
    var s := b.tab.subs[id];
    var log := b.tab.topics[c.topic].log;
    assert CallOk(log, b.tab.subs, t, c) && TargetOk(log, s, c.topic, c.envelope);
    assert id in c.targets;
    ServedOnce(log, b.calls, id, s, c.envelope);
    TargetPushKeeps(log, s, c.envelope);
  }

  lemma TargetPushKeeps(log: seq<Envelope>, s: Sub, e: Envelope)
    requires SubOk(log, s) && 1 <= e.number <= |log| && log[e.number - 1] == e
    requires forall k | e.number <= k < |log| :: log[k].publisher != e.publisher
    requires e.number > s.joined && e.number !in Live(s)
    ensures SubOk(log, LivePushed(s, e)) && SameStanding(s, LivePushed(s, e))
    ensures Live(LivePushed(s, e)) == Live(s) + {e.number}
  {
    LivePushKeeps(log, s, e);
  }

  lemma DeliverLaws(topics: map<string, Topic>, subs: seq<Sub>, calls: map<Tid, Call>, t: Tid, n: Sub)
    requires LawsOk(topics, subs, calls) && t in calls && calls[t].targets != []
    requires calls[t].topic in topics && CallShape(topics[calls[t].topic].log, t, calls[t])
    requires calls[t].targets[0] < |subs| && subs[calls[t].targets[0]].topic == calls[t].topic
    requires var s := subs[calls[t].targets[0]];
             && s.joined < calls[t].envelope.number <= Until(topics[s.topic].log, s)
             && SameStanding(s, n) && Live(n) == Live(s) + {calls[t].envelope.number}
    ensures LawsOk(topics, subs[calls[t].targets[0] := n],
                   calls[t := calls[t].(targets := calls[t].targets[1..])])
  {
    var head := calls[t].targets[0];
    var next := calls[t := calls[t].(targets := calls[t].targets[1..])];
    var after := subs[head := n];
    forall id | 0 <= id < |after|
      ensures after[id].topic in topics
              && LawOk(topics[after[id].topic].log, next, id, after[id])
    {
      if id == head {
        DeliverLaw(topics[n.topic].log, calls, next, t, id, subs[id], n);
      } else {
        DeliverLawOther(topics[subs[id].topic].log, calls, next, t, id, subs[id]);
      }
    }
  }

  lemma DeliverKeeps(b: Bus, t: Tid, timedOut: bool)
    requires Inv(b) && Enabled(b, Deliver(t, timedOut))
    ensures Inv(Next(b, Deliver(t, timedOut)))
  {
    DeliverSub(b, t, timedOut);
    var c := b.calls[t];
    var id := c.targets[0];
    var n := LivePushed(b.tab.subs[id], c.envelope);
    DeliverInv(b, t, id, n);
  }

  lemma DeliverInv(b: Bus, t: Tid, id: SubId, n: Sub)
    requires Inv(b) && t in b.calls && b.calls[t].targets != [] && id == b.calls[t].targets[0]
    requires id < |b.tab.subs| && SameStanding(b.tab.subs[id], n)
    requires n.topic == b.calls[t].topic && SubOk(b.tab.topics[n.topic].log, n)
    requires CallShape(b.tab.topics[n.topic].log, t, b.calls[t])
    requires var s := b.tab.subs[id];
             && s.joined < b.calls[t].envelope.number <= Until(b.tab.topics[s.topic].log, s)
             && Live(n) == Live(s) + {b.calls[t].envelope.number}
    ensures Inv(SetSub(b, id, n).(
                  calls := b.calls[t := b.calls[t].(targets := b.calls[t].targets[1..])]))
  {
    LinksSame(b.tab.topics, b.tab.subs, id, n);
    CallsSame(b.tab.topics, b.tab.subs, b.calls, id, n);
    DeliverCalls(b.tab.topics, b.tab.subs[id := n], b.calls, t);
    SumUpdate(b.tab.subs, id, n);
    DeliverLaws(b.tab.topics, b.tab.subs, b.calls, t, n);
  }

  lemma ReturnLaw(log: seq<Envelope>, calls: map<Tid, Call>, t: Tid, id: SubId, s: Sub)
    requires LawOk(log, calls, id, s) && t in calls && calls[t].targets == []
    ensures LawOk(log, calls - {t}, id, s)
  {
    forall q: nat | s.joined < q <= Until(log, s) ensures Served(log, calls - {t}, id, s, q) {
      assert Served(log, calls, id, s, q);
      assert Pending(log, calls - {t}, s.topic, id, q) == Pending(log, calls, s.topic, id, q);
    }
  }

  lemma ReturnKeeps(b: Bus, t: Tid)
    requires Inv(b) && Enabled(b, Return(t))
    ensures Inv(Next(b, Return(t)))
  {
    var topics, subs, next := b.tab.topics, b.tab.subs, b.calls - {t};
    forall id | 0 <= id < |subs|
      ensures subs[id].topic in topics && LawOk(topics[subs[id].topic].log, next, id, subs[id])
    {
      ReturnLaw(topics[subs[id].topic].log, b.calls, t, id, subs[id]);
    }
  }

  // ---------------------------------------------------------------- joining and leaving

  /** Same logs, perhaps more topics. */
  ghost predicate SameLogs(topics: map<string, Topic>, next: map<string, Topic>) {
    forall name | name in topics :: name in next && next[name].log == topics[name].log
  }

  lemma SameLogsKeep(topics: map<string, Topic>, next: map<string, Topic>, subs: seq<Sub>,
                     calls: map<Tid, Call>)
    requires SameLogs(topics, next)
    ensures SubsOk(topics, subs) ==> SubsOk(next, subs)
    ensures CallsOk(topics, subs, calls) ==> CallsOk(next, subs, calls)
    ensures LawsOk(topics, subs, calls) ==> LawsOk(next, subs, calls)
  {
  }

  lemma EnsureKeeps(b: Bus, name: string, ty: nat)
    requires Inv(b)
    ensures Inv(Next(b, Advertise(name, ty)))
  {
    SameLogsKeep(b.tab.topics, Ensured(b.tab.topics, name, ty), b.tab.subs, b.calls);
  }

  function Joined(topics: map<string, Topic>, name: string, id: SubId): map<string, Topic>
    requires name in topics
  {
    topics[name := topics[name].(subs := topics[name].subs + [id])]
  }

  lemma JoinLinks(topics: map<string, Topic>, subs: seq<Sub>, name: string, s: Sub)
    requires Links(topics, subs) && name in topics && s.topic == name && s.left.None?
    ensures Links(Joined(topics, name, |subs|), subs + [s])
  {
    var next := Joined(topics, name, |subs|);
    forall m | m in next ensures MembersOk(subs + [s], m, next[m].subs) {
      JoinMembers(subs, s, m, topics[m].subs);
    }
  }

  lemma JoinMembers(subs: seq<Sub>, s: Sub, name: string, ids: seq<SubId>)
    requires MembersOk(subs, name, ids) && s.left.None?
    ensures MembersOk(subs + [s], name, if s.topic == name then ids + [|subs|] else ids)
  {
    assert forall i: SubId :: Listens(subs + [s], name, i)
              <==> Listens(subs, name, i) || (i == |subs| && s.topic == name);
    forall k | 0 <= k < |ids| ensures ids[k] < |subs| { assert ids[k] in ids; }
  }

  lemma JoinCalls(topics: map<string, Topic>, subs: seq<Sub>, calls: map<Tid, Call>, s: Sub)
    requires CallsOk(topics, subs, calls)
    ensures CallsOk(topics, subs + [s], calls)
  {
  }

  lemma JoinKeeps(b: Bus, name: string, ty: nat, qos: QoS)
    requires Inv(b) && name in b.tab.topics
    ensures var s := NewSub(name, ty, qos, b.tab.topics[name]);
            Inv(b.(tab := b.tab.(topics := Joined(b.tab.topics, name, |b.tab.subs|),
                                 subs := b.tab.subs + [s])))
  {
    var s := NewSub(name, ty, qos, b.tab.topics[name]);
    JoinInv(b, name, s);
  }

  lemma JoinInv(b: Bus, name: string, s: Sub)
    requires Inv(b) && name in b.tab.topics && s.topic == name && s.left.None? && s.rejected == 0
    requires SubOk(b.tab.topics[name].log, s)
    requires LawOk(b.tab.topics[name].log, b.calls, |b.tab.subs|, s)
    ensures Inv(b.(tab := b.tab.(topics := Joined(b.tab.topics, name, |b.tab.subs|),
                                 subs := b.tab.subs + [s])))
  {
    var topics, subs := b.tab.topics, b.tab.subs;
    JoinLinks(topics, subs, name, s);
    JoinCalls(topics, subs, b.calls, s);
    JoinSubs(topics, subs, b.calls, s);
    JoinTopics(topics, name, |subs|);
    SameLogsKeep(topics, Joined(topics, name, |subs|), subs + [s], b.calls);
    assert (subs + [s])[..|subs|] == subs;
  }

  lemma JoinTopics(topics: map<string, Topic>, name: string, id: SubId)
    requires TopicsOk(topics) && name in topics
    ensures TopicsOk(Joined(topics, name, id)) && SameLogs(topics, Joined(topics, name, id))
  {
  }

  lemma JoinSubs(topics: map<string, Topic>, subs: seq<Sub>, calls: map<Tid, Call>, s: Sub)
    requires SubsOk(topics, subs) && LawsOk(topics, subs, calls) && s.topic in topics
    requires SubOk(topics[s.topic].log, s) && LawOk(topics[s.topic].log, calls, |subs|, s)
    ensures SubsOk(topics, subs + [s]) && LawsOk(topics, subs + [s], calls)
  {
    var all := subs + [s];
    forall id | 0 <= id < |all|
      ensures SubOk(topics[all[id].topic].log, all[id])
      ensures LawOk(topics[all[id].topic].log, calls, id, all[id])
    {
      assert id < |subs| ==> all[id] == subs[id];
    }
  }

  lemma SubscribeKeeps(b: Bus, name: string, ty: nat, qos: QoS)
    requires Inv(b)
    ensures Inv(Next(b, Subscribe(name, ty, qos)))
  {
    EnsureKeeps(b, name, ty);
    JoinKeeps(Next(b, Advertise(name, ty)), name, ty, qos);
  }

  /** Some subscribers have left; what they had been served is settled at that moment. */
  ghost predicate Departed(topics: map<string, Topic>, subs: seq<Sub>, next: seq<Sub>) {
    |next| == |subs|
    && forall i | 0 <= i < |subs| :: next[i] == subs[i] || next[i] == Gone(topics, subs[i])
  }

  lemma GoneLaw(topics: map<string, Topic>, calls: map<Tid, Call>, id: SubId, s: Sub)
    requires s.topic in topics && LawOk(topics[s.topic].log, calls, id, s)
    ensures LawOk(topics[s.topic].log, calls, id, Gone(topics, s))
  {
    var log, n := topics[s.topic].log, Gone(topics, s);
    assert Until(log, n) == Until(log, s) && Live(n) == Live(s);
    forall q: nat | n.joined < q <= Until(log, n) ensures Served(log, calls, id, n, q) {
      assert Served(log, calls, id, s, q);
    }
  }

  lemma DepartSubs(topics: map<string, Topic>, subs: seq<Sub>, next: seq<Sub>)
    requires Departed(topics, subs, next) && SubsOk(topics, subs)
    ensures SubsOk(topics, next)
  {
    forall id | 0 <= id < |next| ensures SubOk(topics[subs[id].topic].log, next[id]) {
      TouchKeeps(topics[subs[id].topic].log, subs[id], next[id]);
    }
  }

  lemma DepartCalls(topics: map<string, Topic>, subs: seq<Sub>, next: seq<Sub>, calls: map<Tid, Call>)
    requires Departed(topics, subs, next) && CallsOk(topics, subs, calls)
    ensures CallsOk(topics, next, calls)
  {
    forall t | t in calls ensures CallOk(topics[calls[t].topic].log, next, t, calls[t]) {
    }
  }

  lemma DepartLaws(topics: map<string, Topic>, subs: seq<Sub>, next: seq<Sub>, calls: map<Tid, Call>)
    requires Departed(topics, subs, next) && LawsOk(topics, subs, calls)
    ensures LawsOk(topics, next, calls)
  {
    forall id | 0 <= id < |next| ensures LawOk(topics[subs[id].topic].log, calls, id, next[id]) {
      GoneLaw(topics, calls, id, subs[id]);
    }
  }

  lemma {:induction false} DepartSum(topics: map<string, Topic>, subs: seq<Sub>, next: seq<Sub>)
    requires Departed(topics, subs, next)
    ensures SumRejected(next) == SumRejected(subs)
    decreases |subs|
  {
    if subs == [] {
    } else {
      DepartSum(topics, subs[..|subs| - 1], next[..|next| - 1]);
    }
  }

  lemma DepartKeeps(b: Bus, next: map<string, Topic>, subs: seq<Sub>)
    requires Inv(b) && Departed(b.tab.topics, b.tab.subs, subs) && SameLogs(b.tab.topics, next)
    requires Links(next, subs) && TopicsOk(next)
    ensures Inv(b.(tab := b.tab.(topics := next, subs := subs)))
  {
    DepartSubs(b.tab.topics, b.tab.subs, subs);
    DepartCalls(b.tab.topics, b.tab.subs, subs, b.calls);
    DepartLaws(b.tab.topics, b.tab.subs, subs, b.calls);
    DepartSum(b.tab.topics, b.tab.subs, subs);
    SameLogsKeep(b.tab.topics, next, subs, b.calls);
  }

  lemma LeaveLinks(topics: map<string, Topic>, subs: seq<Sub>, id: SubId)
    requires Links(topics, subs) && id < |subs| && id in topics[subs[id].topic].subs
    ensures var name := subs[id].topic;
            Links(topics[name := topics[name].(subs := Without(topics[name].subs, id))],
                  subs[id := Gone(topics, subs[id])])
  {
    var name, after := subs[id].topic, subs[id := Gone(topics, subs[id])];
    var next := topics[name := topics[name].(subs := Without(topics[name].subs, id))];
    forall m | m in next ensures MembersOk(after, m, next[m].subs) {
      assert MembersOk(subs, m, topics[m].subs);
      WithoutOne(topics[m].subs, id);
      assert forall i: SubId :: Listens(after, m, i) <==> Listens(subs, m, i) && i != id;
    }
  }

  lemma {:induction false} UnsubscribeKeeps(b: Bus, id: SubId)
    requires Inv(b) && Enabled(b, Unsubscribe(id))
    ensures Inv(Next(b, Unsubscribe(id)))
  {
    SubOfInv(b, id);
    var name := b.tab.subs[id].topic;
    if id in b.tab.topics[name].subs {
      LeaveLinks(b.tab.topics, b.tab.subs, id);
      LeaveTopics(b.tab.topics, name, id);
      LeaveDeparted(b.tab.topics, b.tab.subs, id);
      DepartKeeps(b, Unlinked(b.tab, id).topics, Unlinked(b.tab, id).subs);
    }
  }

  lemma {:induction false} LeaveDeparted(topics: map<string, Topic>, subs: seq<Sub>, id: SubId)
    requires id < |subs|
    ensures Departed(topics, subs, subs[id := Gone(topics, subs[id])])
  {
  }

  lemma LeaveTopics(topics: map<string, Topic>, name: string, id: SubId)
    requires TopicsOk(topics) && name in topics
    ensures var next := topics[name := topics[name].(subs := Without(topics[name].subs, id))];
            TopicsOk(next) && SameLogs(topics, next)
  {
  }

  lemma EmptiedTopics(topics: map<string, Topic>)
    requires TopicsOk(topics)
    ensures TopicsOk(AllEmptied(topics)) && SameLogs(topics, AllEmptied(topics))
  {
  }

  lemma ShutdownLinks(tab: Table)
    requires Links(tab.topics, tab.subs)
    ensures Links(ShutDown(tab).topics, ShutDown(tab).subs)
  {
    var next := ShutDown(tab);
    forall m | m in next.topics ensures MembersOk(next.subs, m, next.topics[m].subs) {
      assert forall i: SubId :: !Listens(next.subs, m, i);
    }
  }

  lemma ShutdownKeeps(b: Bus)
    requires Inv(b)
    ensures Inv(Next(b, Shutdown))
  {
    ShutdownLinks(b.tab);
    EmptiedTopics(b.tab.topics);
    DepartKeeps(b, ShutDown(b.tab).topics, ShutDown(b.tab).subs);
  }

  // ---------------------------------------------------------------- publications

  lemma RecordedOk(topic: Topic, e: Envelope)
    requires TopicOk(topic) && e.number == topic.published + 1
    ensures TopicOk(Recorded(topic, e))
  {
    NumbersAppend(topic.log, e);
    LatchAppend(topic.log, topic.latched, e);
    LatchOk(topic.log + [e], topic.latched, e);
  }

  lemma NumbersAppend(log: seq<Envelope>, e: Envelope)
    requires e.number == |log| + 1 && forall k | 0 <= k < |log| :: log[k].number == k + 1
    ensures forall k | 0 <= k < |log + [e]| :: (log + [e])[k].number == k + 1
  {
  }

  lemma LatchOk(log: seq<Envelope>, es: seq<Envelope>, e: Envelope)
    requires InLog(log, es + [e]) && Rising(es + [e])
    ensures var kept := Last(es + [e], e.offer.depth); InLog(log, kept) && Rising(kept)
  {
  }

  lemma LatchAppend(log: seq<Envelope>, es: seq<Envelope>, e: Envelope)
    requires InLog(log, es) && Rising(es) && e.number == |log| + 1
    ensures InLog(log + [e], es) && InLog(log + [e], es + [e]) && Rising(es + [e])
  {
  }

  ghost predicate Rejections(subs: seq<Sub>, ids: seq<SubId>, offer: QoS, next: seq<Sub>) {
    |next| == |subs|
    && forall i: nat | i < |subs| ::
         next[i] == if Excluded(subs, ids, offer, i) then Reject(subs[i]) else subs[i]
  }

  lemma PublishLinks(topics: map<string, Topic>, subs: seq<Sub>, name: string, e: Envelope,
                     next: seq<Sub>)
    requires Links(topics, subs) && name in topics
    requires Rejections(subs, topics[name].subs, e.offer, next)
    ensures Links(topics[name := Recorded(topics[name], e)], next)
  {
    forall m | m in topics ensures MembersOk(next, m, topics[m].subs) {
      assert MembersOk(subs, m, topics[m].subs);
      assert forall i: SubId :: Listens(next, m, i) <==> Listens(subs, m, i);
    }
  }

  lemma PublishSub(log: seq<Envelope>, e: Envelope, s: Sub)
    requires SubOk(log, s)
    ensures SubOk(log, Reject(s)) && SubOk(log + [e], Reject(s)) && SubOk(log + [e], s)
  {
    TouchKeeps(log, s, Reject(s));
  }

  lemma PublishSubs(topics: map<string, Topic>, subs: seq<Sub>, name: string, e: Envelope,
                    next: seq<Sub>)
    requires SubsOk(topics, subs) && name in topics
    requires Rejections(subs, topics[name].subs, e.offer, next)
    ensures SubsOk(topics[name := Recorded(topics[name], e)], next)
  {
    var after := topics[name := Recorded(topics[name], e)];
    forall id | 0 <= id < |next| ensures SubOk(after[subs[id].topic].log, next[id]) {
      PublishSub(topics[subs[id].topic].log, e, subs[id]);
    }
  }

  lemma NewCallOk(log: seq<Envelope>, e: Envelope, subs: seq<Sub>, name: string, ids: seq<SubId>,
                  c: Classified)
    requires MembersOk(subs, name, ids) && ClassifyEffect(subs, ids, e.offer, c)
    requires e.number == |log| + 1
    requires forall i | 0 <= i < |subs| && subs[i].topic == name :: subs[i].joined <= |log|
    ensures CallOk(log + [e], c.subs, e.publisher, Call(name, e, c.targets))
  {
    forall j | 0 <= j < |c.targets|
      ensures c.targets[j] < |subs| && TargetOk(log + [e], c.subs[c.targets[j]], name, e)
    {
      var id := c.targets[j];
      assert id in c.targets;
      assert Listens(subs, name, id);
    }
  }

  lemma PublishCalls(topics: map<string, Topic>, subs: seq<Sub>, calls: map<Tid, Call>,
                     name: string, e: Envelope, next: seq<Sub>, ids: seq<SubId>, c: Call)
    requires CallsOk(topics, subs, calls) && name in topics && e.publisher !in calls
    requires Rejections(subs, ids, e.offer, next)
    requires c.topic == name && CallOk(topics[name].log + [e], next, e.publisher, c)
    ensures CallsOk(topics[name := Recorded(topics[name], e)], next, calls[e.publisher := c])
  {
    var after, all := topics[name := Recorded(topics[name], e)], calls[e.publisher := c];
    forall t | t in all
      ensures all[t].topic in after && CallOk(after[all[t].topic].log, next, t, all[t])
    {
    }
  }

  lemma {:induction false} IncompatibleLater(log: seq<Envelope>, e: Envelope, qos: QoS,
                                             low: nat, high: nat)
    requires low <= high <= |log|
    ensures Incompatible(log + [e], qos, low, high) == Incompatible(log, qos, low, high)
    decreases high
  {
    if high == low {
    } else {
      IncompatibleLater(log, e, qos, low, high - 1);
    }
  }

  /** A subscriber of another topic, or one that has left, is not concerned. */
  lemma PublishLawElsewhere(log: seq<Envelope>, calls: map<Tid, Call>, t: Tid, c: Call,
                            id: SubId, s: Sub)
    requires LawOk(log, calls, id, s) && t !in calls && c.topic != s.topic
    ensures LawOk(log, calls[t := c], id, s)
  {
    var next := calls[t := c];
    forall q: nat | s.joined < q <= Until(log, s) ensures Served(log, next, id, s, q) {
      assert Served(log, calls, id, s, q);
    }
  }

  lemma PublishLawGone(log: seq<Envelope>, e: Envelope, calls: map<Tid, Call>, c: Call, id: SubId,
                       s: Sub)
    requires LawOk(log, calls, id, s) && s.left.Some?
    requires e.publisher !in calls && c.envelope.number == |log| + 1
    ensures LawOk(log + [e], calls[e.publisher := c], id, s)
  {
    IncompatibleLater(log, e, s.qos, s.joined, Until(log, s));
    var after, next := log + [e], calls[e.publisher := c];
    forall q: nat | s.joined < q <= Until(log, s) ensures Served(after, next, id, s, q) {
      assert Served(log, calls, id, s, q);
    }
  }

  /** A present subscriber gets the new envelope as a rejection or as a pending push. */
  lemma PublishLawHere(log: seq<Envelope>, e: Envelope, calls: map<Tid, Call>, c: Call, id: SubId,
                       s: Sub, n: Sub)
    requires LawOk(log, calls, id, s) && s.left.None? && c.topic == s.topic
    requires e.publisher !in calls && c.envelope == e && e.number == |log| + 1
    requires id in c.targets <==> Compatible(e.offer, s.qos)
    requires n == if Compatible(e.offer, s.qos) then s else Reject(s)
    ensures LawOk(log + [e], calls[e.publisher := c], id, n)
  {
    assert Live(n) == Live(s);
    IncompatibleLater(log, e, s.qos, s.joined, |log|);
    var after, next := log + [e], calls[e.publisher := c];
    forall q: nat | n.joined < q <= Until(after, n) ensures Served(after, next, id, n, q) {
      if q <= |log| {
        assert Served(log, calls, id, s, q);
      } else {
        assert q == |log| + 1 && after[q - 1] == e;
        assert q !in Live(s);
      }
    }
  }

  lemma PublishLaw(topics: map<string, Topic>, subs: seq<Sub>, calls: map<Tid, Call>, name: string,
                   e: Envelope, c: Classified, id: SubId)
    requires LawsOk(topics, subs, calls) && name in topics && id < |subs|
    requires MembersOk(subs, name, topics[name].subs)
    requires ClassifyEffect(subs, topics[name].subs, e.offer, c)
    requires e.publisher !in calls && e.number == |topics[name].log| + 1
    ensures var after := topics[name := Recorded(topics[name], e)];
            c.subs[id].topic in after
            && LawOk(after[c.subs[id].topic].log,
                     calls[e.publisher := Call(name, e, c.targets)], id, c.subs[id])
  {
    var s, call := subs[id], Call(name, e, c.targets);
    var log := topics[s.topic].log;
    assert LawOk(log, calls, id, s);
    assert id in topics[name].subs <==> Listens(subs, name, id);
    if s.topic != name {
      PublishLawElsewhere(log, calls, e.publisher, call, id, s);
    } else if s.left.Some? {
      PublishLawGone(log, e, calls, call, id, s);
    } else {
      PublishLawHere(log, e, calls, call, id, s, c.subs[id]);
    }
  }

  lemma PublishLaws(topics: map<string, Topic>, subs: seq<Sub>, calls: map<Tid, Call>, name: string,
                    e: Envelope, c: Classified)
    requires LawsOk(topics, subs, calls) && name in topics
    requires MembersOk(subs, name, topics[name].subs)
    requires ClassifyEffect(subs, topics[name].subs, e.offer, c)
    requires e.publisher !in calls && e.number == |topics[name].log| + 1
    ensures LawsOk(topics[name := Recorded(topics[name], e)], c.subs,
                   calls[e.publisher := Call(name, e, c.targets)])
  {
    forall id: nat | id < |c.subs|
      ensures var after := topics[name := Recorded(topics[name], e)];
              c.subs[id].topic in after
              && LawOk(after[c.subs[id].topic].log,
                       calls[e.publisher := Call(name, e, c.targets)], id, c.subs[id])
    {
      PublishLaw(topics, subs, calls, name, e, c, id);
    }
  }

  lemma PublishInv(b: Bus, name: string, e: Envelope, c: Classified)
    requires Inv(b) && name in b.tab.topics && e.publisher !in b.calls
    requires e.number == b.tab.topics[name].published + 1
    requires ClassifyEffect(b.tab.subs, b.tab.topics[name].subs, e.offer, c)
    ensures Inv(Bus(b.tab.(topics := b.tab.topics[name := Recorded(b.tab.topics[name], e)],
                           subs := c.subs, mismatches := b.tab.mismatches + c.rejected),
                    b.calls[e.publisher := Call(name, e, c.targets)]))
  {
    var topics, subs := b.tab.topics, b.tab.subs;
    RecordedOk(topics[name], e);
    PublishLinks(topics, subs, name, e, c.subs);
    PublishSubs(topics, subs, name, e, c.subs);
    PublishNewCall(topics, subs, name, e, c);
    PublishCalls(topics, subs, b.calls, name, e, c.subs, topics[name].subs, Call(name, e, c.targets));
    PublishLaws(topics, subs, b.calls, name, e, c);
  }

  lemma PublishNewCall(topics: map<string, Topic>, subs: seq<Sub>, name: string, e: Envelope,
                       c: Classified)
    requires SubsOk(topics, subs) && name in topics && MembersOk(subs, name, topics[name].subs)
    requires e.number == |topics[name].log| + 1
    requires ClassifyEffect(subs, topics[name].subs, e.offer, c)
    ensures CallOk(topics[name].log + [e], c.subs, e.publisher, Call(name, e, c.targets))
  {
    NewCallOk(topics[name].log, e, subs, name, topics[name].subs, c);
  }

  lemma PublishKeeps(b: Bus, t: Tid, name: string, ty: nat, offer: QoS, payload: nat, stamp: nat)
    requires Inv(b) && Enabled(b, Publish(t, name, ty, offer, payload, stamp))
    ensures Inv(Next(b, Publish(t, name, ty, offer, payload, stamp)))
  {
    if name in b.tab.topics && b.tab.topics[name].ty == ty {
      PublicationKeeps(b, name, NextEnvelope(b.tab.topics[name], t, offer, payload, stamp));
    }
  }

  lemma PublicationKeeps(b: Bus, name: string, e: Envelope)
    requires Inv(b) && name in b.tab.topics && e.publisher !in b.calls
    requires e.number == b.tab.topics[name].published + 1
    ensures var c := Classify(b.tab.subs, b.tab.topics[name].subs, e.offer);
            Inv(Bus(b.tab.(topics := b.tab.topics[name := Recorded(b.tab.topics[name], e)],
                           subs := c.subs, mismatches := b.tab.mismatches + c.rejected),
                    b.calls[e.publisher := Call(name, e, c.targets)]))
  {
    assert MembersOk(b.tab.subs, name, b.tab.topics[name].subs);
    ClassifyHasEffect(b.tab.subs, b.tab.topics[name].subs, e.offer);
    PublishInv(b, name, e, Classify(b.tab.subs, b.tab.topics[name].subs, e.offer));
  }

  // ---------------------------------------------------------------- runs

  lemma StepKeepsInv(b: Bus, e: Event)
    requires Inv(b) && Enabled(b, e)
    ensures Inv(Next(b, e))
  {
    match e
    case Advertise(name, ty) => EnsureKeeps(b, name, ty);
    case Subscribe(name, ty, qos) => SubscribeKeeps(b, name, ty, qos);
    case PushBacklog(id) => PushBacklogKeeps(b, id);
    case StartWorker(_) => QuietStepKeeps(b, e);
    case Publish(t, name, ty, offer, payload, stamp) => PublishKeeps(b, t, name, ty, offer, payload, stamp);
    case Deliver(t, timedOut) => DeliverKeeps(b, t, timedOut);
    case Return(t) => ReturnKeeps(b, t);
    case Take(_) => QuietStepKeeps(b, e);
    case Finish(_, _) => QuietStepKeeps(b, e);
    case Exit(_) => QuietStepKeeps(b, e);
    case Unsubscribe(id) => UnsubscribeKeeps(b, id);
    case CloseQueue(_) => QuietStepKeeps(b, e);
    case Shutdown => ShutdownKeeps(b);
  }

  ghost predicate IsRun(b: Bus, events: seq<Event>)
    decreases |events|
  {
    events == [] || (Enabled(b, events[0]) && IsRun(Next(b, events[0]), events[1..]))
  }

  ghost function After(b: Bus, events: seq<Event>): Bus
    requires IsRun(b, events)
    decreases |events|
  {
    if events == [] then b else After(Next(b, events[0]), events[1..])
  }

  const NEW_BUS := Bus(Table(map[], [], 0, 0), map[])

  lemma {:induction false} RunKeepsInv(b: Bus, events: seq<Event>)
    requires Inv(b) && IsRun(b, events)
    ensures Inv(After(b, events))
    decreases |events|
  {
    if events == [] {
    } else {
      StepKeepsInv(b, events[0]);
      RunKeepsInv(Next(b, events[0]), events[1..]);
    }
  }

  lemma SubOfInv(b: Bus, id: SubId)
    requires Inv(b) && id < |b.tab.subs|
    ensures b.tab.subs[id].topic in b.tab.topics
    ensures SubOk(b.tab.topics[b.tab.subs[id].topic].log, b.tab.subs[id])
  {
  }

  lemma SumOfInv(b: Bus)
    requires Inv(b)
    ensures b.tab.mismatches == SumRejected(b.tab.subs)
  {
  }

  ghost predicate Balance(s: Sub) {
    && |s.attempted| == |s.delivered| + s.expired + s.evicted + s.refused
                        + |s.queue.items| + (if s.hand.Some? then 1 else 0)
    && s.evicted == s.queue.dropped
    && (s.qos.reliability.Reliable? ==> s.evicted == 0)
    && (s.qos.reliability.BestEffort? && !s.queue.closed ==> s.refused == 0)
    && (s.qos.lifespan == 0 ==> s.expired == 0)
    && (s.qos.deadline == 0 ==> s.missed == 0)
    && (s.missed > 0 ==> s.missed < |s.delivered|)
    && s.reports == if s.rejected > 0 then 1 else 0
  }

  lemma SubBalances(s: Sub)
    requires Accounted(s) && ReportsOk(s)
    ensures Balance(s)
  {
  }

  lemma BusBalances(b: Bus)
    requires Inv(b)
    ensures b.tab.mismatches == SumRejected(b.tab.subs)
    ensures forall id: SubId | id < |b.tab.subs| :: Balance(b.tab.subs[id])
  {
    SumOfInv(b);
    forall id: SubId | id < |b.tab.subs| ensures Balance(b.tab.subs[id]) {
      SubOfInv(b, id);
      SubBalances(b.tab.subs[id]);
    }
  }

  /** Every attempted push, from the backlog or live, was delivered, expired, evicted or refused, or
      is queued or in the worker's hand.  A reliable subscriber loses nothing that was queued, an
      open best-effort one refuses nothing, nothing expires without a lifespan, and of the deliveries
      all but the first may miss a deadline, if there is one.  The bus counts exactly the rejections
      of all subscriptions ever made, and each subscription is reported at most once: when it has
      had a rejection. */
  lemma EveryPushIsAccountedFor(events: seq<Event>)
    requires IsRun(NEW_BUS, events)
    ensures var b := After(NEW_BUS, events);
            && b.tab.mismatches == SumRejected(b.tab.subs)
            && forall id: SubId | id < |b.tab.subs| :: Balance(b.tab.subs[id])
  {
    RunKeepsInv(NEW_BUS, events);
    BusBalances(After(NEW_BUS, events));
  }

  /** Of everything published while a subscriber was there, each envelope is exactly one of
      rejected, pushed once, or about to be pushed; the backlog is pushed in order, each entry once;
      and no live push exceeds what the publisher offered. */
  lemma NoGapNoDuplicate(events: seq<Event>, id: SubId)
    requires IsRun(NEW_BUS, events) && id < |After(NEW_BUS, events).tab.subs|
    ensures var b := After(NEW_BUS, events);
            var s := b.tab.subs[id];
            && s.topic in b.tab.topics
            && var log := b.tab.topics[s.topic].log;
            && s.joined <= Until(log, s) <= |log|
            && (forall q: nat | s.joined < q <= Until(log, s) :: Served(log, b.calls, id, s, q))
            && (forall q | q in Live(s) :: s.joined < q <= Until(log, s))
            && s.rejected == Incompatible(log, s.qos, s.joined, Until(log, s))
            && DistinctNumbers(s.attempted)
            && Early(s.attempted, s.joined) + s.backlog == s.offered
  {
    RunKeepsInv(NEW_BUS, events);
    var b := After(NEW_BUS, events);
    var s := b.tab.subs[id];
    assert SubOk(b.tab.topics[s.topic].log, s);
    assert LawOk(b.tab.topics[s.topic].log, b.calls, id, s);
  }

  lemma LivePushesAreCompatible(events: seq<Event>, id: SubId, e: Envelope)
    requires IsRun(NEW_BUS, events) && id < |After(NEW_BUS, events).tab.subs|
    requires var s := After(NEW_BUS, events).tab.subs[id]; e in s.attempted && e.number > s.joined
    ensures Compatible(e.offer, After(NEW_BUS, events).tab.subs[id].qos)
  {
    RunKeepsInv(NEW_BUS, events);
    var b := After(NEW_BUS, events);
    var s := b.tab.subs[id];
    LiveIsCompatible(b.tab.topics[s.topic].log, b.calls, id, s, e);
  }

  lemma LiveIsCompatible(log: seq<Envelope>, calls: map<Tid, Call>, id: SubId, s: Sub, e: Envelope)
    requires InLog(log, s.attempted) && LawOk(log, calls, id, s)
    requires e in s.attempted && e.number > s.joined
    ensures Compatible(e.offer, s.qos)
  {
    assert e.number in Live(s);
    assert Served(log, calls, id, s, e.number);
  }

  /** This step is a push by a thread that has something waiting in the backlog of `id`. */
  predicate Overtakes(b: Bus, e: Event, id: SubId) {
    e.Deliver? && e.t in b.calls && b.calls[e.t].targets != [] && b.calls[e.t].targets[0] == id
    && id < |b.tab.subs| && Waits(b.tab.subs[id].backlog, b.calls[e.t].envelope.publisher)
  }

  /** Somewhere in the run a thread overtakes its own envelope. */
  ghost predicate RunOvertakes(b: Bus, events: seq<Event>, id: SubId)
    requires IsRun(b, events)
    decreases |events|
  {
    events != []
    && (Overtakes(b, events[0], id) || RunOvertakes(Next(b, events[0]), events[1..], id))
  }

  predicate Flagged(b: Bus, id: SubId) { id < |b.tab.subs| && b.tab.subs[id].overtaken }

  lemma StepFlags(b: Bus, e: Event, id: SubId)
    requires Enabled(b, e)
    ensures Flagged(Next(b, e), id) <==> Flagged(b, id) || Overtakes(b, e, id)
  {
    if e.Publish? && e.name in b.tab.topics && id < |b.tab.subs| {
      ClassifyOnlyRejects(b.tab.subs, b.tab.topics[e.name].subs, e.offer, id);
    }
  }

  lemma {:induction false} RunFlags(b: Bus, events: seq<Event>, id: SubId)
    requires IsRun(b, events)
    ensures Flagged(After(b, events), id) <==> Flagged(b, id) || RunOvertakes(b, events, id)
    decreases |events|
  {
    if events == [] {
    } else {
      StepFlags(b, events[0], id);
      RunFlags(Next(b, events[0]), events[1..], id);
    }
  }

  /** The pushes to a subscriber, those to come from its backlog included, are in the order in which
      each thread published if and only if no thread's live push overtook an envelope of its own that
      was still waiting in the backlog. */
  lemma OrderedUnlessOvertaken(events: seq<Event>, id: SubId)
    requires IsRun(NEW_BUS, events) && id < |After(NEW_BUS, events).tab.subs|
    ensures var s := After(NEW_BUS, events).tab.subs[id];
            PublisherOrder(s.attempted + s.backlog) <==> !RunOvertakes(NEW_BUS, events, id)
  {
    RunKeepsInv(NEW_BUS, events);
    RunFlags(NEW_BUS, events, id);
    var b := After(NEW_BUS, events);
    var s := b.tab.subs[id];
    assert SubOk(b.tab.topics[s.topic].log, s);
  }

  /** Each envelope is delivered at most once; and unless a thread overtook itself in the backlog,
      what it published arrives in the order it was published, whatever is evicted, refused or
      expires in between.  A volatile subscriber has no backlog to overtake. */
  lemma DeliveredOnceInOrder(events: seq<Event>, id: SubId)
    requires IsRun(NEW_BUS, events) && id < |After(NEW_BUS, events).tab.subs|
    ensures var s := After(NEW_BUS, events).tab.subs[id];
            && DistinctNumbers(s.delivered)
            && (!RunOvertakes(NEW_BUS, events, id) ==> PublisherOrder(s.delivered))
            && (s.qos.durability.Volatile? ==> PublisherOrder(s.delivered))
  {
    RunKeepsInv(NEW_BUS, events);
    RunFlags(NEW_BUS, events, id);
    var b := After(NEW_BUS, events);
    var s := b.tab.subs[id];
    assert SubOk(b.tab.topics[s.topic].log, s);
    DeliveredIsPrefix(s);
  }

  lemma DeliveredIsPrefix(s: Sub)
    requires DistinctNumbers(Pipeline(s))
    ensures DistinctNumbers(s.delivered)
    ensures PublisherOrder(Pipeline(s)) ==> PublisherOrder(s.delivered)
  {
    assert forall k | 0 <= k < |s.delivered| :: s.delivered[k] == Pipeline(s)[k];
  }

  /** And where nothing was lost on the way, exactly unless a thread overtook itself. */
  lemma LosslessOrderExactly(events: seq<Event>, id: SubId)
    requires IsRun(NEW_BUS, events) && id < |After(NEW_BUS, events).tab.subs|
    requires var s := After(NEW_BUS, events).tab.subs[id];
             s.evicted == s.refused == s.expired == 0 && s.backlog == []
             && s.hand.None? && s.queue.items == []
    ensures var s := After(NEW_BUS, events).tab.subs[id];
            PublisherOrder(s.delivered) <==> !RunOvertakes(NEW_BUS, events, id)
  {
    OrderedUnlessOvertaken(events, id);
    RunKeepsInv(NEW_BUS, events);
    var b := After(NEW_BUS, events);
    var s := b.tab.subs[id];
    assert SubOk(b.tab.topics[s.topic].log, s);
    assert s.attempted + s.backlog == s.attempted && Pipeline(s) == s.delivered;
  }

  /** Whenever a thread's live push overtakes its earlier envelope at the front of the backlog, a
      queue with room holds them the wrong way round. */
  lemma OvertakenBacklogIsReordered(s: Sub, e: Envelope)
    requires s.backlog != [] && s.backlog[0].publisher == e.publisher
    requires s.backlog[0].number < e.number
    requires !s.queue.closed && |s.queue.items| + 2 <= s.queue.capacity
    ensures var n := BacklogPushed(LivePushed(s, e)); n.overtaken && !PublisherOrder(Pipeline(n))
  {
    var n := BacklogPushed(LivePushed(s, e));
    var p := Pipeline(n);
    assert n.queue.items == s.queue.items + [e] + [s.backlog[0]];
    assert p[|p| - 2] == e && p[|p| - 1] == s.backlog[0];
  }

  lemma BusStep(b: Bus, e: Event, rest: seq<Event>)
    requires Enabled(b, e) && IsRun(Next(b, e), rest)
    ensures IsRun(b, [e] + rest) && After(b, [e] + rest) == After(Next(b, e), rest)
  {
    assert ([e] + rest)[1..] == rest;
  }

  const LATCHING := QoS(Reliable, TransientLocal, 2, 0, 0)

  lemma FirstPublication() returns (events: seq<Event>, b: Bus)
    ensures IsRun(NEW_BUS, events) && After(NEW_BUS, events) == b
    ensures b.calls == map[] && b.tab.subs == [] && "t" in b.tab.topics
    ensures var first := Envelope(1, 1, LATCHING, 7, 0);
            b.tab.topics["t"] == Topic(0, [], [first], 1, [first], 0)
  {
    var advertise: Event, publish: Event := Advertise("t", 0), Publish(1, "t", 0, LATCHING, 7, 0);
    var b1 := Next(NEW_BUS, advertise);
    var b2 := Next(b1, publish);
    b := Next(b2, Return(1));
    BusStep(b2, Return(1), []);
    BusStep(b1, publish, [Return(1)] + []);
    BusStep(NEW_BUS, advertise, [publish] + ([Return(1)] + []));
    events := [advertise] + ([publish] + ([Return(1)] + []));
  }

  /** A late joiner of depth `d`: the second envelope, by thread `t`, is under way while the first
      one is the whole backlog. */
  lemma LateJoinerSetUp(t: Tid, d: nat) returns (events: seq<Event>, b: Bus)
    requires d >= 1
    ensures IsRun(NEW_BUS, events) && After(NEW_BUS, events) == b
    ensures |b.tab.subs| == 1
    ensures var first := Envelope(1, 1, LATCHING, 7, 0);
            var second := Envelope(2, t, LATCHING, 8, 0);
            var s := b.tab.subs[0];
            && s.queue == BQ.NewQueue(d, BQ.Block) && s.backlog == s.offered == [first]
            && !s.started && s.hand.None? && s.delivered == [] && s.last == 0
            && s.qos == LATCHING.(depth := d)
            && !s.overtaken
            && t in b.calls && b.calls[t].envelope == second && b.calls[t].targets == [0]
  {
    var before, c := FirstPublication();
    var qos := LATCHING.(depth := d);
    var subscribe: Event, publish: Event := Subscribe("t", 0, qos),
                                            Publish(t, "t", 0, LATCHING, 8, 0);
    var j := Next(c, subscribe);
    assert j.tab.subs == [NewSub("t", 0, qos, c.tab.topics["t"])];
    assert j.tab.topics["t"].subs == [0] && j.tab.topics["t"].published == 1;
    b := Next(j, publish);
    SetUpClassified(j.tab.subs);
    BusStep(j, publish, []);
    BusStep(c, subscribe, [publish] + []);
    RunConcat(NEW_BUS, before, [subscribe] + ([publish] + []));
    events := before + ([subscribe] + ([publish] + []));
  }

  lemma SetUpClassified(subs: seq<Sub>)
    requires |subs| == 1 && Compatible(LATCHING, subs[0].qos)
    ensures Classify(subs, [0], LATCHING) == Classified(subs, [0], 0)
  {
    assert [0][..0] == [];
    assert Classify(subs, [], LATCHING) == Classified(subs, [], 0);
  }

  /** The two pushes, in the wrong order, and the worker's two rounds. */
  lemma OvertakingRun(b: Bus) returns (events: seq<Event>, c: Bus)
    requires |b.tab.subs| == 1 && 1 in b.calls && b.calls[1].targets == [0]
    requires b.calls[1].envelope == Envelope(2, 1, LATCHING, 8, 0)
    requires var s := b.tab.subs[0];
             && s.queue == BQ.NewQueue(2, BQ.Block) && s.backlog == [Envelope(1, 1, LATCHING, 7, 0)]
             && !s.started && s.hand.None? && s.delivered == [] && s.last == 0 && s.qos == LATCHING
    ensures IsRun(b, events) && After(b, events) == c && |c.tab.subs| == 1
    ensures c.tab.subs[0].delivered
         == [Envelope(2, 1, LATCHING, 8, 0), Envelope(1, 1, LATCHING, 7, 0)]
  {
    var first, second := Envelope(1, 1, LATCHING, 7, 0), Envelope(2, 1, LATCHING, 8, 0);
    var b1 := Next(b, Deliver(1, false));
    assert b1.tab.subs[0].queue.items == [second];
    var b2 := Next(b1, PushBacklog(0));
    assert b2.tab.subs[0].queue.items == [second, first] && b2.tab.subs[0].backlog == [];
    var b3 := Next(b2, StartWorker(0));
    var b4, rest := TwoRounds(b3, second, first);
    c := b4;
    BusStep(b2, StartWorker(0), rest);
    BusStep(b1, PushBacklog(0), [StartWorker(0)] + rest);
    BusStep(b, Deliver(1, false), [PushBacklog(0)] + ([StartWorker(0)] + rest));
    events := [Deliver(1, false)] + ([PushBacklog(0)] + ([StartWorker(0)] + rest));
  }

  lemma TwoRounds(b: Bus, x: Envelope, y: Envelope) returns (c: Bus, events: seq<Event>)
    requires |b.tab.subs| == 1
    requires var s := b.tab.subs[0];
             s.started && s.hand.None? && s.delivered == [] && s.qos.lifespan == 0
             && s.last == 0 && s.queue.items == [x, y]
    ensures IsRun(b, events) && After(b, events) == c
    ensures |c.tab.subs| == 1 && c.tab.subs[0].delivered == [x, y]
  {
    var b1 := Next(b, Take(0));
    assert b1.tab.subs[0].hand == Some(x) && b1.tab.subs[0].queue.items == [y];
    var b2 := Next(b1, Finish(0, 0));
    assert b2.tab.subs[0].delivered == [x];
    var b3 := Next(b2, Take(0));
    c := Next(b3, Finish(0, 0));
    BusStep(b3, Finish(0, 0), []);
    BusStep(b2, Take(0), [Finish(0, 0)] + []);
    BusStep(b1, Finish(0, 0), [Take(0)] + ([Finish(0, 0)] + []));
    BusStep(b, Take(0), [Finish(0, 0)] + ([Take(0)] + ([Finish(0, 0)] + [])));
    events := [Take(0)] + ([Finish(0, 0)] + ([Take(0)] + ([Finish(0, 0)] + [])));
  }

  /** The condition is needed: a run of a fresh bus in which a late joiner is delivered what one
      thread published in the wrong order. */
  lemma LateJoinerCanBeMisordered() returns (events: seq<Event>)
    ensures IsRun(NEW_BUS, events) && |After(NEW_BUS, events).tab.subs| == 1
    ensures !PublisherOrder(After(NEW_BUS, events).tab.subs[0].delivered)
  {
    var before, b := LateJoinerSetUp(1, 2);
    var after, c := OvertakingRun(b);
    RunConcat(NEW_BUS, before, after);
    events := before + after;
    var d := c.tab.subs[0].delivered;
    assert d[0].publisher == d[1].publisher && d[0].number > d[1].number;
  }

  lemma {:induction false} RunConcat(b: Bus, xs: seq<Event>, ys: seq<Event>)
    requires IsRun(b, xs) && IsRun(After(b, xs), ys)
    ensures IsRun(b, xs + ys) && After(b, xs + ys) == After(After(b, xs), ys)
    decreases |xs|
  {
    if xs == [] {
      assert xs + ys == ys;
    } else {
      RunConcat(Next(b, xs[0]), xs[1..], ys);
      assert (xs + ys)[1..] == xs[1..] + ys;
    }
  }

  // ---------------------------------------------------------------- the end of a subscription

  predicate WorkerStep(e: Event, id: SubId) { (e.Take? || e.Finish? || e.Exit?) && e.id == id }

  function WorkLeft(s: Sub): nat {
    3 * |s.queue.items| + (if s.hand.Some? then 2 else 0) + (if s.exited then 0 else 1)
  }

  ghost predicate Closing(b: Bus, id: SubId) { id < |b.tab.subs| && b.tab.subs[id].queue.closed }

  /** Once the queue is closed nothing gets in any more, and every step of the worker is one step
      nearer to its return. */
  lemma ClosedStep(b: Bus, e: Event, id: SubId)
    requires Enabled(b, e) && Closing(b, id)
    ensures Closing(Next(b, e), id)
    ensures WorkLeft(Next(b, e).tab.subs[id])
         <= WorkLeft(b.tab.subs[id]) - (if WorkerStep(e, id) then 1 else 0)
  {
    if IsQuiet(e) {
      NextIsQuiet(b, e);
      QuietWork(b.tab.subs[e.id], e);
    } else if e.Publish? && e.name in b.tab.topics {
      ClassifyOnlyRejects(b.tab.subs, b.tab.topics[e.name].subs, e.offer, id);
    }
  }

  lemma QuietWork(s: Sub, e: Event)
    requires IsQuiet(e) && QuietReady(s, e)
    ensures s.queue.closed ==> QuietNext(s, e).queue.closed
    ensures WorkLeft(QuietNext(s, e)) <= WorkLeft(s) - if WorkerStep(e, e.id) then 1 else 0
  {
  }

  function WorkerSteps(events: seq<Event>, id: SubId): nat {
    if events == [] then 0
    else (if WorkerStep(events[0], id) then 1 else 0) + WorkerSteps(events[1..], id)
  }

  /** So `unsubscribe` and `shutdown`, which wait for the worker, wait for only so many of its
      steps, whatever publishers do meanwhile. */
  lemma {:induction false} ClosedRunsAreShort(b: Bus, events: seq<Event>, id: SubId)
    requires IsRun(b, events) && Closing(b, id)
    ensures WorkerSteps(events, id) <= WorkLeft(b.tab.subs[id])
    decreases |events|
  {
    if events == [] {
    } else {
      ClosedStep(b, events[0], id);
      ClosedRunsAreShort(Next(b, events[0]), events[1..], id);
    }
  }

  /** And until it has returned, the worker always has a step to take. */
  lemma WorkerNeverStuck(b: Bus, id: SubId, now: nat) returns (e: Event)
    requires Closing(b, id) && b.tab.subs[id].started && !b.tab.subs[id].exited
    requires now >= b.tab.subs[id].last
    ensures Enabled(b, e) && WorkerStep(e, id)
  {
    var s := b.tab.subs[id];
    e := if s.hand.Some? then Finish(id, now) else if s.queue.items != [] then Take(id) else Exit(id);
  }

  ghost predicate SettledFor(s: Sub, n: Sub) {
    n.exited && n.delivered == s.delivered && n.expired == s.expired && n.missed == s.missed
    && n.evicted == s.evicted && ExitOk(n)
  }

  lemma StepAfterExit(b: Bus, e: Event, id: SubId)
    requires Enabled(b, e) && id < |b.tab.subs| && b.tab.subs[id].exited && ExitOk(b.tab.subs[id])
    ensures id < |Next(b, e).tab.subs| && SettledFor(b.tab.subs[id], Next(b, e).tab.subs[id])
  {
    if e.Publish? && e.name in b.tab.topics {
      ClassifyOnlyRejects(b.tab.subs, b.tab.topics[e.name].subs, e.offer, id);
    }
  }

  /** When the worker has returned, everything that got into the queue has been delivered or has
      expired (or was evicted), and however the run goes on nothing is delivered any more. */
  lemma {:induction false} NothingAfterExit(b: Bus, events: seq<Event>, id: SubId)
    requires Inv(b) && IsRun(b, events) && id < |b.tab.subs| && b.tab.subs[id].exited
    ensures id < |After(b, events).tab.subs|
    ensures SettledFor(b.tab.subs[id], After(b, events).tab.subs[id])
    ensures var s := b.tab.subs[id];
            |s.attempted| == |s.delivered| + s.expired + s.evicted + s.refused
    decreases |events|
  {
    if events == [] {
    } else {
      StepAfterExit(b, events[0], id);
      StepKeepsInv(b, events[0]);
      NothingAfterExit(Next(b, events[0]), events[1..], id);
    }
  }

  // ---------------------------------------------------------------- the latched envelopes

  /** Every publication on the topic offers transient-local durability with depth `d`. */
  predicate Uniform(events: seq<Event>, name: string, d: nat) {
    forall k | 0 <= k < |events| :: UniformEvent(events[k], name, d)
  }

  predicate UniformEvent(e: Event, name: string, d: nat) {
    e.Publish? && e.name == name ==> e.offer.durability.TransientLocal? && e.offer.depth == d
  }

  ghost predicate LatchLaw(topic: Topic, d: nat) {
    topic.cleared <= |topic.log| && topic.latched == Last(topic.log[topic.cleared..], d)
  }

  ghost predicate OfferLaw(log: seq<Envelope>, s: Sub, d: nat) {
    s.since <= s.joined <= |log|
    && (s.qos.durability.TransientLocal? ==> s.offered == Last(log[s.since..s.joined], d))
  }

  ghost predicate UniformInv(b: Bus, name: string, d: nat) {
    && (name in b.tab.topics ==> LatchLaw(b.tab.topics[name], d))
    && (forall id | 0 <= id < |b.tab.subs| && b.tab.subs[id].topic == name ::
          name in b.tab.topics && OfferLaw(b.tab.topics[name].log, b.tab.subs[id], d))
  }

  lemma LastOfLast<T>(s: seq<T>, x: T, d: nat)
    ensures Last(Last(s, d) + [x], d) == Last(s + [x], d)
  {
  }

  lemma RecordedLatch(topic: Topic, e: Envelope, d: nat)
    requires LatchLaw(topic, d) && e.offer.durability.TransientLocal? && e.offer.depth == d
    ensures LatchLaw(Recorded(topic, e), d)
  {
    LastOfLast(topic.log[topic.cleared..], e, d);
    assert (topic.log + [e])[topic.cleared..] == topic.log[topic.cleared..] + [e];
  }

  /** A step on the topic: nothing that matters changes, or an envelope is recorded, or a shutdown
      empties it. */
  ghost predicate TopicStep(topic: Topic, next: Topic, d: nat) {
    || (next.latched == topic.latched && next.log == topic.log && next.cleared == topic.cleared)
    || (next.latched == [] && next.log == topic.log && next.cleared == |topic.log|)
    || (next.log != [] && next.log[..|next.log| - 1] == topic.log
        && next.log[|next.log| - 1].offer.durability.TransientLocal?
        && next.log[|next.log| - 1].offer.depth == d
        && next.latched == Recorded(topic, next.log[|next.log| - 1]).latched
        && next.cleared == topic.cleared)
  }

  lemma TopicStepKeepsLatch(topic: Topic, next: Topic, d: nat)
    requires LatchLaw(topic, d) && TopicStep(topic, next, d)
    ensures LatchLaw(next, d)
    ensures |topic.log| <= |next.log| && next.log[..|topic.log|] == topic.log
  {
    if |next.log| > |topic.log| {
      RecordedLatch(topic, next.log[|next.log| - 1], d);
      assert next.log == topic.log + [next.log[|next.log| - 1]];
    }
  }

  lemma StepIsTopicStep(b: Bus, e: Event, name: string, d: nat)
    requires Enabled(b, e) && UniformEvent(e, name, d) && name in b.tab.topics
    ensures name in Next(b, e).tab.topics
    ensures TopicStep(b.tab.topics[name], Next(b, e).tab.topics[name], d)
  {
  }

  lemma StepCreatesTopic(b: Bus, e: Event, name: string)
    requires Enabled(b, e) && name !in b.tab.topics && name in Next(b, e).tab.topics
    ensures var topic := Next(b, e).tab.topics[name];
            topic.latched == [] && topic.log == [] && topic.cleared == 0
  {
  }

  ghost predicate SameOffer(s: Sub, n: Sub) {
    n.topic == s.topic && n.qos == s.qos && n.joined == s.joined && n.since == s.since
    && n.offered == s.offered
  }

  lemma QuietKeepsOffers(b: Bus, e: Event, i: nat)
    requires Enabled(b, e) && IsQuiet(e) && i < |b.tab.subs|
    ensures i < |Next(b, e).tab.subs| && SameOffer(b.tab.subs[i], Next(b, e).tab.subs[i])
  {
    NextIsQuiet(b, e);
  }

  lemma StepKeepsOffers(b: Bus, e: Event, i: nat)
    requires Enabled(b, e) && i < |b.tab.subs|
    ensures i < |Next(b, e).tab.subs| && SameOffer(b.tab.subs[i], Next(b, e).tab.subs[i])
  {
    if IsQuiet(e) {
      QuietKeepsOffers(b, e, i);
    } else if e.Publish? && e.name in b.tab.topics {
      ClassifyOnlyRejects(b.tab.subs, b.tab.topics[e.name].subs, e.offer, i);
    }
  }

  lemma OfferLater(log: seq<Envelope>, next: seq<Envelope>, s: Sub, n: Sub, d: nat)
    requires OfferLaw(log, s, d) && SameOffer(s, n) && |log| <= |next| && next[..|log|] == log
    ensures OfferLaw(next, n, d)
  {
    assert next[..|log|][s.since..s.joined] == next[s.since..s.joined];
  }

  /** Only a subscription makes a new subscriber. */
  lemma StepAddsSub(b: Bus, e: Event, i: nat)
    requires Enabled(b, e) && |b.tab.subs| <= i < |Next(b, e).tab.subs|
    ensures e.Subscribe? && i == |b.tab.subs|
    ensures var topics := Ensured(b.tab.topics, e.name, e.ty);
            Next(b, e).tab.subs[i] == NewSub(e.name, e.ty, e.qos, topics[e.name])
            && e.name in Next(b, e).tab.topics
            && Next(b, e).tab.topics[e.name].log == topics[e.name].log
  {
  }

  lemma NewOffer(b: Bus, name: string, ty: nat, qos: QoS, d: nat)
    requires UniformInv(b, name, d)
    ensures var topic := Ensured(b.tab.topics, name, ty)[name];
            OfferLaw(topic.log, NewSub(name, ty, qos, topic), d)
  {
    var topic := Ensured(b.tab.topics, name, ty)[name];
    assert topic.log[topic.cleared..|topic.log|] == topic.log[topic.cleared..];
  }

  lemma StepKeepsLatch(b: Bus, e: Event, name: string, d: nat)
    requires Enabled(b, e) && UniformEvent(e, name, d) && UniformInv(b, name, d)
    ensures name in Next(b, e).tab.topics ==> LatchLaw(Next(b, e).tab.topics[name], d)
  {
    if name in b.tab.topics {
      StepIsTopicStep(b, e, name, d);
      TopicStepKeepsLatch(b.tab.topics[name], Next(b, e).tab.topics[name], d);
    } else if name in Next(b, e).tab.topics {
      StepCreatesTopic(b, e, name);
    }
  }

  lemma StepKeepsOfferLaw(b: Bus, e: Event, name: string, d: nat, i: nat)
    requires Enabled(b, e) && UniformEvent(e, name, d) && UniformInv(b, name, d)
    requires i < |Next(b, e).tab.subs| && Next(b, e).tab.subs[i].topic == name
    ensures name in Next(b, e).tab.topics
    ensures OfferLaw(Next(b, e).tab.topics[name].log, Next(b, e).tab.subs[i], d)
  {
    if i < |b.tab.subs| {
      StepKeepsOffers(b, e, i);
      StepIsTopicStep(b, e, name, d);
      TopicStepKeepsLatch(b.tab.topics[name], Next(b, e).tab.topics[name], d);
      OfferLater(b.tab.topics[name].log, Next(b, e).tab.topics[name].log,
                 b.tab.subs[i], Next(b, e).tab.subs[i], d);
    } else {
      StepAddsSub(b, e, i);
      NewOffer(b, name, e.ty, e.qos, d);
    }
  }

  lemma {:induction false} RunKeepsUniform(b: Bus, events: seq<Event>, name: string, d: nat)
    requires IsRun(b, events) && Uniform(events, name, d) && UniformInv(b, name, d)
    ensures UniformInv(After(b, events), name, d)
    decreases |events|
  {
    if events == [] {
    } else {
      var e := events[0];
      assert UniformEvent(e, name, d);
      UniformStep(b, e, name, d);
      RunKeepsUniform(Next(b, e), events[1..], name, d);
    }
  }

  lemma UniformStep(b: Bus, e: Event, name: string, d: nat)
    requires Enabled(b, e) && UniformEvent(e, name, d) && UniformInv(b, name, d)
    ensures UniformInv(Next(b, e), name, d)
  {
    StepKeepsLatch(b, e, name, d);
    var n := Next(b, e);
    forall i | 0 <= i < |n.tab.subs| && n.tab.subs[i].topic == name
      ensures name in n.tab.topics && OfferLaw(n.tab.topics[name].log, n.tab.subs[i], d)
    {
      StepKeepsOfferLaw(b, e, name, d, i);
    }
  }

  /** When all publishers of a topic latch with the same depth, the topic always holds the newest
      envelopes since the last shutdown, and every late joiner is offered exactly the newest ones
      at the time it joined. */
  lemma LateJoinersGetTheNewest(events: seq<Event>, name: string, d: nat)
    requires IsRun(NEW_BUS, events) && Uniform(events, name, d)
    ensures var tab := After(NEW_BUS, events).tab;
            && (name in tab.topics ==>
                  var topic := tab.topics[name];
                  topic.cleared <= |topic.log| && topic.latched == Last(topic.log[topic.cleared..], d))
            && forall id | 0 <= id < |tab.subs| && tab.subs[id].topic == name ::
                 name in tab.topics && OfferLaw(tab.topics[name].log, tab.subs[id], d)
  {
    RunKeepsUniform(NEW_BUS, events, name, d);
  }

  // ---------------------------------------------------------------- mixed offers

  /** The envelopes offered as transient-local, in order. */
  function Transient(es: seq<Envelope>): seq<Envelope> {
    if es == [] then []
    else
      var e := es[|es| - 1];
      Transient(es[..|es| - 1]) + if e.offer.durability.TransientLocal? then [e] else []
  }

  ghost predicate TailOf<T>(tail: seq<T>, all: seq<T>) {
    |tail| <= |all| && tail == all[|all| - |tail|..]
  }

  lemma {:induction false} TailAppend<T>(all: seq<T>, tail: seq<T>, x: T, d: nat)
    requires TailOf(tail, all)
    ensures TailOf(Last(tail + [x], d), all + [x]) && |Last(tail + [x], d)| == Min(d, |tail| + 1)
  {
    assert tail + [x] == (all + [x])[|all| - |tail|..];
  }

  /** Whatever the publishers offer, what is latched is a tail of what was published transient-local
      since the last shutdown. */
  ghost predicate LatchIsTail(topic: Topic) {
    topic.cleared <= |topic.log| && TailOf(topic.latched, Transient(topic.log[topic.cleared..]))
  }

  lemma {:induction false} TransientAppend(es: seq<Envelope>, e: Envelope)
    ensures Transient(es + [e]) == Transient(es) + if e.offer.durability.TransientLocal? then [e] else []
  {
    assert (es + [e])[..|es|] == es;
  }

  /** A transient-local publication is latched last and pushes out what exceeds its own depth; a
      volatile one leaves the latched envelopes alone. */
  lemma {:induction false} RecordedTail(topic: Topic, e: Envelope)
    requires LatchIsTail(topic)
    ensures LatchIsTail(Recorded(topic, e))
    ensures |Recorded(topic, e).latched|
         == if e.offer.durability.TransientLocal? then Min(e.offer.depth, |topic.latched| + 1)
            else |topic.latched|
  {
    var since := topic.log[topic.cleared..];
    assert Recorded(topic, e).log[topic.cleared..] == since + [e];
    TransientAppend(since, e);
    if e.offer.durability.TransientLocal? {
      TailAppend(Transient(since), topic.latched, e, e.offer.depth);
    } else {
      assert Transient(since) + [] == Transient(since);
    }
  }

  ghost predicate SameLatch(topic: Topic, n: Topic) {
    n.log == topic.log && n.latched == topic.latched && n.cleared == topic.cleared
  }

  /** What a step does to one topic. */
  lemma {:induction false} StepOnTopic(b: Bus, e: Event, name: string)
    requires Enabled(b, e) && name in Next(b, e).tab.topics
    ensures var n := Next(b, e).tab.topics[name];
            if name !in b.tab.topics then SameLatch(Topic(n.ty, [], [], 0, [], 0), n)
            else
              var topic := b.tab.topics[name];
              if e.Shutdown? then n == Emptied(topic)
              else if e.Publish? && e.name == name && topic.ty == e.ty
              then n == Recorded(topic, NextEnvelope(topic, e.t, e.offer, e.payload, e.stamp))
              else SameLatch(topic, n)
  {
  }

  lemma {:induction false} EmptiedTail(topic: Topic)
    ensures LatchIsTail(Emptied(topic))
  {
  }

  lemma {:induction false} StepKeepsTail(b: Bus, e: Event, name: string)
    requires Enabled(b, e) && name in Next(b, e).tab.topics
    requires name in b.tab.topics ==> LatchIsTail(b.tab.topics[name])
    ensures LatchIsTail(Next(b, e).tab.topics[name])
  {
    StepOnTopic(b, e, name);
    if name in b.tab.topics {
      var topic := b.tab.topics[name];
      if e.Shutdown? {
        EmptiedTail(topic);
      } else if e.Publish? && e.name == name && topic.ty == e.ty {
        RecordedTail(topic, NextEnvelope(topic, e.t, e.offer, e.payload, e.stamp));
      }
    }
  }

  lemma {:induction false} LatchedAlwaysTail(b: Bus, events: seq<Event>, name: string)
    requires IsRun(b, events) && (name in b.tab.topics ==> LatchIsTail(b.tab.topics[name]))
    ensures name in After(b, events).tab.topics ==> LatchIsTail(After(b, events).tab.topics[name])
    decreases |events|
  {
    if events == [] {
    } else {
      var n := Next(b, events[0]);
      if name in n.tab.topics { StepKeepsTail(b, events[0], name); }
      LatchedAlwaysTail(n, events[1..], name);
    }
  }

  // ---------------------------------------------------------------- lifespan and deadline

  /** For the envelope in the worker's hand, in arithmetic: it is called back unless the lifespan is
      limited and over; a deadline is missed when the last delivery is longer ago than that. */
  lemma FinishExactly(s: Sub, now: nat)
    requires s.hand.Some?
    ensures var e, n := s.hand.value, Finished(s, now);
            var inTime := s.qos.lifespan == 0 || now <= e.stamp + s.qos.lifespan;
            && n.delivered == (if inTime then s.delivered + [e] else s.delivered)
            && n.expired == s.expired + (if inTime then 0 else 1)
            && n.missed == s.missed
                 + (if inTime && 0 < s.qos.deadline && 0 < s.last && s.last + s.qos.deadline < now
                    then 1 else 0)
            && n.last == (if inTime then now else s.last) && n.hand.None? && n.queue == s.queue
  {
  }

  /** How often two deliveries in a row were further apart than the deadline; time 0 stands for no
      delivery yet. */
  function Misses(times: seq<nat>, deadline: nat): nat {
    if |times| < 2 then 0
    else
      var before, at := times[|times| - 2], times[|times| - 1];
      Misses(times[..|times| - 1], deadline)
      + if 0 < deadline && 0 < before && before + deadline < at then 1 else 0
  }

  /** Every delivery was within the lifespan. */
  ghost predicate AllInTime(es: seq<Envelope>, times: seq<nat>, lifespan: nat) {
    |times| == |es|
    && forall k | 0 <= k < |times| :: lifespan == 0 || times[k] <= es[k].stamp + lifespan
  }

  /** Everything lost was past it. */
  ghost predicate AllLate(lost: seq<Loss>, lifespan: nat) {
    forall k | 0 <= k < |lost| :: lifespan > 0 && lost[k].at > lost[k].envelope.stamp + lifespan
  }

  /** Nothing is delivered after its lifespan, everything that counts as expired was older, and the
      missed deadlines are those that the delivery times show. */
  ghost predicate TimingLaw(s: Sub) {
    && AllInTime(s.delivered, s.times, s.qos.lifespan)
    && |s.lost| == s.expired && AllLate(s.lost, s.qos.lifespan)
    && s.last == (if s.times == [] then 0 else s.times[|s.times| - 1])
    && s.missed == Misses(s.times, s.qos.deadline)
  }

  lemma DroppedTiming(s: Sub, now: nat)
    requires TimingLaw(s) && s.hand.Some? && Expired(s.qos, s.hand.value, now)
    ensures TimingLaw(Dropped(s, now))
  {
  }

  lemma CalledBackTiming(s: Sub, now: nat)
    requires TimingLaw(s) && s.hand.Some? && !Expired(s.qos, s.hand.value, now)
    ensures TimingLaw(CalledBack(s, now))
  {
    InTimeAppend(s.delivered, s.times, s.qos.lifespan, s.hand.value, now);
    CalledBackMisses(s, now);
  }

  lemma InTimeAppend(es: seq<Envelope>, times: seq<nat>, lifespan: nat, e: Envelope, now: nat)
    requires AllInTime(es, times, lifespan) && (lifespan == 0 || now <= e.stamp + lifespan)
    ensures AllInTime(es + [e], times + [now], lifespan)
  {
  }

  lemma CalledBackMisses(s: Sub, now: nat)
    requires s.hand.Some? && s.last == (if s.times == [] then 0 else s.times[|s.times| - 1])
    requires s.missed == Misses(s.times, s.qos.deadline)
    ensures CalledBack(s, now).missed == Misses(s.times + [now], s.qos.deadline)
  {
    MissesAppend(s.times, now, s.qos.deadline);
  }

  lemma MissesAppend(times: seq<nat>, now: nat, deadline: nat)
    ensures Misses(times + [now], deadline) == Misses(times, deadline)
         + if times != [] && 0 < deadline && 0 < times[|times| - 1]
              && times[|times| - 1] + deadline < now then 1 else 0
  {
    assert (times + [now])[..|times|] == times;
  }

  /** What the worker alone changes. */
  ghost predicate SameWork(s: Sub, n: Sub) {
    && n.qos == s.qos && n.delivered == s.delivered && n.expired == s.expired && n.last == s.last
    && n.missed == s.missed && n.times == s.times && n.lost == s.lost
  }

  lemma SameWorkSameTiming(s: Sub, n: Sub)
    requires TimingLaw(s) && SameWork(s, n)
    ensures TimingLaw(n)
  {
  }

  lemma QuietSameWork(s: Sub, e: Event)
    requires IsQuiet(e) && QuietReady(s, e) && !e.Finish?
    ensures SameWork(s, QuietNext(s, e))
  {
  }

  lemma FinishNext(s: Sub, e: Event)
    requires e.Finish? && QuietReady(s, e)
    ensures QuietNext(s, e) == if Expired(s.qos, s.hand.value, e.now) then Dropped(s, e.now)
                               else CalledBack(s, e.now)
  {
  }

  lemma QuietKeepsTiming(s: Sub, e: Event)
    requires TimingLaw(s) && IsQuiet(e) && QuietReady(s, e)
    ensures TimingLaw(QuietNext(s, e))
  {
    if !e.Finish? {
      QuietSameWork(s, e);
      SameWorkSameTiming(s, QuietNext(s, e));
    } else {
      FinishNext(s, e);
      if Expired(s.qos, s.hand.value, e.now) { DroppedTiming(s, e.now); }
      else { CalledBackTiming(s, e.now); }
    }
  }

  lemma OtherStepsKeepWork(b: Bus, e: Event, id: SubId)
    requires Enabled(b, e) && id < |b.tab.subs| && !(IsQuiet(e) && e.id == id)
    ensures id < |Next(b, e).tab.subs| && SameWork(b.tab.subs[id], Next(b, e).tab.subs[id])
  {
    if IsQuiet(e) {
      NextIsQuiet(b, e);
    } else if e.Publish? && e.name in b.tab.topics {
      ClassifyOnlyRejects(b.tab.subs, b.tab.topics[e.name].subs, e.offer, id);
    }
  }

  ghost predicate AllTimed(subs: seq<Sub>) {
    forall id: SubId | id < |subs| :: TimingLaw(subs[id])
  }

  lemma JoinerTiming(b: Bus, e: Event, id: SubId)
    requires Enabled(b, e) && |b.tab.subs| <= id < |Next(b, e).tab.subs|
    ensures TimingLaw(Next(b, e).tab.subs[id])
  {
    assert e.Subscribe?;
  }

  lemma StepKeepsTiming(b: Bus, e: Event)
    requires Enabled(b, e) && AllTimed(b.tab.subs)
    ensures AllTimed(Next(b, e).tab.subs)
  {
    forall id: SubId | id < |Next(b, e).tab.subs| ensures TimingLaw(Next(b, e).tab.subs[id]) {
      if id >= |b.tab.subs| {
        JoinerTiming(b, e, id);
      } else if IsQuiet(e) && e.id == id {
        NextIsQuiet(b, e);
        QuietKeepsTiming(b.tab.subs[id], e);
      } else {
        OtherStepsKeepWork(b, e, id);
        SameWorkSameTiming(b.tab.subs[id], Next(b, e).tab.subs[id]);
      }
    }
  }

  lemma {:induction false} RunKeepsTiming(b: Bus, events: seq<Event>)
    requires IsRun(b, events) && AllTimed(b.tab.subs)
    ensures AllTimed(After(b, events).tab.subs)
    decreases |events|
  {
    if events == [] {
    } else {
      StepKeepsTiming(b, events[0]);
      RunKeepsTiming(Next(b, events[0]), events[1..]);
    }
  }

  /** The law in every run. */
  lemma NothingStaleIsDelivered(events: seq<Event>, id: SubId)
    requires IsRun(NEW_BUS, events) && id < |After(NEW_BUS, events).tab.subs|
    ensures TimingLaw(After(NEW_BUS, events).tab.subs[id])
  {
    RunKeepsTiming(NEW_BUS, events);
  }

  // ---------------------------------------------------------------- the calls, exactly

  /** A publication is recorded, with the next number, exactly when the topic exists with its type.
      A type conflict is counted and changes nothing else. */
  lemma PublishExactly(b: Bus, e: Event)
    requires Enabled(b, e) && TopicsOk(b.tab.topics) && e.Publish?
    ensures var n := Next(b, e);
            if e.name !in b.tab.topics then n == b
            else if b.tab.topics[e.name].ty != e.ty
            then n == b.(tab := b.tab.(typeMismatches := b.tab.typeMismatches + 1))
            else
              var topic, log := n.tab.topics[e.name], b.tab.topics[e.name].log;
              var envelope := Envelope(|log| + 1, e.t, e.offer, e.payload, e.stamp);
              && n.tab.topics == b.tab.topics[e.name := topic]
              && topic.log == log + [envelope] && topic.ty == e.ty
              && n.tab.typeMismatches == b.tab.typeMismatches
              && e.t in n.calls && n.calls[e.t].envelope == envelope
  {
    if e.name in b.tab.topics { assert TopicOk(b.tab.topics[e.name]); }
  }

  /** No other step publishes anything, counts a conflict or changes a type. */
  lemma OthersPublishNothing(b: Bus, e: Event, name: string)
    requires Enabled(b, e) && name in b.tab.topics && (e.Publish? ==> e.name != name)
    ensures var n := Next(b, e);
            && name in n.tab.topics && n.tab.topics[name].log == b.tab.topics[name].log
            && n.tab.topics[name].ty == b.tab.topics[name].ty
            && (!e.Publish? ==> n.tab.typeMismatches == b.tab.typeMismatches)
  {
  }

  /** A subscription joins exactly when the topic is new or has its type. */
  lemma SubscribeExactly(b: Bus, name: string, ty: nat, qos: QoS)
    requires Inv(b)
    ensures var n := Next(b, Subscribe(name, ty, qos));
            var joins := name !in b.tab.topics || b.tab.topics[name].ty == ty;
            && name in n.tab.topics && (joins ==> n.tab.topics[name].ty == ty)
            && (!joins ==> n == b)
            && (joins ==>
                  && n.tab.subs[..|b.tab.subs|] == b.tab.subs && |n.tab.subs| == |b.tab.subs| + 1
                  && |b.tab.subs| in n.tab.topics[name].subs
                  && var s := n.tab.subs[|b.tab.subs|];
                     s.topic == name && s.ty == ty && s.qos == qos && s.left.None?)
  {
  }

  ghost predicate Linked(tab: Table, id: SubId) {
    exists name :: name in tab.topics && id in tab.topics[name].subs
  }

  /** After `unsubscribe` the subscription is in no topic and will not be served again; nobody else
      is affected. */
  lemma UnsubscribeExactly(b: Bus, id: SubId)
    requires Inv(b) && Enabled(b, Unsubscribe(id))
    ensures var n := Next(b, Unsubscribe(id));
            && !Linked(n.tab, id) && n.tab.subs[id].left.Some?
            && (forall k | 0 <= k < |b.tab.subs| && k != id :: n.tab.subs[k] == b.tab.subs[k])
            && (forall name, k: SubId | name in b.tab.topics && k != id ::
                  k in n.tab.topics[name].subs <==> k in b.tab.topics[name].subs)
  {
    UnsubscribeKeeps(b, id);
    var n := Next(b, Unsubscribe(id));
    var name := b.tab.subs[id].topic;
    assert MembersOk(b.tab.subs, name, b.tab.topics[name].subs);
    assert id in b.tab.topics[name].subs <==> Listens(b.tab.subs, name, id);
    WithoutOne(b.tab.topics[name].subs, id);
    forall m | m in n.tab.topics ensures id !in n.tab.topics[m].subs {
      assert MembersOk(n.tab.subs, m, n.tab.topics[m].subs);
      assert !Listens(n.tab.subs, m, id);
    }
  }

  /** After `shutdown` nobody is linked and nothing is latched, but the numbers go on. */
  lemma ShutdownExactly(b: Bus)
    requires Inv(b)
    ensures var n := Next(b, Shutdown);
            && n.tab.topics.Keys == b.tab.topics.Keys
            && (forall name | name in n.tab.topics ::
                  && n.tab.topics[name].subs == [] && n.tab.topics[name].latched == []
                  && n.tab.topics[name].log == b.tab.topics[name].log
                  && n.tab.topics[name].published == |b.tab.topics[name].log|)
            && forall id | 0 <= id < |n.tab.subs| :: n.tab.subs[id].left.Some?
  {
  }

  /** One push: it is refused only by a closed queue, or by a full one of a reliable subscriber;
      otherwise the envelope is now the last one queued. */
  lemma AttemptExactly(s: Sub, e: Envelope)
    requires Accounted(s)
    ensures var n := Attempt(s, e);
            && n.attempted == s.attempted + [e]
            && (n.refused > s.refused <==>
                  s.queue.closed || (s.qos.reliability.Reliable?
                                     && |s.queue.items| == s.queue.capacity))
            && (n.refused == s.refused ==>
                  n.queue.items != [] && n.queue.items[|n.queue.items| - 1] == e)
  {
  }

  lemma {:induction false} ReadyExactly(s: Sub, e: Envelope)
    requires Accounted(s)
    ensures Ready(s, e, false) <==> s.qos.reliability.BestEffort? || s.queue.closed
                                    || |s.queue.items| < s.queue.capacity
    ensures Ready(s, e, true) <==> s.qos.reliability.Reliable?
  {
  }

  lemma {:induction false} DeliverOnTarget(b: Bus, t: Tid, timedOut: bool)
    requires Enabled(b, Deliver(t, timedOut))
    ensures var id := b.calls[t].targets[0];
            && id < |Next(b, Deliver(t, timedOut)).tab.subs|
            && Next(b, Deliver(t, timedOut)).tab.subs[id]
               == LivePushed(b.tab.subs[id], b.calls[t].envelope)
  {
  }

  lemma {:induction false} NextTarget(b: Bus, t: Tid)
    requires Inv(b) && t in b.calls && b.calls[t].targets != []
    ensures b.calls[t].targets[0] < |b.tab.subs| && Accounted(b.tab.subs[b.calls[t].targets[0]])
  {
    SubOfInv(b, b.calls[t].targets[0]);
  }

  /** A publisher is held up exactly by the full open queue of a reliable subscriber, and there only
      until its timeout; it is refused exactly by a closed queue, or by a full one after that. */
  lemma {:induction false} PublishersWait(b: Bus, t: Tid)
    requires Inv(b) && t in b.calls && b.calls[t].targets != []
    ensures var id := b.calls[t].targets[0];
            && id < |b.tab.subs|
            && var s := b.tab.subs[id];
            && (Enabled(b, Deliver(t, false)) <==>
                  s.qos.reliability.BestEffort? || s.queue.closed || |s.queue.items| < s.queue.capacity)
            && (Enabled(b, Deliver(t, true)) <==> s.qos.reliability.Reliable?)
    ensures var id := b.calls[t].targets[0];
            forall timedOut | Enabled(b, Deliver(t, timedOut)) ::
              var s, n := b.tab.subs[id], Next(b, Deliver(t, timedOut)).tab.subs[id];
              n.refused == s.refused + if s.queue.closed
                                          || (timedOut && |s.queue.items| == s.queue.capacity)
                                       then 1 else 0
  {
    NextTarget(b, t);
    var s, e := b.tab.subs[b.calls[t].targets[0]], b.calls[t].envelope;
    ReadyExactly(s, e);
    AttemptExactly(s, e);
    forall timedOut | Enabled(b, Deliver(t, timedOut))
      ensures Next(b, Deliver(t, timedOut)).tab.subs[b.calls[t].targets[0]] == LivePushed(s, e)
    {
      DeliverOnTarget(b, t, timedOut);
    }
  }

  /** The first half of stopping a subscription: its worker can drain the queue and return. */
  lemma CloseQueueCloses(b: Bus, id: SubId)
    requires Enabled(b, CloseQueue(id))
    ensures Closing(Next(b, CloseQueue(id)), id)
    ensures Next(b, CloseQueue(id)).tab.subs[id].queue.items == b.tab.subs[id].queue.items
  {
  }

  // ---------------------------------------------------------------- what a late joiner retains

  /** What a queue that nobody takes from holds of all the pushes tried so far: a blocking one the
      first, a drop-oldest one the last. */
  function Held(qos: QoS, capacity: nat, es: seq<Envelope>): seq<Envelope> {
    if qos.reliability.Reliable? then es[..Min(capacity, |es|)] else Last(es, capacity)
  }

  /** Until the worker starts, and unless the queue is closed before, the pushes tried so far, live
      ones and backlog in whatever order they came, decide what is held. */
  ghost predicate RetentionLaw(s: Sub) {
    && s.queue.capacity == (if s.qos.depth == 0 then 1 else s.qos.depth)
    && s.queue.policy == (if s.qos.reliability.Reliable? then BQ.Block else BQ.DropOldest)
    && (!s.started ==> s.hand.None? && s.delivered == [])
    && (!s.started && !s.queue.closed ==>
          s.queue.items == Held(s.qos, s.queue.capacity, s.attempted))
  }

  lemma HeldAppend(s: Sub, e: Envelope)
    requires RetentionLaw(s) && !s.started && !s.queue.closed
    ensures BQ.EnterPush(s.queue, e, true).0.items
         == Held(s.qos, s.queue.capacity, s.attempted + [e])
  {
    if s.qos.reliability.BestEffort? {
      DropOldestOnce(s.queue, s.attempted, e);
    } else if |s.attempted| < s.queue.capacity {
      assert s.queue.items == s.attempted;
      assert Held(s.qos, s.queue.capacity, s.attempted + [e]) == s.attempted + [e];
    }
  }

  lemma AttemptRetains(s: Sub, e: Envelope, n: Sub)
    requires RetentionLaw(s)
    requires n == Attempt(s, e).(backlog := n.backlog, overtaken := n.overtaken)
    ensures RetentionLaw(n)
  {
    if !s.started && !s.queue.closed { HeldAppend(s, e); }
  }

  lemma {:induction false} QuietRetains(s: Sub, e: Event)
    requires RetentionLaw(s) && IsQuiet(e) && QuietReady(s, e) && (e.Take? ==> s.started)
    ensures RetentionLaw(QuietNext(s, e))
  {
    if e.StartWorker? {
    } else if e.Take? {
    } else if e.Finish? {
    } else if e.Exit? {
      OtherRetains(s, QuietNext(s, e));
    }
  }

  lemma OtherRetains(s: Sub, n: Sub)
    requires RetentionLaw(s) && n.qos == s.qos && n.queue == s.queue && n.started == s.started
    requires n.hand == s.hand && n.delivered == s.delivered && n.attempted == s.attempted
    ensures RetentionLaw(n)
  {
  }

  lemma StepRetains(b: Bus, e: Event, id: SubId)
    requires Enabled(b, e) && id < |b.tab.subs| && RetentionLaw(b.tab.subs[id])
    ensures id < |Next(b, e).tab.subs| && RetentionLaw(Next(b, e).tab.subs[id])
  {
    var s := b.tab.subs[id];
    if IsQuiet(e) {
      NextIsQuiet(b, e);
      if e.id == id { QuietRetains(s, e); }
    } else if e.PushBacklog? {
      if e.id == id { AttemptRetains(s, s.backlog[0], BacklogPushed(s)); }
    } else if e.Deliver? {
      var c := b.calls[e.t];
      if c.targets[0] == id { AttemptRetains(s, c.envelope, LivePushed(s, c.envelope)); }
    } else {
      if e.Publish? && e.name in b.tab.topics {
        ClassifyOnlyRejects(b.tab.subs, b.tab.topics[e.name].subs, e.offer, id);
      }
      OtherRetains(s, Next(b, e).tab.subs[id]);
    }
  }

  ghost predicate AllRetain(subs: seq<Sub>) {
    forall id: SubId | id < |subs| :: RetentionLaw(subs[id])
  }

  lemma StepKeepsRetention(b: Bus, e: Event)
    requires Enabled(b, e) && AllRetain(b.tab.subs)
    ensures AllRetain(Next(b, e).tab.subs)
  {
    forall id: SubId | id < |Next(b, e).tab.subs| ensures RetentionLaw(Next(b, e).tab.subs[id]) {
      if id < |b.tab.subs| { StepRetains(b, e, id); } else { JoinerRetains(b, e, id); }
    }
  }

  lemma JoinerRetains(b: Bus, e: Event, id: SubId)
    requires Enabled(b, e) && |b.tab.subs| <= id < |Next(b, e).tab.subs|
    ensures RetentionLaw(Next(b, e).tab.subs[id])
  {
    assert e.Subscribe?;
  }

  lemma {:induction false} RunRetains(b: Bus, events: seq<Event>)
    requires IsRun(b, events) && AllRetain(b.tab.subs)
    ensures AllRetain(After(b, events).tab.subs)
    decreases |events|
  {
    if events == [] {
    } else {
      StepKeepsRetention(b, events[0]);
      RunRetains(Next(b, events[0]), events[1..]);
    }
  }

  /** The law over every run of the bus. */
  lemma HeldUntilStart(events: seq<Event>, id: SubId)
    requires IsRun(NEW_BUS, events) && id < |After(NEW_BUS, events).tab.subs|
    ensures var s := After(NEW_BUS, events).tab.subs[id];
            && (!s.started ==> s.hand.None? && s.delivered == [])
            && (!s.started && !s.queue.closed ==>
                  s.queue.items == Held(s.qos, s.queue.capacity, s.attempted))
            && s.queue.capacity == if s.qos.depth == 0 then 1 else s.qos.depth
  {
    RunRetains(NEW_BUS, events);
  }

  /** Position `p` among `n` pushes is one that such a queue holds. */
  predicate Keeps(qos: QoS, capacity: nat, n: nat, p: nat) {
    if qos.reliability.Reliable? then p < capacity else n <= p + capacity
  }

  lemma HeldAt(qos: QoS, capacity: nat, es: seq<Envelope>, p: nat)
    requires DistinctNumbers(es) && p < |es|
    ensures es[p] in Held(qos, capacity, es) <==> Keeps(qos, capacity, |es|, p)
  {
    var held := Held(qos, capacity, es);
    var start := if qos.reliability.Reliable? then 0 else |es| - Min(capacity, |es|);
    assert forall k | 0 <= k < |held| :: held[k] == es[start + k];
    if start <= p < start + |held| { assert held[p - start] == es[p]; }
  }

  /** Where among all pushes the k-th of the backlog was tried. */
  function Place(es: seq<Envelope>, joined: nat, k: nat): (p: nat)
    requires k < |Early(es, joined)|
    ensures p < |es|
  {
    if k < |Early(es[..|es| - 1], joined)| then Place(es[..|es| - 1], joined, k) else |es| - 1
  }

  function LiveAmong(es: seq<Envelope>, joined: nat): nat {
    if es == [] then 0
    else LiveAmong(es[..|es| - 1], joined) + if es[|es| - 1].number > joined then 1 else 0
  }

  lemma {:induction false} EarlyAndLive(es: seq<Envelope>, joined: nat)
    ensures |Early(es, joined)| + LiveAmong(es, joined) == |es|
  {
    if es == [] {
    } else {
      EarlyAndLive(es[..|es| - 1], joined);
    }
  }

  /** Its place is its place in the backlog plus the number of live pushes that came before. */
  lemma {:induction false} PlaceCounts(es: seq<Envelope>, joined: nat, k: nat)
    requires k < |Early(es, joined)|
    ensures var p := Place(es, joined, k);
            p < |es| && es[p] == Early(es, joined)[k] && p == k + LiveAmong(es[..p], joined)
    decreases |es|
  {
    var init := es[..|es| - 1];
    if k < |Early(init, joined)| {
      PlaceCounts(init, joined, k);
      var p := Place(init, joined, k);
      assert es[..p] == init[..p];
    } else {
      EarlyAndLive(init, joined);
    }
  }

  lemma {:induction false} PlacesRise(es: seq<Envelope>, joined: nat, j: nat, k: nat)
    requires j <= k < |Early(es, joined)|
    ensures Place(es, joined, j) <= Place(es, joined, k) < |es|
    decreases |es|
  {
    var init := es[..|es| - 1];
    if k < |Early(init, joined)| {
      PlacesRise(init, joined, j, k);
    } else if j < |Early(init, joined)| {
      PlacesRise(init, joined, j, j);
    }
  }

  /** The state of a subscriber whose worker has not started, in a run. */
  ghost predicate Filling(s: Sub) {
    && !s.started && !s.queue.closed && DistinctNumbers(s.attempted)
    && Early(s.attempted, s.joined) + s.backlog == s.offered
    && s.queue.items == Held(s.qos, s.queue.capacity, s.attempted)
  }

  lemma RunFills(events: seq<Event>, id: SubId)
    requires IsRun(NEW_BUS, events) && id < |After(NEW_BUS, events).tab.subs|
    ensures var s := After(NEW_BUS, events).tab.subs[id];
            !s.started && !s.queue.closed ==> Filling(s)
  {
    HeldUntilStart(events, id);
    RunKeepsInv(NEW_BUS, events);
    SubOfInv(After(NEW_BUS, events), id);
  }

  /** The k-th backlog entry, once pushed, is held exactly when its place is one the queue keeps. */
  lemma EntryHeld(s: Sub, k: nat)
    requires Filling(s) && k < |Early(s.attempted, s.joined)|
    ensures k < |s.offered|
    ensures s.offered[k] in s.queue.items
            <==> Keeps(s.qos, s.queue.capacity, |s.attempted|, Place(s.attempted, s.joined, k))
  {
    PlaceCounts(s.attempted, s.joined, k);
    HeldAt(s.qos, s.queue.capacity, s.attempted, Place(s.attempted, s.joined, k));
    assert s.offered[k] == Early(s.attempted, s.joined)[k];
  }

  lemma WholeBacklogHeld(s: Sub)
    requires Filling(s) && s.backlog == [] && s.offered != []
    ensures |Early(s.attempted, s.joined)| == |s.offered|
    ensures (forall k | 0 <= k < |s.offered| :: s.offered[k] in s.queue.items)
            <==> Keeps(s.qos, s.queue.capacity, |s.attempted|,
                       Place(s.attempted, s.joined,
                             if s.qos.reliability.Reliable? then |s.offered| - 1 else 0))
  {
    assert Early(s.attempted, s.joined) == s.offered;
    var worst := if s.qos.reliability.Reliable? then |s.offered| - 1 else 0;
    EntryHeld(s, worst);
    forall k | 0 <= k < |s.offered| && s.offered[worst] in s.queue.items
      ensures s.offered[k] in s.queue.items
    {
      EntryHeld(s, k);
      if s.qos.reliability.Reliable? { PlacesRise(s.attempted, s.joined, k, worst); }
      else { PlacesRise(s.attempted, s.joined, worst, k); }
    }
  }

  /** What a late joiner has of its backlog when all of it has been pushed and its worker is about
      to start, in every run.  The newest entry of a reliable subscriber is held exactly when the
      backlog and the live pushes that came before that entry fit together, and then so is the whole
      backlog; a best-effort one holds the newest entry exactly when fewer live pushes than its
      capacity came after it, and the whole backlog exactly when that is so of all pushes after the
      oldest entry. */
  lemma BacklogRetention(events: seq<Event>, id: SubId)
    requires IsRun(NEW_BUS, events) && id < |After(NEW_BUS, events).tab.subs|
    requires var s := After(NEW_BUS, events).tab.subs[id];
             !s.started && !s.queue.closed && s.backlog == [] && s.offered != []
    ensures var s := After(NEW_BUS, events).tab.subs[id];
            && |Early(s.attempted, s.joined)| == |s.offered|
            && var oldest := Place(s.attempted, s.joined, 0);
            var newest := Place(s.attempted, s.joined, |s.offered| - 1);
            var ahead := LiveAmong(s.attempted[..newest], s.joined);
            && newest == |s.offered| - 1 + ahead
            && (s.offered[|s.offered| - 1] in s.queue.items
                <==> if s.qos.reliability.Reliable? then |s.offered| + ahead <= s.queue.capacity
                     else |s.attempted| - newest <= s.queue.capacity)
            && ((forall k | 0 <= k < |s.offered| :: s.offered[k] in s.queue.items)
                <==> if s.qos.reliability.Reliable? then |s.offered| + ahead <= s.queue.capacity
                     else |s.attempted| - oldest <= s.queue.capacity)
  {
    RunFills(events, id);
    var s := After(NEW_BUS, events).tab.subs[id];
    WholeBacklogHeld(s);
    EntryHeld(s, |s.offered| - 1);
    PlaceCounts(s.attempted, s.joined, |s.offered| - 1);
  }

  /** Everything that was tried is held exactly when it fits. */
  lemma AllHeld(events: seq<Event>, id: SubId)
    requires IsRun(NEW_BUS, events) && id < |After(NEW_BUS, events).tab.subs|
    requires var s := After(NEW_BUS, events).tab.subs[id]; !s.started && !s.queue.closed
    ensures var s := After(NEW_BUS, events).tab.subs[id];
            s.queue.items == s.attempted <==> |s.attempted| <= s.queue.capacity
  {
    HeldUntilStart(events, id);
  }

  /** Depth is not enough: a run in which a live push by another thread takes the only place, and
      the one backlog entry of a reliable late joiner of depth one is refused. */
  lemma BacklogCanBeDisplaced() returns (events: seq<Event>)
    ensures IsRun(NEW_BUS, events) && |After(NEW_BUS, events).tab.subs| == 1
    ensures var s := After(NEW_BUS, events).tab.subs[0];
            && s.qos.reliability.Reliable? && |s.offered| == 1 == s.queue.capacity
            && s.backlog == [] && !s.started && !s.queue.closed && !s.overtaken
            && s.offered[0] !in s.queue.items && s.hand.None? && s.delivered == []
  {
    var before, b := LateJoinerSetUp(2, 1);
    var b1 := Next(b, Deliver(2, false));
    var second := Envelope(2, 2, LATCHING, 8, 0);
    assert b1.tab.subs[0].queue.items == [second];
    var b2 := Next(b1, PushBacklog(0));
    assert b2.tab.subs[0].queue.items == [second];
    BusStep(b1, PushBacklog(0), []);
    BusStep(b, Deliver(2, false), [PushBacklog(0)] + []);
    RunConcat(NEW_BUS, before, [Deliver(2, false)] + ([PushBacklog(0)] + []));
    events := before + ([Deliver(2, false)] + ([PushBacklog(0)] + []));
  }

  // Without live pushes in between, the law is that of a plain queue.

  /** The whole backlog, pushed into a queue. */
  function PushAll(q: BQ.Queue<Envelope>, es: seq<Envelope>): BQ.Queue<Envelope> {
    if es == [] then q
    else BQ.EnterPush(PushAll(q, es[..|es| - 1]), es[|es| - 1], true).0
  }

  /** A reliable subscriber keeps the oldest part of a backlog that does not fit. */
  lemma {:induction false} BlockKeepsOldest(q: BQ.Queue<Envelope>, es: seq<Envelope>)
    requires q.items == [] && !q.closed && q.policy.Block?
    ensures PushAll(q, es) == q.(items := es[..Min(q.capacity, |es|)],
                                 highWater := PushAll(q, es).highWater)
    decreases |es|
  {
    if es == [] {
    } else {
      var init, e := es[..|es| - 1], es[|es| - 1];
      BlockKeepsOldest(q, init);
      assert es == init + [e];
    }
  }

  lemma DropOldestOnce(q: BQ.Queue<Envelope>, init: seq<Envelope>, e: Envelope)
    requires !q.closed && q.capacity >= 1 && q.policy.DropOldest? && q.items == Last(init, q.capacity)
    ensures BQ.EnterPush(q, e, true).0.items == Last(init + [e], q.capacity)
  {
    if |init| < q.capacity {
      assert q.items == init;
    } else {
      assert q.items[1..] + [e] == Last(init + [e], q.capacity);
    }
  }

  /** A best-effort subscriber keeps the newest part. */
  lemma {:induction false} DropOldestKeepsNewest(q: BQ.Queue<Envelope>, es: seq<Envelope>)
    requires q.items == [] && !q.closed && q.capacity >= 1 && q.policy.DropOldest?
    ensures PushAll(q, es) == q.(items := Last(es, q.capacity), dropped := PushAll(q, es).dropped,
                                 highWater := PushAll(q, es).highWater)
    decreases |es|
  {
    if es == [] {
    } else {
      var init, e := es[..|es| - 1], es[|es| - 1];
      DropOldestKeepsNewest(q, init);
      DropOldestOnce(PushAll(q, init), init, e);
      assert es == init + [e];
    }
  }

  /** The newest backlog entry gets in exactly when the backlog fits or the subscriber asked for
      best effort. */
  lemma NewestBacklogIsKept(qos: QoS, q: BQ.Queue<Envelope>, es: seq<Envelope>)
    requires q == NewSub("", 0, qos, Topic(0, [], [], 0, [], 0)).queue && es != [] && Rising(es)
    ensures es[|es| - 1] in PushAll(q, es).items
            <==> qos.reliability.BestEffort? || |es| <= q.capacity
  {
    var kept := PushAll(q, es).items;
    if qos.reliability.BestEffort? { DropOldestKeepsNewest(q, es); } else { BlockKeepsOldest(q, es); }
    if qos.reliability.BestEffort? {
      assert kept[|kept| - 1] == es[|es| - 1];
    } else if |es| <= q.capacity {
      assert kept == es;
    }
  }

  // ---------------------------------------------------------------- the bus, in place

  lemma {:induction false} WithoutAt(ids: seq<SubId>, id: SubId, k: nat)
    requires k < |ids| && ids[k] == id && forall j | 0 <= j < k :: ids[j] != id
    ensures Without(ids, id) == ids[..k] + ids[k + 1..]
    decreases k
  {
    if k == 0 {
    } else {
      WithoutAt(ids[1..], id, k - 1);
      assert ids[..k] == [ids[0]] + ids[1..][..k - 1];
    }
  }

  predicate InRange(ids: seq<SubId>, n: nat) { forall k | 0 <= k < |ids| :: ids[k] < n }

  class TopicBus {
    var topics: map<string, Topic>
    /** Handles are indexes here; the source shares the subscriptions by pointer. */
    var subs: seq<Sub>
    var qosMismatches: nat
    var typeMismatches: nat

    constructor ()
      ensures Tables() == NEW_BUS.tab
    {
      topics, subs, qosMismatches, typeMismatches := map[], [], 0, 0;
    }

    ghost function Tables(): Table
      reads this
    {
      Table(topics, subs, qosMismatches, typeMismatches)
    }

    method EnsureTopic(name: string, ty: nat)
      modifies this`topics
      ensures topics == Ensured(old(topics), name, ty)
    {
      if name !in topics { topics := topics[name := Topic(ty, [], [], 0, [], 0)]; }
    }

    /** The stretch of `subscribe` under the lock. */
    method SubscribeLocked(name: string, ty: nat, qos: QoS) returns (handle: Option<SubId>)
      modifies this`topics, this`subs
      ensures Tables() == Subscribed(old(Tables()), name, ty, qos)
      ensures handle == if Ensured(old(topics), name, ty)[name].ty == ty then Some(|old(subs)|)
                        else None
    {
      EnsureTopic(name, ty);
      var entry := topics[name];
      if entry.ty != ty { return None; }
      var sub := NewSub(name, ty, qos, entry);
      handle := Some(|subs|);
      topics := topics[name := entry.(subs := entry.subs + [|subs|])];
      subs := subs + [sub];
    }

    /** The stretch of `publish_erased` under the lock. */
    method PublishLocked(t: Tid, name: string, ty: nat, offer: QoS, payload: nat, stamp: nat)
      returns (call: Option<Call>)
      requires name in topics ==> InRange(topics[name].subs, |subs|)
      modifies this
      ensures (Tables(), call) == Published(old(Tables()), t, name, ty, offer, payload, stamp)
    {
      if name !in topics { return None; }
      var entry := topics[name];
      if entry.ty != ty {
        typeMismatches := typeMismatches + 1;
        return None;
      }
      var number := entry.published + 1;
      var envelope := Envelope(number, t, offer, payload, stamp);
      var latched := entry.latched;
      if offer.durability.TransientLocal? { latched := Latch(latched, envelope, offer.depth); }
      var targets := ClassifySubs(entry.subs, offer);
      topics := topics[name := entry.(published := number, log := entry.log + [envelope],
                                      latched := latched)];
      call := Some(Call(name, envelope, targets));
    }

    static method Latch(kept: seq<Envelope>, e: Envelope, depth: nat) returns (latched: seq<Envelope>)
      ensures latched == Last(kept + [e], depth)
    {
      latched := kept + [e];
      while |latched| > depth
        invariant latched == Last(kept + [e], if |latched| > depth then |latched| else depth)
      {
        latched := latched[1..];
      }
    }

    method ClassifySubs(ids: seq<SubId>, offer: QoS) returns (targets: seq<SubId>)
      requires InRange(ids, |subs|)
      modifies this`subs, this`qosMismatches
      ensures var c := Classify(old(subs), ids, offer);
              subs == c.subs && targets == c.targets
              && qosMismatches == old(qosMismatches) + c.rejected
    {
      targets := [];
      var i := 0;
      while i < |ids|
        invariant i <= |ids| && |subs| == |old(subs)|
        invariant var c := Classify(old(subs), ids[..i], offer);
                  subs == c.subs && targets == c.targets
                  && qosMismatches == old(qosMismatches) + c.rejected
      {
        assert ids[..i + 1][..i] == ids[..i];
        var id := ids[i];
        if !CheckCompatible(offer, subs[id].qos).NoMismatch? {
          subs := subs[id := Reject(subs[id])];
          qosMismatches := qosMismatches + 1;
        } else {
          targets := targets + [id];
        }
        i := i + 1;
      }
      assert ids[..i] == ids;
    }

    /** The stretch of `unsubscribe` under the lock: the search stops at the first match. */
    method UnlinkLocked(id: SubId)
      requires id < |subs|
      modifies this`topics, this`subs
      ensures Tables() == Unlinked(old(Tables()), id)
    {
      var name := subs[id].topic;
      if name !in topics { return; }
      var ids := topics[name].subs;
      var i := 0;
      while i < |ids| && ids[i] != id
        invariant i <= |ids| && forall j | 0 <= j < i :: ids[j] != id
      {
        i := i + 1;
      }
      if i < |ids| {
        WithoutAt(ids, id, i);
        subs := subs[id := Gone(topics, subs[id])];
        topics := topics[name := topics[name].(subs := ids[..i] + ids[i + 1..])];
      }
    }

    /** The stretch of `shutdown` under the lock; the queues of `all` are closed afterwards. */
    method ShutdownLocked() returns (all: seq<SubId>)
      modifies this`topics, this`subs
      ensures Tables() == ShutDown(old(Tables()))
      ensures forall id :: id in all <==>
                           exists name :: name in old(topics) && id in old(topics)[name].subs
    {
      all := [];
      var before, members, todo := topics, subs, topics.Keys;
      while todo != {}
        invariant todo <= topics.Keys == old(topics).Keys
        invariant forall name | name in topics ::
                    topics[name] == if name in todo then old(topics)[name]
                                    else Emptied(old(topics)[name])
        invariant forall id :: id in all <==>
                    exists name :: name in old(topics) && name !in todo && id in old(topics)[name].subs
      {
        var name :| name in todo;
        all := all + topics[name].subs;
        topics := topics[name := Emptied(topics[name])];
        todo := todo - {name};
      }
      subs := seq(|members|, i requires 0 <= i < |members| => Gone(before, members[i]));
      assert topics == AllEmptied(before);
    }

    /** One iteration of the worker's loop up to the callback, and what follows it. */
    method TakeEnvelope(id: SubId) returns (e: Option<Envelope>)
      requires id < |subs| && subs[id].hand.None?
      modifies this`subs
      ensures |subs| == |old(subs)| && forall k | 0 <= k < |subs| && k != id :: subs[k] == old(subs)[k]
      ensures if old(subs)[id].queue.items == [] then e.None? && subs == old(subs)
              else subs[id] == Taken(old(subs)[id]) && e == subs[id].hand
    {
      var (queue, result) := BQ.EnterPop(subs[id].queue, true);
      if !result.Popped? { return None; }
      e := Some(result.value);
      subs := subs[id := subs[id].(queue := queue, hand := e)];
    }

    method FinishEnvelope(id: SubId, now: nat)
      requires id < |subs| && subs[id].hand.Some? && now >= subs[id].last
      modifies this`subs
      ensures subs == old(subs)[id := Finished(old(subs)[id], now)]
    {
      var s := subs[id];
      var e := s.hand.value;
      if s.qos.lifespan > 0 && now > e.stamp && now - e.stamp > s.qos.lifespan {
        subs := subs[id := s.(hand := None, expired := s.expired + 1, lost := s.lost + [Loss(e, now)])];
        return;
      }
      if s.qos.deadline > 0 {
        if s.last != 0 && now - s.last > s.qos.deadline { s := s.(missed := s.missed + 1); }
      }
      s := s.(last := now);
      subs := subs[id := s.(hand := None, delivered := s.delivered + [e], times := s.times + [now])];
    }
  }
}
