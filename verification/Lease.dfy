/** Leases with fencing epochs: who may act on a resource, for how long, and why an operation of a
    former holder cannot take effect after one of its successor. */
module Lease {
  import opened Common

  // ---------------------------------------------------------------- the lease manager

  /** Holder 0 marks a free lease. */
  datatype Entry = Entry(holder: nat, epoch: nat, expires: int)

  datatype Manager = Manager(ttl: int, epoch: nat, leases: map<string, Entry>)

  /** Someone else holds the lease and it has not expired. */
  predicate Busy(m: Manager, r: string, who: nat, now: nat) {
    r in m.leases && m.leases[r].holder != 0 && m.leases[r].expires > now
    && m.leases[r].holder != who
  }

  function AcquireLease(m: Manager, r: string, who: nat, now: nat): (Manager, Option<Entry>) {
    if Busy(m, r, who, now) then (m, None)
    else
      var l := Entry(who, m.epoch + 1, now + m.ttl);
      (m.(epoch := m.epoch + 1, leases := m.leases[r := l]), Some(l))
  }

  predicate Matches(m: Manager, r: string, who: nat, epoch: nat) {
    r in m.leases && m.leases[r].holder == who && m.leases[r].epoch == epoch
  }

  /** The clock is read twice: `now` for the test, `later` for the new expiry. */
  function RenewLease(m: Manager, r: string, who: nat, epoch: nat, now: nat, later: nat): (Manager, bool)
  {
    if Matches(m, r, who, epoch) && m.leases[r].expires > now
    then (m.(leases := m.leases[r := m.leases[r].(expires := later + m.ttl)]), true)
    else (m, false)
  }

  function ReleaseLease(m: Manager, r: string, who: nat, epoch: nat): Manager {
    if Matches(m, r, who, epoch) then m.(leases := m.leases[r := m.leases[r].(holder := 0)]) else m
  }

  // ---------------------------------------------------------------- the fenced resource

  datatype Letter = Letter(resource: string, epoch: nat, op: nat)

  datatype Fence = Fence(current: nat, rejected: nat, applied: seq<Letter>)

  const NEW_FENCE := Fence(0, 0, [])

  function ExecuteLetter(f: Fence, x: Letter): (Fence, bool) {
    if x.epoch < f.current then (f.(rejected := f.rejected + 1), false)
    else (f.(current := x.epoch, applied := f.applied + [x]), true)
  }

  function ExecuteAll(f: Fence, xs: seq<Letter>): Fence {
    if xs == [] then f
    else ExecuteLetter(ExecuteAll(f, xs[..|xs| - 1]), xs[|xs| - 1]).0
  }

  /** No earlier arrival carried a larger epoch. */
  predicate Newest(xs: seq<Letter>, k: nat) {
    k < |xs| && forall j | 0 <= j < k :: xs[j].epoch <= xs[k].epoch
  }

  function Kept(xs: seq<Letter>, n: nat): seq<Letter>
    requires n <= |xs|
  {
    if n == 0 then [] else Kept(xs, n - 1) + if Newest(xs, n - 1) then [xs[n - 1]] else []
  }

  predicate Ascending(xs: seq<Letter>) {
    forall j, k | 0 <= j < k < |xs| :: xs[j].epoch <= xs[k].epoch
  }

  lemma {:induction false} KeptPrefix(xs: seq<Letter>, ys: seq<Letter>, n: nat)
    requires n <= |xs| <= |ys| && forall j | 0 <= j < n :: xs[j] == ys[j]
    ensures Kept(xs, n) == Kept(ys, n)
    decreases n
  {
    if n == 0 {
    } else {
      KeptPrefix(xs, ys, n - 1);
      assert Newest(xs, n - 1) == Newest(ys, n - 1);
    }
  }

  /** The fence remembers the largest epoch that arrived. */
  ghost predicate KnowsLargest(f: Fence, xs: seq<Letter>) {
    && (forall k | 0 <= k < |xs| :: xs[k].epoch <= f.current)
    && (if xs == [] then f.current == 0 else exists k :: 0 <= k < |xs| && xs[k].epoch == f.current)
  }

  lemma {:induction false} FenceKnowsLargest(xs: seq<Letter>)
    ensures KnowsLargest(ExecuteAll(NEW_FENCE, xs), xs)
    decreases |xs|
  {
    if xs == [] {
    } else {
      FenceKnowsLargest(xs[..|xs| - 1]);
    }
  }

  /** Whatever the order of arrival, exactly those operations are applied that no earlier arrival
      outranks; every other arrival is counted as stale. */
  lemma {:induction false} FenceFiltersStale(xs: seq<Letter>)
    ensures ExecuteAll(NEW_FENCE, xs).applied == Kept(xs, |xs|)
    ensures |ExecuteAll(NEW_FENCE, xs).applied| + ExecuteAll(NEW_FENCE, xs).rejected == |xs|
    decreases |xs|
  {
    if xs == [] {
    } else {
      var before := xs[..|xs| - 1];
      FenceFiltersStale(before);
      FenceKnowsLargest(before);
      KeptPrefix(before, xs, |before|);
    }
  }

  /** The epochs of what is applied never go down. */
  lemma {:induction false} KeptAscends(xs: seq<Letter>, n: nat)
    requires n <= |xs|
    ensures Ascending(Kept(xs, n))
    ensures forall k | 0 <= k < |Kept(xs, n)| :: Kept(xs, n)[k] in xs[..n]
    decreases n
  {
    if n == 0 {
    } else {
      KeptAscends(xs, n - 1);
      var kept := Kept(xs, n - 1);
      forall k | 0 <= k < |kept| ensures Newest(xs, n - 1) ==> kept[k].epoch <= xs[n - 1].epoch {
        assert kept[k] in xs[..n - 1];
      }
      forall k | 0 <= k < |kept| ensures kept[k] in xs[..n] {
        assert kept[k] in xs[..n - 1];
        assert xs[..n] == xs[..n - 1] + [xs[n - 1]];
      }
    }
  }

  // ---------------------------------------------------------------- manager, holders and network

  /** The log of all grants.  `expires` follows the renewals. */
  datatype Grant = Grant(resource: string, holder: nat, expires: int, released: bool)

  /** The grant with epoch e is `log[e - 1]`.  `mail` holds every letter ever sent: delivering
      takes none away, so letters may be lost, delayed, repeated and overtaken. */
  datatype World = World(
    m: Manager, log: seq<Grant>, clock: nat, mail: set<Letter>, fences: map<string, Fence>)

  datatype Event =
    | Tick(ticks: nat)
    | AcquireCall(r: string, who: nat)
    | RenewCall(r: string, who: nat, epoch: nat, pause: nat)
    | ReleaseCall(r: string, who: nat, epoch: nat)
    | Send(x: Letter)
    | Deliver(x: Letter)

  /** A letter carries an epoch that was granted for its resource, however long ago. */
  predicate Genuine(log: seq<Grant>, x: Letter) {
    1 <= x.epoch <= |log| && log[x.epoch - 1].resource == x.resource
  }

  predicate Enabled(w: World, e: Event) {
    match e
    case Send(x) => Genuine(w.log, x)
    case Deliver(x) => x in w.mail
    case _ => true
  }

  function FenceOf(w: World, r: string): Fence {
    if r in w.fences then w.fences[r] else NEW_FENCE
  }

  function AcquireStep(w: World, r: string, who: nat): World {
    var (m, lease) := AcquireLease(w.m, r, who, w.clock);
    if lease.Some?
    then w.(m := m, log := w.log + [Grant(r, who, lease.value.expires, false)])
    else w
  }

  function RenewStep(w: World, r: string, who: nat, epoch: nat, pause: nat): World {
    var (m, ok) := RenewLease(w.m, r, who, epoch, w.clock, w.clock + pause);
    w.(m := m, clock := w.clock + pause,
       log := if ok && 1 <= epoch <= |w.log|
              then w.log[epoch - 1 := w.log[epoch - 1].(expires := w.clock + pause + w.m.ttl)]
              else w.log)
  }

  function ReleaseStep(w: World, r: string, who: nat, epoch: nat): World {
    w.(m := ReleaseLease(w.m, r, who, epoch),
       log := if Matches(w.m, r, who, epoch) && 1 <= epoch <= |w.log|
              then w.log[epoch - 1 := w.log[epoch - 1].(released := true)]
              else w.log)
  }

  function Next(w: World, e: Event): World
    requires Enabled(w, e)
  {
    match e
    case Tick(ticks) => w.(clock := w.clock + ticks)
    case AcquireCall(r, who) => AcquireStep(w, r, who)
    case RenewCall(r, who, epoch, pause) => RenewStep(w, r, who, epoch, pause)
    case ReleaseCall(r, who, epoch) => ReleaseStep(w, r, who, epoch)
    case Send(x) => w.(mail := w.mail + {x})
    case Deliver(x) =>
      w.(fences := w.fences[x.resource := ExecuteLetter(FenceOf(w, x.resource), x).0])
  }

  // ---------------------------------------------------------------- at most one holder

  /** A later grant of the same resource to the same holder took this one's place. */
  ghost predicate Replaced(log: seq<Grant>, i: nat) {
    i < |log| && exists j :: i < j < |log| && log[j].resource == log[i].resource
                             && log[j].holder == log[i].holder
  }

  /** Its holder may still think the resource is its own. */
  ghost predicate Live(w: World, i: nat) {
    i < |w.log| && w.log[i].expires > w.clock && !w.log[i].released && !Replaced(w.log, i)
  }

  ghost predicate Ended(log: seq<Grant>, clock: nat, i: nat) {
    i < |log| && (log[i].holder == 0 || log[i].released || log[i].expires <= clock
                  || Replaced(log, i))
  }

  /** The table entry of a resource describes its last grant. */
  ghost predicate EntryOk(log: seq<Grant>, r: string, l: Entry) {
    && 1 <= l.epoch <= |log|
    && log[l.epoch - 1].resource == r && log[l.epoch - 1].expires == l.expires
    && l.holder == (if log[l.epoch - 1].released then 0 else log[l.epoch - 1].holder)
    && forall j | l.epoch <= j < |log| :: log[j].resource != r
  }

  ghost predicate TableOk(log: seq<Grant>, leases: map<string, Entry>) {
    && (forall r | r in leases :: EntryOk(log, r, leases[r]))
    && (forall i | 0 <= i < |log| :: log[i].resource in leases)
  }

  ghost predicate OthersEnded(log: seq<Grant>, leases: map<string, Entry>, clock: nat)
    requires TableOk(log, leases)
  {
    forall i: nat | i < |log| && i + 1 != leases[log[i].resource].epoch :: Ended(log, clock, i)
  }

  ghost predicate LeasesOk(w: World) {
    w.m.epoch == |w.log| && TableOk(w.log, w.m.leases)
    && OthersEnded(w.log, w.m.leases, w.clock)
  }

  /** A grant that is over stays over: the log only grows, a renewal touches the last grant of its
      resource only, and a release ends things. */
  lemma EndedStays(log: seq<Grant>, next: seq<Grant>, clock: nat, later: nat, i: nat)
    requires Ended(log, clock, i) && clock <= later && |log| <= |next|
    requires forall j | 0 <= j < |log| ::
               next[j].resource == log[j].resource && next[j].holder == log[j].holder
    requires next[i].expires <= log[i].expires && (log[i].released ==> next[i].released)
    ensures Ended(next, later, i)
  {
    if Replaced(log, i) {
      var j :| i < j < |log| && log[j].resource == log[i].resource
               && log[j].holder == log[i].holder;
      assert next[j].resource == next[i].resource && next[j].holder == next[i].holder;
    }
  }

  lemma AcquireKeeps(w: World, r: string, who: nat)
    requires LeasesOk(w)
    ensures LeasesOk(AcquireStep(w, r, who))
  {
    if !Busy(w.m, r, who, w.clock) {
      var n := AcquireStep(w, r, who);
      assert EntryOk(n.log, r, n.m.leases[r]);
      assert TableOk(n.log, n.m.leases) by { NewEntryOk(w, r, who); }
      forall i: nat | i < |n.log| && i + 1 != n.m.leases[n.log[i].resource].epoch
        ensures Ended(n.log, n.clock, i)
      {
        if i + 1 == w.m.leases[w.log[i].resource].epoch {
          LastGrantEnds(w, r, who, i);
        } else {
          EndedStays(w.log, n.log, w.clock, n.clock, i);
        }
      }
    }
  }

  lemma NewEntryOk(w: World, r: string, who: nat)
    requires LeasesOk(w) && !Busy(w.m, r, who, w.clock)
    ensures TableOk(AcquireStep(w, r, who).log, AcquireStep(w, r, who).m.leases)
  {
    var n := AcquireStep(w, r, who);
    forall s | s in n.m.leases ensures EntryOk(n.log, s, n.m.leases[s]) {
      if s != r { assert EntryOk(w.log, s, w.m.leases[s]); }
    }
  }

  /** A lease is given to someone else only when the last grant is over. */
  lemma LastGrantEnds(w: World, r: string, who: nat, i: nat)
    requires LeasesOk(w) && !Busy(w.m, r, who, w.clock)
    requires i < |w.log| && w.log[i].resource == r && i + 1 == w.m.leases[r].epoch
    ensures Ended(AcquireStep(w, r, who).log, w.clock, i)
  {
    var n := AcquireStep(w, r, who);
    assert EntryOk(w.log, r, w.m.leases[r]);
    if w.log[i].holder == who {
      assert n.log[|w.log|].resource == n.log[i].resource && n.log[|w.log|].holder == n.log[i].holder;
      assert Replaced(n.log, i);
    }
  }

  /** Renewals and releases rewrite the last grant of one resource and its entry, consistently. */
  ghost predicate Rewrite(log: seq<Grant>, next: seq<Grant>, r: string, e: nat, l: Entry) {
    && 1 <= e <= |log| && |next| == |log| && next == log[e - 1 := next[e - 1]]
    && next[e - 1].resource == r == log[e - 1].resource
    && next[e - 1].holder == log[e - 1].holder
    && next[e - 1].expires == l.expires && l.epoch == e
    && l.holder == if next[e - 1].released then 0 else next[e - 1].holder
  }

  lemma RewriteKeepsEnded(log: seq<Grant>, next: seq<Grant>, clock: nat, later: nat, e: nat, i: nat)
    requires |log| == |next| && 1 <= e <= |log| && next == log[e - 1 := next[e - 1]]
    requires next[e - 1].resource == log[e - 1].resource && next[e - 1].holder == log[e - 1].holder
    requires Ended(log, clock, i) && i != e - 1 && clock <= later
    ensures Ended(next, later, i)
  {
    EndedStays(log, next, clock, later, i);
  }

  lemma RewriteKeeps(w: World, n: World, r: string, e: nat, l: Entry)
    requires LeasesOk(w) && r in w.m.leases && w.clock <= n.clock && n.m.epoch == w.m.epoch
    requires e == w.m.leases[r].epoch && Rewrite(w.log, n.log, r, e, l)
    requires n.m.leases == w.m.leases[r := l]
    ensures LeasesOk(n)
  {
    var next, table := n.log, n.m.leases;
    forall i: nat | i < |next| && i + 1 != table[next[i].resource].epoch
      ensures Ended(next, n.clock, i)
    {
      RewriteKeepsEnded(w.log, next, w.clock, n.clock, e, i);
    }
  }

  lemma RenewKeeps(w: World, r: string, who: nat, epoch: nat, pause: nat)
    requires LeasesOk(w)
    ensures LeasesOk(RenewStep(w, r, who, epoch, pause))
  {
    var n := RenewStep(w, r, who, epoch, pause);
    if RenewLease(w.m, r, who, epoch, w.clock, w.clock + pause).1 {
      assert EntryOk(w.log, r, w.m.leases[r]);
      RewriteKeeps(w, n, r, epoch, n.m.leases[r]);
    }
  }

  lemma ReleaseKeeps(w: World, r: string, who: nat, epoch: nat)
    requires LeasesOk(w)
    ensures LeasesOk(ReleaseStep(w, r, who, epoch))
  {
    var n := ReleaseStep(w, r, who, epoch);
    if Matches(w.m, r, who, epoch) {
      assert EntryOk(w.log, r, w.m.leases[r]);
      RewriteKeeps(w, n, r, epoch, n.m.leases[r]);
    }
  }

  lemma StepKeepsLeases(w: World, e: Event)
    requires LeasesOk(w) && Enabled(w, e)
    ensures LeasesOk(Next(w, e))
  {
    match e
    case Tick(ticks) =>
    case AcquireCall(r, who) => AcquireKeeps(w, r, who);
    case RenewCall(r, who, epoch, pause) => RenewKeeps(w, r, who, epoch, pause);
    case ReleaseCall(r, who, epoch) => ReleaseKeeps(w, r, who, epoch);
    case Send(_) =>
    case Deliver(_) =>
  }

  // ---------------------------------------------------------------- fencing

  /** Every letter on its way, and every epoch a fence knows, was granted for that resource. */
  ghost predicate FencesOk(w: World) {
    && (forall x | x in w.mail :: Genuine(w.log, x))
    && (forall r | r in w.fences :: FenceOk(w.log, r, w.fences[r]))
  }

  ghost predicate FenceOk(log: seq<Grant>, r: string, f: Fence) {
    && (f.current != 0 ==> f.current <= |log| && log[f.current - 1].resource == r)
    && Ascending(f.applied)
    && (forall k | 0 <= k < |f.applied| ::
          f.applied[k].epoch <= f.current && Genuine(log, f.applied[k])
          && f.applied[k].resource == r)
  }

  /** The log only grows, and a grant keeps its resource. */
  ghost predicate SameGrants(log: seq<Grant>, next: seq<Grant>) {
    |log| <= |next| && forall i | 0 <= i < |log| :: next[i].resource == log[i].resource
  }

  lemma StepKeepsGrants(w: World, e: Event)
    requires Enabled(w, e)
    ensures SameGrants(w.log, Next(w, e).log)
  {
  }

  lemma FenceOkLater(log: seq<Grant>, next: seq<Grant>, r: string, f: Fence)
    requires FenceOk(log, r, f) && SameGrants(log, next)
    ensures FenceOk(next, r, f)
  {
  }

  lemma ExecuteKeepsFence(log: seq<Grant>, f: Fence, x: Letter)
    requires FenceOk(log, x.resource, f) && Genuine(log, x)
    ensures FenceOk(log, x.resource, ExecuteLetter(f, x).0)
  {
  }

  lemma DeliveryKeepsFences(w: World, x: Letter)
    requires FencesOk(w) && x in w.mail
    ensures FencesOk(Next(w, Deliver(x)))
  {
    assert FenceOk(w.log, x.resource, FenceOf(w, x.resource));
    ExecuteKeepsFence(w.log, FenceOf(w, x.resource), x);
  }

  lemma OtherStepKeepsFences(w: World, e: Event)
    requires FencesOk(w) && Enabled(w, e) && !e.Deliver?
    ensures FencesOk(Next(w, e))
  {
    StepKeepsGrants(w, e);
    forall r | r in w.fences ensures FenceOk(Next(w, e).log, r, w.fences[r]) {
      FenceOkLater(w.log, Next(w, e).log, r, w.fences[r]);
    }
  }

  lemma StepKeepsFences(w: World, e: Event)
    requires FencesOk(w) && Enabled(w, e)
    ensures FencesOk(Next(w, e))
  {
    if e.Deliver? { DeliveryKeepsFences(w, e.x); } else { OtherStepKeepsFences(w, e); }
  }

  // ---------------------------------------------------------------- runs

  ghost predicate IsRun(w: World, events: seq<Event>)
    decreases |events|
  {
    events == [] || (Enabled(w, events[0]) && IsRun(Next(w, events[0]), events[1..]))
  }

  ghost function After(w: World, events: seq<Event>): World
    requires IsRun(w, events)
    decreases |events|
  {
    if events == [] then w else After(Next(w, events[0]), events[1..])
  }

  function NewWorld(ttl: int, clock: nat): World {
    World(Manager(ttl, 0, map[]), [], clock, {}, map[])
  }

  ghost predicate Inv(w: World) { LeasesOk(w) && FencesOk(w) }

  lemma {:induction false} RunKeepsInv(w: World, events: seq<Event>)
    requires Inv(w) && IsRun(w, events)
    ensures Inv(After(w, events))
    decreases |events|
  {
    if events == [] {
    } else {
      StepKeepsLeases(w, events[0]);
      StepKeepsFences(w, events[0]);
      RunKeepsInv(Next(w, events[0]), events[1..]);
    }
  }

  /** However acquisitions, renewals, releases and the passing of time interleave, no resource ever
      has two live grants (to holders with proper ids). */
  lemma AtMostOneHolder(ttl: int, clock: nat, events: seq<Event>, i: nat, j: nat)
    requires IsRun(NewWorld(ttl, clock), events)
    requires var w := After(NewWorld(ttl, clock), events);
             && Live(w, i) && Live(w, j) && w.log[i].resource == w.log[j].resource
             && w.log[i].holder != 0 && w.log[j].holder != 0
    ensures i == j
  {
    RunKeepsInv(NewWorld(ttl, clock), events);
  }

  /** Another caller gets the lease while its last grant is live exactly when that grant went to
      holder id 0, which the manager takes for a free lease. */
  lemma ExclusionNeedsNonzeroHolder(w: World, i: nat, who: nat)
    requires LeasesOk(w) && Live(w, i) && who != w.log[i].holder
    requires i + 1 == w.m.leases[w.log[i].resource].epoch
    ensures AcquireLease(w.m, w.log[i].resource, who, w.clock).1.Some? <==> w.log[i].holder == 0
    ensures var n := Next(w, AcquireCall(w.log[i].resource, who));
            w.m.ttl > 0 && w.log[i].holder == 0 ==> Live(n, i) && Live(n, |w.log|)
  {
    var r := w.log[i].resource;
    assert EntryOk(w.log, r, w.m.leases[r]);
  }

  lemma HolderZeroIsNotExclusive()
    ensures var w := After(NewWorld(10, 0), [AcquireCall("r", 0), AcquireCall("r", 5)]);
            Live(w, 0) && Live(w, 1) && w.log[0].resource == w.log[1].resource
  {
    var w0 := NewWorld(10, 0);
    var w1 := Next(w0, AcquireCall("r", 0));
    var w2 := Next(w1, AcquireCall("r", 5));
    assert [AcquireCall("r", 0), AcquireCall("r", 5)][1..] == [AcquireCall("r", 5)];
    assert After(w1, [AcquireCall("r", 5)]) == After(w2, []);
  }

  /** Renewal succeeds only for the last grant of the resource, and only before it expires: it
      never brings back an expired or superseded lease. */
  lemma RenewRevivesNothing(w: World, r: string, who: nat, epoch: nat, pause: nat)
    requires LeasesOk(w)
    ensures RenewLease(w.m, r, who, epoch, w.clock, w.clock + pause).1 ==>
              && 1 <= epoch <= |w.log| && w.log[epoch - 1].resource == r
              && w.log[epoch - 1].expires > w.clock
              && (forall j | epoch <= j < |w.log| :: w.log[j].resource != r)
              && (who != 0 ==> Live(w, epoch - 1) && w.log[epoch - 1].holder == who)
    ensures forall i | 0 <= i < |w.log| && !Live(w, i) && w.log[i].holder != 0 ::
              !Live(RenewStep(w, r, who, epoch, pause), i)
  {
    if r in w.m.leases { assert EntryOk(w.log, r, w.m.leases[r]); }
    var n := RenewStep(w, r, who, epoch, pause);
    forall i | 0 <= i < |w.log| && !Live(w, i) && w.log[i].holder != 0 ensures !Live(n, i) {
      if Replaced(w.log, i) {
        var j :| i < j < |w.log| && w.log[j].resource == w.log[i].resource
                 && w.log[j].holder == w.log[i].holder;
        assert n.log[j].resource == n.log[i].resource && n.log[j].holder == n.log[i].holder;
      }
    }
  }

  /** Some live grant of the resource went to someone else (with a proper id). */
  ghost predicate HeldByOther(w: World, r: string, who: nat) {
    exists i: nat :: Live(w, i) && w.log[i].resource == r && w.log[i].holder != 0
                && w.log[i].holder != who
  }

  /** A grant is given exactly when nobody else has a live one; so in particular to anyone at all
      once every grant of the resource has expired or was released. */
  lemma AcquireExactly(w: World, r: string, who: nat)
    requires LeasesOk(w)
    ensures AcquireLease(w.m, r, who, w.clock).1.Some? <==> !HeldByOther(w, r, who)
    ensures (forall i | 0 <= i < |w.log| && w.log[i].resource == r ::
               w.log[i].expires <= w.clock || w.log[i].released)
            ==> AcquireLease(w.m, r, who, w.clock).1.Some?
  {
    if r in w.m.leases { assert EntryOk(w.log, r, w.m.leases[r]); }
    if Busy(w.m, r, who, w.clock) {
      assert Live(w, w.m.leases[r].epoch - 1);
    }
    if HeldByOther(w, r, who) {
      var i: nat :| Live(w, i) && w.log[i].resource == r && w.log[i].holder != 0
               && w.log[i].holder != who;
      assert !Ended(w.log, w.clock, i);
    }
  }

  /** Each grant gets an epoch above all earlier ones, and lasts for the time to live. */
  lemma EpochsIncrease(w: World, r: string, who: nat)
    requires LeasesOk(w)
    ensures var (m, lease) := AcquireLease(w.m, r, who, w.clock);
            && (lease.Some? <==> !HeldByOther(w, r, who))
            && (lease.Some? ==>
                  && lease.value == Entry(who, |w.log| + 1, w.clock + w.m.ttl)
                  && lease.value.epoch == |AcquireStep(w, r, who).log|)
            && forall s | s in w.m.leases :: lease.Some? ==> w.m.leases[s].epoch < lease.value.epoch
  {
    AcquireExactly(w, r, who);
    forall s | s in w.m.leases ensures w.m.leases[s].epoch <= |w.log| {
      assert EntryOk(w.log, s, w.m.leases[s]);
    }
  }

  /** Renewal succeeds exactly for the holder of a live grant that names its epoch, and then the
      grant lasts for the time to live from the second reading of the clock. */
  lemma RenewExactly(w: World, r: string, who: nat, epoch: nat, pause: nat)
    requires LeasesOk(w) && who != 0
    ensures var n := RenewStep(w, r, who, epoch, pause);
            var ok := RenewLease(w.m, r, who, epoch, w.clock, w.clock + pause).1;
            && (ok <==> 1 <= epoch <= |w.log| && Live(w, epoch - 1)
                        && w.log[epoch - 1].resource == r && w.log[epoch - 1].holder == who)
            && |n.log| == |w.log| && n.clock == w.clock + pause
            && (ok ==> n.log[epoch - 1].expires == n.clock + w.m.ttl)
            && forall i | 0 <= i < |w.log| && !(ok && i + 1 == epoch) :: n.log[i] == w.log[i]
  {
    if r in w.m.leases { assert EntryOk(w.log, r, w.m.leases[r]); }
    if 1 <= epoch <= |w.log| && Live(w, epoch - 1) && w.log[epoch - 1].holder == who {
      assert !Ended(w.log, w.clock, epoch - 1);
    }
  }

  /** Release ends exactly the live grant that the caller holds and names. */
  lemma ReleaseExactly(w: World, r: string, who: nat, epoch: nat, i: nat)
    requires LeasesOk(w) && who != 0 && i < |w.log|
    ensures var n := ReleaseStep(w, r, who, epoch);
            Live(n, i) <==> Live(w, i) && !(i + 1 == epoch && w.log[i].resource == r
                                            && w.log[i].holder == who)
  {
    if r in w.m.leases { assert EntryOk(w.log, r, w.m.leases[r]); }
    var n := ReleaseStep(w, r, who, epoch);
    assert |n.log| == |w.log| && forall j | 0 <= j < |w.log| ::
        n.log[j].resource == w.log[j].resource && n.log[j].holder == w.log[j].holder;
    assert Replaced(n.log, i) <==> Replaced(w.log, i) by { SameReplaced(w.log, n.log, i); }
    if Live(w, i) && w.log[i].holder == who && w.log[i].resource == r {
      assert !Ended(w.log, w.clock, i);
    }
  }

  lemma SameReplaced(log: seq<Grant>, next: seq<Grant>, i: nat)
    requires |log| == |next|
    requires forall j | 0 <= j < |log| ::
               next[j].resource == log[j].resource && next[j].holder == log[j].holder
    ensures Replaced(next, i) <==> Replaced(log, i)
  {
    if Replaced(log, i) {
      var j :| i < j < |log| && log[j].resource == log[i].resource
               && log[j].holder == log[i].holder;
      assert next[j].resource == next[i].resource && next[j].holder == next[i].holder;
    }
    if Replaced(next, i) {
      var j :| i < j < |next| && next[j].resource == next[i].resource
               && next[j].holder == next[i].holder;
      assert log[j].resource == log[i].resource && log[j].holder == log[i].holder;
    }
  }

  /** Letters may be delayed and reordered at will: what a resource applies follows the order of
      the grants, so a former holder is never heard after its successor. */
  lemma FormerHoldersAreFencedOff(ttl: int, clock: nat, events: seq<Event>, r: string)
    requires IsRun(NewWorld(ttl, clock), events)
    ensures var w := After(NewWorld(ttl, clock), events);
            var applied := FenceOf(w, r).applied;
            && (forall k | 0 <= k < |applied| ::
                  1 <= applied[k].epoch <= |w.log| && w.log[applied[k].epoch - 1].resource == r)
            && (forall j, k | 0 <= j < k < |applied| :: applied[j].epoch <= applied[k].epoch)
  {
    RunKeepsInv(NewWorld(ttl, clock), events);
  }

  /** The holder of the last grant is always heard. */
  lemma LastHolderIsHeard(w: World, x: Letter)
    requires Inv(w) && x in w.mail && x.epoch == w.m.leases[x.resource].epoch
    ensures ExecuteLetter(FenceOf(w, x.resource), x).1
  {
    assert Genuine(w.log, x);
    var r := x.resource;
    assert EntryOk(w.log, r, w.m.leases[r]);
  }

  // ---------------------------------------------------------------- in place

  class LeaseManager {
    const ttl: int
    var globalEpoch: nat
    var leases: map<string, Entry>

    constructor (ttl: int)
      ensures Value() == Manager(ttl, 0, map[])
    {
      this.ttl := ttl;
      globalEpoch, leases := 0, map[];
    }

    ghost function Value(): Manager
      reads this
    {
      Manager(ttl, globalEpoch, leases)
    }

    method Acquire(resource: string, who: nat, now: nat) returns (lease: Option<Entry>)
      modifies this
      ensures (Value(), lease) == AcquireLease(old(Value()), resource, who, now)
    {
      var l := if resource in leases then leases[resource] else Entry(0, 0, 0);
      leases := leases[resource := l];
      if l.holder != 0 && l.expires > now && l.holder != who {
        assert leases == old(leases);
        return None;
      }
      globalEpoch := globalEpoch + 1;
      l := Entry(who, globalEpoch, now + ttl);
      leases := leases[resource := l];
      assert leases == old(leases)[resource := l];
      lease := Some(l);
    }

    method Renew(resource: string, who: nat, epoch: nat, now: nat, later: nat) returns (ok: bool)
      modifies this`leases
      ensures (Value(), ok) == RenewLease(old(Value()), resource, who, epoch, now, later)
    {
      if resource !in leases { return false; }
      var l := leases[resource];
      if l.holder != who || l.epoch != epoch { return false; }
      if l.expires <= now { return false; }
      leases := leases[resource := l.(expires := later + ttl)];
      ok := true;
    }

    method Release(resource: string, who: nat, epoch: nat)
      modifies this`leases
      ensures Value() == ReleaseLease(old(Value()), resource, who, epoch)
    {
      if resource !in leases { return; }
      if leases[resource].holder == who && leases[resource].epoch == epoch {
        leases := leases[resource := leases[resource].(holder := 0)];
      }
    }
  }

  class FencedResource {
    var currentEpoch: nat
    var rejectedStale: nat
    var applied: seq<Letter>

    constructor ()
      ensures Value() == NEW_FENCE
    {
      currentEpoch, rejectedStale, applied := 0, 0, [];
    }

    ghost function Value(): Fence
      reads this
    {
      Fence(currentEpoch, rejectedStale, applied)
    }

    method Execute(x: Letter) returns (ok: bool)
      modifies this
      ensures (Value(), ok) == ExecuteLetter(old(Value()), x)
    {
      if x.epoch < currentEpoch {
        rejectedStale := rejectedStale + 1;
        return false;
      }
      if x.epoch > currentEpoch { currentEpoch := x.epoch; }
      applied := applied + [x];
      ok := true;
    }
  }
}
