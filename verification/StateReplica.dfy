/** The replica of a remote agent's state: snapshots set a baseline, deltas extend it one version
    at a time, over a network that loses, repeats and reorders updates. */
module StateReplica {

  datatype Kind = Snapshot | Delta

  type Payload = seq<nat>

  datatype Update = Update(incarnation: nat, version: nat, kind: Kind, payload: Payload)

  datatype Verdict = Applied | Duplicate | Stale | GapDetected

  /** The two callbacks: how a payload becomes a state, and how it changes one. */
  datatype Callbacks<!S> = Callbacks(restore: Payload -> S, patch: (S, Payload) -> S)

  datatype Replica<S> = Replica(
    incarnation: nat, version: nat, hasBaseline: bool, needSnapshot: bool, state: S)

  function NewReplica<S>(s: S): Replica<S> { Replica(0, 0, false, false, s) }

  // ---------------------------------------------------------------- one update

  /** A newer incarnation of the owner starts everything over. */
  function Renewed<S>(r: Replica<S>, incarnation: nat): Replica<S> {
    if incarnation > r.incarnation
    then r.(incarnation := incarnation, version := 0, hasBaseline := false) else r
  }

  function ApplySnapshot<S>(c: Callbacks<S>, r: Replica<S>, u: Update): (Replica<S>, Verdict) {
    if r.hasBaseline && u.version < r.version then (r, Stale)
    else (Replica(r.incarnation, u.version, true, false, c.restore(u.payload)), Applied)
  }

  function ApplyDelta<S>(c: Callbacks<S>, r: Replica<S>, u: Update): (Replica<S>, Verdict) {
    if !r.hasBaseline then (r.(needSnapshot := true), GapDetected)
    else if u.version <= r.version then (r, Duplicate)
    else if u.version != r.version + 1 then (r.(needSnapshot := true), GapDetected)
    else (r.(version := u.version, state := c.patch(r.state, u.payload)), Applied)
  }

  function Step<S>(c: Callbacks<S>, r: Replica<S>, u: Update): (Replica<S>, Verdict) {
    if u.incarnation < r.incarnation then (r, Stale)
    else match u.kind
      case Snapshot => ApplySnapshot(c, Renewed(r, u.incarnation), u)
      case Delta => ApplyDelta(c, Renewed(r, u.incarnation), u)
  }

  function StepAll<S>(c: Callbacks<S>, r: Replica<S>, us: seq<Update>): Replica<S>
    decreases |us|
  {
    if us == [] then r else StepAll(c, Step(c, r, us[0]).0, us[1..])
  }

  /** (incarnation, version), in dictionary order. */
  predicate NoEarlier(i: nat, v: nat, j: nat, w: nat) { i < j || (i == j && v <= w) }

  predicate Backed<S>(r: Replica<S>) { !r.hasBaseline ==> r.version == 0 }

  /** Whatever arrives in whatever order, the pair never goes backwards. */
  lemma {:induction false} NeverGoesBack<S>(c: Callbacks<S>, r: Replica<S>, us: seq<Update>)
    requires Backed(r)
    ensures var n := StepAll(c, r, us);
            Backed(n) && NoEarlier(r.incarnation, r.version, n.incarnation, n.version)
    decreases |us|
  {
    if us == [] {
    } else {
      NeverGoesBack(c, Step(c, r, us[0]).0, us[1..]);
    }
  }

  /** What each verdict means, whatever the update: stale and repeated ones change nothing; a gap
      asks for a snapshot and, from a newer incarnation, drops the baseline; an applied update
      brings the replica to its version, and a snapshot settles the request for one. */
  lemma VerdictsTell<S>(c: Callbacks<S>, r: Replica<S>, u: Update)
    ensures var (n, verdict) := Step(c, r, u);
            && (verdict.Stale? || verdict.Duplicate? ==> n == r)
            && (verdict.GapDetected? ==>
                  n.needSnapshot && n.incarnation == u.incarnation && n.state == r.state
                  && n.hasBaseline == (r.hasBaseline && u.incarnation == r.incarnation))
            && (verdict.Applied? ==>
                  && (n.incarnation, n.version) == (u.incarnation, u.version) && n.hasBaseline
                  && n.needSnapshot == (r.needSnapshot && u.kind.Delta?)
                  && n.state == if u.kind.Snapshot? then c.restore(u.payload)
                                else c.patch(r.state, u.payload))
    ensures var verdict := Step(c, r, u).1;
            var baseline := r.hasBaseline && u.incarnation == r.incarnation;
            && (verdict.GapDetected? <==>
                  u.kind.Delta? && u.incarnation >= r.incarnation
                  && (!baseline || u.version > r.version + 1))
            && (verdict.Stale? <==>
                  u.incarnation < r.incarnation
                  || (u.kind.Snapshot? && baseline && u.version < r.version))
            && (verdict.Duplicate? <==> u.kind.Delta? && baseline && u.version <= r.version)
  {
  }

  function LargestIncarnation(us: seq<Update>, least: nat): nat {
    if us == [] then least
    else LargestIncarnation(us[1..], if us[0].incarnation > least then us[0].incarnation else least)
  }

  lemma {:induction false} LargestIsReached(us: seq<Update>, least: nat)
    ensures var m := LargestIncarnation(us, least);
            && least <= m && (forall k | 0 <= k < |us| :: us[k].incarnation <= m)
            && (m == least || exists k :: 0 <= k < |us| && us[k].incarnation == m)
    decreases |us|
  {
    if us == [] {
    } else {
      var rest := us[1..];
      var next := if us[0].incarnation > least then us[0].incarnation else least;
      LargestIsReached(rest, next);
      var m := LargestIncarnation(us, least);
      forall k | 0 <= k < |us| ensures us[k].incarnation <= m {
        if k > 0 { assert rest[k - 1] == us[k]; }
      }
      if m != next {
        var k :| 0 <= k < |rest| && rest[k].incarnation == m;
        assert us[k + 1].incarnation == m;
      }
    }
  }

  predicate HasSnapshot(us: seq<Update>, incarnation: nat) {
    exists k :: 0 <= k < |us| && us[k].kind.Snapshot? && us[k].incarnation == incarnation
  }

  lemma HasSnapshotCons(us: seq<Update>, incarnation: nat)
    requires us != []
    ensures HasSnapshot(us, incarnation)
            <==> (us[0].kind.Snapshot? && us[0].incarnation == incarnation)
                 || HasSnapshot(us[1..], incarnation)
  {
    if HasSnapshot(us[1..], incarnation) {
      var k :| 0 <= k < |us[1..]| && us[1..][k].kind.Snapshot?
               && us[1..][k].incarnation == incarnation;
      assert us[k + 1] == us[1..][k];
    }
    assert forall k | 1 <= k < |us| :: us[k] == us[1..][k - 1];
  }

  /** In any order of arrival the replica follows the largest incarnation it has heard of, and it
      has a baseline exactly when a snapshot of that incarnation has come. */
  lemma {:induction false} BaselineExactly<S>(c: Callbacks<S>, r: Replica<S>, us: seq<Update>)
    ensures var n := StepAll(c, r, us);
            && n.incarnation == LargestIncarnation(us, r.incarnation)
            && (n.hasBaseline <==> (r.hasBaseline && n.incarnation == r.incarnation)
                                   || HasSnapshot(us, n.incarnation))
    decreases |us|
  {
    if us == [] {
    } else {
      var next := Step(c, r, us[0]).0;
      BaselineExactly(c, next, us[1..]);
      var last := StepAll(c, r, us).incarnation;
      HasSnapshotCons(us, last);
      LargestIsReached(us[1..], next.incarnation);
    }
  }

  // ---------------------------------------------------------------- owner and network

  /** `past` is the owner's state at every (incarnation, version) it has been through; `sent` holds
      every update it ever sent, and delivering takes none away. */
  datatype World<S> = World(
    incarnation: nat, version: nat, state: S, past: map<(nat, nat), S>,
    sent: set<Update>, replica: Replica<S>)

  datatype Event<S> =
    | Change(payload: Payload)
    | Announce(payload: Payload)
    | Restart(incarnation: nat, initial: S)
    | Deliver(u: Update)

  /** `Announce` sends a snapshot: a payload from which the present state can be restored. */
  predicate Enabled<S(==)>(c: Callbacks<S>, w: World<S>, e: Event<S>) {
    match e
    case Change(_) => true
    case Announce(p) => c.restore(p) == w.state
    case Restart(i, _) => i > w.incarnation
    case Deliver(u) => u in w.sent
  }

  function Next<S>(c: Callbacks<S>, w: World<S>, e: Event<S>): World<S> {
    match e
    case Change(p) =>
      var s := c.patch(w.state, p);
      w.(version := w.version + 1, state := s,
         past := w.past[(w.incarnation, w.version + 1) := s],
         sent := w.sent + {Update(w.incarnation, w.version + 1, Delta, p)})
    case Announce(p) => w.(sent := w.sent + {Update(w.incarnation, w.version, Snapshot, p)})
    case Restart(i, s) => w.(incarnation := i, version := 0, state := s, past := w.past[(i, 0) := s])
    case Deliver(u) => w.(replica := Step(c, w.replica, u).0)
  }

  function NewWorld<S>(incarnation: nat, s: S, r: S): World<S> {
    World(incarnation, 0, s, map[(incarnation, 0) := s], {}, NewReplica(r))
  }

  /** What an honest owner says: a snapshot is the state at its version, and a delta leads there
      from the version before. */
  ghost predicate Honest<S>(c: Callbacks<S>, past: map<(nat, nat), S>, u: Update) {
    && (u.incarnation, u.version) in past
    && match u.kind
       case Snapshot => c.restore(u.payload) == past[(u.incarnation, u.version)]
       case Delta =>
         u.version > 0 && (u.incarnation, u.version - 1) in past
         && c.patch(past[(u.incarnation, u.version - 1)], u.payload)
            == past[(u.incarnation, u.version)]
  }

  ghost predicate Agrees<S>(past: map<(nat, nat), S>, r: Replica<S>) {
    Backed(r) && (r.hasBaseline ==>
                    (r.incarnation, r.version) in past && r.state == past[(r.incarnation, r.version)])
  }

  ghost predicate OwnerOk<S>(w: World<S>) {
    && (w.incarnation, w.version) in w.past && w.past[(w.incarnation, w.version)] == w.state
    && (forall k | k in w.past :: NoEarlier(k.0, k.1, w.incarnation, w.version))
  }

  ghost predicate Inv<S>(c: Callbacks<S>, w: World<S>) {
    OwnerOk(w) && (forall u | u in w.sent :: Honest(c, w.past, u)) && Agrees(w.past, w.replica)
  }

  lemma StepKeepsInv<S>(c: Callbacks<S>, w: World<S>, e: Event<S>)
    requires Inv(c, w) && Enabled(c, w, e)
    ensures Inv(c, Next(c, w, e))
  {
    match e
    case Change(p) =>
    case Announce(p) =>
    case Restart(i, s) =>
    case Deliver(u) =>
  }

  ghost predicate IsRun<S>(c: Callbacks<S>, w: World<S>, events: seq<Event<S>>)
    decreases |events|
  {
    events == [] || (Enabled(c, w, events[0]) && IsRun(c, Next(c, w, events[0]), events[1..]))
  }

  ghost function After<S>(c: Callbacks<S>, w: World<S>, events: seq<Event<S>>): World<S>
    decreases |events|
  {
    if events == [] then w else After(c, Next(c, w, events[0]), events[1..])
  }

  lemma {:induction false} RunKeepsInv<S>(c: Callbacks<S>, w: World<S>, events: seq<Event<S>>)
    requires Inv(c, w) && IsRun(c, w, events)
    ensures Inv(c, After(c, w, events))
    decreases |events|
  {
    if events == [] {
    } else {
      StepKeepsInv(c, w, events[0]);
      RunKeepsInv(c, Next(c, w, events[0]), events[1..]);
    }
  }

  /** For any loss, repetition and reordering: a replica with a baseline holds exactly the state the
      owner had at the replica's incarnation and version, which the owner has really reached. */
  lemma ReplicaShowsAPastState<S>(c: Callbacks<S>, incarnation: nat, s: S, r: S,
                                  events: seq<Event<S>>)
    requires IsRun(c, NewWorld(incarnation, s, r), events)
    ensures var w := After(c, NewWorld(incarnation, s, r), events);
            w.replica.hasBaseline ==>
              && (w.replica.incarnation, w.replica.version) in w.past
              && w.replica.state == w.past[(w.replica.incarnation, w.replica.version)]
              && NoEarlier(w.replica.incarnation, w.replica.version, w.incarnation, w.version)
  {
    RunKeepsInv(c, NewWorld(incarnation, s, r), events);
  }

  // ---------------------------------------------------------------- how far the replica gets

  /** No update comes from an incarnation after `incarnation`. */
  predicate NoneNewer(us: seq<Update>, incarnation: nat) {
    forall k | 0 <= k < |us| :: us[k].incarnation <= incarnation
  }

  /** `u` can lead from version v to its own. */
  predicate Leads(u: Update, incarnation: nat, v: nat) {
    u.incarnation == incarnation
    && match u.kind
       case Delta => u.version == v + 1
       case Snapshot => u.version >= v
  }

  /** Among the updates, in this order and with anything between them, are some that lead from
      version v to version n or further. */
  predicate Carries(us: seq<Update>, incarnation: nat, v: nat, n: nat)
    decreases |us|
  {
    n <= v
    || (us != [] && (Carries(us[1..], incarnation, v, n)
                     || (Leads(us[0], incarnation, v)
                         && Carries(us[1..], incarnation, us[0].version, n))))
  }

  /** Starting later never hurts. */
  lemma {:induction false} CarriesFromLater(us: seq<Update>, incarnation: nat, v: nat, w: nat, n: nat)
    requires v <= w && Carries(us, incarnation, v, n)
    ensures Carries(us, incarnation, w, n)
    decreases |us|
  {
    if n <= w {
    } else {
      var rest := us[1..];
      if Carries(rest, incarnation, v, n) {
        CarriesFromLater(rest, incarnation, v, w, n);
      } else if us[0].version <= w {
        CarriesFromLater(rest, incarnation, us[0].version, w, n);
      }
    }
  }

  /** The replica gets to version n exactly when the updates can carry it there at all: whatever is
      lost, repeated or comes late, no rule that respects the gaps would get further. */
  lemma {:induction false} ReachesExactly<S>(c: Callbacks<S>, r: Replica<S>, us: seq<Update>, n: nat)
    requires r.hasBaseline && NoneNewer(us, r.incarnation)
    ensures StepAll(c, r, us).version >= n <==> Carries(us, r.incarnation, r.version, n)
    ensures StepAll(c, r, us).hasBaseline && StepAll(c, r, us).incarnation == r.incarnation
    decreases |us|
  {
    if us == [] {
    } else {
      var next := Step(c, r, us[0]).0;
      assert us[0].incarnation <= r.incarnation;
      ReachesExactly(c, next, us[1..], n);
      if Carries(us[1..], r.incarnation, r.version, n) {
        CarriesFromLater(us[1..], r.incarnation, r.version, next.version, n);
      }
    }
  }

  /** The deltas v+1 .. n are among the updates in this order. */
  predicate InOrder(us: seq<Update>, incarnation: nat, v: nat, n: nat)
    decreases |us|
  {
    n <= v
    || (us != [] && (InOrder(us[1..], incarnation, v, n)
                     || (us[0] == Update(incarnation, v + 1, Delta, us[0].payload)
                         && InOrder(us[1..], incarnation, v + 1, n))))
  }

  lemma {:induction false} InOrderCarries(us: seq<Update>, incarnation: nat, v: nat, n: nat)
    requires InOrder(us, incarnation, v, n)
    ensures Carries(us, incarnation, v, n)
    decreases |us|
  {
    if n <= v {
    } else {
      if InOrder(us[1..], incarnation, v, n) { InOrderCarries(us[1..], incarnation, v, n); }
      else { InOrderCarries(us[1..], incarnation, v + 1, n); }
    }
  }

  /** A snapshot at v and then the deltas v+1 .. n in order, with arbitrary repetitions and old
      updates between, end at the owner's state n. */
  lemma SnapshotThenDeltas<S>(c: Callbacks<S>, past: map<(nat, nat), S>, r: Replica<S>, u: Update,
                              us: seq<Update>, n: nat)
    requires Agrees(past, r) && Honest(c, past, u) && u.kind.Snapshot?
    requires forall k | 0 <= k < |us| :: Honest(c, past, us[k]) && us[k].version <= n
    requires u.incarnation >= r.incarnation && NoneNewer(us, u.incarnation)
    requires u.incarnation == r.incarnation && r.hasBaseline ==> r.version <= u.version
    requires u.version <= n && InOrder(us, u.incarnation, u.version, n)
    ensures var e := StepAll(c, r, [u] + us);
            && e.incarnation == u.incarnation && e.version == n && e.hasBaseline
            && (u.incarnation, n) in past && e.state == past[(u.incarnation, n)]
  {
    var base := Step(c, r, u).0;
    assert ([u] + us)[1..] == us;
    InOrderCarries(us, u.incarnation, u.version, n);
    ReachesExactly(c, base, us, n);
    StaysBelow(c, base, us, n);
    AllAgree(c, past, base, us);
  }

  lemma {:induction false} StaysBelow<S>(c: Callbacks<S>, r: Replica<S>, us: seq<Update>, n: nat)
    requires r.version <= n && forall k | 0 <= k < |us| :: us[k].version <= n
    ensures StepAll(c, r, us).version <= n
    decreases |us|
  {
    if us == [] {
    } else {
      StaysBelow(c, Step(c, r, us[0]).0, us[1..], n);
    }
  }

  lemma {:induction false} AllAgree<S>(c: Callbacks<S>, past: map<(nat, nat), S>, r: Replica<S>,
                                       us: seq<Update>)
    requires Agrees(past, r) && forall k | 0 <= k < |us| :: Honest(c, past, us[k])
    ensures Agrees(past, StepAll(c, r, us))
    decreases |us|
  {
    if us == [] {
    } else {
      AllAgree(c, past, Step(c, r, us[0]).0, us[1..]);
    }
  }

  /** Deltas never withdraw the request for a snapshot: only a snapshot does. */
  lemma {:induction false} RequestStands<S>(c: Callbacks<S>, r: Replica<S>, us: seq<Update>)
    requires r.needSnapshot && forall k | 0 <= k < |us| :: us[k].kind.Delta?
    ensures StepAll(c, r, us).needSnapshot
    decreases |us|
  {
    if us == [] {
    } else {
      RequestStands(c, Step(c, r, us[0]).0, us[1..]);
    }
  }

  predicate Deltas(us: seq<Update>, incarnation: nat) {
    forall k | 0 <= k < |us| :: us[k].incarnation == incarnation && us[k].kind.Delta?
  }

  /** As long as no request is open, nothing was skipped: the replica is at least as far as every
      delta that arrived. */
  lemma {:induction false} NoRequestNoGap<S>(c: Callbacks<S>, r: Replica<S>, us: seq<Update>,
                                             k: nat)
    requires r.hasBaseline && Deltas(us, r.incarnation) && k < |us|
    requires !StepAll(c, r, us).needSnapshot
    ensures us[k].version <= StepAll(c, r, us).version
    decreases |us|
  {
    var next := Step(c, r, us[0]).0;
    if k > 0 {
      NoRequestNoGap(c, next, us[1..], k - 1);
    } else {
      if next.needSnapshot { RequestStands(c, next, us[1..]); }
      NeverGoesBack(c, next, us[1..]);
      ReachesExactly(c, next, us[1..], 0);
    }
  }

  // ---------------------------------------------------------------- in place

  class StateReplica<S> {
    const callbacks: Callbacks<S>
    var incarnation: nat
    var version: nat
    var hasBaseline: bool
    var needSnapshot: bool
    /** What the callbacks have built so far. */
    var state: S

    constructor (callbacks: Callbacks<S>, blank: S)
      ensures this.callbacks == callbacks && Value() == NewReplica(blank)
    {
      this.callbacks := callbacks;
      incarnation, version, hasBaseline, needSnapshot := 0, 0, false, false;
      state := blank;
    }

    ghost function Value(): Replica<S>
      reads this
    {
      Replica(incarnation, version, hasBaseline, needSnapshot, state)
    }

    method Apply(u: Update) returns (verdict: Verdict)
      modifies this
      ensures (Value(), verdict) == Step(callbacks, old(Value()), u)
    {
      if u.incarnation < incarnation { return Stale; }
      if u.incarnation > incarnation {
        incarnation := u.incarnation;
        version := 0;
        hasBaseline := false;
      }
      if u.kind.Snapshot? {
        if hasBaseline && u.version < version { return Stale; }
        state := callbacks.restore(u.payload);
        version := u.version;
        hasBaseline, needSnapshot := true, false;
        return Applied;
      }
      if !hasBaseline {
        needSnapshot := true;
        return GapDetected;
      }
      if u.version <= version { return Duplicate; }
      if u.version != version + 1 {
        needSnapshot := true;
        return GapDetected;
      }
      state := callbacks.patch(state, u.payload);
      version := u.version;
      verdict := Applied;
    }
  }
}
