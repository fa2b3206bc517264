/** The timing bounds are sharp: beyond them one sidecar crash, in mid-PATCH or
    between calls, lets a live master's Lease expire. */
module StaleRenewals {
  import opened Common
  import opened ElectionTimes
  import opened LeaseProtocol
  import opened MasterExclusion
  import opened LeaseTiming
  import opened LeaseLiveness
  import opened SecondMaster

  /** p is the only pod that is up, a live master that has lost nothing yet and
      the holder of a Lease renewed at r. */
  ghost predicate MasterAt(s: State, p: PodName, r: int, sc: Sidecar, wire: multiset<Patch>) {
    && p in s.pods && p != "" && "" !in s.pods
    && (forall q :: q in s.pods && q != p ==> s.pods[q].Gone?)
    && RunsAsMaster(s, p) && s.pods[p].alive && s.pods[p].wasted == 0 && !s.pods[p].released
    && s.pods[p].sidecar == sc
    && Holds(s, p) && s.lease.value.renewTime == Some(r)
    && s.wire == wire
  }

  /** What keeps such a state on time. */
  ghost predicate Prompt(now: int, r: int, sc: Sidecar, wire: multiset<Patch>, b: Bounds) {
    && SidecarOnTime(sc, now, b)
    && !sc.Deleting?
    && (sc.Down? ==> now <= r + b.restart)
    && (forall patch :: patch in wire ==> now <= patch.stamp + b.call)
  }

  lemma MasterNext(
      s: State, t: State, step: Step, t': State, p: PodName, r: int, sc: Sidecar, wire: multiset<Patch>, b: Bounds)
    requires OnTimePath(s, t, b) && Enabled(t, step) && t' == Do(t, step)
    requires MasterAt(t', p, r, sc, wire) && Prompt(t'.now, r, sc, wire, b)
    ensures OnTimePath(s, t', b)
  {
    PathNext(s, t, step, t', b);
  }

  lemma {:induction false} Waits(
    s: State, t0: State, n: nat, p: PodName, r: int, sc: Sidecar, wire: multiset<Patch>, b: Bounds) returns (t: State)
    requires OnTimePath(s, t0, b) && MasterAt(t0, p, r, sc, wire)
    requires !sc.BackingOff? && Prompt(t0.now + n, r, sc, wire, b)
    ensures OnTimePath(s, t, b) && t == t0.(now := t0.now + n)
  {
    if n == 0 {
      t := t0;
    } else {
      var t1 := Waits(s, t0, n - 1, p, r, sc, wire, b);
      t := Do(t1, Tick);
      MasterNext(s, t1, Tick, t, p, r, sc, wire, b);
    }
  }

  /** A poll that reads its own name and sends a renewal, `n` seconds after it
      was issued. */
  lemma PollsAndSends(s: State, t0: State, n: nat, p: PodName, r: int, wire: multiset<Patch>, b: Bounds)
    returns (t: State)
    requires OnTimePath(s, t0, b) && n <= b.call
    requires MasterAt(t0, p, r, Polling(t0.now), wire)
    requires forall patch :: patch in wire ==> t0.now + n <= patch.stamp + b.call
    ensures OnTimePath(s, t, b) && t.now == t0.now + n
    ensures MasterAt(t, p, r, Renewing(t.now, None), wire + multiset{Renew(p, t.now)})
  {
    var t1 := Waits(s, t0, n, p, r, Polling(t0.now), wire, b);
    var t2 := Do(t1, ServeGet(p));
    var sc := Answered(t1.lease.value, t0.now);
    MasterNext(s, t1, ServeGet(p), t2, p, r, sc, wire, b);
    t := Do(t2, Decide(p, 0));
    MasterNext(s, t2, Decide(p, 0), t, p, r, Renewing(t.now, None), wire + multiset{Renew(p, t.now)}, b);
  }

  /** A new master sends its first renewal, and its sidecar crashes and is back
      at once, the renewal still on the wire. */
  lemma CrashesInMidPatch(s: State, t0: State, p: PodName, b: Bounds) returns (t: State)
    requires OnTimePath(s, t0, b)
    requires MasterAt(t0, p, t0.now, Polling(t0.now), multiset{})
    ensures OnTimePath(s, t, b) && t.now == t0.now
    ensures MasterAt(t, p, t.now, Polling(t.now), multiset{Renew(p, t.now)})
  {
    var t1 := PollsAndSends(s, t0, 0, p, t0.now, multiset{}, b);
    var wire := multiset{Renew(p, t0.now)};
    var t2 := Do(t1, CrashSidecar(p));
    MasterNext(s, t1, CrashSidecar(p), t2, p, t0.now, Down, wire, b);
    t := Do(t2, StartSidecar(p));
    MasterNext(s, t2, StartSidecar(p), t, p, t0.now, Polling(t0.now), wire, b);
  }

  /** The second renewal lands before the first, which puts renewTime back. */
  lemma LandInWrongOrder(s: State, t0: State, r: int, p: PodName, b: Bounds) returns (t: State)
    requires OnTimePath(s, t0, b) && r < t0.now <= r + b.call
    requires MasterAt(t0, p, r, Renewing(t0.now, None), multiset{Renew(p, r)} + multiset{Renew(p, t0.now)})
    ensures OnTimePath(s, t, b) && t.now == t0.now
    ensures MasterAt(t, p, r, Renewing(t.now, Some(true)), multiset{})
  {
    var first, second := Renew(p, r), Renew(p, t0.now);
    var t1 := Do(t0, Land(second));
    assert t1.wire == multiset{first};
    MasterNext(s, t0, Land(second), t1, p, t0.now, Renewing(t0.now, Some(true)), multiset{first}, b);
    t := Do(t1, Land(first));
    assert t.wire == multiset{};
    MasterNext(s, t1, Land(first), t, p, r, Renewing(t0.now, Some(true)), multiset{}, b);
  }

  /** The answer takes n seconds. */
  lemma HearsLate(s: State, t0: State, n: nat, r: int, p: PodName, b: Bounds) returns (t: State)
    requires OnTimePath(s, t0, b) && n <= b.call
    requires MasterAt(t0, p, r, Renewing(t0.now, Some(true)), multiset{})
    ensures OnTimePath(s, t, b) && t.now == t0.now + n
    ensures MasterAt(t, p, r, Sleeping(t.now + RENEW_INTERVAL), multiset{})
  {
    var t1 := Waits(s, t0, n, p, r, Renewing(t0.now, Some(true)), multiset{}, b);
    t := Do(t1, Hear(p));
    MasterNext(s, t1, Hear(p), t, p, r, Sleeping(t1.now + RENEW_INTERVAL), multiset{}, b);
  }

  /** It hears the answer, sleeps and wakes up for its next poll. */
  lemma SleepsAfterwards(s: State, t0: State, n: nat, r: int, p: PodName, b: Bounds) returns (t: State)
    requires OnTimePath(s, t0, b) && n <= b.call
    requires MasterAt(t0, p, r, Renewing(t0.now, Some(true)), multiset{})
    ensures OnTimePath(s, t, b) && t.now == t0.now + n + RENEW_INTERVAL
    ensures MasterAt(t, p, r, Polling(t.now), multiset{})
  {
    var t1 := HearsLate(s, t0, n, r, p, b);
    var t2 := Waits(s, t1, RENEW_INTERVAL, p, r, Sleeping(t1.now + RENEW_INTERVAL), multiset{}, b);
    t := Do(t2, Wake(p));
    MasterNext(s, t2, Wake(p), t, p, r, Polling(t.now), multiset{}, b);
  }

  lemma FirstMaster(s: State, p: PodName, b: Bounds) returns (t: State)
    requires Initial(s) && p in s.pods
    ensures OnTimePath(s, t, b) && MasterAt(t, p, t.now, Polling(t.now), multiset{})
  {
    var t0 := Starts(s, p, b);
    t0 := Attempts(s, t0, p, b);
    t0 := Wins(s, t0, p, b);
    t := Restarts(s, t0, p, b);
  }

  /** One poll late: a renewal that left at r lands at r + 5 over the one that
      left at r + 5, and the next one is on its way when the Lease expires. */
  lemma MasterExpires(s: State, p: PodName, b: Bounds) returns (t: State)
    requires Initial(s) && p in s.pods && b.call >= 5
    ensures OnTimePath(s, t, b) && RunsAsMaster(t, p) && t.pods[p].alive && Holds(t, p) && !LeaseFresh(t)
  {
    var t0 := FirstMaster(s, p, b);
    var r := t0.now;
    t := CrashesInMidPatch(s, t0, p, b);
    t := PollsAndSends(s, t, 5, p, r, multiset{Renew(p, r)}, b);
    t := LandInWrongOrder(s, t, r, p, b);
    t := SleepsAfterwards(s, t, 5, r, p, b);
    t := PollsAndSends(s, t, 5, p, r, multiset{}, b);
    t := Waits(s, t, 5, p, r, Renewing(t.now, None), multiset{Renew(p, t.now)}, b);
  }

  /** The sidecar of a new master crashes and is down for n seconds. */
  lemma StaysDown(s: State, t0: State, n: nat, p: PodName, b: Bounds) returns (t: State)
    requires OnTimePath(s, t0, b) && MasterAt(t0, p, t0.now, Polling(t0.now), multiset{}) && n <= b.restart
    ensures OnTimePath(s, t, b) && t.now == t0.now + n && MasterAt(t, p, t0.now, Polling(t.now), multiset{})
  {
    var r := t0.now;
    var t1 := Do(t0, CrashSidecar(p));
    MasterNext(s, t0, CrashSidecar(p), t1, p, r, Down, multiset{}, b);
    var t2 := Waits(s, t1, n, p, r, Down, multiset{}, b);
    t := Do(t2, StartSidecar(p));
    MasterNext(s, t2, StartSidecar(p), t, p, r, Polling(t2.now), multiset{}, b);
  }

  function Least(a: nat, b: nat): nat { if a <= b then a else b }

  /** It is back after `restart` seconds, and reads and renews as slowly as
      its calls allow: the Lease is 30 seconds old before the renewal lands. */
  lemma RestartsTooLate(s: State, p: PodName, b: Bounds) returns (t: State)
    requires Initial(s) && p in s.pods && b.restart + 2 * b.call >= LEASE_DURATION
    ensures OnTimePath(s, t, b) && RunsAsMaster(t, p) && t.pods[p].alive && Holds(t, p) && !LeaseFresh(t)
  {
    t := FirstMaster(s, p, b);
    var r := t.now;
    var down := Least(b.restart, LEASE_DURATION);
    var reading := Least(b.call, LEASE_DURATION - down);
    t := StaysDown(s, t, down, p, b);
    t := PollsAndSends(s, t, reading, p, r, multiset{}, b);
    t := Waits(s, t, LEASE_DURATION - down - reading, p, r, Renewing(t.now, None), multiset{Renew(p, t.now)}, b);
  }

  // ── The exact bound ──────────────────────────────────────────────────────

  /** How late after renewTime a holder may be polling: after a restart, or in
      its cycle with renewTime put back by a call. */
  function PollsBy(b: Bounds): nat {
    if b.restart >= RENEW_INTERVAL + 2 * b.call then b.restart else RENEW_INTERVAL + 2 * b.call
  }

  /** Live masters keep their Lease on all on-time runs from s. */
  ghost predicate MastersStayFresh(s: State, b: Bounds) {
    forall t, q :: OnTimePath(s, t, b) && RunsAsMaster(t, q) ==> LeaseFresh(t)
  }

  /** An environment that restarts sidecars faster than asked is on time too. */
  lemma FasterIsOnTime(states: seq<State>, i: nat, b: Bounds, c: Bounds)
    requires OnTimeUpTo(states, i, b) && c == b.(restart := c.restart) && b.restart <= c.restart
    ensures OnTimeUpTo(states, i, c)
  {
    forall k | 0 <= k <= i ensures OnTime(states[k], c) { assert OnTime(states[k], b); }
  }

  lemma BoundsSuffice(s: State, b: Bounds)
    requires Initial(s) && PollsBy(b) + b.retry + 2 * b.call < LEASE_DURATION
    requires OBSERVE_INTERVAL + b.backoff + 3 * b.call <= PollsBy(b)
    ensures MastersStayFresh(s, b)
  {
    var c := b.(restart := PollsBy(b));
    forall t, q | OnTimePath(s, t, b) && RunsAsMaster(t, q) ensures LeaseFresh(t) {
      var states, steps :| OnTimeRun(s, t, b, states, steps);
      FasterIsOnTime(states, |steps|, b, c);
      LiveMasterKeepsLease(states, steps, |steps|, c, q);
    }
  }

  lemma BoundsAreNeeded(s: State, p: PodName, b: Bounds) returns (t: State)
    requires Initial(s) && p in s.pods && PollsBy(b) + 2 * b.call >= LEASE_DURATION
    ensures OnTimePath(s, t, b) && RunsAsMaster(t, p) && t.pods[p].alive && Holds(t, p) && !LeaseFresh(t)
  {
    if b.restart >= RENEW_INTERVAL + 2 * b.call {
      t := RestartsTooLate(s, p, b);
    } else {
      t := MasterExpires(s, p, b);
    }
  }

  /** For any bounds without failed reads and with back-offs no longer than the
      cycle hides, a live master's Lease stays fresh on all on-time runs if and
      only if max(restart, 10 + 2 * call) + 2 * call < 30. */
  lemma BoundsAreSharp(s: State, p: PodName, b: Bounds)
    requires Initial(s) && p in s.pods && b.retry == 0
    requires OBSERVE_INTERVAL + b.backoff + 3 * b.call <= PollsBy(b)
    ensures MastersStayFresh(s, b) <==> PollsBy(b) + 2 * b.call < LEASE_DURATION
  {
    if PollsBy(b) + 2 * b.call < LEASE_DURATION {
      BoundsSuffice(s, b);
    } else {
      var t := BoundsAreNeeded(s, p, b);
      assert OnTimePath(s, t, b) && RunsAsMaster(t, p) && !LeaseFresh(t);
    }
  }

  /** For bounds that meet the other clauses of Feasible, Feasible is exact. */
  lemma FeasibleIsSharp(s: State, p: PodName, b: Bounds)
    requires Initial(s) && p in s.pods && b.retry == 0
    requires RENEW_INTERVAL + 2 * b.call <= b.restart && OBSERVE_INTERVAL + b.backoff + 3 * b.call <= b.restart
    ensures MastersStayFresh(s, b) <==> Feasible(b)
  {
    BoundsAreSharp(s, p, b);
  }

  /** With restarts as quick as the cycle itself, or quicker, and no back-off the
      condition on the calls is 10 + 4 * call < 30. */
  lemma CallBoundIsSharp(s: State, p: PodName, call: nat, restart: nat)
    requires Initial(s) && p in s.pods && restart <= RENEW_INTERVAL + 2 * call
    ensures MastersStayFresh(s, Bounds(call, restart, 0, 0)) <==> RENEW_INTERVAL + 4 * call < LEASE_DURATION
  {
    var b := Bounds(call, restart, 0, 0);
    if call <= 5 {
      BoundsAreSharp(s, p, b);
    } else {
      var t := BoundsAreNeeded(s, p, b);
      assert OnTimePath(s, t, b) && RunsAsMaster(t, p) && !LeaseFresh(t);
    }
  }

  /** Beyond the bound exclusion itself is lost: some on-time run comes to a
      state from which there can be two masters within the instant. */
  lemma SlowCallsLoseExclusion(s: State, p: PodName, q: PodName, b: Bounds) returns (t: State, u: State)
    requires Initial(s) && p in s.pods && q in s.pods && q != p
    requires PollsBy(b) + 2 * b.call >= LEASE_DURATION
    ensures OnTimePath(s, t, b) && Reaches(t, u) && TwoMasters(u)
  {
    t := BoundsAreNeeded(s, p, b);
    PathKeepsPods(s, t, b);
    ReachesSelf(t);
    u := StaleMeansTwo(t, t, p, q);
  }
}
