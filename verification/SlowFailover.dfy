/** The failover bound is reached: runs on which nobody has been elected at the
    last moment that it allows. */
module SlowFailover {
  import opened Common
  import opened ElectionTimes
  import opened LeaseProtocol
  import opened LeaseVersions
  import opened LeaseTiming
  import opened LeaseLiveness
  import opened LeaseHandover
  import opened LeaseFailover

  /** A failover run from s to t in which no PATCH lands. */
  ghost predicate SlowRun(
      s: State, t: State, q: PodName, l: Lease, r: int, d: nat, states: seq<State>, steps: seq<Step>) {
    && FailoverRun(states, steps, q, l, r, d)
    && states[0] == s && states[|steps|] == t
    && forall k :: 0 <= k < |steps| ==> !steps[k].Land?
  }

  ghost predicate SlowPath(s: State, t: State, q: PodName, l: Lease, r: int, d: nat) {
    exists states, steps :: SlowRun(s, t, q, l, r, d, states, steps)
  }

  /** The situations in which the bound starts to count. */
  ghost predicate FailoverStart(s: State, q: PodName, l: Lease, r: int, d: nat) {
    && VersionsOk(s) && Abandoned(s, l, r) && HolderStopped(s, l)
    && AboutToPoll(s, q) && q != l.holder && KeepsPace(s, q, d)
  }

  lemma SlowSelf(s: State, q: PodName, l: Lease, r: int, d: nat)
    requires FailoverStart(s, q, l, r, d)
    ensures SlowPath(s, s, q, l, r, d)
  {
    assert SlowRun(s, s, q, l, r, d, [s], []);
  }

  lemma SlowNext(s: State, t: State, step: Step, t': State, q: PodName, l: Lease, r: int, d: nat)
    requires SlowPath(s, t, q, l, r, d) && Enabled(t, step) && t' == Do(t, step)
    requires !step.Land? && !Disturbs(step, q, l.holder) && KeepsPace(t', q, d)
    ensures SlowPath(s, t', q, l, r, d)
  {
    var states, steps :| SlowRun(s, t, q, l, r, d, states, steps);
    RunExtends(states, steps, step, t');
    assert SlowRun(s, t', q, l, r, d, states + [t'], steps + [step]);
  }

  lemma {:induction false} SlowWait(s: State, t0: State, n: nat, q: PodName, l: Lease, r: int, d: nat)
    returns (t: State)
    requires SlowPath(s, t0, q, l, r, d) && IsUp(t0, q) && KeepsPace(t0.(now := t0.now + n), q, d)
    ensures SlowPath(s, t, q, l, r, d) && t == t0.(now := t0.now + n)
  {
    if n == 0 {
      t := t0;
    } else {
      var t1 := SlowWait(s, t0, n - 1, q, l, r, d);
      t := Do(t1, Tick);
      SlowNext(s, t1, Tick, t, q, l, r, d);
    }
  }

  /** It sleeps until u, and its GET takes all of d seconds. */
  lemma SlowRead(s: State, t0: State, u: int, q: PodName, l: Lease, r: int, d: nat) returns (t: State)
    requires SlowPath(s, t0, q, l, r, d) && t0.lease == Some(l)
    requires IsUp(t0, q) && t0.pods[q].sidecar == Sleeping(u) && t0.now <= u
    ensures SlowPath(s, t, q, l, r, d) && t.lease == Some(l) && t.now == u + d
    ensures IsUp(t, q) && t.pods[q].sidecar == Answered(l, u)
  {
    var t1 := SlowWait(s, t0, u - t0.now, q, l, r, d);
    var t2 := Do(t1, Wake(q));
    SlowNext(s, t1, Wake(q), t2, q, l, r, d);
    var t3 := Do(t2, ServeGet(q));
    SlowNext(s, t2, ServeGet(q), t3, q, l, r, d);
    t := SlowWait(s, t3, d, q, l, r, d);
  }

  /** With a changelog an hour old it backs off for all of 15 seconds. */
  lemma SlowBackOff(s: State, t0: State, u: int, q: PodName, l: Lease, r: int, d: nat) returns (t: State)
    requires SlowPath(s, t0, q, l, r, d) && t0.lease == Some(l) && l.holder != q && Expired(l, t0.now)
    requires IsUp(t0, q) && t0.pods[q].sidecar == Answered(l, u)
    ensures SlowPath(s, t, q, l, r, d) && t.lease == Some(l) && t.now == t0.now + MAX_DELAY
    ensures IsUp(t, q) && t.pods[q].sidecar == BackingOff(l.resVer, t.now)
  {
    var mtime := if t0.now == 3600 then -1 else t0.now - 3600;
    assert Backoff.StaleDelay(q, mtime, t0.now) == MAX_DELAY;
    var t1 := Do(t0, Decide(q, mtime));
    assert t1 == WithSidecar(t0, q, BackingOff(l.resVer, t0.now + MAX_DELAY));
    SlowNext(s, t0, Decide(q, mtime), t1, q, l, r, d);
    t := SlowWait(s, t1, MAX_DELAY, q, l, r, d);
  }

  lemma SlowSwap(s: State, t0: State, q: PodName, l: Lease, r: int, d: nat) returns (t: State)
    requires SlowPath(s, t0, q, l, r, d) && q != l.holder
    requires IsUp(t0, q) && t0.pods[q].sidecar == BackingOff(l.resVer, t0.now)
    ensures SlowPath(s, t, q, l, r, d) && t.now == t0.now + d
  {
    var t1 := Do(t0, SendCas(q));
    SlowNext(s, t0, SendCas(q), t1, q, l, r, d);
    t := SlowWait(s, t1, d, q, l, r, d);
  }

  /** From a sleep that ends at u, when the Lease is about to expire or has
      expired, it can take until u + 15 + 2d. */
  lemma SlowTurn(s: State, t0: State, u: int, q: PodName, l: Lease, r: int, d: nat) returns (t: State)
    requires SlowPath(s, t0, q, l, r, d) && t0.lease == Some(l) && l.renewTime == Some(r) && q != l.holder
    requires IsUp(t0, q) && t0.pods[q].sidecar == Sleeping(u) && t0.now <= u && r + LEASE_DURATION <= u + d
    ensures SlowPath(s, t, q, l, r, d) && t.now == u + MAX_DELAY + 2 * d
  {
    t := SlowRead(s, t0, u, q, l, r, d);
    t := SlowBackOff(s, t, u, q, l, r, d);
    t := SlowSwap(s, t, q, l, r, d);
  }

  lemma SlowElectsNobody(s: State, t: State, q: PodName, l: Lease, r: int, d: nat)
    returns (states: seq<State>, steps: seq<Step>)
    requires SlowPath(s, t, q, l, r, d)
    ensures FailoverRun(states, steps, q, l, r, d) && states[0] == s && states[|steps|] == t
    ensures !ElectedBy(states, steps, |steps|, l)
  {
    states, steps :| SlowRun(s, t, q, l, r, d, states, steps);
  }

  /** The deadline cannot be moved forward by a second: from every start at
      which the Lease has expired and q has just gone to sleep, some run reaches
      the last moment that FailoverIsBounded allows with nobody elected. */
  lemma DeadlineIsTight(s: State, q: PodName, l: Lease, r: int, d: nat) returns (states: seq<State>, steps: seq<Step>)
    requires FailoverStart(s, q, l, r, d) && s.now >= r + LEASE_DURATION
    requires s.pods[q].sidecar == Sleeping(s.now + OBSERVE_INTERVAL)
    ensures FailoverRun(states, steps, q, l, r, d) && states[0] == s
    ensures states[|steps|].now == s.now + OBSERVE_INTERVAL + MAX_DELAY + 2 * d
    ensures !ElectedBy(states, steps, |steps|, l)
  {
    SlowSelf(s, q, l, r, d);
    var t := SlowTurn(s, s, s.now + OBSERVE_INTERVAL, q, l, r, d);
    states, steps := SlowElectsNobody(s, t, q, l, r, d);
  }

  /** Without any failed read the Lease can stay unclaimed until r + 49 + 2d: q
      finds it 29 seconds old, and next looks at r + 34. */
  lemma JustTooEarly(s: State, q: PodName, l: Lease, r: int, d: nat) returns (states: seq<State>, steps: seq<Step>)
    requires FailoverStart(s, q, l, r, d) && s.now == r + LEASE_DURATION - 1
    requires s.pods[q].sidecar == Polling(s.now)
    ensures FailoverRun(states, steps, q, l, r, d) && states[0] == s
    ensures states[|steps|].now == r + LEASE_DURATION - 1 + OBSERVE_INTERVAL + MAX_DELAY + 2 * d
    ensures !ElectedBy(states, steps, |steps|, l)
  {
    SlowSelf(s, q, l, r, d);
    var t1 := Do(s, ServeGet(q));
    SlowNext(s, s, ServeGet(q), t1, q, l, r, d);
    var t := Do(t1, Decide(q, 0));
    SlowNext(s, t1, Decide(q, 0), t, q, l, r, d);
    t := SlowTurn(s, t, s.now + OBSERVE_INTERVAL, q, l, r, d);
    states, steps := SlowElectsNobody(s, t, q, l, r, d);
  }

  /** And there is such a start on a run of every cluster: the master stops
      right after a renewal stamped r, and 30 seconds later the watching shadow
      goes back to sleep because one read has failed. */
  lemma StartsHappen(s: State, p: PodName, q: PodName, b: Bounds, d: nat) returns (t: State, l: Lease, r: int)
    requires Initial(s) && p in s.pods && q in s.pods && p != q
    ensures OnTimePath(s, t, b) && FailoverStart(t, q, l, r, d) && l.holder == p && t.now == r + LEASE_DURATION
    ensures t.pods[q].sidecar == Sleeping(t.now + OBSERVE_INTERVAL)
  {
    var t0 := HandoversHappen(s, p, q, b, 0);
    l, r := t0.lease.value, t0.now;
    t := LeftAlone(s, t0, p, q, b);
    t := FailsToRead(s, t, q, l, b);
    PathVersionsOk(s, t, b);
  }

  lemma FailsToRead(s: State, t0: State, q: PodName, l: Lease, b: Bounds) returns (t: State)
    requires OnTimePath(s, t0, b) && Watching(t0, q, l, Sleeping(t0.now + OBSERVE_INTERVAL))
    ensures OnTimePath(s, t, b) && t.now == t0.now + OBSERVE_INTERVAL
    ensures Watching(t, q, l, Sleeping(t.now + OBSERVE_INTERVAL))
  {
    var t1 := WakesUp(s, t0, q, l, b);
    t := Do(t1, FailGet(q));
    WatchNext(s, t1, FailGet(q), t, q, l, Sleeping(t.now + OBSERVE_INTERVAL), b);
  }

  lemma PathVersionsOk(s: State, t: State, b: Bounds)
    requires Initial(s) && OnTimePath(s, t, b)
    ensures VersionsOk(t)
  {
    var states, steps :| OnTimeRun(s, t, b, states, steps);
    VersionsOkRun(states, steps, |steps|);
  }
}
