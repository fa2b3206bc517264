/** The timing bounds can be met: within them a pod can be elected and then stay
    master for as long as one likes. */
module LeaseLiveness {
  import opened Common
  import opened ElectionTimes
  import opened LeaseProtocol
  import opened LeaseTiming

  /** A run from s to t that is on time in every state. */
  ghost predicate OnTimePath(s: State, t: State, b: Bounds) {
    exists states, steps :: OnTimeRun(s, t, b, states, steps)
  }

  ghost predicate OnTimeRun(s: State, t: State, b: Bounds, states: seq<State>, steps: seq<Step>) {
    IsRun(states, steps) && states[0] == s && states[|steps|] == t && OnTimeUpTo(states, |steps|, b)
  }

  lemma PathSelf(s: State, b: Bounds)
    requires OnTime(s, b)
    ensures OnTimePath(s, s, b)
  {
    assert OnTimeRun(s, s, b, [s], []);
  }

  lemma PathNext(s: State, t: State, step: Step, t': State, b: Bounds)
    requires OnTimePath(s, t, b) && Enabled(t, step) && t' == Do(t, step) && OnTime(t', b)
    ensures OnTimePath(s, t', b)
  {
    var states, steps :| OnTimeRun(s, t, b, states, steps);
    RunExtends(states, steps, step, t');
    assert forall k :: 0 <= k <= |steps| ==> (states + [t'])[k] == states[k];
    assert OnTimeRun(s, t', b, states + [t'], steps + [step]);
  }

  lemma DecidedKeepsPods(s: State, p: PodName, mtime: int)
    requires IsUp(s, p) && s.pods[p].sidecar.Answered?
    ensures Decided(s, p, mtime).pods.Keys == s.pods.Keys
  {
  }

  lemma StepKeepsPods(s: State, step: Step, s': State)
    requires Enabled(s, step) && s' == Do(s, step)
    ensures s'.pods.Keys == s.pods.Keys
  {
    match step {
      case Decide(p, mtime) => DecidedKeepsPods(s, p, mtime);
      case Land(patch) => assert IsUp(s, patch.from) ==> patch.from in s.pods;
      case _ =>
    }
  }

  lemma {:induction false} RunKeepsPods(states: seq<State>, steps: seq<Step>, i: nat)
    requires IsRun(states, steps) && i < |states|
    ensures states[i].pods.Keys == states[0].pods.Keys
  {
    if i > 0 {
      RunKeepsPods(states, steps, i - 1);
      assert StepAt(states, steps, i - 1);
      StepKeepsPods(states[i - 1], steps[i - 1], states[i]);
    }
  }

  lemma PathKeepsPods(s: State, t: State, b: Bounds)
    requires OnTimePath(s, t, b)
    ensures t.pods.Keys == s.pods.Keys
  {
    var states, steps :| OnTimeRun(s, t, b, states, steps);
    RunKeepsPods(states, steps, |steps|);
  }

  /** The PATCH a sidecar waits for, if any. */
  function Awaited(p: PodName, sc: Sidecar): multiset<Patch> {
    match sc
    case Renewing(t, None) => multiset{Renew(p, t)}
    case Releasing(t, None) => multiset{Release(p, t)}
    case Acquiring(rv, t, None) => multiset{Cas(p, rv, t)}
    case _ => multiset{}
  }

  /** p is the only pod that is up, and the wire holds just what p waits for. */
  ghost predicate Alone(s: State, p: PodName) {
    && p in s.pods && p != "" && "" !in s.pods
    && (forall q :: q in s.pods && q != p ==> s.pods[q].Gone?)
    && s.wire == if IsUp(s, p) then Awaited(p, s.pods[p].sidecar) else multiset{}
  }

  /** Alone, on schedule, with a Lease written this very second or, for a
      sleeper, early enough. */
  ghost predicate Orderly(s: State, p: PodName, b: Bounds) {
    && Alone(s, p)
    && s.lease.Some?
    && (IsUp(s, p) ==>
          && SidecarOnTime(s.pods[p].sidecar, s.now, b)
          && s.pods[p].wasted == 0 && !s.pods[p].released
          && (s.pods[p].sidecar.Deleting? || s.pods[p].sidecar.Down? ==> s.lease.value.renewTime in [None, Some(s.now)])
          && (s.pods[p].sidecar.Deleting? ==> s.lease.value.renewTime.Some?))
  }

  lemma OrderlyOnTime(s: State, p: PodName, b: Bounds)
    requires Orderly(s, p, b)
    ensures OnTime(s, b)
  {
  }

  lemma OrderlyNext(s: State, t: State, step: Step, t': State, p: PodName, b: Bounds)
    requires OnTimePath(s, t, b) && Enabled(t, step) && t' == Do(t, step) && Orderly(t', p, b)
    ensures OnTimePath(s, t', b)
  {
    OrderlyOnTime(t', p, b);
    PathNext(s, t, step, t', b);
  }

  // ── Election ─────────────────────────────────────────────────────────────

  /** A shadow that has just started polling, alone, with no holder yet. */
  ghost predicate FirstPoll(s: State, p: PodName, b: Bounds) {
    && Orderly(s, p, b) && s.wire == multiset{}
    && IsUp(s, p) && s.pods[p].sidecar == Polling(s.now)
    && s.lease.value.holder == "" && s.lease.value.renewTime == None
  }

  lemma Starts(s: State, p: PodName, b: Bounds) returns (t: State)
    requires Initial(s) && p in s.pods
    ensures OnTimePath(s, t, b) && FirstPoll(t, p, b) && t.now == s.now
  {
    PathSelf(s, b);
    var t1 := Do(s, Bootstrap);
    OrderlyNext(s, s, Bootstrap, t1, p, b);
    var t2 := Do(t1, PodInit(p, true));
    OrderlyNext(s, t1, PodInit(p, true), t2, p, b);
    t := Do(t2, StartSidecar(p));
    OrderlyNext(s, t2, StartSidecar(p), t, p, b);
  }

  lemma Reads(s: State, t0: State, p: PodName, b: Bounds) returns (t: State)
    requires OnTimePath(s, t0, b) && Orderly(t0, p, b) && IsUp(t0, p) && t0.pods[p].sidecar == Polling(t0.now)
    ensures OnTimePath(s, t, b) && Orderly(t, p, b)
    ensures t == t0.(pods := t0.pods[p := t0.pods[p].(sidecar := Answered(t0.lease.value, t0.now))])
  {
    t := Do(t0, ServeGet(p));
    OrderlyNext(s, t0, ServeGet(p), t, p, b);
  }

  /** A recent changelog means no back-off. */
  lemma BacksOff(s: State, t0: State, p: PodName, b: Bounds) returns (t: State)
    requires OnTimePath(s, t0, b) && FirstPoll(t0, p, b)
    ensures OnTimePath(s, t, b) && Orderly(t, p, b)
    ensures t == t0.(pods := t0.pods[p := t0.pods[p].(sidecar := BackingOff(t0.lease.value.resVer, t0.now))])
  {
    var t1 := Reads(s, t0, p, b);
    var mtime := if t0.now == 0 then 1 else t0.now;
    t := t0.(pods := t0.pods[p := t0.pods[p].(sidecar := BackingOff(t0.lease.value.resVer, t0.now))]);
    OrderlyNext(s, t1, Decide(p, mtime), t, p, b);
  }

  lemma Attempts(s: State, t0: State, p: PodName, b: Bounds) returns (t: State)
    requires OnTimePath(s, t0, b) && FirstPoll(t0, p, b)
    ensures OnTimePath(s, t, b) && Orderly(t, p, b) && t.now == t0.now && t.lease == t0.lease
    ensures IsUp(t, p) && t.pods[p].sidecar == Acquiring(t.lease.value.resVer, t.now, None)
  {
    var t1 := BacksOff(s, t0, p, b);
    t := Do(t1, SendCas(p));
    OrderlyNext(s, t1, SendCas(p), t, p, b);
  }

  lemma TakesLease(s: State, t0: State, p: PodName, b: Bounds) returns (t: State)
    requires OnTimePath(s, t0, b) && Orderly(t0, p, b)
    requires IsUp(t0, p) && t0.pods[p].sidecar == Acquiring(t0.lease.value.resVer, t0.now, None)
    ensures OnTimePath(s, t, b) && Orderly(t, p, b) && t.now == t0.now && t.wire == multiset{}
    ensures IsUp(t, p) && Holds(t, p) && t.lease.value.renewTime == Some(t.now)
    ensures t.pods[p].sidecar == Acquiring(t0.lease.value.resVer, t.now, Some(true))
  {
    var land := Land(Cas(p, t0.lease.value.resVer, t0.now));
    t := Do(t0, land);
    assert t.wire == multiset{};
    OrderlyNext(s, t0, land, t, p, b);
  }

  lemma Wins(s: State, t0: State, p: PodName, b: Bounds) returns (t: State)
    requires OnTimePath(s, t0, b) && Orderly(t0, p, b)
    requires IsUp(t0, p) && t0.pods[p].sidecar == Acquiring(t0.lease.value.resVer, t0.now, None)
    ensures OnTimePath(s, t, b) && Orderly(t, p, b) && t.now == t0.now && t.wire == multiset{}
    ensures t.pods[p].Gone? && Holds(t, p) && t.lease.value.renewTime == Some(t.now)
  {
    var t1 := TakesLease(s, t0, p, b);
    var t2 := Do(t1, Hear(p));
    OrderlyNext(s, t1, Hear(p), t2, p, b);
    t := Do(t2, PodGone(p));
    OrderlyNext(s, t2, PodGone(p), t, p, b);
  }

  // ── The renewal cycle ────────────────────────────────────────────────────

  /** A live master and holder, alone, that has just renewed and goes to sleep. */
  ghost predicate Steady(s: State, p: PodName, b: Bounds) {
    && Orderly(s, p, b) && s.wire == multiset{}
    && RunsAsMaster(s, p) && s.pods[p].alive && Holds(s, p)
    && s.lease.value.renewTime == Some(s.now)
    && s.pods[p].sidecar.Sleeping? && s.pods[p].sidecar.until == s.now + RENEW_INTERVAL
  }

  lemma SendsRenewal(s: State, t0: State, p: PodName, b: Bounds) returns (t: State)
    requires OnTimePath(s, t0, b) && Orderly(t0, p, b) && t0.wire == multiset{}
    requires RunsAsMaster(t0, p) && t0.pods[p].alive && Holds(t0, p) && t0.pods[p].sidecar == Polling(t0.now)
    ensures OnTimePath(s, t, b) && Orderly(t, p, b)
    ensures t == t0.(pods := t0.pods[p := t0.pods[p].(sidecar := Renewing(t0.now, None))],
                     wire := multiset{Renew(p, t0.now)})
  {
    var t1 := Reads(s, t0, p, b);
    t := Do(t1, Decide(p, 0));
    OrderlyNext(s, t1, Decide(p, 0), t, p, b);
  }

  lemma Renews(s: State, t0: State, p: PodName, b: Bounds) returns (t: State)
    requires OnTimePath(s, t0, b) && Orderly(t0, p, b) && t0.wire == multiset{}
    requires RunsAsMaster(t0, p) && t0.pods[p].alive && Holds(t0, p) && t0.pods[p].sidecar == Polling(t0.now)
    ensures OnTimePath(s, t, b) && Steady(t, p, b) && t.now == t0.now
  {
    var t2 := SendsRenewal(s, t0, p, b);
    var t3 := Do(t2, Land(Renew(p, t0.now)));
    assert t3.wire == multiset{};
    OrderlyNext(s, t2, Land(Renew(p, t0.now)), t3, p, b);
    t := Do(t3, Hear(p));
    OrderlyNext(s, t3, Hear(p), t, p, b);
  }

  /** The pod the Lease names is made anew and its sidecar starts to poll. */
  lemma Restarts(s: State, t0: State, p: PodName, b: Bounds) returns (t: State)
    requires OnTimePath(s, t0, b) && Orderly(t0, p, b) && t0.wire == multiset{}
    requires t0.pods[p].Gone? && Holds(t0, p) && t0.lease.value.renewTime == Some(t0.now)
    ensures OnTimePath(s, t, b) && Orderly(t, p, b) && t.now == t0.now && t.wire == t0.wire && t.lease == t0.lease
    ensures RunsAsMaster(t, p) && t.pods[p].alive && t.pods[p].sidecar == Polling(t.now)
  {
    var t1 := Do(t0, PodInit(p, true));
    OrderlyNext(s, t0, PodInit(p, true), t1, p, b);
    var t2 := Do(t1, Process(p, true));
    OrderlyNext(s, t1, Process(p, true), t2, p, b);
    t := Do(t2, StartSidecar(p));
    OrderlyNext(s, t2, StartSidecar(p), t, p, b);
  }

  lemma {:induction false} Sleeps(s: State, t0: State, p: PodName, b: Bounds, n: nat) returns (t: State)
    requires OnTimePath(s, t0, b) && Orderly(t0, p, b) && t0.wire == multiset{}
    requires RunsAsMaster(t0, p) && t0.pods[p].sidecar.Sleeping? && t0.pods[p].sidecar.until == t0.now + n
    ensures t == t0.(now := t0.now + n)
    ensures OnTimePath(s, t, b) && Orderly(t, p, b)
    decreases n
  {
    if n == 0 {
      t := t0;
    } else {
      var t1 := Do(t0, Tick);
      OrderlyNext(s, t0, Tick, t1, p, b);
      t := Sleeps(s, t1, p, b, n - 1);
    }
  }

  lemma OneCycle(s: State, t0: State, p: PodName, b: Bounds) returns (t: State)
    requires OnTimePath(s, t0, b) && Steady(t0, p, b)
    ensures OnTimePath(s, t, b) && Steady(t, p, b) && t.now == t0.now + RENEW_INTERVAL
  {
    var t1 := Sleeps(s, t0, p, b, RENEW_INTERVAL);
    var t2 := Do(t1, Wake(p));
    OrderlyNext(s, t1, Wake(p), t2, p, b);
    t := Renews(s, t2, p, b);
  }

  /** From any initial state, for any bounds and any number of renewal periods,
      some on-time run elects p and still has it as master and holder after
      that many periods. So the timing results are not about an empty set. */
  lemma {:induction false} MasterCanStay(s: State, p: PodName, b: Bounds, periods: nat) returns (t: State)
    requires Initial(s) && p in s.pods
    ensures OnTimePath(s, t, b) && RunsAsMaster(t, p) && Holds(t, p)
    ensures Steady(t, p, b) && t.now == s.now + periods * RENEW_INTERVAL
  {
    if periods == 0 {
      t := Starts(s, p, b);
      t := Attempts(s, t, p, b);
      t := Wins(s, t, p, b);
      t := Restarts(s, t, p, b);
      t := Renews(s, t, p, b);
    } else {
      t := MasterCanStay(s, p, b, periods - 1);
      t := OneCycle(s, t, p, b);
    }
  }
}
