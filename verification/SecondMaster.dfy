/** When a second master is possible: exactly when a pod that is, or may still
    become, master has let its Lease go stale. */
module SecondMaster {
  import opened Common
  import opened ElectionTimes
  import opened LeaseProtocol
  import opened LeaseVersions
  import opened MasterExclusion

  /** No time passes and nobody deletes the Lease. */
  ghost predicate Instant(steps: seq<Step>) {
    forall i :: 0 <= i < |steps| ==> !steps[i].Tick? && !steps[i].DeleteLease?
  }

  ghost predicate Reaches(s: State, t: State) {
    exists states, steps :: ReachesBy(s, t, states, steps)
  }

  ghost predicate ReachesBy(s: State, t: State, states: seq<State>, steps: seq<Step>) {
    IsRun(states, steps) && Instant(steps) && states[0] == s && states[|steps|] == t
  }

  lemma ReachesSelf(s: State)
    ensures Reaches(s, s)
  {
    assert ReachesBy(s, s, [s], []);
  }

  lemma ReachesNext(s: State, t: State, step: Step)
    requires Reaches(s, t) && Enabled(t, step) && !step.Tick? && !step.DeleteLease?
    ensures Reaches(s, Do(t, step))
  {
    var states, steps :| ReachesBy(s, t, states, steps);
    RunExtends(states, steps, step, Do(t, step));
    assert ReachesBy(s, Do(t, step), states + [Do(t, step)], steps + [step]);
  }

  predicate TwoMasters(s: State) {
    exists p, q | p in s.pods && q in s.pods :: p != q && RunsAsMaster(s, p) && RunsAsMaster(s, q)
  }

  /** From t0 to t only q has moved, and no PATCH of another pod is gone. */
  ghost predicate OnlyMoved(t0: State, t: State, q: PodName) {
    && t.pods.Keys == t0.pods.Keys && t.now == t0.now
    && (forall p :: p in t0.pods && p != q ==> t.pods[p] == t0.pods[p])
    && (forall patch :: patch in t0.wire && patch.from != q ==> patch in t.wire)
  }

  /** q's pod is made afresh as a shadow whose sidecar is about to poll, and a
      Lease is there to be read. */
  lemma FreshPoller(s: State, t0: State, q: PodName) returns (t: State)
    requires Reaches(s, t0)
    requires q in t0.pods && q != "" && !LeaseFresh(t0)
    requires t0.lease.Some? ==> t0.lease.value.holder != q
    ensures Reaches(s, t) && OnlyMoved(t0, t, q)
    ensures t.lease.Some? && Expired(t.lease.value, t.now) && t.lease.value.holder != q
    ensures IsUp(t, q) && t.pods[q].sidecar == Polling(t.now)
  {
    t := t0;
    if t.lease.None? {
      ReachesNext(s, t, Bootstrap);
      t := Do(t, Bootstrap);
    }
    if IsUp(t, q) {
      ReachesNext(s, t, PodGone(q));
      t := Do(t, PodGone(q));
    }
    ReachesNext(s, t, PodInit(q, false));
    t := Do(t, PodInit(q, false));
    ReachesNext(s, t, StartSidecar(q));
    t := Do(t, StartSidecar(q));
  }

  /** A poller that finds the Lease expired, and whose changelog is recent,
      does not back off. */
  lemma ReadyToSwap(s: State, t0: State, q: PodName) returns (t: State)
    requires Reaches(s, t0)
    requires t0.lease.Some? && Expired(t0.lease.value, t0.now) && t0.lease.value.holder != q
    requires IsUp(t0, q) && t0.pods[q].sidecar == Polling(t0.now)
    ensures Reaches(s, t) && OnlyMoved(t0, t, q) && t.lease == t0.lease
    ensures IsUp(t, q) && t.pods[q].sidecar == BackingOff(t.lease.value.resVer, t.now)
  {
    ReachesNext(s, t0, ServeGet(q));
    t := Do(t0, ServeGet(q));
    var decide := Decide(q, if t0.now == 0 then 1 else t0.now);
    ReachesNext(s, t, decide);
    t := Do(t, decide);
  }

  /** Its compare-and-swap goes out and is accepted: the Lease now names q. */
  lemma Swap(s: State, t0: State, q: PodName) returns (t: State)
    requires Reaches(s, t0) && t0.lease.Some?
    requires IsUp(t0, q) && t0.pods[q].sidecar == BackingOff(t0.lease.value.resVer, t0.now)
    ensures Reaches(s, t) && OnlyMoved(t0, t, q)
    ensures IsUp(t, q) && t.lease.Some? && t.lease.value.holder == q
  {
    ReachesNext(s, t0, SendCas(q));
    t := Do(t0, SendCas(q));
    var land := Land(Cas(q, t0.lease.value.resVer, t0.now));
    ReachesNext(s, t, land);
    t := Do(t, land);
  }

  /** The pod the Lease names comes up as master. */
  lemma BecomeMaster(s: State, t0: State, q: PodName) returns (t: State)
    requires Reaches(s, t0) && q in t0.pods && t0.lease.Some? && t0.lease.value.holder == q
    ensures Reaches(s, t) && RunsAsMaster(t, q) && t.lease == t0.lease && t.wire == t0.wire && OnlyMoved(t0, t, q)
  {
    t := t0;
    if IsUp(t, q) {
      ReachesNext(s, t, PodGone(q));
      t := Do(t, PodGone(q));
    }
    ReachesNext(s, t, PodInit(q, true));
    t := Do(t, PodInit(q, true));
  }

  /** Once the Lease is stale, any pod but its holder can become master. */
  lemma TakeOver(s: State, t0: State, q: PodName) returns (t: State)
    requires Reaches(s, t0) && q in t0.pods && q != "" && !LeaseFresh(t0)
    requires t0.lease.Some? ==> t0.lease.value.holder != q
    ensures Reaches(s, t) && RunsAsMaster(t, q) && OnlyMoved(t0, t, q)
    ensures t.lease.Some? && t.lease.value.holder == q
  {
    t := FreshPoller(s, t0, q);
    t := ReadyToSwap(s, t, q);
    t := Swap(s, t, q);
    t := BecomeMaster(s, t, q);
  }

  predicate StillFresh(stamp: int, now: int) { now - stamp < LEASE_DURATION }

  /** While the Lease is fresh and every blind PATCH that is out carries a fresh
      stamp, the Lease stays fresh as long as no time passes. */
  ghost predicate FreshAt(s: State) {
    && LeaseFresh(s)
    && forall patch :: patch in s.wire && Blind(patch) ==> StillFresh(patch.stamp, s.now)
  }

  lemma FreshWireStep(s: State, step: Step, patch: Patch)
    requires Enabled(s, step) && FreshAt(s) && patch in Do(s, step).wire && Blind(patch)
    ensures StillFresh(patch.stamp, s.now)
  {
    if patch !in s.wire { assert step.Decide?; }
  }

  lemma FreshLeaseStep(s: State, step: Step)
    requires VersionsOk(s) && FreshAt(s) && !step.Tick? && !step.DeleteLease? && Enabled(s, step)
    ensures LeaseFresh(Do(s, step))
  {
    if step.Land? && Accepted(s.lease, step.patch) { StoredRevision(s, step.patch); }
  }

  lemma FreshAtStep(s: State, step: Step, s': State)
    requires VersionsOk(s) && FreshAt(s) && !step.Tick? && !step.DeleteLease?
    requires Enabled(s, step) && s' == Do(s, step)
    ensures FreshAt(s')
  {
    FreshLeaseStep(s, step);
    assert s'.now == s.now;
    forall patch | patch in s'.wire && Blind(patch) ensures StillFresh(patch.stamp, s'.now) {
      FreshWireStep(s, step, patch);
    }
  }

  lemma {:induction false} FreshAtRun(states: seq<State>, steps: seq<Step>, i: nat)
    requires IsRun(states, steps) && Instant(steps) && i < |states|
    requires VersionsOk(states[0]) && FreshAt(states[0])
    ensures VersionsOk(states[i]) && FreshAt(states[i])
  {
    if i > 0 {
      FreshAtRun(states, steps, i - 1);
      assert StepAt(states, steps, i - 1);
      VersionsOkStep(states[i - 1], steps[i - 1]);
      FreshAtStep(states[i - 1], steps[i - 1], states[i]);
    }
  }

  // ── Pods in line ─────────────────────────────────────────────────────────

  ghost predicate RenewalOut(s: State, p: PodName) {
    exists patch :: patch in s.wire && patch.Renew? && patch.from == p
  }

  /** p is master or may still become one without another acquisition: the
      Lease names it, it has read its own name or its renewal is on the way. */
  ghost predicate InLine(s: State, p: PodName) {
    p in s.pods && (RunsAsMaster(s, p) || Holds(s, p) || ReadOwnName(s, p) || RenewalOut(s, p))
  }

  /** A pod that has read its own name can send a renewal at once. */
  lemma SendsRenewal(s: State, t0: State, p: PodName) returns (t: State)
    requires Reaches(s, t0) && ReadOwnName(t0, p)
    ensures Reaches(s, t) && RenewalOut(t, p) && t.lease == t0.lease && OnlyMoved(t0, t, p)
  {
    ReachesNext(s, t0, Process(p, true));
    t := Do(t0, Process(p, true));
    ReachesNext(s, t, Decide(p, 0));
    t := Do(t, Decide(p, 0));
    assert Renew(p, t0.now) in t.wire;
  }

  /** Its renewal overwrites whoever has become holder meanwhile. */
  lemma RenewalMakesMaster(s: State, t0: State, p: PodName, q: PodName) returns (t: State)
    requires Reaches(s, t0) && p in t0.pods && q in t0.pods && q != p
    requires RenewalOut(t0, p) && RunsAsMaster(t0, q) && t0.lease.Some?
    ensures Reaches(s, t) && TwoMasters(t)
  {
    var patch :| patch in t0.wire && patch.Renew? && patch.from == p;
    ReachesNext(s, t0, Land(patch));
    t := Do(t0, Land(patch));
    OnlyActorMoves(t0, Land(patch), q);
    t := BecomeMaster(s, t, p);
    assert RunsAsMaster(t, q);
  }

  /** A stale Lease and a pod in line are enough for two masters. */
  lemma StaleMeansTwo(s: State, t0: State, p: PodName, q: PodName) returns (t: State)
    requires Reaches(s, t0) && InLine(t0, p) && q in t0.pods && q != p && q != ""
    requires !LeaseFresh(t0) && t0.lease.Some? && t0.lease.value.holder != q
    ensures Reaches(s, t) && TwoMasters(t)
  {
    t := t0;
    if RunsAsMaster(t0, p) || Holds(t0, p) {
      if !RunsAsMaster(t0, p) { t := BecomeMaster(s, t0, p); }
      t := TakeOver(s, t, q);
      assert RunsAsMaster(t, p);
    } else {
      if !RenewalOut(t0, p) { t := SendsRenewal(s, t0, p); }
      t := TakeOver(s, t, q);
      t := RenewalMakesMaster(s, t, p, q);
    }
  }

  /** A blind PATCH of p with a stamp of 30 seconds ago makes the Lease expired,
      however fresh it was, and keeps p in line if it is master, has read its
      own name or has a renewal out. */
  lemma LateLanding(s: State, t0: State, patch: Patch, p: PodName) returns (t: State)
    requires Reaches(s, t0) && t0.lease.Some? && p in t0.pods && patch.from == p
    requires patch in t0.wire && Blind(patch) && !StillFresh(patch.stamp, t0.now)
    requires RunsAsMaster(t0, p) || ReadOwnName(t0, p) || RenewalOut(t0, p)
    ensures Reaches(s, t) && InLine(t, p) && t.pods.Keys == t0.pods.Keys
    ensures !LeaseFresh(t) && t.lease.Some? && t.lease.value.holder in [p, ""]
  {
    ReachesNext(s, t0, Land(patch));
    t := Do(t0, Land(patch));
    assert t.lease.value.renewTime == Some(patch.stamp);
    if RenewalOut(t0, p) && !patch.Renew? {
      var renewal :| renewal in t0.wire && renewal.Renew? && renewal.from == p;
      assert renewal in t.wire;
    }
  }

  lemma LateMeansTwo(s: State, patch: Patch, p: PodName, q: PodName) returns (t: State)
    requires InLine(s, p) && q in s.pods && q != p && q != "" && s.lease.Some?
    requires patch in s.wire && Blind(patch) && !StillFresh(patch.stamp, s.now) && patch.from == p
    ensures Reaches(s, t) && TwoMasters(t)
  {
    ReachesSelf(s);
    t := s;
    if !RunsAsMaster(s, p) && Holds(s, p) { t := BecomeMaster(s, t, p); }
    t := LateLanding(s, t, patch, p);
    t := StaleMeansTwo(s, t, p, q);
  }

  /** With a pod in line the Lease names it or nobody, and every blind PATCH
      is its own. */
  lemma InLineOwns(s: State, p: PodName)
    requires VersionsOk(s) && ExclusiveClaims(s) && InLine(s, p)
    ensures s.lease.Some? && s.lease.value.holder in [p, ""] && p != ""
    ensures forall patch :: patch in s.wire && Blind(patch) ==> patch.from == p
  {
    if !Holds(s, p) { assert Claims(s, p); }
    forall patch | patch in s.wire && Blind(patch) ensures patch.from == p {
      assert BlindInFlight(s, patch.from) && Claims(s, patch.from);
    }
  }

  lemma FreshMeansOne(s: State, t: State)
    requires VersionsOk(s) && ExclusiveClaims(s) && FreshAt(s) && Reaches(s, t)
    ensures !TwoMasters(t)
  {
    var states, steps :| ReachesBy(s, t, states, steps);
    forall k | 0 <= k <= |steps| ensures Punctual(states[k]) { FreshAtRun(states, steps, k); }
    ExclusiveRun(states, steps, |steps|);
    ExclusiveMeansOneMaster(t);
  }

  /** Let p be in line and q another pod of the StatefulSet. Two masters are
      possible at this very instant if and only if the Lease is not fresh or a
      blind PATCH stamped 30 seconds ago is still on its way. An old master is
      never demoted: it reads a foreign name and merely turns to its shadow
      branch. */
  lemma SecondMasterIffStale(s: State, p: PodName, q: PodName)
    requires VersionsOk(s) && ExclusiveClaims(s) && InLine(s, p)
    requires q in s.pods && q != p
    ensures (exists t :: Reaches(s, t) && TwoMasters(t)) <==> !FreshAt(s)
  {
    InLineOwns(s, p);
    if !LeaseFresh(s) {
      ReachesSelf(s);
      var t := StaleMeansTwo(s, s, p, q);
    } else if patch :| patch in s.wire && Blind(patch) && !StillFresh(patch.stamp, s.now) {
      var t := LateMeansTwo(s, patch, p, q);
    } else {
      forall t | Reaches(s, t) ensures !TwoMasters(t) { FreshMeansOne(s, t); }
    }
  }
}
