/** Bounded failover: once the holder has stopped, the Lease changes hands
    within 30 + 5 + 15 seconds and two calls, on every interleaving. */
module LeaseFailover {
  import opened Common
  import opened ElectionTimes
  import opened LeaseProtocol
  import opened LeaseVersions

  /** The record the stopped holder left behind, last renewed at r. */
  predicate Abandoned(s: State, l: Lease, r: int) {
    s.lease == Some(l) && l.renewTime == Some(r)
  }

  /** Nothing of the old holder is on the wire, nor any blind PATCH, and nobody
      else has read its own name. The holder's pod may be gone, restarting, cut
      off or hung. */
  ghost predicate HolderStopped(s: State, l: Lease) {
    && (forall patch :: patch in s.wire ==> patch.Cas? && patch.from != l.holder)
    && (forall p :: p != l.holder && IsUp(s, p) && s.pods[p].sidecar.Answered? ==> s.pods[p].sidecar.seen.holder != p)
  }

  /** The shadow q sleeps between polls or has just sent its GET. */
  predicate AboutToPoll(s: State, q: PodName) {
    && IsUp(s, q)
    && ((s.pods[q].sidecar.Sleeping? && s.pods[q].sidecar.until <= s.now + OBSERVE_INTERVAL)
        || s.pods[q].sidecar == Polling(s.now))
  }

  /** q's sleeps end when due and its calls take at most d seconds. */
  predicate KeepsPace(s: State, q: PodName, d: nat) {
    && IsUp(s, q)
    && match s.pods[q].sidecar
       case Polling(i) => s.now <= i + d
       case Answered(_, i) => s.now <= i + d
       case Acquiring(_, t, _) => s.now <= t + d
       case BackingOff(_, u) => s.now <= u
       case Sleeping(u) => s.now <= u
       case _ => true
  }

  /** Steps that would stop q, let the old holder send anything or take the
      Lease away; every other step of every pod may interleave freely. */
  predicate Disturbs(step: Step, q: PodName, holder: PodName) {
    match step
    case DeleteLease => true
    case Decide(p, _) => p == holder
    case SendCas(p) => p == holder
    case PodGone(p) => p == q
    case CrashSidecar(p) => p == q
    case FailGet(p) => p == q
    case GiveUp(p) => p == q
    case Drop(patch) => patch.from == q
    case _ => false
  }

  /** Latest moment, counted from m, by which each stage is over. */
  predicate OnItsWay(s: State, q: PodName, l: Lease, m: int, d: nat) {
    && IsUp(s, q)
    && match s.pods[q].sidecar
       case Sleeping(u) => u <= m + OBSERVE_INTERVAL
       case Polling(i) => i <= m + OBSERVE_INTERVAL
       case Answered(seen, i) => seen == l && i <= m + OBSERVE_INTERVAL
       case BackingOff(rv, u) => rv == l.resVer && u <= m + OBSERVE_INTERVAL + d + MAX_DELAY
       case Acquiring(rv, t, reply) =>
         && rv == l.resVer && reply.None? && Cas(q, rv, t) in s.wire
         && t <= m + OBSERVE_INTERVAL + d + MAX_DELAY
       case _ => false
  }

  function Deadline(m: int, d: nat): int { m + OBSERVE_INTERVAL + MAX_DELAY + 2 * d }

  lemma HolderStoppedStep(s: State, step: Step, q: PodName, l: Lease, r: int)
    requires VersionsOk(s) && Abandoned(s, l, r) && HolderStopped(s, l)
    requires Enabled(s, step) && !Disturbs(step, q, l.holder) && !Acquires(s, step)
    ensures Abandoned(Do(s, step), l, r) && HolderStopped(Do(s, step), l)
  {
    var s' := Do(s, step);
    forall p | IsUp(s', p) && s'.pods[p].sidecar.Answered? && p != l.holder
      ensures s'.pods[p].sidecar.seen.holder != p
    {
      ForeignRead(s, step, q, l, r, p);
    }
  }

  lemma ForeignRead(s: State, step: Step, q: PodName, l: Lease, r: int, p: PodName)
    requires VersionsOk(s) && Abandoned(s, l, r) && HolderStopped(s, l)
    requires Enabled(s, step) && !Disturbs(step, q, l.holder)
    requires p != l.holder && IsUp(Do(s, step), p) && Do(s, step).pods[p].sidecar.Answered?
    ensures Do(s, step).pods[p].sidecar.seen.holder != p
  {
    AnsweredByRead(s, step, p);
  }

  /** q never goes back: each of its steps, and each step of anybody else, leaves
      it on its way to a compare-and-swap with the current revision. */
  lemma OnItsWayStep(s: State, step: Step, q: PodName, l: Lease, r: int, m: int, d: nat)
    requires q != l.holder && VersionsOk(s) && Abandoned(s, l, r) && HolderStopped(s, l)
    requires Enabled(s, step) && !Disturbs(step, q, l.holder) && !Acquires(s, step)
    requires OnItsWay(s, q, l, m, d) && KeepsPace(s, q, d)
    requires r + LEASE_DURATION <= m
    ensures OnItsWay(Do(s, step), q, l, m, d)
  {
    if q != Actor(step) {
      OnlyActorMoves(s, step, q);
      OthersKeepPatches(s, step, q);
    } else if step.Land? {
      assert step.patch.Cas?;
    } else {
      OwnPollStep(s, step, q, l, r, m, d);
    }
  }

  lemma OthersKeepPatches(s: State, step: Step, q: PodName)
    requires Enabled(s, step) && !(step.Drop? && step.patch.from == q) && q != Actor(step)
    ensures forall patch :: patch in s.wire && patch.from == q ==> patch in Do(s, step).wire
  {
  }

  lemma OwnPollStep(s: State, step: Step, q: PodName, l: Lease, r: int, m: int, d: nat)
    requires "" !in s.pods && Abandoned(s, l, r) && l.holder != q
    requires Enabled(s, step) && !Disturbs(step, q, l.holder) && q == Actor(step) && !step.Land?
    requires OnItsWay(s, q, l, m, d) && KeepsPace(s, q, d)
    requires r + LEASE_DURATION <= m
    ensures OnItsWay(Do(s, step), q, l, m, d)
  {
  }

  ghost predicate FailoverRun(states: seq<State>, steps: seq<Step>, q: PodName, l: Lease, r: int, d: nat) {
    && IsRun(states, steps)
    && VersionsOk(states[0]) && Abandoned(states[0], l, r) && HolderStopped(states[0], l)
    && AboutToPoll(states[0], q) && q != l.holder
    && (forall k :: 0 <= k < |steps| ==> !Disturbs(steps[k], q, l.holder))
    && (forall k :: 0 <= k < |states| ==> states[k].lease == Some(l) ==> KeepsPace(states[k], q, d))
  }

  /** Step k makes a pod other than the old holder the new one. */
  predicate Elects(states: seq<State>, steps: seq<Step>, k: nat, l: Lease)
    requires k < |steps| && k + 1 < |states|
  {
    && Acquires(states[k], steps[k])
    && steps[k].patch.from != l.holder
    && states[k + 1].lease.Some?
    && states[k + 1].lease.value.holder == steps[k].patch.from
  }

  ghost predicate ElectedBy(states: seq<State>, steps: seq<Step>, i: nat, l: Lease)
    requires |states| == |steps| + 1
  {
    exists k: nat :: k < i && k < |steps| && Elects(states, steps, k, l)
  }

  lemma AcquisitionElects(s: State, step: Step, l: Lease)
    requires VersionsOk(s) && HolderStopped(s, l) && Enabled(s, step) && Acquires(s, step)
    ensures step.patch.from != l.holder
    ensures Do(s, step).lease.Some? && Do(s, step).lease.value.holder == step.patch.from
  {
    StoredRevision(s, step.patch);
  }

  lemma {:induction false} StillWaiting(
    states: seq<State>, steps: seq<Step>, i: nat, q: PodName, l: Lease, r: int, d: nat, m: int)
    requires FailoverRun(states, steps, q, l, r, d) && i < |states|
    requires m >= states[0].now && m >= r + LEASE_DURATION
    requires !ElectedBy(states, steps, i, l)
    ensures VersionsOk(states[i]) && Abandoned(states[i], l, r) && HolderStopped(states[i], l)
    ensures OnItsWay(states[i], q, l, m, d)
  {
    if i > 0 {
      var s, step := states[i - 1], steps[i - 1];
      StillWaiting(states, steps, i - 1, q, l, r, d, m);
      assert StepAt(states, steps, i - 1);
      assert !Elects(states, steps, i - 1, l);
      if Acquires(s, step) { AcquisitionElects(s, step, l); }
      WaitingStep(s, step, states[i], q, l, r, m, d);
    }
  }

  lemma WaitingStep(s: State, step: Step, s': State, q: PodName, l: Lease, r: int, m: int, d: nat)
    requires q != l.holder && VersionsOk(s) && Abandoned(s, l, r) && HolderStopped(s, l)
    requires Enabled(s, step) && !Disturbs(step, q, l.holder) && !Acquires(s, step) && s' == Do(s, step)
    requires OnItsWay(s, q, l, m, d) && KeepsPace(s, q, d) && r + LEASE_DURATION <= m
    ensures VersionsOk(s') && Abandoned(s', l, r) && HolderStopped(s', l) && OnItsWay(s', q, l, m, d)
  {
    VersionsOkStep(s, step);
    HolderStoppedStep(s, step, q, l, r);
    OnItsWayStep(s, step, q, l, r, m, d);
  }

  /** If the last renewal is stamped r and the holder sends nothing more, then once the clock
      has passed r + 30 + 5 + 15 + 2d (counted from the start of observation if
      that is later) another pod is or has been the holder, provided one shadow keeps
      polling with calls of at most d seconds. */
  lemma FailoverIsBounded(states: seq<State>, steps: seq<Step>, i: nat, q: PodName, l: Lease, r: int, d: nat)
    requires FailoverRun(states, steps, q, l, r, d) && i < |states|
    requires states[i].now > r + LEASE_DURATION + OBSERVE_INTERVAL + MAX_DELAY + 2 * d
    requires states[i].now > states[0].now + OBSERVE_INTERVAL + MAX_DELAY + 2 * d
    ensures ElectedBy(states, steps, i, l)
  {
    if !ElectedBy(states, steps, i, l) {
      var m := if states[0].now > r + LEASE_DURATION then states[0].now else r + LEASE_DURATION;
      StillWaiting(states, steps, i, q, l, r, d, m);
      assert false;
    }
  }

  predicate MaySleepOn(sc: Sidecar, now: int) { (sc.Sleeping? || sc.BackingOff?) && now < sc.until }

  /** The bound is not kept by blocking the clock: as long as nobody has
      acquired, q or the server serving q can always take a step. */
  lemma NeverStuck(s: State, q: PodName, l: Lease, r: int, m: int, d: nat) returns (step: Step)
    requires VersionsOk(s) && Abandoned(s, l, r) && q != l.holder
    requires OnItsWay(s, q, l, m, d) && KeepsPace(s, q, d)
    ensures Enabled(s, step) && !Disturbs(step, q, l.holder)
    ensures Actor(step) == q || (step == Tick && MaySleepOn(s.pods[q].sidecar, s.now))
  {
    match s.pods[q].sidecar {
      case Sleeping(u) => step := if u <= s.now then Wake(q) else Tick;
      case Polling(_) => step := ServeGet(q);
      case Answered(_, _) => step := Decide(q, 0);
      case BackingOff(_, u) => step := if u <= s.now then SendCas(q) else Tick;
      case Acquiring(rv, t, _) => step := Land(Cas(q, rv, t));
    }
  }
}
