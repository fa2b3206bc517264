/** Timing: bounds on calls and restarts under which no claimant ever lets the
    Lease reach 30 seconds, and hence mutual exclusion holds outright. Senders
    may crash, be deleted or give up at any moment: their PATCHes then land
    late, and can put renewTime back by as much as one call. */
module LeaseTiming {
  import opened Common
  import opened ElectionTimes
  import opened LeaseProtocol
  import opened LeaseVersions
  import opened MasterExclusion

  /** `call`: longest GET or PATCH, and longest stay of a PATCH on the wire.
      `restart`: the sidecar of a holder is polling at most this long after the
      Lease's renewTime, whenever it was (re)started. `retry`: total time a
      holder may lose to failed reads between renewals. `backoff`: longest
      back-off of a pod that is named holder while it still tries to acquire;
      MAX_DELAY asks for nothing. */
  datatype Bounds = Bounds(call: nat, restart: nat, retry: nat, backoff: nat)

  /** With restart = 10 + 2 * call, no retries and back-offs of at most
      5 - call this is 10 + 4 * call < 30. */
  predicate Feasible(b: Bounds) {
    && RENEW_INTERVAL + 2 * b.call <= b.restart
    && OBSERVE_INTERVAL + b.backoff + 3 * b.call <= b.restart
    && b.restart + b.retry + 2 * b.call < LEASE_DURATION
  }

  /** A pod that matters to the election: it runs as master, is named holder or
      has just read its own name. */
  predicate Engaged(s: State, p: PodName) {
    IsUp(s, p) && (s.pods[p].personality == Master || Holds(s, p) || ReadOwnName(s, p))
  }

  predicate SidecarOnTime(sc: Sidecar, now: int, b: Bounds) {
    match sc
    case Polling(i) => now <= i + b.call
    case Answered(_, i) => now <= i + b.call
    case Renewing(t, _) => now <= t + b.call
    case Releasing(t, _) => now <= t + b.call
    case Acquiring(_, t, _) => now <= t + b.call
    case BackingOff(_, u) => now <= u <= now + b.backoff
    case Sleeping(u) => now <= u
    case _ => true
  }

  /** A PATCH lands or is lost within one call, whatever becomes of its sender. */
  ghost predicate NoOldPatches(s: State, call: nat) {
    forall patch :: patch in s.wire ==> s.now <= patch.stamp + call
  }

  /** The environment keeps its bounds in this state. Nothing is asked of pods
      that do not matter to the election. */
  ghost predicate OnTime(s: State, b: Bounds) {
    && NoOldPatches(s, b.call)
    && (forall p :: Engaged(s, p) ==> SidecarOnTime(s.pods[p].sidecar, s.now, b))
    && (forall p :: Engaged(s, p) && s.pods[p].sidecar.Down? && s.lease.Some? && s.lease.value.renewTime.Some? ==>
          s.now <= s.lease.value.renewTime.value + b.restart)
    && (forall p :: IsUp(s, p) && Holds(s, p) ==> s.pods[p].wasted <= b.retry)
    // A pod that deletes itself or has released is gone before renewTime + 30.
    && (forall p :: Engaged(s, p) && (s.pods[p].sidecar.Deleting? || s.pods[p].released) ==> LeaseFresh(s))
    // HA is not switched off, nor the Lease deleted, while the role is claimed.
    && (Claimed(s) ==> s.lease.Some?)
  }

  // ── The invariant ────────────────────────────────────────────────────────

  /** How far a holder can be in its cycle, measured from the Lease's renewTime r. */
  predicate CycleOk(p: PodName, pod: Pod, r: int, b: Bounds)
    requires pod.Up?
  {
    var due := r + b.restart + pod.wasted;
    match pod.sidecar
    case Polling(i) => i <= due
    case Answered(l, i) => if l.holder == p then i <= due else i <= r + b.call
    case Renewing(t, reply) => t <= if reply == Some(true) then r + b.call else due + b.call
    case Releasing(t, _) => t <= due + b.call
    case BackingOff(_, u) => u <= r + b.backoff + 2 * b.call
    case Acquiring(_, t, _) => t <= r + b.backoff + 2 * b.call
    case Sleeping(u) => u <= due
    case Deleting(u) => r + DELETE_PAUSE <= u
    case Down => true
  }

  ghost predicate HoldersOnCycle(s: State, b: Bounds) {
    forall p :: IsUp(s, p) && Holds(s, p) ==>
      s.lease.value.renewTime.Some? && CycleOk(p, s.pods[p], s.lease.value.renewTime.value, b)
  }

  predicate Within(s: State, t: int, slack: int) {
    s.lease.Some? && s.lease.value.renewTime.Some? && t <= s.lease.value.renewTime.value + slack
  }

  /** Whoever has read its own name polled in time, and a blind PATCH was sent
      in time, even if its sender is gone. */
  ghost predicate ClaimsRecent(s: State, b: Bounds) {
    && (forall p :: ReadOwnName(s, p) ==> Within(s, s.pods[p].sidecar.issued, b.restart + b.retry))
    && (forall patch :: patch in s.wire && Blind(patch) ==> Within(s, patch.stamp, b.restart + b.retry + b.call))
  }

  /** Sleeps are short, calls began in the past, and a pod that waits for its
      own deletion sends nothing. */
  ghost predicate Paced(s: State, p: PodName) {
    IsUp(s, p) ==>
      match s.pods[p].sidecar
      case Polling(i) => i <= s.now
      case Answered(_, i) => i <= s.now
      case Sleeping(u) => u <= s.now + RENEW_INTERVAL
      case Deleting(u) => forall patch :: patch in s.wire && patch.from == p ==> patch.stamp + DELETE_PAUSE <= u
      case _ => true
  }

  ghost predicate AllPaced(s: State) { forall p :: Paced(s, p) }

  ghost predicate TimingOk(s: State, b: Bounds) {
    VersionsOk(s) && ExclusiveClaims(s) && AllPaced(s) && HoldersOnCycle(s, b) && ClaimsRecent(s, b)
  }

  lemma OnTimeMeansPunctual(s: State, b: Bounds)
    requires Feasible(b) && TimingOk(s, b) && OnTime(s, b)
    ensures Punctual(s)
  {
    if p :| Claims(s, p) {
      if BlindInFlight(s, p) {
        var patch :| patch in s.wire && Blind(patch) && patch.from == p;
        assert s.now <= patch.stamp + b.call && Within(s, patch.stamp, b.restart + b.retry + b.call);
      } else {
        assert Engaged(s, p);
      }
    }
  }

  // ── One step ─────────────────────────────────────────────────────────────

  lemma OnlyActorSends(s: State, step: Step, s': State, p: PodName, patch: Patch)
    requires Enabled(s, step) && s' == Do(s, step) && p != Actor(step)
    requires patch in s'.wire && patch.from == p
    ensures patch in s.wire
  {
  }

  lemma OthersStayPaced(s: State, step: Step, s': State, p: PodName)
    requires VersionsOk(s) && Paced(s, p) && Enabled(s, step) && s' == Do(s, step)
    requires IsUp(s, p) && p != Actor(step)
    ensures Paced(s', p)
  {
    OnlyActorMoves(s, step, p);
    forall patch | patch in s'.wire && patch.from == p ensures patch in s.wire {
      OnlyActorSends(s, step, s', p, patch);
    }
  }

  lemma LongPause(sc: Sidecar, ok: bool, now: int)
    requires InPatch(sc) && AfterPatch(sc, ok, now).Deleting?
    ensures now + DELETE_PAUSE <= AfterPatch(sc, ok, now).until
  {
  }

  /** The wait takes a minute at least. */
  lemma BeginsToWait(s: State, step: Step, s': State, p: PodName)
    requires Enabled(s, step) && s' == Do(s, step) && IsUp(s, p) && p == Actor(step)
    requires IsUp(s', p) && s'.pods[p].sidecar.Deleting?
    ensures s'.pods[p].sidecar == s.pods[p].sidecar || s.now + DELETE_PAUSE <= s'.pods[p].sidecar.until
  {
    match step {
      case Land(patch) => LandedSidecar(s, patch);
      case Decide(_, _) => assert false;
      case Hear(_) => LongPause(s.pods[p].sidecar, s.pods[p].sidecar.reply.value, s.now);
      case GiveUp(_) => LongPause(s.pods[p].sidecar, false, s.now);
      case _ =>
    }
  }

  lemma DeleterStaysPaced(s: State, step: Step, s': State, p: PodName)
    requires VersionsOk(s) && Paced(s, p) && Enabled(s, step) && s' == Do(s, step)
    requires IsUp(s, p) && p == Actor(step) && IsUp(s', p) && s'.pods[p].sidecar.Deleting?
    ensures Paced(s', p)
  {
    BeginsToWait(s, step, s', p);
    forall patch | patch in s'.wire && patch.from == p
      ensures patch.stamp + DELETE_PAUSE <= s'.pods[p].sidecar.until
    {
      assert PatchOk(s, patch);
    }
  }

  /** A pause is short, and a decision leaves no GET open. */
  lemma DecidedPaced(s: State, p: PodName, mtime: int)
    requires IsUp(s, p) && s.pods[p].sidecar.Answered?
    ensures var sc := Decided(s, p, mtime).pods[p].sidecar;
            !sc.Polling? && !sc.Answered? && (sc.Sleeping? ==> sc.until <= s.now + RENEW_INTERVAL)
  {
  }

  /** Every other step that a pod takes itself leaves it paced. */
  lemma OwnStepStaysPaced(s: State, step: Step, s': State, p: PodName)
    requires Paced(s, p) && Enabled(s, step) && s' == Do(s, step)
    requires IsUp(s, p) && p == Actor(step) && IsUp(s', p) && !s'.pods[p].sidecar.Deleting?
    ensures Paced(s', p)
  {
    match step {
      case Decide(_, mtime) => DecidedPaced(s, p, mtime);
      case Land(patch) => LandedSidecar(s, patch);
      case _ =>
    }
  }

  lemma PacedStep(s: State, step: Step, s': State, p: PodName)
    requires VersionsOk(s) && Paced(s, p) && Enabled(s, step) && s' == Do(s, step)
    ensures Paced(s', p)
  {
    if IsUp(s', p) {
      if !IsUp(s, p) {
        NewPodIsDown(s, step, p);
      } else if p != Actor(step) {
        OthersStayPaced(s, step, s', p);
      } else if s'.pods[p].sidecar.Deleting? {
        DeleterStaysPaced(s, step, s', p);
      } else {
        OwnStepStaysPaced(s, step, s', p);
      }
    }
  }

  /** A blind PATCH is sent by a pod that has read its own name. */
  lemma SentByReader(s: State, step: Step, patch: Patch)
    requires Enabled(s, step) && patch in Do(s, step).wire && patch !in s.wire && Blind(patch)
    ensures ReadOwnName(s, patch.from) && patch.stamp == s.now && Do(s, step).lease == s.lease
  {
  }

  lemma ReadersOldAndNew(s: State, step: Step, p: PodName)
    requires Enabled(s, step) && ReadOwnName(Do(s, step), p)
    ensures var sc' := Do(s, step).pods[p].sidecar;
            || (ReadOwnName(s, p) && s.pods[p].sidecar == sc')
            || (Holds(s, p) && IsUp(s, p) && s.pods[p].sidecar == Polling(sc'.issued) && Do(s, step).lease == s.lease)
  {
    AnsweredByRead(s, step, p);
  }

  /** A claimed Lease is only rewritten by an accepted PATCH that is at most one
      call old, so what began before the write is recent after it. */
  lemma StaysWithin(s: State, step: Step, s': State, p: PodName, t: int, slack: int, b: Bounds)
    requires TimingOk(s, b) && OnTime(s, b) && Punctual(s) && Enabled(s, step) && s' == Do(s, step)
    requires Claims(s, p) && s'.lease.Some?
    requires Within(s, t, slack) && t <= s.now && b.call <= slack
    ensures Within(s', t, slack)
  {
    ClaimSurvives(s, step, p);
  }

  lemma ReadersRecentStep(s: State, step: Step, s': State, p: PodName, b: Bounds)
    requires Feasible(b) && TimingOk(s, b) && OnTime(s, b) && Punctual(s) && Enabled(s, step)
    requires s' == Do(s, step) && s'.lease.Some? && ReadOwnName(s', p)
    ensures Within(s', s'.pods[p].sidecar.issued, b.restart + b.retry)
  {
    ReadersOldAndNew(s, step, p);
    if ReadOwnName(s, p) {
      assert Paced(s, p) && Claims(s, p);
      StaysWithin(s, step, s', p, s.pods[p].sidecar.issued, b.restart + b.retry, b);
    } else {
      assert CycleOk(p, s.pods[p], s.lease.value.renewTime.value, b);
    }
  }

  lemma WireRecentStep(s: State, step: Step, s': State, patch: Patch, b: Bounds)
    requires Feasible(b) && TimingOk(s, b) && OnTime(s, b) && Punctual(s) && Enabled(s, step)
    requires s' == Do(s, step) && s'.lease.Some? && patch in s'.wire && Blind(patch)
    ensures Within(s', patch.stamp, b.restart + b.retry + b.call)
  {
    if patch in s.wire {
      assert PatchOk(s, patch) && BlindInFlight(s, patch.from) && Claims(s, patch.from);
      StaysWithin(s, step, s', patch.from, patch.stamp, b.restart + b.retry + b.call, b);
    } else {
      SentByReader(s, step, patch);
      assert Engaged(s, patch.from);
    }
  }

  lemma ClaimsRecentStep(s: State, step: Step, s': State, b: Bounds)
    requires Feasible(b) && TimingOk(s, b) && OnTime(s, b) && Punctual(s) && Enabled(s, step)
    requires s' == Do(s, step) && (Claimed(s') ==> s'.lease.Some?)
    ensures ClaimsRecent(s', b)
  {
    forall p | ReadOwnName(s', p) ensures Within(s', s'.pods[p].sidecar.issued, b.restart + b.retry) {
      assert Claims(s', p);
      ReadersRecentStep(s, step, s', p, b);
    }
    forall patch | patch in s'.wire && Blind(patch) ensures Within(s', patch.stamp, b.restart + b.retry + b.call) {
      assert BlindInFlight(s', patch.from) && Claims(s', patch.from);
      WireRecentStep(s, step, s', patch, b);
    }
  }

  /** Whatever a pod is doing when a PATCH at most one call old makes it holder,
      or keeps it so, it is on the cycle that this write starts. */
  lemma CycleStarts(p: PodName, pod: Pod, r: int, now: int, b: Bounds)
    requires Feasible(b) && pod.Up? && SidecarOnTime(pod.sidecar, now, b) && r <= now <= r + b.call
    requires match pod.sidecar
             case Polling(i) => i <= now
             case Answered(_, i) => i <= now
             case Renewing(t, _) => t <= now
             case Releasing(t, _) => t <= now
             case Acquiring(_, t, _) => t <= now
             case Sleeping(u) => u <= now + RENEW_INTERVAL
             case Deleting(u) => r + DELETE_PAUSE <= u
             case _ => true
    ensures CycleOk(p, pod, r, b)
  {
  }

  lemma AcceptedLanding(s: State, patch: Patch, s': State, p: PodName, b: Bounds)
    requires Feasible(b) && TimingOk(s, b) && OnTime(s, b) && patch in s.wire && Accepted(s.lease, patch)
    requires s' == Landed(s, patch) && VersionsOk(s') && OnTime(s', b) && Paced(s', p)
    requires IsUp(s', p) && Holds(s', p)
    ensures s'.lease.value.renewTime.Some? && CycleOk(p, s'.pods[p], s'.lease.value.renewTime.value, b)
  {
    assert PatchOk(s, patch) && s.now <= patch.stamp + b.call;
    assert Paced(s, p) && SidecarOk(s', s'.pods[p].sidecar) && Engaged(s', p);
    CycleStarts(p, s'.pods[p], patch.stamp, s'.now, b);
  }

  /** What the holder decides after a read keeps it on its cycle. */
  lemma DecidedCycle(s: State, p: PodName, mtime: int, r: int, b: Bounds)
    requires Feasible(b) && IsUp(s, p) && s.pods[p].sidecar.Answered?
    requires CycleOk(p, s.pods[p], r, b) && SidecarOnTime(s.pods[p].sidecar, s.now, b)
    requires SidecarOnTime(Decided(s, p, mtime).pods[p].sidecar, s.now, b)
    ensures CycleOk(p, Decided(s, p, mtime).pods[p], r, b)
  {
  }

  /** So does what it does after a PATCH, whether or not the answer came. */
  lemma AfterPatchCycle(p: PodName, pod: Pod, ok: bool, wasted: nat, now: int, r: int, b: Bounds)
    requires Feasible(b) && pod.Up? && InPatch(pod.sidecar) && r <= now
    requires CycleOk(p, pod, r, b) && SidecarOnTime(pod.sidecar, now, b)
    requires ok ==> HasReply(pod.sidecar) && pod.sidecar.reply == Some(true)
    ensures CycleOk(p, pod.(wasted := wasted, sidecar := AfterPatch(pod.sidecar, ok, now)), r, b)
  {
  }

  /** Starting, polling, reading, failing to read and trying to acquire. */
  lemma PollingCycle(s: State, step: Step, s': State, p: PodName, r: int, b: Bounds)
    requires Feasible(b) && Enabled(s, step) && s' == Do(s, step) && p == Actor(step)
    requires !step.Land? && !step.Decide? && !step.Hear? && !step.GiveUp?
    requires IsUp(s, p) && IsUp(s', p) && Holds(s, p)
    requires CycleOk(p, s.pods[p], r, b) && SidecarOnTime(s.pods[p].sidecar, s.now, b) && r <= s.now
    requires s.pods[p].sidecar.Down? ==> s.now <= r + b.restart
    requires s.pods[p].sidecar.Deleting? ==> s.now < r + LEASE_DURATION
    ensures CycleOk(p, s'.pods[p], r, b)
  {
  }

  /** The holder moves through its cycle within bounds while nothing is written. */
  lemma OwnCycleStep(s: State, step: Step, s': State, p: PodName, r: int, b: Bounds)
    requires Feasible(b) && Enabled(s, step) && s' == Do(s, step) && p == Actor(step) && !step.Land?
    requires IsUp(s, p) && IsUp(s', p) && Holds(s, p)
    requires CycleOk(p, s.pods[p], r, b) && SidecarOnTime(s.pods[p].sidecar, s.now, b)
    requires SidecarOnTime(s'.pods[p].sidecar, s.now, b)
    requires r <= s.now
    requires s.pods[p].sidecar.Down? ==> s.now <= r + b.restart
    requires s.pods[p].sidecar.Deleting? ==> s.now < r + LEASE_DURATION
    ensures CycleOk(p, s'.pods[p], r, b)
  {
    var pod := s.pods[p];
    match step {
      case Decide(_, mtime) => DecidedCycle(s, p, mtime, r, b);
      case Hear(_) => AfterPatchCycle(p, pod, pod.sidecar.reply.value, s'.pods[p].wasted, s.now, r, b);
      case GiveUp(_) => AfterPatchCycle(p, pod, false, pod.wasted, s.now, r, b);
      case _ => PollingCycle(s, step, s', p, r, b);
    }
  }

  /** A refused PATCH changes no more than the answer its sender waits for. */
  lemma RefusedLanding(s: State, patch: Patch, r: int, b: Bounds)
    requires patch in s.wire && !Accepted(s.lease, patch) && Holds(s, patch.from) && IsUp(s, patch.from)
    requires CycleOk(patch.from, s.pods[patch.from], r, b)
    ensures Landed(s, patch).lease == s.lease
    ensures CycleOk(patch.from, Landed(s, patch).pods[patch.from], r, b)
  {
  }

  lemma CycleStep(s: State, step: Step, s': State, p: PodName, b: Bounds)
    requires Feasible(b) && TimingOk(s, b) && OnTime(s, b) && Enabled(s, step) && s' == Do(s, step) && OnTime(s', b)
    requires !(step.Land? && Accepted(s.lease, step.patch)) && s'.lease == s.lease && s'.now >= s.now
    requires IsUp(s, p) && IsUp(s', p) && Holds(s, p)
    ensures CycleOk(p, s'.pods[p], s.lease.value.renewTime.value, b)
  {
    var r := s.lease.value.renewTime.value;
    assert CycleOk(p, s.pods[p], r, b);
    assert Engaged(s, p) && Engaged(s', p);
    if p != Actor(step) {
      OnlyActorMoves(s, step, p);
    } else if step.Land? {
      RefusedLanding(s, step.patch, r, b);
    } else {
      OwnCycleStep(s, step, s', p, r, b);
    }
  }

  lemma HolderStep(s: State, step: Step, s': State, p: PodName, b: Bounds)
    requires Feasible(b) && TimingOk(s, b) && OnTime(s, b) && Enabled(s, step) && s' == Do(s, step) && OnTime(s', b)
    requires VersionsOk(s') && Paced(s', p) && IsUp(s', p) && Holds(s', p)
    ensures s'.lease.value.renewTime.Some? && CycleOk(p, s'.pods[p], s'.lease.value.renewTime.value, b)
  {
    if step.Land? && Accepted(s.lease, step.patch) {
      AcceptedLanding(s, step.patch, s', p, b);
    } else {
      assert s'.lease == s.lease;
      if IsUp(s, p) { CycleStep(s, step, s', p, b); } else { NewPodIsDown(s, step, p); }
    }
  }

  lemma TimingOkStep(s: State, step: Step, s': State, b: Bounds)
    requires Feasible(b) && TimingOk(s, b) && OnTime(s, b) && Enabled(s, step)
    requires s' == Do(s, step) && OnTime(s', b)
    ensures TimingOk(s', b)
  {
    OnTimeMeansPunctual(s, b);
    VersionsOkStep(s, step);
    ExclusiveClaimsStep(s, step);
    ClaimsRecentStep(s, step, s', b);
    forall p ensures Paced(s', p) {
      assert Paced(s, p);
      PacedStep(s, step, s', p);
    }
    forall p | IsUp(s', p) && Holds(s', p)
      ensures s'.lease.value.renewTime.Some? && CycleOk(p, s'.pods[p], s'.lease.value.renewTime.value, b)
    {
      HolderStep(s, step, s', p, b);
    }
  }

  // ── Runs ─────────────────────────────────────────────────────────────────

  ghost predicate OnTimeUpTo(states: seq<State>, i: nat, b: Bounds) {
    i < |states| && forall k :: 0 <= k <= i ==> OnTime(states[k], b)
  }

  lemma {:induction false} TimingRun(states: seq<State>, steps: seq<Step>, i: nat, b: Bounds)
    requires Feasible(b) && IsRun(states, steps) && Initial(states[0])
    requires OnTimeUpTo(states, i, b)
    ensures TimingOk(states[i], b) && Punctual(states[i])
  {
    if i == 0 {
      InitialVersionsOk(states[0]);
      InitialClaims(states[0]);
    } else {
      TimingRun(states, steps, i - 1, b);
      assert StepAt(states, steps, i - 1);
      TimingOkStep(states[i - 1], steps[i - 1], states[i], b);
    }
    OnTimeMeansPunctual(states[i], b);
  }

  /** On every run that keeps its bounds, for every startup grace period, a live
      master's Lease never ages to 30 seconds, unless it has released it. */
  lemma LiveMasterKeepsLease(states: seq<State>, steps: seq<Step>, i: nat, b: Bounds, p: PodName)
    requires Feasible(b) && IsRun(states, steps) && Initial(states[0])
    requires OnTimeUpTo(states, i, b)
    requires RunsAsMaster(states[i], p)
    ensures LeaseFresh(states[i])
    ensures Holds(states[i], p) || states[i].pods[p].released
  {
    TimingRun(states, steps, i, b);
    ExclusiveMeansOneMaster(states[i]);
    assert Claims(states[i], p);
  }

  /** So on every such run there is never more than one master. */
  lemma TimedRunsAreExclusive(states: seq<State>, steps: seq<Step>, i: nat, b: Bounds)
    requires Feasible(b) && IsRun(states, steps) && Initial(states[0])
    requires OnTimeUpTo(states, i, b)
    ensures MutualExclusion(states[i])
  {
    forall k | 0 <= k <= i ensures Punctual(states[k]) { TimingRun(states, steps, k, b); }
    AtMostOneMaster(states, steps, i);
  }
}
