/** Mutual exclusion of PERSONALITY=master, and exactly what it rests on. */
module MasterExclusion {
  import opened LeaseProtocol
  import opened LeaseVersions

  // ── Claims on the master role ────────────────────────────────────────────

  /** Renewals and releases carry no resourceVersion: they overwrite whatever
      the record has become. */
  predicate Blind(patch: Patch) { !patch.Cas? }

  ghost predicate BlindInFlight(s: State, p: PodName) {
    exists patch :: patch in s.wire && Blind(patch) && patch.from == p
  }

  predicate ReadOwnName(s: State, p: PodName) {
    IsUp(s, p) && s.pods[p].sidecar.Answered? && s.pods[p].sidecar.seen.holder == p
  }

  /** p runs as master, has just read its own name, or has a blind PATCH out. */
  ghost predicate Claims(s: State, p: PodName) {
    RunsAsMaster(s, p) || ReadOwnName(s, p) || BlindInFlight(s, p)
  }

  predicate LeaseFresh(s: State) { s.lease.Some? && !Expired(s.lease.value, s.now) }

  /** Nobody who claims the role has let the Lease reach 30 seconds (or lost
      it to a deletion). */
  ghost predicate Punctual(s: State) {
    (exists p :: Claims(s, p)) ==> LeaseFresh(s)
  }

  ghost predicate ExclusiveClaims(s: State) {
    && (forall p, q :: Claims(s, p) && Claims(s, q) ==> p == q)
    && (forall p :: Claims(s, p) ==>
          p in s.pods && s.lease.Some? && s.lease.value.renewTime.Some? && s.lease.value.holder in [p, ""])
    && (forall p :: RunsAsMaster(s, p) && s.lease.Some? && s.lease.value.holder == "" ==> s.pods[p].released)
  }

  /** The ADR's promise: one master at a time, and it is the holder or has
      just released the Lease. */
  ghost predicate MutualExclusion(s: State) {
    && (forall p, q :: RunsAsMaster(s, p) && RunsAsMaster(s, q) ==> p == q)
    && (forall p :: RunsAsMaster(s, p) ==>
          s.lease.Some? && (s.lease.value.holder == p || (s.lease.value.holder == "" && s.pods[p].released)))
  }

  // ── One step ─────────────────────────────────────────────────────────────

  lemma BlindComesFromClaim(s: State, step: Step, p: PodName)
    requires Enabled(s, step) && BlindInFlight(Do(s, step), p)
    ensures Claims(s, p)
  {
    var patch :| patch in Do(s, step).wire && Blind(patch) && patch.from == p;
    assert patch in s.wire || ReadOwnName(s, p);
  }

  /** A claim is only ever born from a read that shows the pod's own name. */
  lemma NewClaim(s: State, step: Step, p: PodName)
    requires Enabled(s, step) && Claims(Do(s, step), p) && !Claims(s, p)
    ensures Do(s, step).lease == s.lease && s.lease.Some? && s.lease.value.holder == p
    ensures p in s.pods
  {
    assert !BlindInFlight(Do(s, step), p) by {
      if BlindInFlight(Do(s, step), p) { BlindComesFromClaim(s, step, p); }
    }
    OnlyReadsClaim(s, step, p);
  }

  lemma OnlyReadsClaim(s: State, step: Step, p: PodName)
    requires Enabled(s, step) && !RunsAsMaster(s, p) && !ReadOwnName(s, p)
    requires RunsAsMaster(Do(s, step), p) || ReadOwnName(Do(s, step), p)
    ensures (step.PodInit? || step.ServeGet?) && step.p == p
  {
    if !IsUp(s, p) {
      NewPodIsDown(s, step, p);
    } else if ReadOwnName(Do(s, step), p) {
      AnsweredByRead(s, step, p);
    } else {
      PersonalityStays(s, step, p);
    }
  }

  /** A master stays one until its pod is gone. */
  lemma OldMaster(s: State, step: Step, p: PodName)
    requires VersionsOk(s) && Enabled(s, step) && RunsAsMaster(Do(s, step), p)
    ensures RunsAsMaster(s, p) || (step.PodInit? && s.lease.Some? && s.lease.value.holder == p && p != "")
  {
    if !IsUp(s, p) { NewPodIsDown(s, step, p); } else { PersonalityStays(s, step, p); }
  }

  /** It keeps its release mark, and gets one when a release of its own lands. */
  lemma ReleaseMarks(s: State, step: Step, p: PodName)
    requires Enabled(s, step) && RunsAsMaster(s, p) && RunsAsMaster(Do(s, step), p)
    ensures s.pods[p].released ==> Do(s, step).pods[p].released
    ensures step.Land? && step.patch.Release? && step.patch.from == p && Accepted(s.lease, step.patch) ==>
              Do(s, step).pods[p].released
  {
    if p != Actor(step) { OnlyActorMoves(s, step, p); }
  }

  lemma ExclusiveClaimsStep(s: State, step: Step)
    requires VersionsOk(s) && ExclusiveClaims(s) && Enabled(s, step)
    requires Punctual(s) && (Claimed(Do(s, step)) ==> Do(s, step).lease.Some?)
    ensures ExclusiveClaims(Do(s, step))
  {
    var s' := Do(s, step);
    forall p | Claims(s', p)
      ensures p in s'.pods && s'.lease.Some? && s'.lease.value.renewTime.Some? && s'.lease.value.holder in [p, ""]
      ensures forall q :: Claims(s', q) ==> p == q
      ensures RunsAsMaster(s', p) && s'.lease.value.holder == "" ==> s'.pods[p].released
    {
      StepFrame(s, step);
      if Claims(s, p) { ClaimSurvives(s, step, p); } else { NewClaim(s, step, p); }
      forall q | Claims(s', q) ensures p == q {
        if !Claims(s, q) { NewClaim(s, step, q); }
      }
      if RunsAsMaster(s', p) {
        OldMaster(s, step, p);
        if RunsAsMaster(s, p) { ReleaseMarks(s, step, p); }
      }
    }
  }

  ghost predicate Claimed(s: State) { exists p :: Claims(s, p) }

  /** While p claims the role, only p's own blind PATCHes rewrite the Lease. */
  lemma ClaimSurvives(s: State, step: Step, p: PodName)
    requires VersionsOk(s) && ExclusiveClaims(s) && Enabled(s, step) && Punctual(s)
    requires Claims(s, p) && Do(s, step).lease.Some?
    ensures Do(s, step).lease.value.renewTime.Some? && Do(s, step).lease.value.holder in [p, ""]
    ensures Do(s, step).lease != s.lease ==>
              step.Land? && Blind(step.patch) && step.patch.from == p && Accepted(s.lease, step.patch)
    ensures Do(s, step).lease != s.lease && Do(s, step).lease.value.holder == "" ==>
              step.patch.Release? || s.lease.value.holder == ""
  {
    if step.Land? && Accepted(s.lease, step.patch) {
      StoredRevision(s, step.patch);
      if Blind(step.patch) { assert BlindInFlight(s, step.patch.from); assert Claims(s, step.patch.from); }
    }
  }

  // ── Runs ─────────────────────────────────────────────────────────────────

  ghost predicate PunctualUpTo(states: seq<State>, i: nat) {
    i < |states| && forall k :: 0 <= k <= i ==> Punctual(states[k])
  }

  lemma InitialClaims(s: State)
    requires Initial(s)
    ensures !Claimed(s) && ExclusiveClaims(s) && Punctual(s)
  {
  }

  lemma PunctualStep(s: State, step: Step, s': State)
    requires VersionsOk(s) && ExclusiveClaims(s) && Enabled(s, step) && s' == Do(s, step)
    requires Punctual(s) && Punctual(s')
    ensures VersionsOk(s') && ExclusiveClaims(s')
  {
    VersionsOkStep(s, step);
    ExclusiveClaimsStep(s, step);
  }

  lemma {:induction false} ExclusiveRun(states: seq<State>, steps: seq<Step>, i: nat)
    requires IsRun(states, steps) && VersionsOk(states[0]) && ExclusiveClaims(states[0])
    requires PunctualUpTo(states, i)
    ensures VersionsOk(states[i]) && ExclusiveClaims(states[i])
  {
    if i > 0 {
      ExclusiveRun(states, steps, i - 1);
      assert StepAt(states, steps, i - 1);
      PunctualStep(states[i - 1], steps[i - 1], states[i]);
    }
  }

  lemma ExclusiveMeansOneMaster(s: State)
    requires ExclusiveClaims(s)
    ensures MutualExclusion(s)
  {
    forall p | RunsAsMaster(s, p)
      ensures forall q :: RunsAsMaster(s, q) ==> p == q
      ensures s.lease.Some? && s.lease.value.holder in [p, ""]
    {
      assert Claims(s, p);
      forall q | RunsAsMaster(s, q) ensures p == q { assert Claims(s, q); }
    }
  }

  /** In every state of every run of any number of pods in which no claimant
      has let the Lease age to 30 seconds, at most one pod runs as master and
      it is the holder or has released. */
  lemma AtMostOneMaster(states: seq<State>, steps: seq<Step>, i: nat)
    requires IsRun(states, steps) && Initial(states[0])
    requires PunctualUpTo(states, i)
    ensures MutualExclusion(states[i])
  {
    InitialVersionsOk(states[0]);
    InitialClaims(states[0]);
    ExclusiveRun(states, steps, i);
    ExclusiveMeansOneMaster(states[i]);
  }
}
