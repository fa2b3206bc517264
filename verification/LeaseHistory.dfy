/** What the record and the pods remember is true of the run behind them. */
module LeaseHistory {
  import opened Common
  import opened LeaseProtocol

  // ── One PATCH ────────────────────────────────────────────────────────────

  /** What each PATCH writes when the server accepts it, and that a refused one
      writes nothing. The revision moves exactly when the content does. */
  lemma WhatPatchesWrite(s: State, patch: Patch)
    requires patch in s.wire && s.lease.Some?
    ensures var was, now := s.lease.value, Landed(s, patch).lease;
            && now.Some?
            && (patch.Cas? && patch.resVer != was.resVer ==> now.value == was)
            && (patch.Cas? && patch.resVer == was.resVer ==>
                  && now.value.holder == patch.from
                  && now.value.acquireTime == now.value.renewTime == Some(patch.stamp))
            && (!patch.Cas? ==>
                  && now.value.holder == (if patch.Renew? then patch.from else "")
                  && now.value.acquireTime == was.acquireTime && now.value.renewTime == Some(patch.stamp))
            && now.value.resVer == (if now.value.(resVer := was.resVer) == was then was.resVer else s.rev + 1)
    ensures Landed(s, patch).rev == s.rev || Landed(s, patch).lease != s.lease
  {
  }

  // ── acquireTime ──────────────────────────────────────────────────────────

  /** Step k created the Lease (t is None) or handed it to a new holder at t, and
      since then it has neither changed hands by an election nor been deleted. */
  ghost predicate LastElection(states: seq<State>, steps: seq<Step>, k: nat, i: nat, t: Option<int>)
    requires |states| == |steps| + 1
  {
    && k < i <= |steps|
    && (match t
        case None => steps[k] == Bootstrap
        case Some(stamp) => Acquires(states[k], steps[k]) && steps[k].patch.stamp == stamp)
    && forall j :: k < j < i ==> !Acquires(states[j], steps[j]) && steps[j] != DeleteLease && steps[j] != Bootstrap
  }

  lemma AcquireTimeStep(s: State, step: Step, s': State)
    requires Enabled(s, step) && s' == Do(s, step) && s'.lease.Some?
    ensures if Acquires(s, step) then s'.lease.value.acquireTime == Some(step.patch.stamp)
            else if step == Bootstrap then s'.lease.value.acquireTime == None
            else s.lease.Some? && s'.lease.value.acquireTime == s.lease.value.acquireTime && step != DeleteLease
  {
  }

  /** acquireTime tells the last election: renewals and releases leave it alone. */
  lemma {:induction false} AcquireTimeIsLastElection(states: seq<State>, steps: seq<Step>, i: nat) returns (k: nat)
    requires IsRun(states, steps) && Initial(states[0]) && i < |states| && states[i].lease.Some?
    ensures LastElection(states, steps, k, i, states[i].lease.value.acquireTime)
  {
    assert i > 0;
    assert StepAt(states, steps, i - 1);
    AcquireTimeStep(states[i - 1], steps[i - 1], states[i]);
    if Acquires(states[i - 1], steps[i - 1]) || steps[i - 1] == Bootstrap {
      k := i - 1;
    } else {
      k := AcquireTimeIsLastElection(states, steps, i - 1);
    }
  }

  // ── The startup grace period ─────────────────────────────────────────────

  predicate Restarts(step: Step, p: PodName) {
    step == StartSidecar(p) || step == CrashSidecar(p) || step == PodGone(p)
  }

  /** The sidecar that p runs at i was started by step k. */
  ghost predicate RunningSince(steps: seq<Step>, k: nat, i: nat, p: PodName) {
    && k < i <= |steps|
    && steps[k] == StartSidecar(p)
    && forall j :: k < j < i ==> !Restarts(steps[j], p)
  }

  predicate Running(s: State, p: PodName) { IsUp(s, p) && !s.pods[p].sidecar.Down? }

  lemma OwnStart(s: State, step: Step, s': State, p: PodName)
    requires Enabled(s, step) && s' == Do(s, step) && IsUp(s, p) && p == Actor(step) && Running(s', p)
    requires step != StartSidecar(p) && !step.Decide?
    ensures !Restarts(step, p) && Running(s, p) && s'.pods[p].started == s.pods[p].started
  {
  }

  lemma DecidedStart(s: State, p: PodName, mtime: int)
    requires IsUp(s, p) && s.pods[p].sidecar.Answered?
    ensures IsUp(Decided(s, p, mtime), p) && Decided(s, p, mtime).pods[p].started == s.pods[p].started
  {
  }

  lemma StartStep(s: State, step: Step, s': State, p: PodName)
    requires Enabled(s, step) && s' == Do(s, step) && Running(s', p)
    ensures if step == StartSidecar(p) then s'.pods[p].started == s.now
            else !Restarts(step, p) && Running(s, p) && s'.pods[p].started == s.pods[p].started
  {
    if !IsUp(s, p) {
      NewPodIsDown(s, step, p);
    } else if p != Actor(step) {
      OnlyActorMoves(s, step, p);
    } else if step.Decide? {
      DecidedStart(s, p, step.mtime);
    } else if step != StartSidecar(p) {
      OwnStart(s, step, s', p);
    }
  }

  lemma {:induction false} StartedWhenSaid(states: seq<State>, steps: seq<Step>, i: nat, p: PodName) returns (k: nat)
    requires IsRun(states, steps) && Initial(states[0]) && i < |states| && Running(states[i], p)
    ensures RunningSince(steps, k, i, p) && states[i].pods[p].started == states[k].now
  {
    assert i > 0;
    assert StepAt(states, steps, i - 1);
    StartStep(states[i - 1], steps[i - 1], states[i], p);
    if steps[i - 1] == StartSidecar(p) {
      k := i - 1;
    } else {
      k := StartedWhenSaid(states, steps, i - 1, p);
    }
  }

  /** Step i puts a release of p on the wire. */
  predicate SendsRelease(states: seq<State>, steps: seq<Step>, i: nat, p: PodName)
    requires |states| == |steps| + 1 && i < |steps|
  {
    steps[i].Decide? && steps[i].p == p && Release(p, states[i].now) in states[i + 1].wire - states[i].wire
  }

  /** A pod gives the Lease away only with its sfsmaster dead, having read its own
      name, and not before its sidecar has run for the whole grace period,
      counted from the start of this very sidecar process. */
  lemma ReleaseRespectsGrace(states: seq<State>, steps: seq<Step>, i: nat, p: PodName) returns (k: nat)
    requires IsRun(states, steps) && Initial(states[0]) && i < |steps| && SendsRelease(states, steps, i, p)
    ensures RunningSince(steps, k, i, p) && states[i].now >= states[k].now + states[i].grace
    ensures IsUp(states[i], p) && states[i].pods[p].sidecar.Answered?
    ensures !states[i].pods[p].alive && states[i].pods[p].sidecar.seen.holder == p
  {
    assert StepAt(states, steps, i);
    k := StartedWhenSaid(states, steps, i, p);
  }
}
