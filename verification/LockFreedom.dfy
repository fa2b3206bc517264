/** Lock-freedom of the acquisition: whoever loses a compare-and-swap lost it to
    a write that came after its own read. */
module LockFreedom {
  import opened LeaseProtocol
  import opened LeaseVersions

  // ── Revisions that pods hold ─────────────────────────────────────────────

  /** p means to use revision rv, or has sent it. */
  predicate Intends(sc: Sidecar, rv: nat) {
    (sc.Answered? && sc.seen.resVer == rv) || (sc.BackingOff? && sc.resVer == rv)
  }

  ghost predicate Sent(s: State, p: PodName, rv: nat) {
    exists patch :: patch in s.wire && patch.Cas? && patch.from == p && patch.resVer == rv
  }

  ghost predicate Carries(s: State, p: PodName, rv: nat) {
    (IsUp(s, p) && Intends(s.pods[p].sidecar, rv)) || Sent(s, p, rv)
  }

  predicate Reads(s: State, step: Step, p: PodName, rv: nat) {
    step == ServeGet(p) && s.lease.Some? && s.lease.value.resVer == rv
  }

  // ── One step ─────────────────────────────────────────────────────────────

  lemma DecidedIntent(s: State, p: PodName, mtime: int, rv: nat)
    requires IsUp(s, p) && s.pods[p].sidecar.Answered?
    requires Intends(Decided(s, p, mtime).pods[p].sidecar, rv)
    ensures Intends(s.pods[p].sidecar, rv)
  {
  }

  lemma IntentStep(s: State, step: Step, s': State, p: PodName, rv: nat)
    requires Enabled(s, step) && s' == Do(s, step) && IsUp(s', p) && Intends(s'.pods[p].sidecar, rv)
    ensures IsUp(s, p) && (Intends(s.pods[p].sidecar, rv) || Reads(s, step, p, rv))
  {
    if !IsUp(s, p) {
      NewPodIsDown(s, step, p);
    } else if p != Actor(step) {
      OnlyActorMoves(s, step, p);
    } else {
      match step {
        case Land(patch) => LandedSidecar(s, patch);
        case Decide(_, mtime) => DecidedIntent(s, p, mtime, rv);
        case _ =>
      }
    }
  }

  /** A revision comes into a pod's hands by its own read and in no other way. */
  lemma CarriesStep(s: State, step: Step, s': State, p: PodName, rv: nat)
    requires Enabled(s, step) && s' == Do(s, step) && Carries(s', p, rv)
    ensures Carries(s, p, rv) || Reads(s, step, p, rv)
  {
    if IsUp(s', p) && Intends(s'.pods[p].sidecar, rv) {
      IntentStep(s, step, s', p, rv);
    } else {
      var patch :| patch in s'.wire && patch.Cas? && patch.from == p && patch.resVer == rv;
    }
  }

  // ── Runs ─────────────────────────────────────────────────────────────────

  lemma {:induction false} CarriedWasRead(states: seq<State>, steps: seq<Step>, j: nat, p: PodName, rv: nat)
    returns (i: nat)
    requires IsRun(states, steps) && Initial(states[0]) && j < |states| && Carries(states[j], p, rv)
    ensures i < j && Reads(states[i], steps[i], p, rv)
  {
    assert j > 0;
    assert StepAt(states, steps, j - 1);
    CarriesStep(states[j - 1], steps[j - 1], states[j], p, rv);
    if Reads(states[j - 1], steps[j - 1], p, rv) {
      i := j - 1;
    } else {
      i := CarriedWasRead(states, steps, j - 1, p, rv);
    }
  }

  /** Every compare-and-swap that the server refuses was preceded by its sender's
      read of the very revision it carries, and somebody has written, created
      or deleted the Lease between that read and the refusal. */
  lemma RejectionMeansProgress(states: seq<State>, steps: seq<Step>, j: nat) returns (i: nat)
    requires IsRun(states, steps) && Initial(states[0])
    requires j < |steps| && steps[j].Land? && steps[j].patch.Cas?
    requires !Accepted(states[j].lease, steps[j].patch)
    ensures i < j && Reads(states[i], steps[i], steps[j].patch.from, steps[j].patch.resVer)
    ensures WrittenBetween(states, i, j)
  {
    assert StepAt(states, steps, j);
    assert Sent(states[j], steps[j].patch.from, steps[j].patch.resVer);
    i := CarriedWasRead(states, steps, j, steps[j].patch.from, steps[j].patch.resVer);
    RevisionMovesByWrites(states, steps, i, j);
  }
}
