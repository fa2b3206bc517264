/** What optimistic locking gives the election on every run, with no timing
    assumption beyond one shared clock. */
module LeaseVersions {
  import opened ElectionTimes
  import opened LeaseProtocol

  // ── The invariant ────────────────────────────────────────────────────────

  predicate LeaseOk(s: State) {
    s.lease.Some? ==>
      && s.lease.value.resVer <= s.rev
      && (s.lease.value.renewTime.Some? ==> s.lease.value.renewTime.value <= s.now)
      && (s.lease.value.holder != "" ==> s.lease.value.renewTime.Some?)
  }

  /** Revision rv was seen expired by time `at`: it is either still current,
      and then the Lease was expired at `at`, or it is history. */
  predicate Armed(s: State, rv: nat, at: int) {
    && at <= s.now
    && rv <= s.rev
    && (s.lease.Some? && s.lease.value.resVer == rv ==> Expired(s.lease.value, at))
  }

  /** A snapshot is the Lease itself as long as its revision is current. */
  predicate SnapshotOk(s: State, l: Lease) {
    && l.resVer <= s.rev
    && (s.lease.Some? && s.lease.value.resVer == l.resVer ==> s.lease.value == l)
  }

  predicate SidecarOk(s: State, sc: Sidecar) {
    match sc
    case Answered(l, _) => SnapshotOk(s, l)
    case BackingOff(rv, _) => Armed(s, rv, s.now)
    case Acquiring(rv, t, _) => Armed(s, rv, t)
    case Renewing(t, _) => t <= s.now
    case Releasing(t, _) => t <= s.now
    case _ => true
  }

  predicate PatchOk(s: State, patch: Patch) {
    && patch.from in s.pods
    && patch.stamp <= s.now
    && (patch.Cas? ==> Armed(s, patch.resVer, patch.stamp))
  }

  ghost predicate VersionsOk(s: State) {
    && "" !in s.pods
    && LeaseOk(s)
    && (forall p :: IsUp(s, p) ==> SidecarOk(s, s.pods[p].sidecar))
    && (forall patch :: patch in s.wire ==> PatchOk(s, patch))
  }

  lemma InitialVersionsOk(s: State)
    requires Initial(s)
    ensures VersionsOk(s)
  {
  }

  /** A landed PATCH either leaves the record alone or gives it a new revision. */
  lemma StoredRevision(s: State, patch: Patch)
    requires VersionsOk(s) && patch in s.wire && Accepted(s.lease, patch)
    ensures var s' := Stored(s, patch);
            s' == s || (s'.lease.Some? && s'.lease.value.resVer == s'.rev == s.rev + 1)
    ensures patch.Cas? ==> Expired(s.lease.value, s.now) && Stored(s, patch) != s
  {
    assert PatchOk(s, patch);
  }

  /** What a sidecar or a PATCH relies on outlives any step that does not
      rewrite an old revision. */
  lemma SidecarOkStable(s: State, s': State, sc: Sidecar)
    requires SidecarOk(s, sc)
    requires s.now <= s'.now && s.rev <= s'.rev
    requires s'.lease == s.lease || s'.lease.None? || s'.lease.value.resVer == s'.rev == s.rev + 1
    ensures SidecarOk(s', sc)
  {
  }

  /** How a step may treat the Lease, the clock and the revision counter. */
  predicate Frame(s: State, s': State) {
    && s.now <= s'.now
    && s.rev <= s'.rev
    && s'.pods.Keys == s.pods.Keys
    && LeaseOk(s')
    && (s'.lease == s.lease || s'.lease.None? || s'.lease.value.resVer == s'.rev == s.rev + 1)
    && (s'.rev == s.rev ==> s'.lease == s.lease)
  }

  lemma LandFrame(s: State, patch: Patch)
    requires VersionsOk(s) && patch in s.wire
    ensures Frame(s, Landed(s, patch))
  {
    assert PatchOk(s, patch);
    if Accepted(s.lease, patch) { StoredRevision(s, patch); }
  }

  lemma DecideFrame(s: State, p: PodName, mtime: int)
    requires VersionsOk(s) && IsUp(s, p) && s.pods[p].sidecar.Answered?
    ensures Frame(s, Decided(s, p, mtime))
  {
  }

  lemma StepFrame(s: State, step: Step)
    requires VersionsOk(s) && Enabled(s, step)
    ensures Frame(s, Do(s, step))
  {
    match step {
      case Land(patch) => LandFrame(s, patch);
      case Decide(p, mtime) => DecideFrame(s, p, mtime);
      case _ =>
    }
  }

  lemma DecidedSidecar(s: State, p: PodName, mtime: int)
    requires IsUp(s, p) && s.pods[p].sidecar.Answered? && SidecarOk(s, s.pods[p].sidecar)
    ensures IsUp(Decided(s, p, mtime), p) && SidecarOk(Decided(s, p, mtime), Decided(s, p, mtime).pods[p].sidecar)
  {
  }

  lemma StepSidecars(s: State, step: Step, s': State, p: PodName)
    requires VersionsOk(s) && Enabled(s, step) && s' == Do(s, step) && Frame(s, s') && IsUp(s', p)
    ensures SidecarOk(s', s'.pods[p].sidecar)
  {
    if !IsUp(s, p) {
      NewPodIsDown(s, step, p);
    } else {
      SidecarOkStable(s, s', s.pods[p].sidecar);
      if p != Actor(step) {
        OnlyActorMoves(s, step, p);
      } else {
        match step {
          case Decide(_, mtime) => DecidedSidecar(s, p, mtime);
          case Land(patch) => LandedSidecar(s, patch);
          case _ =>
        }
      }
    }
  }

  lemma StepWire(s: State, step: Step, patch: Patch)
    requires VersionsOk(s) && Enabled(s, step) && patch in Do(s, step).wire
    ensures PatchOk(Do(s, step), patch)
  {
    StepFrame(s, step);
    if patch in s.wire {
      assert PatchOk(s, patch);
    } else if step.SendCas? {
      assert SidecarOk(s, s.pods[step.p].sidecar);
    }
  }

  lemma VersionsOkStep(s: State, step: Step)
    requires VersionsOk(s) && Enabled(s, step)
    ensures VersionsOk(Do(s, step)) && Frame(s, Do(s, step))
  {
    var s' := Do(s, step);
    StepFrame(s, step);
    forall p | IsUp(s', p) ensures SidecarOk(s', s'.pods[p].sidecar) { StepSidecars(s, step, s', p); }
    forall patch | patch in s'.wire ensures PatchOk(s', patch) { StepWire(s, step, patch); }
  }

  lemma {:induction false} VersionsOkRun(states: seq<State>, steps: seq<Step>, i: nat)
    requires IsRun(states, steps) && Initial(states[0]) && i < |states|
    ensures VersionsOk(states[i])
  {
    if i == 0 {
      InitialVersionsOk(states[0]);
    } else {
      VersionsOkRun(states, steps, i - 1);
      assert StepAt(states, steps, i - 1);
      VersionsOkStep(states[i - 1], steps[i - 1]);
    }
  }

  // ── Acquisition takes over an expired Lease only ─────────────────────────

  /** However long the pod backed off between its read and its PATCH, and
      however late the PATCH lands, the Lease it takes has no renewTime or is
      at least 30 seconds old at that very moment. */
  lemma AcquisitionTakesExpiredLease(states: seq<State>, steps: seq<Step>, i: nat)
    requires IsRun(states, steps) && Initial(states[0])
    requires i < |steps| && Acquires(states[i], steps[i])
    ensures Expired(states[i].lease.value, states[i].now)
    ensures states[i + 1].lease.Some?
    ensures states[i + 1].lease.value.holder == steps[i].patch.from
    ensures steps[i].patch.from in states[i].pods
  {
    VersionsOkRun(states, steps, i);
    assert StepAt(states, steps, i);
    StoredRevision(states[i], steps[i].patch);
    assert PatchOk(states[i], steps[i].patch);
  }

  /** Nobody can have renewed, or renew in time, before `since`. */
  ghost predicate RenewedSince(s: State, since: int) {
    && s.now >= since
    && s.lease.Some? && s.lease.value.renewTime.Some? && s.lease.value.renewTime.value >= since
    && NoOlderThan(s, since)
  }

  /** The renewals and releases on the wire are stamped `since` or later. */
  ghost predicate NoOlderThan(s: State, since: int) {
    forall patch :: patch in s.wire && !patch.Cas? ==> patch.stamp >= since
  }

  lemma NoOlderThanStep(s: State, step: Step, s': State, since: int)
    requires Enabled(s, step) && s' == Do(s, step) && NoOlderThan(s, since) && s.now >= since
    ensures NoOlderThan(s', since)
  {
    forall patch | patch in s'.wire && !patch.Cas? && patch !in s.wire ensures patch.stamp == s.now {}
  }

  lemma RenewedSinceStep(s: State, step: Step, s': State, since: int)
    requires VersionsOk(s) && Enabled(s, step) && s' == Do(s, step)
    requires RenewedSince(s, since) && !step.DeleteLease?
    ensures RenewedSince(s', since) || s.now >= since + LEASE_DURATION
  {
    StepFrame(s, step);
    NoOlderThanStep(s, step, s', since);
    if step.Land? && Accepted(s.lease, step.patch) { StoredRevision(s, step.patch); }
  }

  lemma {:induction false} StaysRenewed(states: seq<State>, steps: seq<Step>, i: nat, j: nat, since: int)
    requires IsRun(states, steps) && Initial(states[0]) && i <= j < |states|
    requires RenewedSince(states[i], since)
    requires forall k :: i <= k < j ==> !steps[k].DeleteLease?
    ensures RenewedSince(states[j], since) || states[j].now >= since + LEASE_DURATION
  {
    if i < j {
      StaysRenewed(states, steps, i, j - 1, since);
      VersionsOkRun(states, steps, j - 1);
      assert StepAt(states, steps, j - 1);
      StepFrame(states[j - 1], steps[j - 1]);
      if RenewedSince(states[j - 1], since) { RenewedSinceStep(states[j - 1], steps[j - 1], states[j], since); }
    }
  }

  /** After a release nobody acquires the Lease for 30 seconds, whatever else
      happens to it short of deletion: counted from the stamp of the release or
      from that of the oldest renewal or release still on the wire then, since
      such a PATCH can put renewTime back when it lands. */
  lemma NoAcquisitionSoonAfterRelease(states: seq<State>, steps: seq<Step>, i: nat, j: nat, since: int)
    requires IsRun(states, steps) && Initial(states[0])
    requires i < j < |steps|
    requires steps[i].Land? && steps[i].patch.Release? && Accepted(states[i].lease, steps[i].patch)
    requires since <= steps[i].patch.stamp && NoOlderThan(states[i + 1], since)
    requires forall k :: i < k < j ==> !steps[k].DeleteLease?
    requires Acquires(states[j], steps[j])
    ensures states[i + 1].lease.Some? && states[i + 1].lease.value.holder == ""
    ensures states[j].now >= since + LEASE_DURATION
  {
    assert StepAt(states, steps, i);
    VersionsOkRun(states, steps, i);
    assert PatchOk(states[i], steps[i].patch);
    StaysRenewed(states, steps, i + 1, j, since);
    AcquisitionTakesExpiredLease(states, steps, j);
  }

  // ── One winner per revision ──────────────────────────────────────────────

  lemma {:induction false} RevisionsGrow(states: seq<State>, steps: seq<Step>, i: nat, j: nat)
    requires IsRun(states, steps) && Initial(states[0]) && i <= j < |states|
    ensures states[i].rev <= states[j].rev && states[i].now <= states[j].now
    ensures states[i].pods.Keys == states[j].pods.Keys
  {
    if i < j {
      RevisionsGrow(states, steps, i, j - 1);
      VersionsOkRun(states, steps, j - 1);
      assert StepAt(states, steps, j - 1);
      VersionsOkStep(states[j - 1], steps[j - 1]);
    }
  }

  /** A revision is used up by the first acquisition, also across deletion and
      re-creation of the Lease: two acquisitions never name the same one. */
  lemma OneAcquisitionPerRevision(states: seq<State>, steps: seq<Step>, i: nat, j: nat)
    requires IsRun(states, steps) && Initial(states[0])
    requires i < |steps| && Acquires(states[i], steps[i])
    requires j < |steps| && Acquires(states[j], steps[j])
    requires steps[i].patch.resVer == steps[j].patch.resVer
    ensures i == j
  {
    if i != j {
      var a, b := if i < j then i else j, if i < j then j else i;
      VersionsOkRun(states, steps, a);
      assert StepAt(states, steps, a) && StepAt(states, steps, b);
      AcquisitionUsesUp(states[a], steps[a], states[a + 1]);
      PastRevisionNeverReturns(states, steps, a + 1, b, steps[a].patch.resVer);
    }
  }

  lemma AcquisitionUsesUp(s: State, step: Step, s': State)
    requires VersionsOk(s) && Enabled(s, step) && s' == Do(s, step) && Acquires(s, step)
    ensures Past(s', step.patch.resVer)
  {
    StoredRevision(s, step.patch);
    assert PatchOk(s, step.patch);
  }

  /** Revision rv has been handed out and is not the Lease's current one. */
  predicate Past(s: State, rv: nat) { rv <= s.rev && (s.lease.Some? ==> s.lease.value.resVer != rv) }

  /** The Lease never goes back to a revision it has left. */
  lemma {:induction false} PastRevisionNeverReturns(states: seq<State>, steps: seq<Step>, i: nat, j: nat, rv: nat)
    requires IsRun(states, steps) && Initial(states[0]) && i <= j < |states|
    requires Past(states[i], rv)
    ensures Past(states[j], rv)
  {
    if i < j {
      PastRevisionNeverReturns(states, steps, i, j - 1, rv);
      VersionsOkRun(states, steps, j - 1);
      assert StepAt(states, steps, j - 1);
      StaysPast(states[j - 1], steps[j - 1], states[j], rv);
    }
  }

  lemma StaysPast(s: State, step: Step, s': State, rv: nat)
    requires VersionsOk(s) && Enabled(s, step) && s' == Do(s, step) && Past(s, rv)
    ensures Past(s', rv)
  {
    StepFrame(s, step);
  }

  /** Some write, creation or deletion of the Lease lies between states i and j. */
  ghost predicate WrittenBetween(states: seq<State>, i: nat, j: nat) {
    exists k :: i <= k < j < |states| && states[k].rev < states[k + 1].rev
  }

  lemma {:induction false} RevisionMovesByWrites(states: seq<State>, steps: seq<Step>, i: nat, j: nat)
    requires IsRun(states, steps) && Initial(states[0]) && i <= j < |states|
    ensures WrittenBetween(states, i, j) || (states[i].rev == states[j].rev && states[i].lease == states[j].lease)
  {
    if i < j {
      RevisionMovesByWrites(states, steps, i, j - 1);
      if !WrittenBetween(states, i, j) {
        assert !WrittenBetween(states, i, j - 1);
        VersionsOkRun(states, steps, j - 1);
        assert StepAt(states, steps, j - 1);
        VersionsOkStep(states[j - 1], steps[j - 1]);
        assert states[j - 1].rev == states[j].rev;
      }
    }
  }
}
