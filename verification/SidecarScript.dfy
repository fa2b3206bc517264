/** The two shell scripts as the pods run them, variable by variable, with what
    they guarantee and how the protocol's steps come out of them. */
module SidecarScript {
  import opened Common
  import opened ElectionTimes
  import opened LeaseProtocol

  /** init-config: read the Lease, compare names, write the personality. A
      failed read leaves HOLDER empty. */
  method InitConfig(lease: Option<Lease>, answered: bool, myPodName: PodName) returns (personality: Personality)
    requires myPodName != ""
    ensures personality == Master <==> answered && lease.Some? && lease.value.holder == myPodName
    ensures forall s: State :: s.lease == lease && Enabled(s, PodInit(myPodName, answered)) ==>
              Do(s, PodInit(myPodName, answered)).pods[myPodName].personality == personality
  {
    var holder := "";
    if answered && lease.Some? { holder := lease.value.holder; }
    personality := Shadow;
    if holder == myPodName { personality := Master; }
  }

  /** The situation of a sidecar that waits for this PATCH and has its answer. */
  function Heard(patch: Patch, ok: bool): (sc: Sidecar)
    ensures InPatch(sc) && WaitsFor(sc.(reply := None), patch)
  {
    match patch
    case Renew(_, t) => Renewing(t, Some(ok))
    case Release(_, t) => Releasing(t, Some(ok))
    case Cas(_, rv, t) => Acquiring(rv, t, Some(ok))
  }

  /** No renewTime, or one of 30 seconds ago or more. */
  predicate IsStale(renewTime: Option<int>, now: int) {
    match renewTime
    case None => true
    case Some(t) => now >= t + 30
  }

  /** One whole turn of the sidecar's loop. `lease` is the answer to the GET,
      None if there was none; `newHolder` is the holder named by the answer to
      the PATCH, "" if there was none. `now` is the time of the decision and
      `heardAt` that of the answer to the PATCH. `deletesSelf` tells whether
      delete_self is called; the script's last sleeps add up to `pause`. */
  method LoopTurn(lease: Option<Lease>, myPod: PodName, startEpoch: int, startupGrace: int,
                  sfsmasterRuns: bool, mtime: int, now: int, newHolder: PodName, ghost heardAt: int)
    returns (sent: Option<Patch>, deletesSelf: bool, pause: nat)
    // It writes only as holder, or when the Lease it read has expired.
    ensures sent.Some? <==> lease.Some? && (lease.value.holder == myPod || IsStale(lease.value.renewTime, now))
    ensures sent.Some? ==> sent.value.from == myPod
    // The blind PATCHes are the holder's; a release needs a dead process out of grace.
    ensures sent.Some? && !sent.value.Cas? <==> lease.Some? && lease.value.holder == myPod
    ensures sent.Some? && sent.value.Release? ==> !sfsmasterRuns && now - startEpoch >= startupGrace
    ensures sent.Some? && sent.value.Renew? ==> sfsmasterRuns || now - startEpoch < startupGrace
    ensures sent.Some? && !sent.value.Cas? ==> sent.value.stamp == now
    // A compare-and-swap carries the revision that was read and waits 0 to 15 seconds.
    ensures sent.Some? && sent.value.Cas? ==> sent.value.resVer == lease.value.resVer
    ensures sent.Some? && sent.value.Cas? ==> now <= sent.value.stamp <= now + 15
    ensures sent.Some? && sent.value.Cas? && mtime != 0 && now - mtime <= 31 ==> sent.value.stamp == now
    // The pod deletes itself after a release, a renewal lost and an election won.
    ensures deletesSelf <==> sent.Some? && (sent.value.Release? || (sent.value.Cas? <==> newHolder == myPod))
    ensures lease.Some? ==>
              var choice := Choice(myPod, lease.value, sfsmasterRuns, startEpoch, startupGrace, mtime, now);
              sent == PatchOf(choice, myPod, lease.value.resVer, now)
    // How long it sleeps in the end, delete_self's own minute included.
    ensures pause == match sent
                     case None => 5
                     case Some(Release(_, _)) => 60
                     case Some(Renew(_, _)) => if newHolder == myPod then 10 else 70
                     case Some(Cas(_, _, _)) => if newHolder == myPod then 65 else 5
    ensures sent.Some? ==>
              var after := AfterPatch(Heard(sent.value, newHolder == myPod), newHolder == myPod, heardAt);
              after == if deletesSelf then Deleting(heardAt + pause) else Sleeping(heardAt + pause)
  {
    sent, deletesSelf, pause := None, false, 0;
    if lease.None? { return None, false, OBSERVE_INTERVAL; }
    var holder, resVer := lease.value.holder, lease.value.resVer;
    if holder == myPod {
      var inGrace := 0;
      if now - startEpoch < startupGrace { inGrace := 1; }
      if inGrace == 0 && !sfsmasterRuns {
        return Some(Release(myPod, now)), true, DELETE_PAUSE;
      }
      sent := Some(Renew(myPod, now));
      if newHolder != myPod {
        deletesSelf := true;
        pause := DELETE_PAUSE;
      }
      pause := pause + RENEW_INTERVAL;
    } else {
      if lease.value.renewTime.Some? {
        var age := now - lease.value.renewTime.value;
        if age < LEASE_DURATION { return None, false, OBSERVE_INTERVAL; }
      }
      var staleDelay := Backoff.ComputeStaleDelay(myPod, mtime, now);
      sent := Some(Cas(myPod, resVer, now + staleDelay));
      if newHolder == myPod {
        deletesSelf := true;
        pause := DELETE_PAUSE;
      }
      pause := pause + OBSERVE_INTERVAL;
    }
  }

  /** The ends of a turn in the protocol, in seconds: an answer that is heard, one
      that never comes, and a GET that fails. */
  lemma HowTurnsEnd(s: State, p: PodName)
    requires IsUp(s, p)
    ensures Enabled(s, Hear(p)) ==>
              Do(s, Hear(p)).pods[p].sidecar == match s.pods[p].sidecar
                case Renewing(_, Some(true)) => Sleeping(s.now + 10)
                case Renewing(_, _) => Deleting(s.now + 70)
                case Releasing(_, _) => Deleting(s.now + 60)
                case Acquiring(_, _, Some(true)) => Deleting(s.now + 65)
                case _ => Sleeping(s.now + 5)
    ensures Enabled(s, GiveUp(p)) ==>
              Do(s, GiveUp(p)).pods[p].sidecar == match s.pods[p].sidecar
                case Renewing(_, _) => Deleting(s.now + 70)
                case Releasing(_, _) => Deleting(s.now + 60)
                case _ => Sleeping(s.now + 5)
    ensures Enabled(s, FailGet(p)) ==> Do(s, FailGet(p)).pods[p].sidecar == Sleeping(s.now + 5)
  {
  }

  /** The PATCH that a decision of the protocol leads to, if any. */
  function PatchOf(action: Action, me: PodName, resVer: nat, now: int): Option<Patch> {
    match action
    case SendRelease => Some(Release(me, now))
    case SendRenewal => Some(Renew(me, now))
    case Pause => None
    case BackOff(delay) => Some(Cas(me, resVer, now + delay))
  }
}
