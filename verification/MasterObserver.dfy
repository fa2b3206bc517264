/** The operator's side of the election: it watches the Lease and keeps the pod
    labels, the Service selector and the status in step with it. */
module MasterObserver {
  import opened Common
  import ElectionTimes

  /** Nanoseconds, as time.Duration counts them. */
  const LEASE_NANOS := ElectionTimes.LEASE_DURATION * 1_000_000_000

  datatype LeaseView = LeaseView(holder: string, renewTime: Option<int>)

  /** `active`: the pod carries leilfs.io/active-master=true. */
  datatype PodView = PodView(active: bool, ready: bool)

  datatype Selector = AnyMasterPod | ActiveMasterPod

  /** What the operator reads and writes. `service` is None when the master
      Service does not exist. */
  datatype View = View(
    lease: Option<LeaseView>,
    pods: map<string, PodView>,
    service: Option<Selector>,
    activeMaster: string,
    readyShadows: nat)

  /** Which API calls of one reconcile fail. `patches` names the pods whose
      label patch fails. */
  datatype Faults = Faults(
    getLease: bool, createLease: bool, deleteLease: bool,
    listPods: bool, patches: set<string>, updateService: bool, recount: bool)

  const NO_FAULTS := Faults(false, false, false, false, {}, false, false)

  /** The operator's test is strict, unlike the sidecar's. */
  predicate Stale(l: LeaseView, now: int) {
    l.renewTime.Some? && now - l.renewTime.value > LEASE_NANOS
  }

  predicate FreshHolder(v: View, now: int) {
    v.lease.Some? && v.lease.value.holder != "" && !Stale(v.lease.value, now)
  }

  function Labelled(v: View): set<string> { set p | p in v.pods && v.pods[p].active }

  /** Pods the master Service sends traffic to. */
  function Selected(v: View): set<string> {
    match v.service
    case None => {}
    case Some(AnyMasterPod) => v.pods.Keys
    case Some(ActiveMasterPod) => Labelled(v)
  }

  function ReadyOthers(pods: map<string, PodView>, master: string): set<string> {
    set p | p in pods && p != master && pods[p].ready
  }

  // ── Specification of one observation ─────────────────────────────────────

  function Relabelled(pods: map<string, PodView>, holder: string, failing: set<string>): map<string, PodView> {
    map p | p in pods :: if p in failing then pods[p] else pods[p].(active := p == holder)
  }

  /** readyShadows counts after the rest of the status is set. */
  function Recounted(v: View, f: Faults): View {
    v.(readyShadows := if f.recount then 0 else |ReadyOthers(v.pods, v.activeMaster)|)
  }

  /** The view after a reconcile with HA on, and whether it returned without error. */
  function Observed(v: View, now: int, f: Faults): (View, bool) {
    if f.getLease then (v, false)
    else if v.lease.None? then
      if f.createLease then (v, false)
      else (Recounted(v.(lease := Some(LeaseView("", None))), f), true)
    else if v.lease.value.holder == "" then (Recounted(v, f), true)
    else if Stale(v.lease.value, now) then (Recounted(v.(activeMaster := ""), f), true)
    else if f.listPods then (v, false)
    else
      var holder := v.lease.value.holder;
      var labelled := v.(pods := Relabelled(v.pods, holder, f.patches));
      if f.updateService || v.service.None? then (labelled, false)
      else (Recounted(labelled.(service := Some(ActiveMasterPod), activeMaster := holder), f), true)
  }

  /** With HA off any lingering Lease is deleted, errors ignored. */
  function Disabled(v: View, f: Faults): View {
    if !f.getLease && !f.deleteLease then v.(lease := None) else v
  }

  // ── The reconciler ───────────────────────────────────────────────────────

  class Observer {
    var lease: Option<LeaseView>
    var pods: map<string, PodView>
    var service: Option<Selector>
    var activeMaster: string
    var readyShadows: nat

    function Snapshot(): View
      reads this
    {
      View(lease, pods, service, activeMaster, readyShadows)
    }

    /** countReadyShadows: 0 when the pods cannot be listed. */
    method CountReadyShadows(f: Faults) returns (count: nat)
      ensures count == if f.recount then 0 else |set p | p in pods && p != activeMaster && pods[p].ready|
    {
      if f.recount { return 0; }
      count := 0;
      var rest := pods.Keys;
      ghost var counted: set<string> := {};
      while rest != {}
        invariant rest <= pods.Keys
        invariant counted == (set p | p in pods.Keys - rest && p != activeMaster && pods[p].ready)
        invariant count == |counted|
        decreases rest
      {
        var p :| p in rest;
        rest := rest - {p};
        if p != activeMaster && pods[p].ready {
          count := count + 1;
          assert (set x | x in pods.Keys - rest && x != activeMaster && pods[x].ready) == counted + {p};
          counted := counted + {p};
        } else {
          assert (set x | x in pods.Keys - rest && x != activeMaster && pods[x].ready) == counted;
        }
      }
      assert counted == ReadyOthers(pods, activeMaster);
    }

    /** The label loop: a failing patch is logged and the loop goes on. */
    method RelabelPods(holder: string, f: Faults)
      modifies this`pods
      ensures pods == Relabelled(old(pods), holder, f.patches)
    {
      var rest := pods.Keys;
      while rest != {}
        invariant rest <= pods.Keys == old(pods.Keys)
        invariant forall p :: p in rest ==> pods[p] == old(pods)[p]
        invariant forall p :: p in pods.Keys - rest ==> pods[p] == Relabelled(old(pods), holder, f.patches)[p]
        decreases rest
      {
        var p :| p in rest;
        rest := rest - {p};
        if p !in f.patches {
          pods := pods[p := pods[p].(active := p == holder)];
        }
      }
    }

    method ReconcileMasterHA(ha: bool, now: int, f: Faults) returns (ok: bool)
      modifies this
      ensures ha ==> (Snapshot(), ok) == Observed(old(Snapshot()), now, f)
      ensures !ha ==> ok && Snapshot() == Disabled(old(Snapshot()), f)
    {
      ok := true;
      if !ha {
        if !f.getLease && !f.deleteLease { lease := None; }
        return;
      }
      if f.getLease { return false; }
      if lease.None? {
        if f.createLease { return false; }
        lease := Some(LeaseView("", None));
        readyShadows := CountReadyShadows(f);
        return;
      }
      var holder := lease.value.holder;
      if holder == "" {
        readyShadows := CountReadyShadows(f);
        return;
      }
      var leaseExpired := false;
      if lease.value.renewTime.Some? {
        var age := now - lease.value.renewTime.value;
        if age > LEASE_NANOS { leaseExpired := true; }
      }
      if leaseExpired {
        activeMaster := "";
        readyShadows := CountReadyShadows(f);
        return;
      }
      if f.listPods { return false; }
      RelabelPods(holder, f);
      if service.None? || f.updateService { return false; }
      service := Some(ActiveMasterPod);
      activeMaster := holder;
      readyShadows := CountReadyShadows(f);
    }
  }

  // ── One look, case by case ───────────────────────────────────────────────

  /** The count of ready pods beside the recorded master, 0 if it fails. */
  predicate CountsShadows(v: View, f: Faults) {
    v.readyShadows == if f.recount then 0 else |set p | p in v.pods && p != v.activeMaster && v.pods[p].ready|
  }

  /** A missing Lease is created without holder and renewTime, so that the
      sidecars have something to compete for. */
  lemma MissingLeaseIsCreated(v: View, now: int, f: Faults)
    requires v.lease == None && !f.getLease
    ensures var (v', ok) := Observed(v, now, f);
            && (ok <==> !f.createLease)
            && v'.lease == (if f.createLease then None else Some(LeaseView("", None)))
            && (v'.pods, v'.service, v'.activeMaster) == (v.pods, v.service, v.activeMaster)
            && (ok ==> CountsShadows(v', f))
  {
  }

  /** An unheld Lease changes nothing but the count. */
  lemma UnheldLeaseOnlyCounts(v: View, now: int, f: Faults)
    requires v.lease.Some? && v.lease.value.holder == "" && !f.getLease
    ensures var (v', ok) := Observed(v, now, f);
            ok && v' == v.(readyShadows := v'.readyShadows) && CountsShadows(v', f)
  {
  }

  /** A Lease more than 30 seconds old clears the recorded master. Labels and
      selector stay, so traffic keeps going where it went. */
  lemma StaleLeaseClearsMaster(v: View, now: int, f: Faults)
    requires v.lease.Some? && v.lease.value.holder != "" && !f.getLease
    requires v.lease.value.renewTime.Some? && now - v.lease.value.renewTime.value > 30_000_000_000
    ensures var (v', ok) := Observed(v, now, f);
            && ok && v'.activeMaster == "" && CountsShadows(v', f)
            && (v'.lease, v'.pods, v'.service) == (v.lease, v.pods, v.service)
  {
  }

  /** A held Lease that is not that old, or has no renewTime, moves the labels,
      then the selector, then the status; each failure stops it there. */
  lemma FreshLeaseMovesMaster(v: View, now: int, f: Faults)
    requires v.lease.Some? && v.lease.value.holder != "" && !f.getLease
    requires v.lease.value.renewTime.Some? ==> now - v.lease.value.renewTime.value <= 30_000_000_000
    ensures var (v', ok) := Observed(v, now, f);
            var holder := v.lease.value.holder;
            && (ok <==> !f.listPods && !f.updateService && v.service.Some?)
            && v'.lease == v.lease && v'.pods.Keys == v.pods.Keys
            && (forall p :: p in v.pods ==>
                  var kept := f.listPods || p in f.patches;
                  v'.pods[p] == if kept then v.pods[p] else PodView(p == holder, v.pods[p].ready))
            && (ok ==> v'.service == Some(ActiveMasterPod) && v'.activeMaster == holder && CountsShadows(v', f))
            && (!ok ==> v' == v.(pods := v'.pods))
  {
  }

  /** A Lease that cannot be read leaves everything as it is. */
  lemma UnreadLeaseStopsTheLook(v: View, now: int, f: Faults)
    requires f.getLease
    ensures Observed(v, now, f) == (v, false)
  {
  }

  /** With HA off the Lease goes, unless a call fails; nothing else changes. */
  lemma HaOffDeletesLease(v: View, f: Faults)
    ensures Disabled(v, f) == v.(lease := if f.getLease || f.deleteLease then v.lease else None)
  {
  }

  // ── Self-stabilisation ───────────────────────────────────────────────────

  function Only(v: View, p: string): set<string> { if p in v.pods then {p} else {} }

  /** Whatever happened before, one error-free look at a fresh holder leaves
      exactly that pod labelled and selected, and the status right; a second
      look changes nothing. */
  lemma OneCleanLookStabilises(v: View, now: int)
    requires FreshHolder(v, now) && v.service.Some?
    ensures var (v', ok) := Observed(v, now, NO_FAULTS);
            && ok
            && Labelled(v') == Selected(v') == Only(v, v.lease.value.holder)
            && v'.activeMaster == v.lease.value.holder
            && v'.readyShadows == |ReadyOthers(v.pods, v.lease.value.holder)|
            && Observed(v', now, NO_FAULTS) == (v', true)
  {
    var holder := v.lease.value.holder;
    var v' := Observed(v, now, NO_FAULTS).0;
    assert ReadyOthers(v'.pods, holder) == ReadyOthers(v.pods, holder);
    assert Relabelled(v'.pods, holder, {}) == v'.pods;
  }

  /** With failing patches the outcome is still determined: the holder's label
      lands unless its own patch failed, and a wrong label survives exactly on
      the pods whose patch failed. */
  lemma FailedPatchesKeepLabels(v: View, now: int, f: Faults)
    requires FreshHolder(v, now) && !f.getLease && !f.listPods
    ensures var v' := Observed(v, now, f).0;
            var holder := v.lease.value.holder;
            && Labelled(v') == (Only(v, holder) - f.patches) + (Labelled(v) * f.patches)
            && (Labelled(v') <= {holder} <==> Labelled(v) * f.patches <= {holder})
  {
    var v' := Observed(v, now, f).0;
    assert v'.pods == Relabelled(v.pods, v.lease.value.holder, f.patches);
  }

  // ── Runs ─────────────────────────────────────────────────────────────────

  /** Everything that can happen to the objects the observer looks at. Pods are
      created from the StatefulSet template, which has no active-master label. */
  datatype Event =
    | Observe(now: int, faults: Faults)
    | HaOff(faults: Faults)
    | LeaseWritten(lease: Option<LeaseView>)
    | PodCreated(name: string, ready: bool)
    | PodDeleted(name: string)
    | ReadyChanged(name: string, ready: bool)
    | ServiceSet(service: Option<Selector>)

  function After(v: View, e: Event): View {
    match e
    case Observe(now, f) => Observed(v, now, f).0
    case HaOff(f) => Disabled(v, f)
    case LeaseWritten(l) => v.(lease := l)
    case PodCreated(p, ready) => if p in v.pods then v else v.(pods := v.pods[p := PodView(false, ready)])
    case PodDeleted(p) => v.(pods := v.pods - {p})
    case ReadyChanged(p, ready) => if p in v.pods then v.(pods := v.pods[p := v.pods[p].(ready := ready)]) else v
    case ServiceSet(svc) => v.(service := svc)
  }

  function Play(v: View, events: seq<Event>): View {
    if events == [] then v else After(Play(v, events[..|events| - 1]), events[|events| - 1])
  }

  /** p was the fresh holder at one of the observations. */
  ghost predicate WasObservedHolder(v: View, events: seq<Event>, p: string) {
    exists k :: 0 <= k < |events| && HolderSeenAt(v, events, k, p)
  }

  predicate HolderSeenAt(v: View, events: seq<Event>, k: nat, p: string)
    requires k < |events|
  {
    && events[k].Observe?
    && FreshHolder(Play(v, events[..k]), events[k].now)
    && Play(v, events[..k]).lease.value.holder == p
  }

  lemma HolderSeenEarlier(v: View, events: seq<Event>, n: nat, p: string)
    requires n <= |events| && WasObservedHolder(v, events[..n], p)
    ensures WasObservedHolder(v, events, p)
  {
    var k :| 0 <= k < n && HolderSeenAt(v, events[..n], k, p);
    assert events[..n][..k] == events[..k];
    assert HolderSeenAt(v, events, k, p);
  }

  /** On every run, whatever fails, a pod that carries the label has at some
      time been observed as the fresh holder, or carried it from the start. */
  lemma {:induction false} LabelledPodWasHolder(v: View, events: seq<Event>, p: string)
    requires p in Labelled(Play(v, events)) && p !in Labelled(v)
    ensures WasObservedHolder(v, events, p)
  {
    if events != [] {
      var n := |events| - 1;
      if p in Labelled(Play(v, events[..n])) {
        LabelledPodWasHolder(v, events[..n], p);
        HolderSeenEarlier(v, events, n, p);
      } else {
        assert HolderSeenAt(v, events, n, p);
      }
    }
  }
}
