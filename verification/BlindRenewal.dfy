/** Why the timing premise speaks of every claimant and not of masters alone:
    one blind renewal, a second late, is enough for two masters although no
    master ever let its Lease age. */
module BlindRenewal {
  import opened Common
  import opened LeaseProtocol
  import opened MasterExclusion
  import opened LeaseTiming

  const ONE_SECOND_CALLS := Bounds(1, 0, 0, 0)

  /** No live master's Lease has reached 30 seconds, no pod is deleting itself,
      no PATCH is more than a second old and nobody has waited longer for an
      answer. */
  ghost predicate Quiet(s: State) {
    && NoOldPatches(s, ONE_SECOND_CALLS.call)
    && ((exists p :: RunsAsMaster(s, p)) ==> LeaseFresh(s))
    && (forall p :: IsUp(s, p) ==>
          !s.pods[p].sidecar.Deleting? && SidecarOnTime(s.pods[p].sidecar, s.now, ONE_SECOND_CALLS))
  }

  ghost predicate QuietRun(states: seq<State>, steps: seq<Step>) {
    && IsRun(states, steps)
    && Initial(states[0])
    && forall k :: 0 <= k < |states| ==> Quiet(states[k])
  }

  /** t can be reached by a run that is quiet all along. */
  ghost predicate Quietly(t: State) {
    exists states, steps :: QuietRun(states, steps) && states[|steps|] == t
  }

  lemma QuietNext(t: State, step: Step, t': State)
    requires Quietly(t) && Enabled(t, step) && t' == Do(t, step) && Quiet(t')
    ensures Quietly(t')
  {
    var states, steps :| QuietRun(states, steps) && states[|steps|] == t;
    RunExtends(states, steps, step, t');
    assert QuietRun(states + [t'], steps + [step]);
  }

  ghost predicate NoMaster(s: State) { forall p :: !RunsAsMaster(s, p) }

  lemma NewPatchesAreYoung(t: State, step: Step, t': State)
    requires Enabled(t, step) && t' == Do(t, step) && t'.now == t.now
    requires NoOldPatches(t, ONE_SECOND_CALLS.call)
    ensures NoOldPatches(t', ONE_SECOND_CALLS.call)
  {
    forall patch | patch in t'.wire && patch !in t.wire ensures patch.stamp == t.now {}
  }

  /** While there is no master, a step that puts the shadow p into `pod` is
      quiet if p is. */
  lemma ShadowNext(t: State, step: Step, t': State, p: PodName, pod: Pod)
    requires Quietly(t) && Quiet(t) && NoMaster(t) && Enabled(t, step) && t' == Do(t, step)
    requires t'.now == t.now && t'.pods == t.pods[p := pod] && pod.Up? && pod.personality == Shadow
    requires !pod.sidecar.Deleting? && SidecarOnTime(pod.sidecar, t.now, ONE_SECOND_CALLS)
    ensures Quietly(t') && Quiet(t') && NoMaster(t')
  {
    NewPatchesAreYoung(t, step, t');
    forall q | q != p ensures !RunsAsMaster(t', q) && (IsUp(t', q) ==> IsUp(t, q)) { assert !RunsAsMaster(t, q); }
    QuietNext(t, step, t');
  }

  /** p, started afresh, reads the Lease and has its compare-and-swap accepted. */
  function Elected(s: State, p: PodName): State
    requires s.lease.Some?
  {
    s.(lease := Some(Lease(p, Some(s.now), Some(s.now), s.rev + 1)),
       rev := s.rev + 1,
       pods := s.pods[p := ShadowAt(s.now, Acquiring(s.lease.value.resVer, s.now, Some(true)))])
  }

  /** A shadow of this moment, with its sidecar at sc. */
  function ShadowAt(now: int, sc: Sidecar): Pod { Up(Shadow, false, now, 0, false, sc) }

  predicate IsShadowAt(s: State, p: PodName, sc: Sidecar) { p in s.pods && s.pods[p] == ShadowAt(s.now, sc) }

  lemma Polls(t0: State, p: PodName) returns (t: State)
    requires Quietly(t0) && Quiet(t0) && NoMaster(t0) && p in t0.pods && t0.pods[p].Gone?
    ensures Quietly(t) && Quiet(t) && NoMaster(t)
    ensures t == t0.(pods := t0.pods[p := ShadowAt(t0.now, Polling(t0.now))])
  {
    var t1 := Do(t0, PodInit(p, false));
    ShadowNext(t0, PodInit(p, false), t1, p, ShadowAt(t0.now, Down));
    t := Do(t1, StartSidecar(p));
    ShadowNext(t1, StartSidecar(p), t, p, ShadowAt(t0.now, Polling(t0.now)));
  }

  /** A changelog time that means no back-off; 0 would say that there is none. */
  function Recent(now: int): int { if now == 0 then 1 else now }

  lemma BacksOff(t0: State, p: PodName) returns (t: State)
    requires Quietly(t0) && Quiet(t0) && NoMaster(t0)
    requires t0.lease.Some? && Expired(t0.lease.value, t0.now) && t0.lease.value.holder != p
    requires IsShadowAt(t0, p, Polling(t0.now))
    ensures Quietly(t) && Quiet(t) && NoMaster(t)
    ensures t == WithSidecar(t0, p, BackingOff(t0.lease.value.resVer, t0.now))
  {
    var l := t0.lease.value;
    var t1 := Do(t0, ServeGet(p));
    ShadowNext(t0, ServeGet(p), t1, p, ShadowAt(t0.now, Answered(l, t0.now)));
    t := Do(t1, Decide(p, Recent(t0.now)));
    assert t == WithSidecar(t1, p, BackingOff(l.resVer, t0.now));
    ShadowNext(t1, Decide(p, Recent(t0.now)), t, p, ShadowAt(t0.now, BackingOff(l.resVer, t0.now)));
  }

  lemma SwapSent(t0: State, p: PodName, rv: nat) returns (t: State)
    requires Quietly(t0) && Quiet(t0) && NoMaster(t0) && IsShadowAt(t0, p, BackingOff(rv, t0.now))
    ensures Quietly(t) && Quiet(t) && NoMaster(t)
    ensures t == WithSidecar(t0, p, Acquiring(rv, t0.now, None)).(wire := t0.wire + multiset{Cas(p, rv, t0.now)})
  {
    t := Do(t0, SendCas(p));
    ShadowNext(t0, SendCas(p), t, p, ShadowAt(t0.now, Acquiring(rv, t0.now, None)));
  }

  lemma SwapLands(t0: State, p: PodName) returns (t: State)
    requires Quietly(t0) && Quiet(t0) && NoMaster(t0) && t0.lease.Some? && t0.lease.value.holder != p
    requires IsShadowAt(t0, p, Acquiring(t0.lease.value.resVer, t0.now, None))
    requires Cas(p, t0.lease.value.resVer, t0.now) in t0.wire
    ensures Quietly(t) && Quiet(t) && NoMaster(t)
    ensures t == Elected(t0, p).(wire := t0.wire - multiset{Cas(p, t0.lease.value.resVer, t0.now)})
  {
    var rv := t0.lease.value.resVer;
    var land := Land(Cas(p, rv, t0.now));
    t := Do(t0, land);
    ShadowNext(t0, land, t, p, ShadowAt(t0.now, Acquiring(rv, t0.now, Some(true))));
  }

  lemma Election(t0: State, p: PodName) returns (t: State)
    requires Quietly(t0) && Quiet(t0) && NoMaster(t0)
    requires t0.lease.Some? && Expired(t0.lease.value, t0.now) && t0.lease.value.holder != p
    requires p in t0.pods && t0.pods[p].Gone?
    ensures Quietly(t) && Quiet(t) && NoMaster(t) && t == Elected(t0, p)
  {
    t := Polls(t0, p);
    t := BacksOff(t, p);
    t := SwapSent(t, p, t0.lease.value.resVer);
    t := SwapLands(t, p);
    assert t.wire == t0.wire;
  }

  lemma {:induction false} TimePasses(t0: State, n: nat) returns (t: State)
    requires Quietly(t0) && Quiet(t0) && NoMaster(t0) && t0.wire == multiset{}
    requires forall p :: IsUp(t0, p) ==> t0.pods[p].sidecar.Down?
    ensures Quietly(t) && Quiet(t) && NoMaster(t) && t == t0.(now := t0.now + n)
  {
    if n == 0 {
      t := t0;
    } else {
      var t1 := TimePasses(t0, n - 1);
      t := Do(t1, Tick);
      forall p ensures !RunsAsMaster(t, p) && (IsUp(t, p) ==> t.pods[p].sidecar.Down?) {
        assert !RunsAsMaster(t0, p) && (IsUp(t0, p) ==> t0.pods[p].sidecar.Down?);
      }
      QuietNext(t1, Tick, t);
    }
  }

  // ── The run ──────────────────────────────────────────────────────────────

  lemma Begins(s: State) returns (t: State)
    requires Initial(s)
    ensures Quietly(t) && Quiet(t) && NoMaster(t)
    ensures t == s.(lease := Some(Lease("", None, None, s.rev + 1)), rev := s.rev + 1)
  {
    assert QuietRun([s], []);
    t := Do(s, Bootstrap);
    QuietNext(s, Bootstrap, t);
  }

  /** The elected pod's sidecar crashes before it can ask for its own deletion,
      and comes back 29 seconds later. */
  lemma ComesBackLate(t0: State, p: PodName) returns (t: State)
    requires Quietly(t0) && Quiet(t0) && NoMaster(t0) && t0.wire == multiset{}
    requires IsUp(t0, p) && forall q :: IsUp(t0, q) ==> q == p
    ensures Quietly(t) && Quiet(t) && NoMaster(t)
    ensures t == WithSidecar(t0, p, Down).(now := t0.now + 29)
  {
    t := Do(t0, CrashSidecar(p));
    forall q ensures !RunsAsMaster(t, q) && (IsUp(t, q) ==> q == p) {
      assert !RunsAsMaster(t0, q) && (IsUp(t0, q) ==> q == p);
    }
    QuietNext(t0, CrashSidecar(p), t);
    t := TimePasses(t, 29);
  }

  function Pending(p: Pod, now: int, sc: Sidecar): Pod
    requires p.Up?
  {
    p.(alive := true, started := now, sidecar := sc)
  }

  lemma StartsPolling(t0: State, p: PodName) returns (t: State)
    requires Quietly(t0) && Quiet(t0) && NoMaster(t0) && IsUp(t0, p) && t0.pods[p].sidecar.Down?
    ensures Quietly(t) && Quiet(t) && NoMaster(t)
    ensures t == t0.(pods := t0.pods[p := Pending(t0.pods[p], t0.now, Polling(t0.now))])
  {
    var pod := t0.pods[p];
    assert !RunsAsMaster(t0, p);
    var t1 := Do(t0, Process(p, true));
    ShadowNext(t0, Process(p, true), t1, p, pod.(alive := true));
    t := Do(t1, StartSidecar(p));
    ShadowNext(t1, StartSidecar(p), t, p, Pending(pod, t0.now, Polling(t0.now)));
  }

  /** It reads its own name and sends a renewal. */
  lemma SendsRenewal(t0: State, p: PodName) returns (t: State)
    requires Quietly(t0) && Quiet(t0) && NoMaster(t0)
    requires IsUp(t0, p) && t0.pods[p].sidecar.Down? && Holds(t0, p)
    ensures Quietly(t) && Quiet(t) && NoMaster(t)
    ensures t == t0.(pods := t0.pods[p := Pending(t0.pods[p], t0.now, Renewing(t0.now, None))],
                     wire := t0.wire + multiset{Renew(p, t0.now)})
  {
    var pod := t0.pods[p];
    assert !RunsAsMaster(t0, p);
    var t1 := StartsPolling(t0, p);
    var t2 := Do(t1, ServeGet(p));
    ShadowNext(t1, ServeGet(p), t2, p, Pending(pod, t0.now, Answered(t0.lease.value, t0.now)));
    t := Do(t2, Decide(p, 0));
    ShadowNext(t2, Decide(p, 0), t, p, Pending(pod, t0.now, Renewing(t0.now, None)));
  }

  /** The renewal takes a second. */
  lemma OneSecondLater(t0: State, p: PodName) returns (t: State)
    requires Quietly(t0) && Quiet(t0) && NoMaster(t0)
    requires forall patch :: patch in t0.wire ==> patch.stamp == t0.now
    requires IsUp(t0, p) && t0.pods[p].sidecar == Renewing(t0.now, None) && forall q :: IsUp(t0, q) ==> q == p
    ensures Quietly(t) && Quiet(t) && NoMaster(t) && t == t0.(now := t0.now + 1)
  {
    t := Do(t0, Tick);
    forall q ensures !RunsAsMaster(t, q) && (IsUp(t, q) ==> q == p) {
      assert !RunsAsMaster(t0, q) && (IsUp(t0, q) ==> q == p);
    }
    QuietNext(t0, Tick, t);
  }

  /** The pod the Lease names is recreated and comes up as master. */
  lemma Promotion(t0: State, p: PodName) returns (t: State)
    requires Quietly(t0) && Quiet(t0) && LeaseFresh(t0) && IsUp(t0, p) && Holds(t0, p)
    ensures Quietly(t) && Quiet(t)
    ensures t == t0.(pods := t0.pods[p := Up(Master, false, t0.now, 0, false, Down)])
  {
    var t1 := Do(t0, PodGone(p));
    OthersQuiet(t0, t1, p);
    QuietNext(t0, PodGone(p), t1);
    t := Do(t1, PodInit(p, true));
    OthersQuiet(t0, t, p);
    QuietNext(t1, PodInit(p, true), t);
  }

  lemma OthersQuiet(s: State, t: State, p: PodName)
    requires Quiet(s) && LeaseFresh(t) && t.now == s.now && t.wire == s.wire && p in t.pods
    requires forall q :: q != p && q in t.pods ==> q in s.pods && t.pods[q] == s.pods[q]
    requires t.pods[p].Gone? || t.pods[p].sidecar.Down?
    ensures Quiet(t)
  {
    forall q | IsUp(t, q)
      ensures !t.pods[q].sidecar.Deleting? && SidecarOnTime(t.pods[q].sidecar, t.now, ONE_SECOND_CALLS)
    {
      if q != p { assert IsUp(s, q); }
    }
  }

  /** The late renewal takes the Lease away from the new master: it carries no
      resourceVersion, so nothing stops it. */
  lemma RenewalLands(t0: State, p: PodName) returns (t: State)
    requires Quietly(t0) && Quiet(t0) && t0.lease.Some? && !Holds(t0, p)
    requires IsUp(t0, p) && t0.pods[p].sidecar == Renewing(t0.now - 1, None) && Renew(p, t0.now - 1) in t0.wire
    ensures Quietly(t) && Quiet(t) && LeaseFresh(t) && Holds(t, p)
    ensures t.pods == t0.pods[p := t0.pods[p].(sidecar := Renewing(t0.now - 1, Some(true)))]
  {
    var land := Land(Renew(p, t0.now - 1));
    t := Do(t0, land);
    forall q | IsUp(t, q)
      ensures !t.pods[q].sidecar.Deleting? && SidecarOnTime(t.pods[q].sidecar, t.now, ONE_SECOND_CALLS)
    {
      assert IsUp(t0, q);
    }
    QuietNext(t0, land, t);
  }

  /** Only p has come up so far. */
  ghost predicate OnlyUp(s: State, p: PodName) { forall x :: x in s.pods && x != p ==> s.pods[x].Gone? }

  /** p is elected and 29 seconds later sends its first renewal. */
  lemma SlowStart(s: State, p: PodName) returns (t: State)
    requires Initial(s) && p in s.pods
    ensures Quietly(t) && Quiet(t) && NoMaster(t) && t.pods.Keys == s.pods.Keys && OnlyUp(t, p)
    ensures t.wire == multiset{Renew(p, t.now)} && IsUp(t, p) && t.pods[p].sidecar == Renewing(t.now, None)
    ensures t.lease.Some? && t.lease.value.holder == p && t.lease.value.renewTime == Some(t.now - 29)
  {
    t := Begins(s);
    t := Election(t, p);
    t := ComesBackLate(t, p);
    t := SendsRenewal(t, p);
  }

  /** Before it lands, q overtakes p. */
  lemma Overtaken(s: State, p: PodName, q: PodName) returns (t: State)
    requires Initial(s) && p in s.pods && q in s.pods && p != q
    ensures Quietly(t) && Quiet(t) && LeaseFresh(t) && Holds(t, q) && IsUp(t, p) && IsUp(t, q)
    ensures t.pods[p].sidecar == Renewing(t.now - 1, None) && Renew(p, t.now - 1) in t.wire
  {
    t := SlowStart(s, p);
    t := OneSecondLater(t, p);
    t := Election(t, q);
  }

  /** From every initial state with two pods, and for every startup grace
      period, some run ends with two masters although in all its states a live
      master's Lease is fresh, no pod lingers after deleting itself and no
      call takes more than a second. */
  lemma FreshMastersAreNotEnough(s: State, p: PodName, q: PodName) returns (t: State)
    requires Initial(s) && p in s.pods && q in s.pods && p != q
    ensures Quietly(t) && Quiet(t) && LeaseFresh(t)
    ensures RunsAsMaster(t, p) && RunsAsMaster(t, q)
  {
    t := Overtaken(s, p, q);
    t := Promotion(t, q);
    t := RenewalLands(t, p);
    t := Promotion(t, p);
  }
}
