/** On-time runs with two pods: one is master while the other watches, stops,
    and is taken over from and comes back as shadow, as often as one likes. */
module LeaseHandover {
  import opened Common
  import opened ElectionTimes
  import opened LeaseProtocol
  import opened MasterExclusion
  import opened LeaseTiming
  import opened LeaseLiveness

  ghost predicate OthersGone(s: State, p: PodName, q: PodName) {
    forall x :: x in s.pods && x != p && x != q ==> s.pods[x].Gone?
  }

  /** p is a live master that has just renewed; q is a shadow that has just
      seen this and sleeps. */
  ghost predicate Paired(s: State, p: PodName, q: PodName) {
    && p in s.pods && q in s.pods && p != q && "" !in s.pods && OthersGone(s, p, q)
    && RunsAsMaster(s, p) && s.pods[p].alive && s.pods[p].wasted == 0 && !s.pods[p].released
    && s.pods[p].sidecar == Sleeping(s.now + RENEW_INTERVAL)
    && Holds(s, p) && s.lease.value.renewTime == Some(s.now)
    && IsUp(s, q) && s.pods[q].personality == Shadow
    && s.wire == multiset{}
  }

  lemma PairedOnTime(s: State, p: PodName, q: PodName, b: Bounds)
    requires Paired(s, p, q)
    requires s.pods[q].sidecar.Answered? ==> s.pods[q].sidecar.seen.holder != q
    ensures OnTime(s, b)
  {
    forall x | Engaged(s, x) ensures x == p {}
  }

  lemma PairedNext(s: State, t: State, step: Step, t': State, p: PodName, q: PodName, b: Bounds)
    requires OnTimePath(s, t, b) && Enabled(t, step) && t' == Do(t, step)
    requires Paired(t', p, q)
    requires t'.pods[q].sidecar.Answered? ==> t'.pods[q].sidecar.seen.holder != q
    ensures OnTimePath(s, t', b)
  {
    PairedOnTime(t', p, q, b);
    PathNext(s, t, step, t', b);
  }

  /** A pod comes up beside a steady master, reads its name and goes to sleep. */
  lemma ShadowJoins(s: State, t0: State, p: PodName, q: PodName, b: Bounds) returns (t: State)
    requires OnTimePath(s, t0, b) && Steady(t0, p, b) && q in t0.pods && q != p
    ensures OnTimePath(s, t, b) && Paired(t, p, q) && t.now == t0.now
    ensures t.pods[q].sidecar == Sleeping(t.now + OBSERVE_INTERVAL)
  {
    var t1 := Do(t0, PodInit(q, true));
    PairedNext(s, t0, PodInit(q, true), t1, p, q, b);
    var t2 := Do(t1, StartSidecar(q));
    PairedNext(s, t1, StartSidecar(q), t2, p, q, b);
    t := ReadsForeignName(s, t2, p, q, b);
  }

  lemma ReadsForeignName(s: State, t0: State, p: PodName, q: PodName, b: Bounds) returns (t: State)
    requires OnTimePath(s, t0, b) && Paired(t0, p, q) && t0.pods[q].sidecar == Polling(t0.now)
    ensures OnTimePath(s, t, b) && Paired(t, p, q) && t.now == t0.now
    ensures t.pods[q].sidecar == Sleeping(t.now + OBSERVE_INTERVAL)
  {
    var t1 := Do(t0, ServeGet(q));
    PairedNext(s, t0, ServeGet(q), t1, p, q, b);
    t := Do(t1, Decide(q, 0));
    PairedNext(s, t1, Decide(q, 0), t, p, q, b);
  }

  // ── The watch ────────────────────────────────────────────────────────────

  /** Only the shadow q is up, and the record is the one another pod left. */
  ghost predicate Watching(s: State, q: PodName, l: Lease, sc: Sidecar) {
    && q in s.pods && q != "" && "" !in s.pods && OthersGone(s, q, q)
    && s.lease == Some(l) && l.holder != q
    && IsUp(s, q) && s.pods[q].personality == Shadow && s.pods[q].sidecar == sc
    && s.wire == multiset{}
    && (sc.Answered? ==> sc.seen == l)
  }

  lemma WatchNext(s: State, t: State, step: Step, t': State, q: PodName, l: Lease, sc: Sidecar, b: Bounds)
    requires OnTimePath(s, t, b) && Enabled(t, step) && t' == Do(t, step) && Watching(t', q, l, sc)
    ensures OnTimePath(s, t', b)
  {
    PathNext(s, t, step, t', b);
  }

  lemma {:induction false} SleepsOn(s: State, t0: State, n: nat, q: PodName, l: Lease, sc: Sidecar, b: Bounds)
    returns (t: State)
    requires OnTimePath(s, t0, b) && Watching(t0, q, l, sc)
    ensures OnTimePath(s, t, b) && t == t0.(now := t0.now + n)
  {
    if n == 0 {
      t := t0;
    } else {
      var t1 := SleepsOn(s, t0, n - 1, q, l, sc, b);
      t := Do(t1, Tick);
      WatchNext(s, t1, Tick, t, q, l, sc, b);
    }
  }

  /** It wakes up when it is due. */
  lemma WakesUp(s: State, t0: State, q: PodName, l: Lease, b: Bounds) returns (t: State)
    requires OnTimePath(s, t0, b) && Watching(t0, q, l, Sleeping(t0.now + OBSERVE_INTERVAL))
    ensures OnTimePath(s, t, b) && t.now == t0.now + OBSERVE_INTERVAL && Watching(t, q, l, Polling(t.now))
  {
    var t1 := SleepsOn(s, t0, OBSERVE_INTERVAL, q, l, Sleeping(t0.now + OBSERVE_INTERVAL), b);
    t := Do(t1, Wake(q));
    WatchNext(s, t1, Wake(q), t, q, l, Polling(t.now), b);
  }

  /** It reads the record. */
  lemma Looks(s: State, t0: State, q: PodName, l: Lease, b: Bounds) returns (t: State)
    requires OnTimePath(s, t0, b) && Watching(t0, q, l, Sleeping(t0.now + OBSERVE_INTERVAL))
    ensures OnTimePath(s, t, b) && t.now == t0.now + OBSERVE_INTERVAL
    ensures Watching(t, q, l, Answered(l, t.now))
  {
    var t1 := WakesUp(s, t0, q, l, b);
    t := Do(t1, ServeGet(q));
    WatchNext(s, t1, ServeGet(q), t, q, l, Answered(l, t.now), b);
  }

  /** It finds the record fresh and goes back to sleep. */
  lemma LooksInVain(s: State, t0: State, q: PodName, l: Lease, b: Bounds) returns (t: State)
    requires OnTimePath(s, t0, b) && Watching(t0, q, l, Sleeping(t0.now + OBSERVE_INTERVAL))
    requires !Expired(l, t0.now + OBSERVE_INTERVAL)
    ensures OnTimePath(s, t, b) && t.now == t0.now + OBSERVE_INTERVAL
    ensures Watching(t, q, l, Sleeping(t.now + OBSERVE_INTERVAL))
  {
    var t1 := Looks(s, t0, q, l, b);
    t := Do(t1, Decide(q, 0));
    WatchNext(s, t1, Decide(q, 0), t, q, l, Sleeping(t.now + OBSERVE_INTERVAL), b);
  }

  /** As long as the record is fresh it goes back to sleep each time. */
  lemma {:induction false} KeepsWatch(s: State, t0: State, rounds: nat, q: PodName, l: Lease, b: Bounds)
    returns (t: State)
    requires OnTimePath(s, t0, b) && Watching(t0, q, l, Sleeping(t0.now + OBSERVE_INTERVAL))
    requires l.renewTime == Some(t0.now) && rounds * OBSERVE_INTERVAL < LEASE_DURATION
    ensures OnTimePath(s, t, b) && t.now == t0.now + rounds * OBSERVE_INTERVAL
    ensures Watching(t, q, l, Sleeping(t.now + OBSERVE_INTERVAL))
  {
    if rounds == 0 {
      t := t0;
    } else {
      var t1 := KeepsWatch(s, t0, rounds - 1, q, l, b);
      t := LooksInVain(s, t1, q, l, b);
    }
  }

  /** The master stops, and for 25 seconds the shadow finds its Lease fresh. */
  lemma LeftAlone(s: State, t0: State, p: PodName, q: PodName, b: Bounds) returns (t: State)
    requires OnTimePath(s, t0, b) && Paired(t0, p, q) && t0.pods[q].sidecar == Sleeping(t0.now + OBSERVE_INTERVAL)
    ensures OnTimePath(s, t, b) && t.now == t0.now + LEASE_DURATION - OBSERVE_INTERVAL
    ensures Watching(t, q, t0.lease.value, Sleeping(t.now + OBSERVE_INTERVAL))
  {
    var l := t0.lease.value;
    var t1 := Do(t0, PodGone(p));
    WatchNext(s, t0, PodGone(p), t1, q, l, Sleeping(t0.now + OBSERVE_INTERVAL), b);
    t := KeepsWatch(s, t1, 5, q, l, b);
  }

  // ── The takeover ─────────────────────────────────────────────────────────

  /** Only the shadow q is up, waiting for the answer to its compare-and-swap. */
  ghost predicate Striking(s: State, q: PodName, l: Lease, reply: Option<bool>) {
    && q in s.pods && q != "" && "" !in s.pods && OthersGone(s, q, q)
    && l.holder != q && IsUp(s, q) && s.pods[q].personality == Shadow && s.pods[q].wasted == 0
    && s.pods[q].sidecar == Acquiring(l.resVer, s.now, reply)
  }

  /** The sixth look finds the Lease 30 seconds old; a recent changelog means no
      back-off. */
  lemma BacksOffBriefly(s: State, t0: State, q: PodName, l: Lease, b: Bounds) returns (t: State)
    requires OnTimePath(s, t0, b) && Watching(t0, q, l, Answered(l, t0.now)) && Expired(l, t0.now)
    ensures OnTimePath(s, t, b) && Watching(t, q, l, BackingOff(l.resVer, t.now)) && t.now == t0.now
  {
    var mtime := if t0.now == 0 then 1 else t0.now;
    t := Do(t0, Decide(q, mtime));
    WatchNext(s, t0, Decide(q, mtime), t, q, l, BackingOff(l.resVer, t0.now), b);
  }

  lemma Strikes(s: State, t0: State, q: PodName, l: Lease, b: Bounds) returns (t: State)
    requires OnTimePath(s, t0, b) && Watching(t0, q, l, BackingOff(l.resVer, t0.now))
    ensures OnTimePath(s, t, b) && t.lease == Some(l) && t.now == t0.now && Striking(t, q, l, None)
    ensures t.wire == multiset{Cas(q, l.resVer, t.now)}
  {
    t := Do(t0, SendCas(q));
    PathNext(s, t0, SendCas(q), t, b);
  }

  lemma Succeeds(s: State, t0: State, q: PodName, l: Lease, b: Bounds) returns (t: State)
    requires OnTimePath(s, t0, b) && t0.lease == Some(l) && Striking(t0, q, l, None)
    requires t0.wire == multiset{Cas(q, l.resVer, t0.now)}
    ensures OnTimePath(s, t, b) && Striking(t, q, l, Some(true)) && t.wire == multiset{}
    ensures t.now == t0.now && Holds(t, q) && t.lease.value.renewTime == Some(t.now)
  {
    var land := Land(Cas(q, l.resVer, t0.now));
    t := Do(t0, land);
    assert t.wire == multiset{} && LeaseFresh(t);
    PathNext(s, t0, land, t, b);
  }

  /** The winner deletes itself. */
  lemma StepsDown(s: State, t0: State, q: PodName, l: Lease, b: Bounds) returns (t: State)
    requires OnTimePath(s, t0, b) && Striking(t0, q, l, Some(true)) && t0.wire == multiset{}
    requires Holds(t0, q) && t0.lease.value.renewTime == Some(t0.now)
    ensures OnTimePath(s, t, b) && Orderly(t, q, b) && t.wire == multiset{} && t.now == t0.now && t.lease == t0.lease
    ensures t.pods[q].Gone?
  {
    var t1 := Do(t0, Hear(q));
    PathNext(s, t0, Hear(q), t1, b);
    t := Do(t1, PodGone(q));
    OrderlyNext(s, t1, PodGone(q), t, q, b);
  }

  lemma TakesOver(s: State, t0: State, q: PodName, l: Lease, b: Bounds) returns (t: State)
    requires OnTimePath(s, t0, b) && Watching(t0, q, l, Answered(l, t0.now)) && Expired(l, t0.now)
    ensures OnTimePath(s, t, b) && Steady(t, q, b) && t.now == t0.now
  {
    t := BacksOffBriefly(s, t0, q, l, b);
    t := Strikes(s, t, q, l, b);
    t := Succeeds(s, t, q, l, b);
    t := StepsDown(s, t, q, l, b);
    t := Restarts(s, t, q, b);
    t := Renews(s, t, q, b);
  }

  /** The master p stops; 30 seconds later q is master and p its shadow. */
  lemma OneHandover(s: State, t0: State, p: PodName, q: PodName, b: Bounds) returns (t: State)
    requires OnTimePath(s, t0, b) && Paired(t0, p, q) && t0.pods[q].sidecar == Sleeping(t0.now + OBSERVE_INTERVAL)
    ensures OnTimePath(s, t, b) && Paired(t, q, p) && t.pods[p].sidecar == Sleeping(t.now + OBSERVE_INTERVAL)
    ensures t.now == t0.now + LEASE_DURATION
  {
    var l := t0.lease.value;
    t := LeftAlone(s, t0, p, q, b);
    t := Looks(s, t, q, l, b);
    t := TakesOver(s, t, q, l, b);
    PathKeepsPods(s, t0, b);
    PathKeepsPods(s, t, b);
    t := ShadowJoins(s, t, q, p, b);
  }

  function Role(p: PodName, q: PodName, n: nat): PodName { if n % 2 == 0 then p else q }

  /** From any initial state with two pods, for any bounds and any number of
      handovers, some on-time run goes through them all: master and shadow are
      both up at the end, in the roles that the number says. */
  lemma {:induction false} HandoversHappen(s: State, p: PodName, q: PodName, b: Bounds, n: nat) returns (t: State)
    requires Initial(s) && p in s.pods && q in s.pods && p != q
    ensures OnTimePath(s, t, b) && t.now == s.now + n * LEASE_DURATION
    ensures Paired(t, Role(p, q, n), Role(q, p, n))
    ensures t.pods[Role(q, p, n)].sidecar == Sleeping(t.now + OBSERVE_INTERVAL)
  {
    if n == 0 {
      t := MasterCanStay(s, p, b, 0);
      PathKeepsPods(s, t, b);
      t := ShadowJoins(s, t, p, q, b);
    } else {
      t := HandoversHappen(s, p, q, b, n - 1);
      t := OneHandover(s, t, Role(p, q, n - 1), Role(q, p, n - 1), b);
    }
  }
}
