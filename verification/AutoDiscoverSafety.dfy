/** Crash safety and sweep safety of auto-discovery, over prefixes of one
    reconcile and over whole histories. */
module AutoDiscoverSafety {
  import opened Common
  import opened AutoDiscover

  /** Every StatefulSet, Service and ConfigMap has its PVC in the store. */
  predicate Safe(s: Store) {
    && s.services <= s.claims.Keys
    && s.configMaps <= s.claims.Keys
    && s.sets.Keys <= s.claims.Keys
  }

  /** What must hold of the store just before a write: nothing but a claim is
      put without its claim, and nothing is deleted unless its claim is still
      there, is owned and is an orphan; the claim itself only when it is alone. */
  predicate Guarded(s: Store, op: Op, byName: map<string, Pv>) {
    match op
    case EnsureClaim(_, _) => true
    case PutService(n) => n in s.claims
    case PutConfigMap(n) => n in s.claims
    case PutSet(n, _) => n in s.claims
    case DeleteClaim(n) => Condemned(s, n, byName) && n !in s.services && n !in s.configMaps && n !in s.sets
    case _ => Condemned(s, op.name, byName)
  }

  predicate Condemned(s: Store, n: string, byName: map<string, Pv>) {
    n in s.claims && s.claims[n].owned && Orphan(s.claims[n], byName)
  }

  ghost predicate AllGuarded(s: Store, ops: seq<Op>, byName: map<string, Pv>) {
    forall k :: 0 <= k < |ops| ==> Guarded(Run(s, ops[..k]), ops[k], byName)
  }

  /** Guarded writes keep the store safe at every moment. */
  lemma {:induction false} GuardedPrefixesSafe(s: Store, ops: seq<Op>, byName: map<string, Pv>, k: nat)
    requires Safe(s) && AllGuarded(s, ops, byName) && k <= |ops|
    ensures Safe(Run(s, ops[..k]))
  {
    if k > 0 {
      GuardedPrefixesSafe(s, ops, byName, k - 1);
      assert ops[..k][..k - 1] == ops[..k - 1];
      assert Guarded(Run(s, ops[..k - 1]), ops[k - 1], byName);
    }
  }

  lemma GuardedConcat(s: Store, a: seq<Op>, b: seq<Op>, byName: map<string, Pv>)
    requires AllGuarded(s, a, byName) && AllGuarded(Run(s, a), b, byName)
    ensures AllGuarded(s, a + b, byName)
  {
    forall k | 0 <= k < |a + b| ensures Guarded(Run(s, (a + b)[..k]), (a + b)[k], byName) {
      if k < |a| {
        assert (a + b)[..k] == a[..k];
      } else {
        assert (a + b)[..k] == a + b[..k - |a|];
        RunConcat(s, a, b[..k - |a|]);
      }
    }
  }

  lemma {:induction false} CreateGuarded(s: Store, pvs: seq<Pv>, cfg: Config, byName: map<string, Pv>)
    ensures AllGuarded(s, CreateOps(pvs, cfg), byName)
  {
    if pvs != [] {
      var front, last := pvs[..|pvs| - 1], pvs[|pvs| - 1];
      CreateGuarded(s, front, cfg, byName);
      RunPrefixes(Created(s, front, cfg), PvOps(last, cfg));
      GuardedConcat(s, CreateOps(front, cfg), PvOps(last, cfg), byName);
    }
  }

  /** A sweep touches no slot that is not on its list. */
  lemma {:induction false} SweepKeepsOthers(
      s: Store, order: seq<string>, claims: map<string, Claim>, byName: map<string, Pv>, n: string)
    requires (forall x :: x in order ==> x in claims) && n !in order
    ensures SlotOf(Run(s, SweepOps(order, claims, byName)), n) == SlotOf(s, n)
  {
    if order != [] {
      var front, m := order[..|order| - 1], order[|order| - 1];
      SweepKeepsOthers(s, front, claims, byName, n);
      SweepLast(s, order, claims, byName);
      DeletedSlots(Run(s, SweepOps(front, claims, byName)), m, n);
    }
  }

  lemma SweepLast(s: Store, order: seq<string>, claims: map<string, Claim>, byName: map<string, Pv>)
    requires order != [] && forall x :: x in order ==> x in claims
    ensures var front, m := order[..|order| - 1], order[|order| - 1];
            var t := Run(s, SweepOps(front, claims, byName));
            Run(s, SweepOps(order, claims, byName)) == if Orphan(claims[m], byName) then Run(t, DeleteOps(m)) else t
  {
    var front, m := order[..|order| - 1], order[|order| - 1];
    if Orphan(claims[m], byName) {
      RunConcat(s, SweepOps(front, claims, byName), DeleteOps(m));
    } else {
      assert SweepOps(order, claims, byName) == SweepOps(front, claims, byName);
    }
  }

  lemma DeleteGuarded(s: Store, m: string, byName: map<string, Pv>)
    requires Condemned(s, m, byName)
    ensures AllGuarded(s, DeleteOps(m), byName)
  {
    RunPrefixes(s, DeleteOps(m));
  }

  lemma {:induction false} SweepGuarded(s: Store, order: seq<string>, byName: map<string, Pv>)
    requires forall i, j :: 0 <= i < j < |order| ==> order[i] != order[j]
    requires forall n :: n in order ==> n in s.claims && s.claims[n].owned
    ensures AllGuarded(s, SweepOps(order, s.claims, byName), byName)
  {
    if order != [] {
      var front, m := order[..|order| - 1], order[|order| - 1];
      SweepGuarded(s, front, byName);
      if Orphan(s.claims[m], byName) {
        var t := Run(s, SweepOps(front, s.claims, byName));
        SweepKeepsOthers(s, front, s.claims, byName, m);
        assert SlotOf(t, m).claim == Some(s.claims[m]);
        DeleteGuarded(t, m, byName);
        GuardedConcat(s, SweepOps(front, s.claims, byName), DeleteOps(m), byName);
      } else {
        assert SweepOps(order, s.claims, byName) == SweepOps(front, s.claims, byName);
      }
    }
  }

  /** Sweep safety: every single write of a reconcile, from any store, is
      guarded. In particular nothing is deleted whose claim's volume is listed
      without disk-state Missing, whatever the selector says. */
  lemma PassGuarded(s: Store, pvs: seq<Pv>, cfg: Config, order: seq<string>)
    requires IsListing(order, Created(s, pvs, cfg))
    ensures AllGuarded(s, PassOps(s, pvs, cfg, order), ByName(pvs))
  {
    CreateGuarded(s, pvs, cfg, ByName(pvs));
    SweepGuarded(Created(s, pvs, cfg), order, ByName(pvs));
    GuardedConcat(s, CreateOps(pvs, cfg), SweepOps(order, Created(s, pvs, cfg).claims, ByName(pvs)), ByName(pvs));
  }

  // ── Histories ────────────────────────────────────────────────────────────

  /** The store and what the next reconcile will read. */
  datatype World = World(store: Store, pvs: seq<Pv>, cfg: Config)

  /** A reconcile is cut off after `done` writes; volumes and configuration
      change at will in between. */
  datatype Event =
    | Reconcile(order: seq<string>, done: nat)
    | VolumesChange(pvs: seq<Pv>)
    | ConfigChange(cfg: Config)

  ghost predicate Possible(w: World, e: Event) {
    e.Reconcile? && w.cfg.enabled ==>
      && IsListing(e.order, Created(w.store, w.pvs, w.cfg))
      && e.done <= |PassOps(w.store, w.pvs, w.cfg, e.order)|
  }

  function Next(w: World, e: Event): World
    requires e.Reconcile? && w.cfg.enabled ==> forall n :: n in e.order ==> n in Created(w.store, w.pvs, w.cfg).claims
    requires e.Reconcile? && w.cfg.enabled ==> e.done <= |PassOps(w.store, w.pvs, w.cfg, e.order)|
  {
    match e
    case Reconcile(order, done) =>
      if w.cfg.enabled then w.(store := Run(w.store, PassOps(w.store, w.pvs, w.cfg, order)[..done])) else w
    case VolumesChange(pvs) => w.(pvs := pvs)
    case ConfigChange(cfg) => w.(cfg := cfg)
  }

  ghost predicate IsHistory(worlds: seq<World>, events: seq<Event>) {
    && |worlds| == |events| + 1
    && forall i :: 0 <= i < |events| ==> Possible(worlds[i], events[i]) && worlds[i + 1] == Next(worlds[i], events[i])
  }

  /** Crash safety: on every history of failing reconciles the store is safe,
      also at every moment inside each reconcile. */
  lemma {:induction false} HistoriesAreSafe(worlds: seq<World>, events: seq<Event>, i: nat)
    requires IsHistory(worlds, events) && Safe(worlds[0].store) && i < |worlds|
    ensures Safe(worlds[i].store)
    ensures i < |events| && events[i].Reconcile? && worlds[i].cfg.enabled ==>
              forall k :: 0 <= k <= events[i].done ==>
                Safe(Run(worlds[i].store, PassOps(worlds[i].store, worlds[i].pvs, worlds[i].cfg, events[i].order)[..k]))
  {
    if i > 0 {
      HistoriesAreSafe(worlds, events, i - 1);
    }
    if i < |events| && events[i].Reconcile? && worlds[i].cfg.enabled {
      MomentsAreSafe(worlds[i], events[i].order);
    }
  }

  lemma MomentsAreSafe(w: World, order: seq<string>)
    requires Safe(w.store) && IsListing(order, Created(w.store, w.pvs, w.cfg))
    ensures forall k :: 0 <= k <= |PassOps(w.store, w.pvs, w.cfg, order)| ==>
              Safe(Run(w.store, PassOps(w.store, w.pvs, w.cfg, order)[..k]))
  {
    PassGuarded(w.store, w.pvs, w.cfg, order);
    forall k | 0 <= k <= |PassOps(w.store, w.pvs, w.cfg, order)|
      ensures Safe(Run(w.store, PassOps(w.store, w.pvs, w.cfg, order)[..k]))
    {
      GuardedPrefixesSafe(w.store, PassOps(w.store, w.pvs, w.cfg, order), ByName(w.pvs), k);
    }
  }

  /** The sweep must leave n alone: its claim is foreign, or its volume is
      listed and not marked Missing. */
  predicate Protected(w: World, n: string) {
    n in w.store.claims && !Condemned(w.store, n, ByName(w.pvs))
  }

  lemma {:induction false} GuardedWritesKeep(s: Store, ops: seq<Op>, byName: map<string, Pv>, n: string, k: nat)
    requires AllGuarded(s, ops, byName) && k <= |ops|
    requires n in s.claims && !Condemned(s, n, byName)
    ensures Keeps(SlotOf(s, n), SlotOf(Run(s, ops[..k]), n))
  {
    if k > 0 {
      GuardedWritesKeep(s, ops, byName, n, k - 1);
      assert ops[..k][..k - 1] == ops[..k - 1];
      assert Guarded(Run(s, ops[..k - 1]), ops[k - 1], byName);
    }
  }

  /** Same claim, and nothing that was there is gone. */
  predicate Keeps(before: Slot, after: Slot) {
    && after.claim == before.claim
    && (before.service ==> after.service)
    && (before.configMap ==> after.configMap)
    && (before.sts.Some? ==> after.sts.Some?)
  }

  /** Sweep safety over histories: whatever the order of volume changes,
      selector changes, toggles and failures, no step takes anything from a set
      whose volume that step's reconcile lists without disk-state Missing; and
      a step of a disabled cluster changes nothing at all. */
  lemma ProtectedSetsLoseNothing(worlds: seq<World>, events: seq<Event>, i: nat, n: string)
    requires IsHistory(worlds, events) && i < |events|
    ensures Protected(worlds[i], n) ==> Keeps(SlotOf(worlds[i].store, n), SlotOf(worlds[i + 1].store, n))
    ensures !worlds[i].cfg.enabled ==> worlds[i + 1].store == worlds[i].store
  {
    var w, e := worlds[i], events[i];
    if Protected(w, n) && e.Reconcile? && w.cfg.enabled {
      PassGuarded(w.store, w.pvs, w.cfg, e.order);
      GuardedWritesKeep(w.store, PassOps(w.store, w.pvs, w.cfg, e.order), ByName(w.pvs), n, e.done);
    }
  }
}
