/** Convergence of auto-discovery: what a clean pass leaves under every name,
    when a pass is a fixed point, and that two passes always reach one. */
module AutoDiscoverConvergence {
  import opened Common
  import opened AutoDiscover
  import opened AutoDiscoverSafety

  // ── A pass, name by name ─────────────────────────────────────────────────

  /** The eligible volumes that map to name n, in list order. More than one when
      volume names share their first eight characters. */
  function Named(pvs: seq<Pv>, cfg: Config, n: string): seq<Pv> {
    if pvs == [] then []
    else
      var last := pvs[|pvs| - 1];
      Named(pvs[..|pvs| - 1], cfg, n)
        + if Eligible(last, cfg) && SetName(cfg.cluster, last.name) == n then [last] else []
  }

  /** The first volume gets the claim, the last one decides the node. */
  function CreatedSlot(slot: Slot, named: seq<Pv>, n: string, cfg: Config): Slot {
    if named == [] then slot
    else Slot(if slot.claim.Some? then slot.claim else Some(Claim(named[0].name, true)),
              true, true,
              Some(Template(named[|named| - 1].node, n, cfg.settings)))
  }

  predicate Doomed(slot: Slot, byName: map<string, Pv>) {
    slot.claim.Some? && slot.claim.value.owned && Orphan(slot.claim.value, byName)
  }

  function PassSlot(slot: Slot, pvs: seq<Pv>, cfg: Config, n: string): Slot {
    var mid := CreatedSlot(slot, Named(pvs, cfg, n), n, cfg);
    if Doomed(mid, ByName(pvs)) then EMPTY else mid
  }

  lemma PvOpsSlot(s: Store, pv: Pv, cfg: Config, n: string)
    ensures var hit := Eligible(pv, cfg) && SetName(cfg.cluster, pv.name) == n;
            SlotOf(Run(s, PvOps(pv, cfg)), n) == CreatedSlot(SlotOf(s, n), if hit then [pv] else [], n, cfg)
  {
    RunPrefixes(s, PvOps(pv, cfg));
  }

  lemma {:induction false} CreatedSlotOf(s: Store, pvs: seq<Pv>, cfg: Config, n: string)
    ensures SlotOf(Created(s, pvs, cfg), n) == CreatedSlot(SlotOf(s, n), Named(pvs, cfg, n), n, cfg)
  {
    if pvs != [] {
      var front, last := pvs[..|pvs| - 1], pvs[|pvs| - 1];
      CreatedSlotOf(s, front, cfg, n);
      RunConcat(s, CreateOps(front, cfg), PvOps(last, cfg));
      PvOpsSlot(Created(s, front, cfg), last, cfg, n);
    }
  }

  lemma {:induction false} SweptSlotOf(s: Store, order: seq<string>, byName: map<string, Pv>, n: string)
    requires forall i, j :: 0 <= i < j < |order| ==> order[i] != order[j]
    requires (forall x :: x in order ==> x in s.claims) && n in order
    ensures SlotOf(Run(s, SweepOps(order, s.claims, byName)), n)
         == if Orphan(s.claims[n], byName) then EMPTY else SlotOf(s, n)
  {
    var front, m := order[..|order| - 1], order[|order| - 1];
    SweepLast(s, order, s.claims, byName);
    DeletedSlots(Run(s, SweepOps(front, s.claims, byName)), m, n);
    if n == m {
      SweepKeepsOthers(s, front, s.claims, byName, n);
    } else {
      SweptSlotOf(s, front, byName, n);
    }
  }

  /** The pass on the whole store is the pass on each name by itself. */
  lemma PassSlotOf(s: Store, pvs: seq<Pv>, cfg: Config, order: seq<string>, n: string)
    requires IsListing(order, Created(s, pvs, cfg))
    ensures SlotOf(Pass(s, pvs, cfg, order), n) == PassSlot(SlotOf(s, n), pvs, cfg, n)
  {
    var mid := Created(s, pvs, cfg);
    CreatedSlotOf(s, pvs, cfg, n);
    if n in order {
      SweptSlotOf(mid, order, ByName(pvs), n);
    } else {
      SweepKeepsOthers(mid, order, mid.claims, ByName(pvs), n);
    }
  }

  // ── Fixed points ─────────────────────────────────────────────────────────

  lemma {:induction false} NamedAreEligible(pvs: seq<Pv>, cfg: Config, n: string)
    ensures forall pv :: pv in Named(pvs, cfg, n) <==>
              pv in pvs && Eligible(pv, cfg) && SetName(cfg.cluster, pv.name) == n
  {
    if pvs != [] { NamedAreEligible(pvs[..|pvs| - 1], cfg, n); }
  }

  /** A claim for an eligible volume is never an orphan. */
  lemma NewClaimSurvives(pvs: seq<Pv>, cfg: Config, n: string)
    requires UniqueNames(pvs) && Named(pvs, cfg, n) != []
    ensures !Orphan(Claim(Named(pvs, cfg, n)[0].name, true), ByName(pvs))
  {
    var pv := Named(pvs, cfg, n)[0];
    NamedAreEligible(pvs, cfg, n);
    assert pv in pvs;
    ByNameFinds(pvs);
  }

  /** One name needs a second pass exactly when the claim it starts from is
      swept although an eligible volume wants the same name. */
  lemma PassSlotFixed(slot: Slot, pvs: seq<Pv>, cfg: Config, n: string)
    requires UniqueNames(pvs)
    ensures var once := PassSlot(slot, pvs, cfg, n);
            PassSlot(once, pvs, cfg, n) == once <==> !(Doomed(slot, ByName(pvs)) && Named(pvs, cfg, n) != [])
    ensures var twice := PassSlot(PassSlot(slot, pvs, cfg, n), pvs, cfg, n);
            PassSlot(twice, pvs, cfg, n) == twice
  {
    if Named(pvs, cfg, n) != [] { NewClaimSurvives(pvs, cfg, n); }
  }

  /** Three clean passes equal two, from any store and for any volume list,
      even one whose names share prefixes. */
  lemma ThreePassesEqualTwo(s: Store, pvs: seq<Pv>, cfg: Config, o1: seq<string>, o2: seq<string>, o3: seq<string>)
    requires UniqueNames(pvs)
    requires IsListing(o1, Created(s, pvs, cfg))
    requires IsListing(o2, Created(Pass(s, pvs, cfg, o1), pvs, cfg))
    requires IsListing(o3, Created(Pass(Pass(s, pvs, cfg, o1), pvs, cfg, o2), pvs, cfg))
    ensures Pass(Pass(Pass(s, pvs, cfg, o1), pvs, cfg, o2), pvs, cfg, o3) == Pass(Pass(s, pvs, cfg, o1), pvs, cfg, o2)
  {
    var s1 := Pass(s, pvs, cfg, o1);
    var s2 := Pass(s1, pvs, cfg, o2);
    var s3 := Pass(s2, pvs, cfg, o3);
    forall n ensures SlotOf(s3, n) == SlotOf(s2, n) {
      PassSlotOf(s, pvs, cfg, o1, n);
      PassSlotOf(s1, pvs, cfg, o2, n);
      PassSlotOf(s2, pvs, cfg, o3, n);
      PassSlotFixed(SlotOf(s, n), pvs, cfg, n);
    }
    SlotsDetermineStore(s3, s2);
  }

  /** A condemned claim whose name an eligible volume maps to. */
  predicate Blocked(s: Store, pvs: seq<Pv>, cfg: Config, n: string) {
    Condemned(s, n, ByName(pvs)) && Named(pvs, cfg, n) != []
  }

  /** A single pass is already a fixed point if and only if no condemned claim
      sits on a name that an eligible volume needs. */
  lemma OnePassIsFixedIff(s: Store, pvs: seq<Pv>, cfg: Config, o1: seq<string>, o2: seq<string>)
    requires UniqueNames(pvs)
    requires IsListing(o1, Created(s, pvs, cfg))
    requires IsListing(o2, Created(Pass(s, pvs, cfg, o1), pvs, cfg))
    ensures Pass(Pass(s, pvs, cfg, o1), pvs, cfg, o2) == Pass(s, pvs, cfg, o1) <==> forall n :: !Blocked(s, pvs, cfg, n)
  {
    var s1 := Pass(s, pvs, cfg, o1);
    var s2 := Pass(s1, pvs, cfg, o2);
    forall n ensures SlotOf(s2, n) == SlotOf(s1, n) <==> !Blocked(s, pvs, cfg, n) {
      PassSlotOf(s, pvs, cfg, o1, n);
      PassSlotOf(s1, pvs, cfg, o2, n);
      PassSlotFixed(SlotOf(s, n), pvs, cfg, n);
    }
    if forall n :: !Blocked(s, pvs, cfg, n) { SlotsDetermineStore(s2, s1); }
  }

  // ── The set specification ────────────────────────────────────────────────

  /** Every owned claim is named after its volume: true of every claim the
      operator creates. */
  predicate NamedAfterVolume(s: Store, cfg: Config) {
    forall n :: n in s.claims && s.claims[n].owned ==> n == SetName(cfg.cluster, s.claims[n].volume)
  }

  function ListedNames(pvs: seq<Pv>): set<string> { set pv | pv in pvs :: pv.name }

  function BoundVolumes(s: Store): set<string> { set n | n in s.claims && s.claims[n].owned :: s.claims[n].volume }

  /** No two volumes, listed or claimed, share their first eight characters. */
  predicate DistinctPrefixes(s: Store, pvs: seq<Pv>) {
    forall a, b | a in ListedNames(pvs) + BoundVolumes(s) && b in ListedNames(pvs) + BoundVolumes(s) ::
      Short(a) == Short(b) ==> a == b
  }

  /** Names of eligible volumes, and claims that are foreign or whose volume is
      listed and not Missing. */
  function TargetNames(s: Store, pvs: seq<Pv>, cfg: Config): set<string> {
    (set pv | pv in pvs && Eligible(pv, cfg) :: SetName(cfg.cluster, pv.name))
      + (set n | n in s.claims && !Condemned(s, n, ByName(pvs)))
  }

  lemma DistinctMeansUnblocked(s: Store, pvs: seq<Pv>, cfg: Config, n: string)
    requires UniqueNames(pvs) && NamedAfterVolume(s, cfg) && DistinctPrefixes(s, pvs)
    ensures !Blocked(s, pvs, cfg, n)
  {
    if n in s.claims && s.claims[n].owned && Named(pvs, cfg, n) != [] {
      var pv := Named(pvs, cfg, n)[0];
      NamedAreEligible(pvs, cfg, n);
      assert pv in pvs && Eligible(pv, cfg);
      SetNameByPrefix(cfg.cluster, pv.name, s.claims[n].volume);
      assert pv.name in ListedNames(pvs) && s.claims[n].volume in BoundVolumes(s);
      ByNameFinds(pvs);
    }
  }

  /** The name carries the full set for this eligible volume. */
  predicate ServesVolume(slot: Slot, pv: Pv, cfg: Config) {
    && slot.service && slot.configMap
    && slot.sts == Some(Template(pv.node, SetName(cfg.cluster, pv.name), cfg.settings))
    && slot.claim.Some? && (slot.claim.value.owned ==> slot.claim.value.volume == pv.name)
  }

  lemma NamedIffTarget(s: Store, pvs: seq<Pv>, cfg: Config, n: string)
    ensures n in TargetNames(s, pvs, cfg) <==>
              Named(pvs, cfg, n) != [] || (n in s.claims && !Condemned(s, n, ByName(pvs)))
  {
    var named := Named(pvs, cfg, n);
    NamedAreEligible(pvs, cfg, n);
    if named != [] {
      assert named[0] in pvs && Eligible(named[0], cfg);
    } else {
      assert forall pv :: pv in pvs && Eligible(pv, cfg) ==> pv !in named && SetName(cfg.cluster, pv.name) != n;
    }
  }

  lemma TargetIsClaimed(s: Store, pvs: seq<Pv>, cfg: Config, o1: seq<string>, n: string)
    requires UniqueNames(pvs) && NamedAfterVolume(s, cfg) && DistinctPrefixes(s, pvs)
    requires IsListing(o1, Created(s, pvs, cfg))
    ensures n in Pass(s, pvs, cfg, o1).claims <==> n in TargetNames(s, pvs, cfg)
  {
    PassSlotOf(s, pvs, cfg, o1, n);
    NamedIffTarget(s, pvs, cfg, n);
    DistinctMeansUnblocked(s, pvs, cfg, n);
    assert SlotOf(Pass(s, pvs, cfg, o1), n).claim.Some? <==> n in Pass(s, pvs, cfg, o1).claims;
    if Named(pvs, cfg, n) != [] { NewClaimSurvives(pvs, cfg, n); }
  }

  lemma EligibleIsServed(s: Store, pvs: seq<Pv>, cfg: Config, o1: seq<string>, pv: Pv)
    requires UniqueNames(pvs) && NamedAfterVolume(s, cfg) && DistinctPrefixes(s, pvs)
    requires IsListing(o1, Created(s, pvs, cfg)) && pv in pvs && Eligible(pv, cfg)
    ensures ServesVolume(SlotOf(Pass(s, pvs, cfg, o1), SetName(cfg.cluster, pv.name)), pv, cfg)
  {
    var n := SetName(cfg.cluster, pv.name);
    var named := Named(pvs, cfg, n);
    PassSlotOf(s, pvs, cfg, o1, n);
    NamedAreEligible(pvs, cfg, n);
    DistinctMeansUnblocked(s, pvs, cfg, n);
    NewClaimSurvives(pvs, cfg, n);
    forall other | other in named ensures other == pv {
      SetNameByPrefix(cfg.cluster, pv.name, other.name);
      assert pv.name in ListedNames(pvs) && other.name in ListedNames(pvs);
      ByNameFinds(pvs);
    }
    assert named[0] == pv && named[|named| - 1] == pv;
    if n in s.claims && s.claims[n].owned {
      SetNameByPrefix(cfg.cluster, pv.name, s.claims[n].volume);
      assert pv.name in ListedNames(pvs) && s.claims[n].volume in BoundVolumes(s);
    }
  }

  /** With distinct prefixes one pass is a fixed point, and it leaves exactly
      the target names, each with its full set if it is an eligible volume's. */
  lemma OnePassMeetsSpecification(s: Store, pvs: seq<Pv>, cfg: Config, o1: seq<string>, o2: seq<string>)
    requires UniqueNames(pvs) && NamedAfterVolume(s, cfg) && DistinctPrefixes(s, pvs)
    requires IsListing(o1, Created(s, pvs, cfg))
    requires IsListing(o2, Created(Pass(s, pvs, cfg, o1), pvs, cfg))
    ensures Pass(Pass(s, pvs, cfg, o1), pvs, cfg, o2) == Pass(s, pvs, cfg, o1)
    ensures Pass(s, pvs, cfg, o1).claims.Keys == TargetNames(s, pvs, cfg)
    ensures forall pv :: pv in pvs && Eligible(pv, cfg) ==>
              ServesVolume(SlotOf(Pass(s, pvs, cfg, o1), SetName(cfg.cluster, pv.name)), pv, cfg)
  {
    forall n ensures !Blocked(s, pvs, cfg, n) { DistinctMeansUnblocked(s, pvs, cfg, n); }
    OnePassIsFixedIff(s, pvs, cfg, o1, o2);
    forall n ensures n in Pass(s, pvs, cfg, o1).claims <==> n in TargetNames(s, pvs, cfg) {
      TargetIsClaimed(s, pvs, cfg, o1, n);
    }
    forall pv | pv in pvs && Eligible(pv, cfg)
      ensures ServesVolume(SlotOf(Pass(s, pvs, cfg, o1), SetName(cfg.cluster, pv.name)), pv, cfg)
    {
      EligibleIsServed(s, pvs, cfg, o1, pv);
    }
  }

  // ── Nothing is leaked ────────────────────────────────────────────────────

  /** After a clean pass over a safe store, whatever reconciles failed before,
      every object that is left belongs to a claim the sweep has no reason to
      delete. */
  lemma CleanPassLeaksNothing(s: Store, pvs: seq<Pv>, cfg: Config, order: seq<string>, n: string)
    requires Safe(s) && IsListing(order, Created(s, pvs, cfg))
    requires SlotOf(Pass(s, pvs, cfg, order), n) != EMPTY
    ensures n in Pass(s, pvs, cfg, order).claims && !Condemned(Pass(s, pvs, cfg, order), n, ByName(pvs))
  {
    PassSlotOf(s, pvs, cfg, order, n);
    var r := Pass(s, pvs, cfg, order);
    assert SlotOf(r, n).claim.Some? <==> n in r.claims;
    assert n in s.claims || SlotOf(s, n) == EMPTY;
  }

  /** Claims keep being named after their volumes, through any prefix of any pass. */
  lemma {:induction false} NamesStay(s: Store, ops: seq<Op>, cfg: Config, k: nat)
    requires NamedAfterVolume(s, cfg) && k <= |ops|
    requires forall i :: 0 <= i < |ops| && ops[i].EnsureClaim? ==> ops[i].name == SetName(cfg.cluster, ops[i].volume)
    ensures NamedAfterVolume(Run(s, ops[..k]), cfg)
  {
    if k > 0 {
      NamesStay(s, ops, cfg, k - 1);
      assert ops[..k][..k - 1] == ops[..k - 1];
    }
  }

  lemma {:induction false} CreateNames(pvs: seq<Pv>, cfg: Config)
    ensures forall i :: 0 <= i < |CreateOps(pvs, cfg)| && CreateOps(pvs, cfg)[i].EnsureClaim? ==>
              CreateOps(pvs, cfg)[i].name == SetName(cfg.cluster, CreateOps(pvs, cfg)[i].volume)
  {
    if pvs != [] { CreateNames(pvs[..|pvs| - 1], cfg); }
  }

  lemma {:induction false} SweepCreatesNothing(order: seq<string>, claims: map<string, Claim>, byName: map<string, Pv>)
    requires forall x :: x in order ==> x in claims
    ensures forall i :: 0 <= i < |SweepOps(order, claims, byName)| ==> !SweepOps(order, claims, byName)[i].EnsureClaim?
  {
    if order != [] { SweepCreatesNothing(order[..|order| - 1], claims, byName); }
  }

  /** So the naming premise of the specification holds on every history of one
      cluster that starts from a store where it holds, the empty one included. */
  lemma {:induction false} HistoriesNameClaims(worlds: seq<World>, events: seq<Event>, i: nat, cfg: Config)
    requires IsHistory(worlds, events) && i < |worlds|
    requires forall j :: 0 <= j < |worlds| ==> worlds[j].cfg.cluster == cfg.cluster
    requires NamedAfterVolume(worlds[0].store, cfg)
    ensures NamedAfterVolume(worlds[i].store, cfg)
  {
    if i > 0 {
      HistoriesNameClaims(worlds, events, i - 1, cfg);
      var w, e := worlds[i - 1], events[i - 1];
      if e.Reconcile? && w.cfg.enabled {
        CreateNames(w.pvs, w.cfg);
        SweepCreatesNothing(e.order, Created(w.store, w.pvs, w.cfg).claims, ByName(w.pvs));
        NamesStay(w.store, PassOps(w.store, w.pvs, w.cfg, e.order), cfg, e.done);
      }
    }
  }
}
