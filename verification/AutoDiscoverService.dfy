/** Which discovered volumes get a chunk server of their own. Names are cut to
    eight characters, so volumes can stand in each other's way. */
module AutoDiscoverService {
  import opened Common
  import opened AutoDiscover
  import opened AutoDiscoverSafety
  import opened AutoDiscoverConvergence

  predicate AllServed(r: Store, pvs: seq<Pv>, cfg: Config) {
    forall pv | pv in pvs :: Eligible(pv, cfg) ==> ServesVolume(SlotOf(r, SetName(cfg.cluster, pv.name)), pv, cfg)
  }

  predicate EligiblePrefixesDistinct(pvs: seq<Pv>, cfg: Config) {
    forall a, b | a in pvs && b in pvs ::
      Eligible(a, cfg) && Eligible(b, cfg) && Short(a.name) == Short(b.name) ==> a == b
  }

  /** What one reconcile can do for an eligible volume, given what the store
      holds under its name: no claim there is about to be swept, the last
      eligible volume of that name is on the same node, and the claim, old or
      made for the first of them, is this volume's own or foreign. */
  predicate Servable(s: Store, pvs: seq<Pv>, cfg: Config, pv: Pv) {
    ServableSlot(SlotOf(s, SetName(cfg.cluster, pv.name)), pvs, cfg, pv)
  }

  predicate ServableSlot(slot: Slot, pvs: seq<Pv>, cfg: Config, pv: Pv) {
    var named := Named(pvs, cfg, SetName(cfg.cluster, pv.name));
    && named != []
    && !Doomed(slot, ByName(pvs))
    && named[|named| - 1].node == pv.node
    && match slot.claim
       case None => named[0].name == pv.name
       case Some(claim) => claim.owned ==> claim.volume == pv.name
  }

  lemma ServedSlot(slot: Slot, pvs: seq<Pv>, cfg: Config, pv: Pv)
    requires UniqueNames(pvs) && pv in Named(pvs, cfg, SetName(cfg.cluster, pv.name))
    ensures ServesVolume(PassSlot(slot, pvs, cfg, SetName(cfg.cluster, pv.name)), pv, cfg)
            <==> ServableSlot(slot, pvs, cfg, pv)
  {
    NewClaimSurvives(pvs, cfg, SetName(cfg.cluster, pv.name));
  }

  lemma ServedIffServable(s: Store, pvs: seq<Pv>, cfg: Config, order: seq<string>, pv: Pv)
    requires UniqueNames(pvs) && IsListing(order, Created(s, pvs, cfg))
    requires pv in pvs && Eligible(pv, cfg)
    ensures ServesVolume(SlotOf(Pass(s, pvs, cfg, order), SetName(cfg.cluster, pv.name)), pv, cfg)
            <==> Servable(s, pvs, cfg, pv)
  {
    var n := SetName(cfg.cluster, pv.name);
    NamedAreEligible(pvs, cfg, n);
    assert pv in Named(pvs, cfg, n);
    PassSlotOf(s, pvs, cfg, order, n);
    ServedSlot(SlotOf(s, n), pvs, cfg, pv);
  }

  /** One chunk server per discovered volume is what the design wants. From any
      store, a pass delivers it if and only if every eligible volume is
      servable. */
  lemma EveryVolumeServedIff(s: Store, pvs: seq<Pv>, cfg: Config, order: seq<string>)
    requires UniqueNames(pvs) && IsListing(order, Created(s, pvs, cfg))
    ensures AllServed(Pass(s, pvs, cfg, order), pvs, cfg)
            <==> forall pv | pv in pvs :: Eligible(pv, cfg) ==> Servable(s, pvs, cfg, pv)
  {
    forall pv | pv in pvs && Eligible(pv, cfg)
      ensures ServesVolume(SlotOf(Pass(s, pvs, cfg, order), SetName(cfg.cluster, pv.name)), pv, cfg)
              <==> Servable(s, pvs, cfg, pv)
    {
      ServedIffServable(s, pvs, cfg, order, pv);
    }
  }

  const NOTHING := Store(map[], {}, {}, map[])

  /** Whoever shares the name shares the prefix. */
  lemma NamesakesShare(pvs: seq<Pv>, cfg: Config, a: Pv)
    requires a in pvs && Eligible(a, cfg)
    ensures forall b | b in pvs ::
              b in Named(pvs, cfg, SetName(cfg.cluster, a.name)) <==> Eligible(b, cfg) && Short(a.name) == Short(b.name)
  {
    NamedAreEligible(pvs, cfg, SetName(cfg.cluster, a.name));
    forall b | b in pvs
      ensures SetName(cfg.cluster, a.name) == SetName(cfg.cluster, b.name) <==> Short(a.name) == Short(b.name)
    {
      SetNameByPrefix(cfg.cluster, a.name, b.name);
    }
  }

  lemma DistinctIsServable(pvs: seq<Pv>, cfg: Config, a: Pv)
    requires EligiblePrefixesDistinct(pvs, cfg) && a in pvs && Eligible(a, cfg)
    ensures Servable(NOTHING, pvs, cfg, a)
  {
    var named := Named(pvs, cfg, SetName(cfg.cluster, a.name));
    NamesakesShare(pvs, cfg, a);
    NamedAreEligible(pvs, cfg, SetName(cfg.cluster, a.name));
    assert named[0] in named && named[|named| - 1] in named;
  }

  lemma SharedIsNotServable(pvs: seq<Pv>, cfg: Config, a: Pv, b: Pv)
    requires UniqueNames(pvs) && a in pvs && b in pvs && a != b
    requires Eligible(a, cfg) && Eligible(b, cfg) && Short(a.name) == Short(b.name)
    ensures !Servable(NOTHING, pvs, cfg, a) || !Servable(NOTHING, pvs, cfg, b)
  {
    SetNameByPrefix(cfg.cluster, a.name, b.name);
    ByNameFinds(pvs);
  }

  /** From an empty store that is so if and only if no two eligible volumes
      share their first eight characters; otherwise the set of the shared name
      is bound to the first volume and pinned to the node of the last. */
  lemma ServedFromNothingIff(pvs: seq<Pv>, cfg: Config, order: seq<string>)
    requires UniqueNames(pvs) && IsListing(order, Created(NOTHING, pvs, cfg))
    ensures AllServed(Pass(NOTHING, pvs, cfg, order), pvs, cfg) <==> EligiblePrefixesDistinct(pvs, cfg)
  {
    EveryVolumeServedIff(NOTHING, pvs, cfg, order);
    if EligiblePrefixesDistinct(pvs, cfg) {
      forall pv | pv in pvs && Eligible(pv, cfg) ensures Servable(NOTHING, pvs, cfg, pv) {
        DistinctIsServable(pvs, cfg, pv);
      }
    } else {
      var a, b :| && a in pvs && b in pvs && a != b
                  && Eligible(a, cfg) && Eligible(b, cfg) && Short(a.name) == Short(b.name);
      SharedIsNotServable(pvs, cfg, a, b);
    }
  }

  // ── A claim that starves another volume ──────────────────────────────────

  /** An owned claim for the listed volume a sits on the name that the eligible
      volume b needs. */
  predicate Starves(s: Store, pvs: seq<Pv>, cfg: Config, a: Pv, b: Pv) {
    && a in pvs && b in pvs && a.name != b.name && !Missing(a) && Eligible(b, cfg)
    && SetName(cfg.cluster, b.name) in s.claims
    && s.claims[SetName(cfg.cluster, b.name)] == Claim(a.name, true)
  }

  /** Then no pass serves b, and the next one finds it just so again. */
  lemma StarvedForGood(s: Store, pvs: seq<Pv>, cfg: Config, order: seq<string>, a: Pv, b: Pv)
    requires UniqueNames(pvs) && IsListing(order, Created(s, pvs, cfg)) && Starves(s, pvs, cfg, a, b)
    ensures !AllServed(Pass(s, pvs, cfg, order), pvs, cfg)
    ensures Starves(Pass(s, pvs, cfg, order), pvs, cfg, a, b)
  {
    var n := SetName(cfg.cluster, b.name);
    ServedIffServable(s, pvs, cfg, order, b);
    PassSlotOf(s, pvs, cfg, order, n);
    ByNameFinds(pvs);
    assert SlotOf(Pass(s, pvs, cfg, order), n).claim == Some(Claim(a.name, true));
  }

  /** Two volumes of one prefix, and a selector that picks one of them. */
  function Disk(suffix: string, tier: string): Pv {
    Pv("12345678-" + suffix, map["tier" := tier], "node", Available)
  }

  function Selecting(tier: string): Config { Config("c", true, map["tier" := tier], "") }

  lemma OnlyOneIsNamed(a: Pv, b: Pv, cfg: Config)
    requires Eligible(a, cfg) && !Eligible(b, cfg)
    ensures Named([a, b], cfg, SetName(cfg.cluster, a.name)) == [a]
  {
    var n := SetName(cfg.cluster, a.name);
    assert [a, b][..1] == [a] && [a][..0] == [];
    assert Named([], cfg, n) == [];
    assert Named([a], cfg, n) == [a];
  }

  lemma NewClaimIsFirst(pvs: seq<Pv>, cfg: Config, n: string)
    requires UniqueNames(pvs) && Named(pvs, cfg, n) != []
    ensures PassSlot(EMPTY, pvs, cfg, n).claim == Some(Claim(Named(pvs, cfg, n)[0].name, true))
  {
    NewClaimSurvives(pvs, cfg, n);
  }

  /** Whoever is selected first gets the claim. */
  lemma FirstComeClaims(a: Pv, b: Pv, cfg: Config, order: seq<string>)
    requires Eligible(a, cfg) && !Eligible(b, cfg) && a.name != b.name
    requires IsListing(order, Created(NOTHING, [a, b], cfg))
    ensures SlotOf(Pass(NOTHING, [a, b], cfg, order), SetName(cfg.cluster, a.name)).claim == Some(Claim(a.name, true))
  {
    var n, pvs := SetName(cfg.cluster, a.name), [a, b];
    assert SlotOf(NOTHING, n) == EMPTY;
    OnlyOneIsNamed(a, b, cfg);
    NewClaimIsFirst(pvs, cfg, n);
    PassSlotOf(NOTHING, pvs, cfg, order, n);
  }

  /** a and b share a prefix, and each selector picks only one of them. */
  predicate TakeTurns(a: Pv, b: Pv, before: Config, after: Config) {
    && a.name != b.name && Short(a.name) == Short(b.name)
    && before.cluster == after.cluster && before.enabled
    && Eligible(a, before) && !Eligible(b, before) && !Eligible(a, after) && Eligible(b, after)
  }

  /** One clean reconcile from an empty store, then a change of configuration. */
  lemma ReconcileThenChange(pvs: seq<Pv>, before: Config, after: Config, order: seq<string>)
    returns (worlds: seq<World>, events: seq<Event>)
    requires before.enabled && IsListing(order, Created(NOTHING, pvs, before))
    ensures IsHistory(worlds, events) && |events| == 2 && events[1] == ConfigChange(after)
    ensures worlds[0] == World(NOTHING, pvs, before) && worlds[1].pvs == pvs && worlds[1].cfg == before
    ensures worlds[2] == World(Pass(NOTHING, pvs, before, order), pvs, after)
  {
    var ops := PassOps(NOTHING, pvs, before, order);
    PassRunsItsOps(NOTHING, pvs, before, order);
    assert ops[..|ops|] == ops;
    var store := Pass(NOTHING, pvs, before, order);
    worlds := [World(NOTHING, pvs, before), World(store, pvs, before), World(store, pvs, after)];
    events := [Reconcile(order, |ops|), ConfigChange(after)];
  }

  /** Distinct prefixes among the eligible volumes are not enough for a later
      reconcile: on this history from an empty store, one clean reconcile and a
      change of the selector, no two eligible volumes ever share a prefix, and
      yet the volume selected in the end is starved for good. */
  lemma SelectorChangeStarves(a: Pv, b: Pv, before: Config, after: Config)
    returns (worlds: seq<World>, events: seq<Event>)
    requires TakeTurns(a, b, before, after)
    ensures IsHistory(worlds, events) && |events| == 2
    ensures worlds[0] == World(NOTHING, [a, b], before) && events[1] == ConfigChange(after)
    ensures forall i :: 0 <= i < |worlds| ==> EligiblePrefixesDistinct(worlds[i].pvs, worlds[i].cfg)
    ensures worlds[2].pvs == [a, b] && worlds[2].cfg == after
    ensures Starves(worlds[2].store, [a, b], after, a, b)
  {
    var order := SomeListing(Created(NOTHING, [a, b], before));
    worlds, events := ReconcileThenChange([a, b], before, after, order);
    FirstComeClaims(a, b, before, order);
    SetNameByPrefix(before.cluster, a.name, b.name);
  }

  /** For example two disks of different tiers. */
  lemma TiersTakeTurns()
    ensures TakeTurns(Disk("a", "old"), Disk("b", "new"), Selecting("old"), Selecting("new"))
  {
    assert Disk("a", "old").name == "12345678-a" && Disk("b", "new").name == "12345678-b";
  }
}
