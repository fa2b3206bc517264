/** Exactly which writes a reconcile makes, in the labels and names that users
    and the disk operator see. */
module AutoDiscoverWrites {
  import opened AutoDiscover
  import opened AutoDiscoverSafety

  // ── Labels and names ─────────────────────────────────────────────────────

  /** The disk operator has marked the volume's disk as gone. Healthy disks carry
      the same label with other values, or none. */
  predicate MarkedMissing(pv: Pv) {
    "localdisk-operator.io/disk-state" in pv.labels && pv.labels["localdisk-operator.io/disk-state"] == "Missing"
  }

  predicate Selected(pv: Pv, selector: map<string, string>) {
    if selector == map[] then "localdisk-operator.io/disk" in pv.labels
    else forall k :: k in selector ==> k in pv.labels && selector[k] in ["", pv.labels[k]]
  }

  /** A volume that gets a chunk server. */
  predicate Wanted(pv: Pv, cfg: Config) {
    Selected(pv, cfg.selector) && pv.node != "" && pv.phase in {Available, Bound} && !MarkedMissing(pv)
  }

  function ResourceName(cluster: string, pv: string): string {
    cluster + "-chunk-ad-" + if |pv| <= 8 then pv else pv[..8]
  }

  lemma EligibleIffWanted(pv: Pv, cfg: Config)
    ensures Eligible(pv, cfg) <==> Wanted(pv, cfg)
    ensures SetName(cfg.cluster, pv.name) == ResourceName(cfg.cluster, pv.name)
  {
  }

  // ── Creation ─────────────────────────────────────────────────────────────

  /** The four writes for one volume. */
  predicate IsPutFor(op: Op, pv: Pv, cfg: Config) {
    var n := ResourceName(cfg.cluster, pv.name);
    op in [EnsureClaim(n, pv.name), PutService(n), PutConfigMap(n), PutSet(n, Template(pv.node, n, cfg.settings))]
  }

  /** A reconcile puts an object exactly if it belongs to a wanted volume. */
  lemma {:induction false} PutsIff(pvs: seq<Pv>, cfg: Config, op: Op)
    ensures op in CreateOps(pvs, cfg) <==> exists pv :: pv in pvs && Wanted(pv, cfg) && IsPutFor(op, pv, cfg)
  {
    if pvs != [] {
      var front, last := pvs[..|pvs| - 1], pvs[|pvs| - 1];
      PutsIff(front, cfg, op);
      EligibleIffWanted(last, cfg);
      assert pvs == front + [last];
    }
  }

  // ── The sweep ────────────────────────────────────────────────────────────

  /** No volume of that name is listed, or the listed one is marked Missing. */
  predicate Lost(volume: string, pvs: seq<Pv>) {
    forall pv | pv in pvs :: pv.name == volume ==> MarkedMissing(pv)
  }

  lemma OrphanIffLost(claim: Claim, pvs: seq<Pv>)
    requires UniqueNames(pvs)
    ensures Orphan(claim, ByName(pvs)) <==> Lost(claim.volume, pvs)
  {
    ByNameFinds(pvs);
    forall pv | pv in pvs && pv.name == claim.volume
      ensures claim.volume in ByName(pvs) && ByName(pvs)[claim.volume] == pv
    {
      var i :| 0 <= i < |pvs| && pvs[i] == pv;
    }
  }

  predicate IsDeleteOf(op: Op, n: string) {
    op in [DeleteSet(n), DeleteService(n), DeleteConfigMap(n), DeleteClaim(n)]
  }

  /** The sweep deletes an object exactly if its set's claim is on the list and
      the claim's volume is lost. */
  lemma {:induction false} DeletesIff(order: seq<string>, claims: map<string, Claim>, pvs: seq<Pv>, op: Op)
    requires UniqueNames(pvs) && forall n :: n in order ==> n in claims
    ensures op in SweepOps(order, claims, ByName(pvs))
            <==> exists n :: n in order && Lost(claims[n].volume, pvs) && IsDeleteOf(op, n)
  {
    if order != [] {
      var front, last := order[..|order| - 1], order[|order| - 1];
      DeletesIff(front, claims, pvs, op);
      OrphanIffLost(claims[last], pvs);
      assert order == front + [last];
    }
  }

  // ── Sweep safety in these terms ──────────────────────────────────────────

  /** Nothing that exists under n in s is missing in t, and the claim is the same. */
  predicate NothingLost(s: Store, t: Store, n: string) {
    && (n in s.claims ==> n in t.claims && t.claims[n] == s.claims[n])
    && (n in s.services ==> n in t.services)
    && (n in s.configMaps ==> n in t.configMaps)
    && (n in s.sets ==> n in t.sets)
  }

  /** On every history, whatever fails and whatever the selector says: a set whose
      volume is listed without the label disk-state, or with any value but
      Missing, loses nothing in that step. */
  lemma HealthyDisksKeepTheirSets(worlds: seq<World>, events: seq<Event>, i: nat, n: string, pv: Pv)
    requires IsHistory(worlds, events) && i < |events|
    requires UniqueNames(worlds[i].pvs) && pv in worlds[i].pvs && !MarkedMissing(pv)
    requires n in worlds[i].store.claims && worlds[i].store.claims[n].volume == pv.name
    ensures NothingLost(worlds[i].store, worlds[i + 1].store, n)
  {
    var w := worlds[i];
    OrphanIffLost(w.store.claims[n], w.pvs);
    ProtectedSetsLoseNothing(worlds, events, i, n);
    var before, after := SlotOf(w.store, n), SlotOf(worlds[i + 1].store, n);
    assert Keeps(before, after);
  }
}
