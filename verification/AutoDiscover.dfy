/** Auto-discovered chunk servers: the writes one reconcile makes, in order, and
    what holds of the store after any prefix of them. A reconcile stops at its
    first failing API call, so a prefix is all a failed one leaves behind. */
module AutoDiscover {
  import opened Common

  // ── Persistent volumes and the configuration ─────────────────────────────

  const DISK_LABEL := "localdisk-operator.io/disk"
  const STATE_LABEL := "localdisk-operator.io/disk-state"

  datatype Phase = Available | Bound | Pending | Released | Failed

  /** `node` is the hostname in the volume's node affinity, "" if there is none. */
  datatype Pv = Pv(name: string, labels: map<string, string>, node: string, phase: Phase)

  /** `settings` stands for the tolerations, resources and image that go into
      every generated pod template. */
  datatype Config = Config(cluster: string, enabled: bool, selector: map<string, string>, settings: string)

  predicate Matches(labels: map<string, string>, selector: map<string, string>) {
    if |selector| == 0 then DISK_LABEL in labels
    else forall k :: k in selector ==> k in labels && (selector[k] == "" || labels[k] == selector[k])
  }

  /** Go's loop over the selector map, in whatever order it comes. */
  method PvMatchesSelector(labels: map<string, string>, selector: map<string, string>) returns (matches: bool)
    ensures matches == Matches(labels, selector)
    ensures |selector| == 0 ==> (matches <==> "localdisk-operator.io/disk" in labels)
    ensures |selector| > 0 ==>
              (matches <==> forall k :: k in selector ==> k in labels && selector[k] in ["", labels[k]])
  {
    if |selector| == 0 { return DISK_LABEL in labels; }
    var rest := selector.Keys;
    while rest != {}
      invariant rest <= selector.Keys
      invariant forall k :: k in selector.Keys - rest ==> k in labels && (selector[k] == "" || labels[k] == selector[k])
      decreases rest
    {
      var k :| k in rest;
      rest := rest - {k};
      if k !in labels { return false; }
      if selector[k] != "" && labels[k] != selector[k] { return false; }
    }
    return true;
  }

  predicate Missing(pv: Pv) { STATE_LABEL in pv.labels && pv.labels[STATE_LABEL] == "Missing" }

  predicate Eligible(pv: Pv, cfg: Config) {
    && Matches(pv.labels, cfg.selector)
    && pv.node != ""
    && (pv.phase == Available || pv.phase == Bound)
    && !Missing(pv)
  }

  function Short(name: string): string { if |name| > 8 then name[..8] else name }

  /** The name shared by a volume's StatefulSet, Service and PVC. */
  function SetName(cluster: string, pv: string): string { cluster + "-chunk-ad-" + Short(pv) }

  lemma SetNameByPrefix(cluster: string, a: string, b: string)
    ensures SetName(cluster, a) == SetName(cluster, b) <==> Short(a) == Short(b)
  {
    var n := |cluster + "-chunk-ad-"|;
    assert SetName(cluster, a)[n..] == Short(a);
    assert SetName(cluster, b)[n..] == Short(b);
  }

  /** The index the sweep looks volumes up in; it covers all listed volumes,
      not only those that match the selector. */
  function ByName(pvs: seq<Pv>): map<string, Pv> {
    if pvs == [] then map[] else ByName(pvs[..|pvs| - 1])[pvs[|pvs| - 1].name := pvs[|pvs| - 1]]
  }

  /** Volume names are unique in a cluster. */
  predicate UniqueNames(pvs: seq<Pv>) {
    forall i, j :: 0 <= i < j < |pvs| ==> pvs[i].name != pvs[j].name
  }

  lemma {:induction false} ByNameFinds(pvs: seq<Pv>)
    requires UniqueNames(pvs)
    ensures forall i :: 0 <= i < |pvs| ==> pvs[i].name in ByName(pvs) && ByName(pvs)[pvs[i].name] == pvs[i]
    ensures forall n :: n in ByName(pvs) ==> ByName(pvs)[n] in pvs && ByName(pvs)[n].name == n
  {
    if pvs != [] { ByNameFinds(pvs[..|pvs| - 1]); }
  }

  // ── The store ────────────────────────────────────────────────────────────

  /** `owned`: the PVC carries the auto-discover and instance labels. */
  datatype Claim = Claim(volume: string, owned: bool)

  datatype Template = Template(node: string, claim: string, settings: string)

  /** The four kinds of objects, by the name of the StatefulSet they belong to
      (the ConfigMap's own name is that name plus "-hdd"). */
  datatype Store = Store(
    claims: map<string, Claim>,
    services: set<string>,
    configMaps: set<string>,
    sets: map<string, Template>)

  /** All that the store holds under one name. */
  datatype Slot = Slot(claim: Option<Claim>, service: bool, configMap: bool, sts: Option<Template>)

  const EMPTY := Slot(None, false, false, None)

  function SlotOf(s: Store, n: string): Slot {
    Slot(if n in s.claims then Some(s.claims[n]) else None,
         n in s.services,
         n in s.configMaps,
         if n in s.sets then Some(s.sets[n]) else None)
  }

  lemma SlotsDetermineStore(s: Store, t: Store)
    requires forall n :: SlotOf(s, n) == SlotOf(t, n)
    ensures s == t
  {
    forall n ensures (n in s.claims <==> n in t.claims) && (n in s.sets <==> n in t.sets)
             ensures (n in s.services <==> n in t.services) && (n in s.configMaps <==> n in t.configMaps) {
      assert SlotOf(s, n) == SlotOf(t, n);
    }
    forall n | n in s.claims ensures s.claims[n] == t.claims[n] { assert SlotOf(s, n) == SlotOf(t, n); }
    forall n | n in s.sets ensures s.sets[n] == t.sets[n] { assert SlotOf(s, n) == SlotOf(t, n); }
    assert s.claims == t.claims && s.services == t.services && s.configMaps == t.configMaps && s.sets == t.sets;
  }

  datatype Op =
    | EnsureClaim(name: string, volume: string)
    | PutService(name: string)
    | PutConfigMap(name: string)
    | PutSet(name: string, template: Template)
    | DeleteSet(name: string)
    | DeleteService(name: string)
    | DeleteConfigMap(name: string)
    | DeleteClaim(name: string)

  /** Creating a claim that exists does nothing; the other puts create or
      overwrite; deleting what is not there is no error. */
  function Apply(s: Store, op: Op): Store {
    match op
    case EnsureClaim(n, v) => if n in s.claims then s else s.(claims := s.claims[n := Claim(v, true)])
    case PutService(n) => s.(services := s.services + {n})
    case PutConfigMap(n) => s.(configMaps := s.configMaps + {n})
    case PutSet(n, t) => s.(sets := s.sets[n := t])
    case DeleteSet(n) => s.(sets := s.sets - {n})
    case DeleteService(n) => s.(services := s.services - {n})
    case DeleteConfigMap(n) => s.(configMaps := s.configMaps - {n})
    case DeleteClaim(n) => s.(claims := s.claims - {n})
  }

  function Run(s: Store, ops: seq<Op>): Store {
    if ops == [] then s else Apply(Run(s, ops[..|ops| - 1]), ops[|ops| - 1])
  }

  lemma {:induction false} RunConcat(s: Store, a: seq<Op>, b: seq<Op>)
    ensures Run(s, a + b) == Run(Run(s, a), b)
  {
    if b == [] {
      assert a + b == a;
    } else {
      var n := |b| - 1;
      assert (a + b)[..|a + b| - 1] == a + b[..n];
      RunConcat(s, a, b[..n]);
    }
  }

  /** The states a list of at most four writes goes through. */
  lemma RunPrefixes(s: Store, ops: seq<Op>)
    ensures Run(s, ops[..0]) == s
    ensures |ops| >= 1 ==> Run(s, ops[..1]) == Apply(s, ops[0])
    ensures |ops| >= 2 ==> Run(s, ops[..2]) == Apply(Apply(s, ops[0]), ops[1])
    ensures |ops| >= 3 ==> Run(s, ops[..3]) == Apply(Apply(Apply(s, ops[0]), ops[1]), ops[2])
    ensures |ops| == 4 ==> Run(s, ops) == Apply(Apply(Apply(Apply(s, ops[0]), ops[1]), ops[2]), ops[3])
  {
    if |ops| >= 1 { assert ops[..1][..0] == ops[..0]; }
    if |ops| >= 2 { assert ops[..2][..1] == ops[..1]; }
    if |ops| >= 3 { assert ops[..3][..2] == ops[..2]; }
    if |ops| == 4 { assert ops[..4] == ops; }
  }

  // ── The writes of one reconcile ──────────────────────────────────────────

  function PvOps(pv: Pv, cfg: Config): seq<Op> {
    if !Eligible(pv, cfg) then []
    else
      var n := SetName(cfg.cluster, pv.name);
      [EnsureClaim(n, pv.name), PutService(n), PutConfigMap(n), PutSet(n, Template(pv.node, n, cfg.settings))]
  }

  function CreateOps(pvs: seq<Pv>, cfg: Config): seq<Op> {
    if pvs == [] then [] else CreateOps(pvs[..|pvs| - 1], cfg) + PvOps(pvs[|pvs| - 1], cfg)
  }

  predicate Orphan(claim: Claim, byName: map<string, Pv>) {
    claim.volume !in byName || Missing(byName[claim.volume])
  }

  /** The claim goes last: as long as anything else of the set is left, the
      next sweep still finds it. */
  function DeleteOps(n: string): seq<Op> {
    [DeleteSet(n), DeleteService(n), DeleteConfigMap(n), DeleteClaim(n)]
  }

  lemma DeletedSlots(s: Store, m: string, n: string)
    ensures SlotOf(Run(s, DeleteOps(m)), n) == if n == m then EMPTY else SlotOf(s, n)
  {
    RunPrefixes(s, DeleteOps(m));
  }

  /** A listing of the owned claims, in any order. */
  ghost predicate IsListing(order: seq<string>, s: Store) {
    && (forall i, j :: 0 <= i < j < |order| ==> order[i] != order[j])
    && (forall n :: n in order <==> n in s.claims && s.claims[n].owned)
  }

  lemma SomeListing(s: Store) returns (order: seq<string>)
    ensures IsListing(order, s)
  {
    order := [];
    var rest := set n | n in s.claims && s.claims[n].owned;
    while rest != {}
      invariant forall n :: n in rest ==> n in s.claims && s.claims[n].owned
      invariant forall n :: n in order ==> n in s.claims && s.claims[n].owned && n !in rest
      invariant forall n :: n in s.claims && s.claims[n].owned ==> n in rest || n in order
      invariant forall i, j :: 0 <= i < j < |order| ==> order[i] != order[j]
      decreases rest
    {
      var n :| n in rest;
      rest := rest - {n};
      order := order + [n];
    }
  }

  function SweepOps(order: seq<string>, claims: map<string, Claim>, byName: map<string, Pv>): seq<Op>
    requires forall n :: n in order ==> n in claims
  {
    if order == [] then []
    else
      var n := order[|order| - 1];
      SweepOps(order[..|order| - 1], claims, byName) + if Orphan(claims[n], byName) then DeleteOps(n) else []
  }

  function Created(s: Store, pvs: seq<Pv>, cfg: Config): Store { Run(s, CreateOps(pvs, cfg)) }

  /** A reconcile of an enabled cluster that no API call fails. */
  function Pass(s: Store, pvs: seq<Pv>, cfg: Config, order: seq<string>): Store
    requires forall n :: n in order ==> n in Created(s, pvs, cfg).claims
  {
    var mid := Created(s, pvs, cfg);
    Run(mid, SweepOps(order, mid.claims, ByName(pvs)))
  }

  /** All writes of that reconcile in order. */
  function PassOps(s: Store, pvs: seq<Pv>, cfg: Config, order: seq<string>): seq<Op>
    requires forall n :: n in order ==> n in Created(s, pvs, cfg).claims
  {
    CreateOps(pvs, cfg) + SweepOps(order, Created(s, pvs, cfg).claims, ByName(pvs))
  }

  lemma PassRunsItsOps(s: Store, pvs: seq<Pv>, cfg: Config, order: seq<string>)
    requires forall n :: n in order ==> n in Created(s, pvs, cfg).claims
    ensures Run(s, PassOps(s, pvs, cfg, order)) == Pass(s, pvs, cfg, order)
  {
    RunConcat(s, CreateOps(pvs, cfg), SweepOps(order, Created(s, pvs, cfg).claims, ByName(pvs)));
  }
}
