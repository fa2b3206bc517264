/** The reconciler itself: loops, API calls that may fail, early returns. Each
    method is proved to leave the store after some prefix of the writes its
    specification lists, and after all of them when it reports success. */
module AutoDiscoverReconciler {
  import opened AutoDiscover

  /** A failed call may still have taken effect, so the prefix may or may not
      include the write whose call failed. */
  ghost predicate Partly(s: Store, s': Store, ops: seq<Op>, ok: bool) {
    exists k: nat :: k <= |ops| && (ok ==> k == |ops|) && s' == Run(s, ops[..k])
  }

  lemma PartlyAll(s: Store, s': Store, ops: seq<Op>)
    ensures Partly(s, s', ops, true) <==> s' == Run(s, ops)
  {
    assert ops[..|ops|] == ops;
  }

  /** Going on after the writes a with the writes b of a longer list. */
  lemma PartlyNext(s: Store, s1: Store, s2: Store, all: seq<Op>, a: seq<Op>, b: seq<Op>, ok: bool)
    requires s1 == Run(s, a) && Partly(s1, s2, b, ok) && a + b <= all
    ensures ok ==> s2 == Run(s, a + b)
    ensures !ok ==> Partly(s, s2, all, false)
  {
    var k: nat :| k <= |b| && (ok ==> k == |b|) && s2 == Run(s1, b[..k]);
    RunConcat(s, a, b[..k]);
    if ok {
      assert b[..k] == b;
    } else {
      assert a + b[..k] == all[..|a| + k];
      assert |a| + k <= |all|;
    }
  }

  /** Going on after the first k writes of a list with the next one. */
  lemma PartlyStep(s: Store, s1: Store, s2: Store, ops: seq<Op>, k: nat, ok: bool)
    requires k < |ops| && s1 == Run(s, ops[..k]) && Partly(s1, s2, [ops[k]], ok)
    ensures ok ==> s2 == Run(s, ops[..k + 1])
    ensures !ok ==> Partly(s, s2, ops, false)
  {
    assert ops[..k] + [ops[k]] == ops[..k + 1];
    PartlyNext(s, s1, s2, ops, ops[..k], [ops[k]], ok);
  }

  lemma PartlyOne(s: Store, s': Store, op: Op, ok: bool)
    requires s' == Apply(s, op) || (!ok && s' == s)
    ensures Partly(s, s', [op], ok)
  {
    RunPrefixes(s, [op]);
    assert [op][..1] == [op];
    if s' != Apply(s, op) { assert s' == Run(s, [op][..0]); }
  }

  class Reconciler {
    var store: Store

    /** One write request. */
    method Write(op: Op) returns (ok: bool)
      modifies this
      ensures Partly(old(store), store, [op], ok)
    {
      ok := *;
      var done: bool := *;
      if ok || done { store := Apply(store, op); }
      PartlyOne(old(store), store, op, ok);
    }

    /** One read request: nothing but an answer, or an error. */
    method Read() returns (ok: bool) {
      ok := *;
    }

    method EnsureAutoDiscoverPvc(name: string, pv: Pv) returns (ok: bool)
      modifies this
      ensures Partly(old(store), store, [EnsureClaim(name, pv.name)], ok)
    {
      ok := Read();
      if !ok || name in store.claims {
        PartlyOne(store, store, EnsureClaim(name, pv.name), ok);
        return;
      }
      ok := Write(EnsureClaim(name, pv.name));
    }

    /** Service, ConfigMap and StatefulSet: get, then create or update. */
    method GetThenWrite(op: Op) returns (ok: bool)
      modifies this
      ensures Partly(old(store), store, [op], ok)
    {
      ok := Read();
      if !ok {
        PartlyOne(store, store, op, false);
        return;
      }
      ok := Write(op);
    }

    method ReconcileVolume(pv: Pv, cfg: Config) returns (ok: bool)
      requires Eligible(pv, cfg)
      modifies this
      ensures var n := SetName(cfg.cluster, pv.name);
              var sts := Template(pv.node, n, cfg.settings);
              Partly(old(store), store, [EnsureClaim(n, pv.name), PutService(n), PutConfigMap(n), PutSet(n, sts)], ok)
      ensures Partly(old(store), store, PvOps(pv, cfg), ok)
    {
      var n := SetName(cfg.cluster, pv.name);
      ghost var s0, ops := store, PvOps(pv, cfg);
      assert s0 == Run(s0, ops[..0]);
      ok := EnsureAutoDiscoverPvc(n, pv);
      PartlyStep(s0, s0, store, ops, 0, ok);
      if !ok { return; }
      ghost var s1 := store;
      ok := GetThenWrite(PutService(n));
      PartlyStep(s0, s1, store, ops, 1, ok);
      if !ok { return; }
      ghost var s2 := store;
      ok := GetThenWrite(PutConfigMap(n));
      PartlyStep(s0, s2, store, ops, 2, ok);
      if !ok { return; }
      ghost var s3 := store;
      ok := GetThenWrite(PutSet(n, Template(pv.node, n, cfg.settings)));
      PartlyStep(s0, s3, store, ops, 3, ok);
      assert ops[..4] == ops;
      PartlyAll(s0, store, ops);
    }

    /** deleteAutoDiscoverResourceSet: four deletes, the claim last. */
    method DeleteResourceSet(n: string) returns (ok: bool)
      modifies this
      ensures Partly(old(store), store, [DeleteSet(n), DeleteService(n), DeleteConfigMap(n), DeleteClaim(n)], ok)
      ensures Partly(old(store), store, DeleteOps(n), ok)
    {
      var ops := DeleteOps(n);
      for i := 0 to |ops|
        invariant store == Run(old(store), ops[..i])
      {
        ghost var s := store;
        ok := Write(ops[i]);
        PartlyStep(old(store), s, store, ops, i, ok);
        if !ok { return; }
      }
      PartlyAll(old(store), store, ops);
      ok := true;
    }

    /** The owned claims, in the order the API server happens to return them. */
    method ListClaims() returns (order: seq<string>, ok: bool)
      ensures IsListing(order, store)
    {
      ok := *;
      order := [];
      var rest := set n | n in store.claims && store.claims[n].owned;
      while rest != {}
        invariant forall n :: n in rest ==> n in store.claims && store.claims[n].owned
        invariant forall n :: n in order ==> n in store.claims && store.claims[n].owned && n !in rest
        invariant forall n :: n in store.claims && store.claims[n].owned ==> n in rest || n in order
        invariant forall i, j :: 0 <= i < j < |order| ==> order[i] != order[j]
        decreases rest
      {
        var n :| n in rest;
        rest := rest - {n};
        order := order + [n];
      }
    }

    /** sweepOrphanedAutoDiscoverResources, over the claims as listed. */
    method Sweep(byName: map<string, Pv>, order: seq<string>, claims: map<string, Claim>) returns (ok: bool)
      requires forall n :: n in order ==> n in claims
      modifies this
      ensures Partly(old(store), store, SweepOps(order, claims, byName), ok)
    {
      ghost var start, all := store, SweepOps(order, claims, byName);
      for i := 0 to |order|
        invariant store == Run(start, SweepOps(order[..i], claims, byName))
      {
        SweepNext(order, i, claims, byName);
        if Orphan(claims[order[i]], byName) {
          ghost var s, before := store, SweepOps(order[..i], claims, byName);
          ok := DeleteResourceSet(order[i]);
          PartlyNext(start, s, store, all, before, DeleteOps(order[i]), ok);
          if !ok { return; }
        }
      }
      assert order[..|order|] == order;
      PartlyAll(start, store, all);
      ok := true;
    }

    /** The volumes whose labels match, in list order. */
    method MatchedVolumes(pvs: seq<Pv>, cfg: Config) returns (matchedPvs: seq<Pv>)
      ensures CreateOps(matchedPvs, cfg) == CreateOps(pvs, cfg)
      ensures forall j :: 0 <= j < |matchedPvs| ==> Matches(matchedPvs[j].labels, cfg.selector)
    {
      matchedPvs := [];
      for i := 0 to |pvs|
        invariant CreateOps(matchedPvs, cfg) == CreateOps(pvs[..i], cfg)
        invariant forall j :: 0 <= j < |matchedPvs| ==> Matches(matchedPvs[j].labels, cfg.selector)
      {
        CreateNext(pvs, i, cfg);
        var matches := PvMatchesSelector(pvs[i].labels, cfg.selector);
        if matches {
          assert (matchedPvs + [pvs[i]])[..|matchedPvs|] == matchedPvs;
          assert (matchedPvs + [pvs[i]])[|matchedPvs|] == pvs[i];
          matchedPvs := matchedPvs + [pvs[i]];
        }
      }
      assert pvs[..|pvs|] == pvs;
    }

    /** The create loop over the matched volumes. */
    method CreateSets(pvs: seq<Pv>, cfg: Config) returns (ok: bool)
      requires forall j :: 0 <= j < |pvs| ==> Matches(pvs[j].labels, cfg.selector)
      modifies this
      ensures Partly(old(store), store, CreateOps(pvs, cfg), ok)
    {
      for i := 0 to |pvs|
        invariant store == Run(old(store), CreateOps(pvs[..i], cfg))
      {
        ghost var s := store;
        var pv := pvs[i];
        CreateNext(pvs, i, cfg);
        if pv.node == "" { continue; }
        if pv.phase != Available && pv.phase != Bound { continue; }
        if Missing(pv) { continue; }
        ok := ReconcileVolume(pv, cfg);
        PartlyNext(old(store), s, store, CreateOps(pvs, cfg), CreateOps(pvs[..i], cfg), PvOps(pv, cfg), ok);
        if !ok { return; }
      }
      assert pvs[..|pvs|] == pvs;
      PartlyAll(old(store), store, CreateOps(pvs, cfg));
      ok := true;
    }

    /** reconcileAutoDiscoverChunkServers. Whatever fails, the store ends up
        after a prefix of the pass's writes, for some listing of the claims. */
    method ReconcileAutoDiscoverChunkServers(pvs: seq<Pv>, cfg: Config) returns (ok: bool, ghost order: seq<string>)
      modifies this
      ensures !cfg.enabled ==> ok && store == old(store)
      ensures cfg.enabled ==>
                && IsListing(order, Created(old(store), pvs, cfg))
                && Partly(old(store), store, PassOps(old(store), pvs, cfg, order), ok)
    {
      if !cfg.enabled { order := []; return true, []; }
      ghost var s0, creates := store, CreateOps(pvs, cfg);
      order := SomeListing(Created(s0, pvs, cfg));
      ok := Read();
      if !ok {
        assert s0 == Run(s0, PassOps(s0, pvs, cfg, order)[..0]);
        return;
      }
      var byName: map<string, Pv> := map[];
      for i := 0 to |pvs|
        invariant byName == ByName(pvs[..i])
      {
        assert pvs[..i + 1][..i] == pvs[..i];
        byName := byName[pvs[i].name := pvs[i]];
      }
      assert pvs[..|pvs|] == pvs;
      var matchedPvs := MatchedVolumes(pvs, cfg);
      ok := CreateSets(matchedPvs, cfg);
      assert [] + creates == creates;
      PartlyNext(s0, s0, store, PassOps(s0, pvs, cfg, order), [], creates, ok);
      if !ok { return; }
      var listed;
      listed, ok := ListClaims();
      order := listed;
      ghost var s1, all := store, PassOps(s0, pvs, cfg, order);
      if !ok {
        assert all[..|creates|] == creates;
        return;
      }
      ok := Sweep(byName, listed, store.claims);
      PartlyNext(s0, s1, store, all, creates, SweepOps(order, s1.claims, byName), ok);
      PartlyAll(s0, store, all);
    }
  }

  lemma {:induction false} SweepPrefix(order: seq<string>, i: nat, claims: map<string, Claim>, byName: map<string, Pv>)
    requires i <= |order| && forall n :: n in order ==> n in claims
    ensures SweepOps(order[..i], claims, byName) <= SweepOps(order, claims, byName)
  {
    if i < |order| {
      var front := order[..|order| - 1];
      SweepPrefix(front, i, claims, byName);
      assert front[..i] == order[..i];
    } else {
      assert order[..i] == order;
    }
  }

  /** The sweep's writes up to and including the i-th claim. */
  lemma SweepNext(order: seq<string>, i: nat, claims: map<string, Claim>, byName: map<string, Pv>)
    requires i < |order| && forall n :: n in order ==> n in claims
    ensures var before := SweepOps(order[..i], claims, byName);
            var upTo := SweepOps(order[..i + 1], claims, byName);
            && upTo == (if Orphan(claims[order[i]], byName) then before + DeleteOps(order[i]) else before)
            && upTo <= SweepOps(order, claims, byName)
  {
    assert order[..i + 1][..i] == order[..i];
    SweepPrefix(order, i + 1, claims, byName);
    var before := SweepOps(order[..i], claims, byName);
    assert before + [] == before;
  }

  lemma {:induction false} CreatePrefix(pvs: seq<Pv>, i: nat, cfg: Config)
    requires i <= |pvs|
    ensures CreateOps(pvs[..i], cfg) <= CreateOps(pvs, cfg)
  {
    if i < |pvs| {
      var front := pvs[..|pvs| - 1];
      CreatePrefix(front, i, cfg);
      assert front[..i] == pvs[..i];
    } else {
      assert pvs[..i] == pvs;
    }
  }

  lemma CreateNext(pvs: seq<Pv>, i: nat, cfg: Config)
    requires i < |pvs|
    ensures CreateOps(pvs[..i + 1], cfg) == CreateOps(pvs[..i], cfg) + PvOps(pvs[i], cfg)
    ensures CreateOps(pvs[..i + 1], cfg) <= CreateOps(pvs, cfg)
    ensures !Eligible(pvs[i], cfg) ==> CreateOps(pvs[..i + 1], cfg) == CreateOps(pvs[..i], cfg)
  {
    assert pvs[..i + 1][..i] == pvs[..i];
    CreatePrefix(pvs, i + 1, cfg);
    assert CreateOps(pvs[..i], cfg) + [] == CreateOps(pvs[..i], cfg);
  }
}
