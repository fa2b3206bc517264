/** The finalizer around Reconcile: API calls may fail or lose their answer, the
    user may edit or delete the cluster between any two of them, and reconciles
    of one cluster are serial. */
module Lifecycle {
  import opened Common

  /** The persisted LeilFSCluster, as far as deletion is concerned. */
  datatype Cr = Cr(finalizer: bool, deleting: bool, version: nat)

  /** `owned`: the sub-reconcilers that have created objects for this cluster.
      `finalized`: finalizeCluster has succeeded for it. */
  datatype Snap = Snap(cr: Option<Cr>, owned: set<nat>, finalized: bool)

  /** The promise of the finalizer. */
  predicate Guarded(s: Snap) {
    s.owned != {} ==> s.finalized || (s.cr.Some? && s.cr.value.finalizer)
  }

  /** The entries of the step list in Reconcile; the first only validates. */
  const STEPS := 14

  /** What clients may do to the cluster on their own. */
  datatype Event = Create | Touch | ReconcileOnce

  class Cluster {
    var cr: Option<Cr>
    var owned: set<nat>
    var finalized: bool
    /** Every state the API server has ever been in, the current one last. */
    ghost var trace: seq<Snap>

    ghost function Now(): Snap
      reads this
    {
      Snap(cr, owned, finalized)
    }

    /** Deleted, or on its way to be. */
    predicate Going()
      reads this
    {
      cr.None? || cr.value.deleting
    }

    ghost predicate Inv()
      reads this
    {
      && trace != [] && trace[|trace| - 1] == Now()
      && (finalized ==> Going())
      && forall i :: 0 <= i < |trace| ==> Guarded(trace[i])
    }

    predicate Held()
      reads this
    {
      cr.Some? && cr.value.finalizer
    }

    constructor ()
      ensures Inv() && cr == None && owned == {}
    {
      cr, owned, finalized := None, {}, false;
      trace := [Snap(None, {}, false)];
    }

    /** A new cluster object; what an earlier one owned is not its own. */
    method CreateCluster()
      requires Inv() && cr.None?
      modifies this
      ensures Inv() && old(trace) <= trace
    {
      cr, owned, finalized := Some(Cr(false, false, 0)), {}, false;
      trace := trace + [Now()];
    }

    /** The user edits, deletes or leaves the cluster alone. Deletion of an
        object with a finalizer only sets the timestamp. */
    method UserTouches()
      requires Inv()
      modifies this
      ensures Inv() && old(trace) <= trace
      ensures owned == old(owned) && finalized == old(finalized)
      ensures old(Held()) ==> Held()
      ensures old(Going()) ==> Going()
      ensures cr.Some? && old(cr.Some?) && cr.value.version == old(cr.value.version) ==> cr == old(cr)
      ensures old(cr.Some?) && cr.Some? ==> cr.value.version >= old(cr.value.version)
      ensures old(cr.None?) ==> cr.None?
    {
      var delete: bool, edit: bool := *, *;
      if cr.Some? {
        if delete {
          if cr.value.finalizer {
            cr := Some(cr.value.(deleting := true, version := cr.value.version + 1));
          } else {
            cr := None;
          }
        } else if edit {
          cr := Some(cr.value.(version := cr.value.version + 1));
        }
      }
      trace := trace + [Now()];
    }

    /** r.Update with the resourceVersion that was read: refused if anything
        changed in between. A call can take effect and still report an error. */
    method UpdateFinalizer(seen: Cr, want: bool) returns (ok: bool)
      requires Inv()
      requires !want ==> finalized && seen.deleting
      modifies this
      ensures Inv() && old(trace) <= trace
      ensures owned == old(owned) && finalized == old(finalized)
      ensures ok && want ==> Held()
      ensures ok && !want ==> cr == None
      ensures !ok ==> cr == old(cr) || old(cr) == Some(seen)
    {
      var reached: bool, answered: bool := *, *;
      if reached && cr == Some(seen) {
        if want || !seen.deleting {
          cr := Some(seen.(finalizer := want, version := seen.version + 1));
        } else {
          cr := None;
        }
        ok := answered;
      } else {
        ok := false;
      }
      trace := trace + [Now()];
    }

    method FinalizeCluster() returns (ok: bool)
      requires Inv() && Going()
      modifies this
      ensures Inv() && old(trace) <= trace && cr == old(cr) && owned == old(owned)
      ensures finalized == (old(finalized) || ok)
    {
      ok := *;
      finalized := finalized || ok;
      trace := trace + [Now()];
    }

    /** One sub-reconciler: it may create objects, also when it then fails.
        Validation, number 0, creates nothing. None runs for a cluster that
        has been finalized. */
    method RunStep(k: nat) returns (ok: bool)
      requires Inv() && Held() && !finalized
      modifies this
      ensures Inv() && old(trace) <= trace && cr == old(cr) && finalized == old(finalized)
      ensures owned == old(owned) || (k > 0 && owned == old(owned) + {k})
    {
      var creates: bool := *;
      if k > 0 && creates { owned := owned + {k}; }
      trace := trace + [Now()];
      ok := *;
    }

    /** Reconcile. `sawDeletion` says that the cluster was read with a deletion
        timestamp; `ran` lists the sub-reconcilers that were called, in order.
        The other results are the answers the calls gave: of each step, of the
        read, of finalizeCluster and of the finalizer update, the last two None
        when there was no such call. */
    method Reconcile()
      returns (sawDeletion: bool, ran: seq<nat>, ghost oks: seq<bool>,
               ghost readable: bool, ghost finalize: Option<bool>, ghost update: Option<bool>)
      requires Inv()
      modifies this
      ensures Inv() && old(trace) <= trace
      // Steps: a prefix of the 14, up to the first failure or the end.
      ensures |ran| <= 14 && (forall i :: 0 <= i < |ran| ==> ran[i] == i) && |oks| == |ran|
      ensures forall i :: 0 <= i < |ran| - 1 ==> oks[i]
      ensures ran != [] ==> |ran| == 14 || !oks[|ran| - 1]
      // They run exactly for a live cluster that holds the finalizer in the end.
      ensures ran != [] <==> readable && old(cr.Some? && !cr.value.deleting) && update != Some(false)
      ensures ran != [] ==> Held() && !finalized && !old(finalized)
      ensures ran == [] ==> owned == old(owned)
      ensures forall k :: k in owned && k !in old(owned) ==> k in ran && k > 0
      // A live cluster without the finalizer gets it first.
      ensures readable && old(cr.Some? && !cr.value.deleting) ==>
                finalize == None && (update.Some? <==> !old(Held()))
      // A deleted one is finalized, and only then let go.
      ensures sawDeletion <==> readable && old(cr.Some? && cr.value.deleting)
      ensures sawDeletion ==> (finalize.Some? <==> old(Held())) && (update.Some? <==> finalize == Some(true))
      ensures sawDeletion && update == Some(true) ==> cr == None && finalized
      // Without an answer to the read, or without a cluster, nothing happens.
      ensures !readable || old(cr.None?) ==>
                cr == old(cr) && finalized == old(finalized) && finalize == None && update == None
    {
      sawDeletion, ran, oks, finalize, update := false, [], [], None, None;
      var answered: bool := *;
      readable := answered;
      if !answered || cr.None? { return; }
      var seen := cr.value;
      sawDeletion := seen.deleting;
      UserTouches();
      if !seen.deleting {
        if !seen.finalizer {
          var ok := UpdateFinalizer(seen, true);
          update := Some(ok);
          if !ok { return; }
        }
      } else {
        if seen.finalizer {
          var done := FinalizeCluster();
          finalize := Some(done);
          if !done { return; }
          UserTouches();
          var ok := UpdateFinalizer(seen, false);
          update := Some(ok);
        }
        return;
      }
      var k := 0;
      while k < STEPS
        invariant 0 <= k <= STEPS && |ran| == |oks| == k && (forall i :: 0 <= i < k ==> ran[i] == i)
        invariant forall i :: 0 <= i < k ==> oks[i]
        invariant Inv() && old(trace) <= trace && Held() && !finalized
        invariant forall x :: x in owned && x !in old(owned) ==> x in ran && x > 0
        invariant ran == [] ==> owned == old(owned)
      {
        UserTouches();
        ran := ran + [k];
        assert ran[k] == k;
        var ok := RunStep(k);
        oks := oks + [ok];
        if !ok { break; }
        k := k + 1;
      }
    }

    /** Any history: creations, user actions and reconciles in any order. In
        every state it passes through the promise holds, so a cluster that
        owns anything never leaves the API server before finalizeCluster
        has succeeded. */
    method Serve(events: seq<Event>)
      requires Inv()
      modifies this
      ensures Inv() && old(trace) <= trace
    {
      for i := 0 to |events|
        invariant Inv() && old(trace) <= trace
      {
        match events[i] {
          case Create => if cr.None? { CreateCluster(); }
          case Touch => UserTouches();
          case ReconcileOnce => var _, _, _, _, _, _ := Reconcile();
        }
      }
    }
  }
}
