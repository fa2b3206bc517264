/** The validating webhook: duplicate chunk-server names and duplicate storage,
    found in one pass over maps and specified pair by pair. */
module Admission {
  import opened Common

  datatype Mount = Mount(path: string, hostPath: string, claimName: string)

  datatype Server = Server(name: string, nodeName: string, mounts: seq<Mount>)

  /** spec.chunk.servers[server].mountPaths[mount] */
  datatype Ref = Ref(server: nat, mount: nat)

  /** The two ways a mount can name storage. */
  datatype Kind = HostPath | ClaimName

  /** One entry of the error list: `at` repeats what `owner` already uses. */
  datatype Violation = Violation(kind: Kind, at: Ref, owner: Ref)

  datatype NameViolation = NameViolation(server: nat, owner: nat)

  // ── Pairwise specification ───────────────────────────────────────────────

  predicate Valid(servers: seq<Server>, r: Ref) { r.server < |servers| && r.mount < |servers[r.server].mounts| }

  function MountAt(servers: seq<Server>, r: Ref): Mount
    requires Valid(servers, r)
  {
    servers[r.server].mounts[r.mount]
  }

  /** Listing order. */
  predicate Before(a: Ref, b: Ref) { a.server < b.server || (a.server == b.server && a.mount < b.mount) }

  /** What the mount is indexed by within its server; "" is not indexed. */
  function Local(kind: Kind, m: Mount): string {
    match kind
    case HostPath => m.hostPath
    case ClaimName => m.claimName
  }

  /** The key of the cross-server map: a host path counts per node. */
  function Key(kind: Kind, nodeName: string, m: Mount): string {
    match kind
    case HostPath => nodeName + "\0" + m.hostPath
    case ClaimName => m.claimName
  }

  predicate Indexed(servers: seq<Server>, kind: Kind, r: Ref) {
    Valid(servers, r) && Local(kind, MountAt(servers, r)) != ""
  }

  function KeyAt(servers: seq<Server>, kind: Kind, r: Ref): string
    requires Valid(servers, r)
  {
    Key(kind, servers[r.server].nodeName, MountAt(servers, r))
  }

  /** Two mounts that name the same storage. */
  predicate Twins(servers: seq<Server>, kind: Kind, a: Ref, b: Ref) {
    && Indexed(servers, kind, a) && Indexed(servers, kind, b)
    && KeyAt(servers, kind, a) == KeyAt(servers, kind, b)
  }

  /** o is the first twin of `at` among the mounts of its own server. */
  ghost predicate FirstInServer(servers: seq<Server>, kind: Kind, o: Ref, at: Ref) {
    && Twins(servers, kind, o, at) && o.server == at.server && o.mount < at.mount
    && forall r :: Twins(servers, kind, r, at) && r.server == at.server ==> !Before(r, o)
  }

  /** `at` has no earlier twin in its own server, and o is the first of all. */
  ghost predicate FirstElsewhere(servers: seq<Server>, kind: Kind, o: Ref, at: Ref) {
    && Twins(servers, kind, o, at) && o.server < at.server
    && forall r :: Twins(servers, kind, r, at) ==> !Before(r, o) && !(r.server == at.server && r.mount < at.mount)
  }

  ghost predicate IsViolation(servers: seq<Server>, v: Violation) {
    FirstInServer(servers, v.kind, v.owner, v.at) || FirstElsewhere(servers, v.kind, v.owner, v.at)
  }

  /** Within one server the local index and the cross-server key agree. */
  lemma LocalIsKey(kind: Kind, nodeName: string, a: Mount, b: Mount)
    ensures Key(kind, nodeName, a) == Key(kind, nodeName, b) <==> Local(kind, a) == Local(kind, b)
  {
    if kind == HostPath {
      var n := |nodeName + "\0"|;
      assert Key(kind, nodeName, a)[n..] == a.hostPath;
      assert Key(kind, nodeName, b)[n..] == b.hostPath;
    }
  }

  // ── The maps of the one-pass check ───────────────────────────────────────

  /** claimOwners / hostPathOwners after the mounts before `pos`. */
  ghost predicate OwnersOk(servers: seq<Server>, kind: Kind, pos: Ref, owners: map<string, Ref>) {
    && (forall k :: k in owners ==>
          Indexed(servers, kind, owners[k]) && Before(owners[k], pos) && KeyAt(servers, kind, owners[k]) == k)
    && (forall r :: Indexed(servers, kind, r) && Before(r, pos) ==>
          KeyAt(servers, kind, r) in owners && !Before(r, owners[KeyAt(servers, kind, r)]))
  }

  /** claimNamesInServer / hostPathsInServer after the first j mounts of server i. */
  ghost predicate InServerOk(servers: seq<Server>, kind: Kind, i: nat, j: nat, seen: map<string, nat>) {
    && (forall k :: k in seen ==>
          seen[k] < j && Indexed(servers, kind, Ref(i, seen[k])) && Local(kind, MountAt(servers, Ref(i, seen[k]))) == k)
    && (forall m: nat :: m < j && Indexed(servers, kind, Ref(i, m)) ==>
          var k := Local(kind, MountAt(servers, Ref(i, m)));
          k in seen && seen[k] <= m)
  }

  /** One `if mp.HostPath != ""` (or ClaimName) block of the inner loop. */
  method Visit(servers: seq<Server>, kind: Kind, i: nat, j: nat, seen: map<string, nat>, owners: map<string, Ref>)
    returns (seen': map<string, nat>, owners': map<string, Ref>, violation: Option<Violation>)
    requires Valid(servers, Ref(i, j))
    requires OwnersOk(servers, kind, Ref(i, j), owners) && InServerOk(servers, kind, i, j, seen)
    ensures OwnersOk(servers, kind, Ref(i, j + 1), owners') && InServerOk(servers, kind, i, j + 1, seen')
    ensures violation.Some? ==>
              && violation.value.kind == kind && violation.value.at == Ref(i, j)
              && IsViolation(servers, violation.value)
    ensures violation.None? ==> forall o :: !IsViolation(servers, Violation(kind, Ref(i, j), o))
    ensures var novel := Indexed(servers, kind, Ref(i, j)) && KeyAt(servers, kind, Ref(i, j)) !in owners;
            && owners'.Keys == (if novel then owners.Keys + {KeyAt(servers, kind, Ref(i, j))} else owners.Keys)
            && (violation.Some? <==> Indexed(servers, kind, Ref(i, j)) && !novel)
  {
    seen', owners', violation := seen, owners, None;
    var at := Ref(i, j);
    var local := Local(kind, MountAt(servers, at));
    SeenGrows(servers, kind, i, j, seen);
    OwnersGrow(servers, kind, i, j, owners);
    if local == "" { return; }
    var key := KeyAt(servers, kind, at);
    if local in seen {
      violation := Some(Violation(kind, at, Ref(i, seen[local])));
      InServerFirst(servers, kind, i, j, seen);
      assert KeyAt(servers, kind, Ref(i, seen[local])) in owners;
    } else {
      seen' := seen[local := j];
      if key in owners {
        violation := Some(Violation(kind, at, owners[key]));
        ElsewhereFirst(servers, kind, i, j, seen, owners);
      } else {
        owners' := owners[key := at];
      }
    }
  }

  lemma SeenGrows(servers: seq<Server>, kind: Kind, i: nat, j: nat, seen: map<string, nat>)
    requires Valid(servers, Ref(i, j)) && InServerOk(servers, kind, i, j, seen)
    ensures var local := Local(kind, MountAt(servers, Ref(i, j)));
            InServerOk(servers, kind, i, j + 1, if local == "" || local in seen then seen else seen[local := j])
  {
  }

  lemma OwnersGrow(servers: seq<Server>, kind: Kind, i: nat, j: nat, owners: map<string, Ref>)
    requires Valid(servers, Ref(i, j)) && OwnersOk(servers, kind, Ref(i, j), owners)
    ensures var key := KeyAt(servers, kind, Ref(i, j));
            OwnersOk(servers, kind, Ref(i, j + 1),
                     if !Indexed(servers, kind, Ref(i, j)) || key in owners then owners else owners[key := Ref(i, j)])
  {
    forall r ensures Before(r, Ref(i, j + 1)) <==> Before(r, Ref(i, j)) || r == Ref(i, j) {}
  }

  lemma InServerFirst(servers: seq<Server>, kind: Kind, i: nat, j: nat, seen: map<string, nat>)
    requires Indexed(servers, kind, Ref(i, j)) && InServerOk(servers, kind, i, j, seen)
    requires Local(kind, MountAt(servers, Ref(i, j))) in seen
    ensures FirstInServer(servers, kind, Ref(i, seen[Local(kind, MountAt(servers, Ref(i, j)))]), Ref(i, j))
  {
    var local := Local(kind, MountAt(servers, Ref(i, j)));
    var o := Ref(i, seen[local]);
    LocalIsKey(kind, servers[i].nodeName, MountAt(servers, o), MountAt(servers, Ref(i, j)));
    forall r | Twins(servers, kind, r, Ref(i, j)) && r.server == i ensures !Before(r, o) {
      LocalIsKey(kind, servers[i].nodeName, MountAt(servers, r), MountAt(servers, Ref(i, j)));
      assert r == Ref(i, r.mount);
    }
  }

  lemma ElsewhereFirst(
      servers: seq<Server>, kind: Kind, i: nat, j: nat, seen: map<string, nat>, owners: map<string, Ref>)
    requires Indexed(servers, kind, Ref(i, j)) && InServerOk(servers, kind, i, j, seen)
    requires OwnersOk(servers, kind, Ref(i, j), owners)
    requires Local(kind, MountAt(servers, Ref(i, j))) !in seen && KeyAt(servers, kind, Ref(i, j)) in owners
    ensures FirstElsewhere(servers, kind, owners[KeyAt(servers, kind, Ref(i, j))], Ref(i, j))
  {
    var at := Ref(i, j);
    var o := owners[KeyAt(servers, kind, at)];
    forall r | Twins(servers, kind, r, at) ensures !(r.server == i && r.mount < j) {
      if r.server == i {
        LocalIsKey(kind, servers[i].nodeName, MountAt(servers, r), MountAt(servers, at));
        assert r == Ref(i, r.mount);
      }
    }
    forall r | Twins(servers, kind, r, at) ensures !Before(r, o) {
      if Before(r, at) { assert KeyAt(servers, kind, r) == KeyAt(servers, kind, at); }
    }
  }

  // ── The whole check ──────────────────────────────────────────────────────

  /** All mounts of this kind before `pos` that carry a key. */
  function IndexedBefore(servers: seq<Server>, kind: Kind, pos: Ref): set<Ref> {
    set i, j | 0 <= i < |servers| && 0 <= j < |servers[i].mounts| &&
      Indexed(servers, kind, Ref(i, j)) && Before(Ref(i, j), pos) :: Ref(i, j)
  }

  function EndOf(servers: seq<Server>): Ref { Ref(|servers|, 0) }

  /** Distinct pieces of storage of this kind. */
  function Keys(servers: seq<Server>, kind: Kind): set<string> {
    set r | r in IndexedBefore(servers, kind, EndOf(servers)) && Valid(servers, r) :: KeyAt(servers, kind, r)
  }

  predicate Reported(a: Violation, b: Violation) {
    Before(a.at, b.at) || (a.at == b.at && a.kind == HostPath && b.kind == ClaimName)
  }

  /** The list holds exactly the violations at mounts before pos, in order. */
  ghost predicate ErrorsOk(servers: seq<Server>, pos: Ref, errs: seq<Violation>) {
    && (forall v :: v in errs <==> IsViolation(servers, v) && Before(v.at, pos))
    && (forall a, b :: 0 <= a < b < |errs| ==> Reported(errs[a], errs[b]))
  }

  lemma IndexedStep(servers: seq<Server>, kind: Kind, i: nat, j: nat)
    requires Valid(servers, Ref(i, j))
    ensures IndexedBefore(servers, kind, Ref(i, j + 1))
         == IndexedBefore(servers, kind, Ref(i, j)) + if Indexed(servers, kind, Ref(i, j)) then {Ref(i, j)} else {}
    ensures Ref(i, j) !in IndexedBefore(servers, kind, Ref(i, j))
  {
    forall r ensures Before(r, Ref(i, j + 1)) <==> Before(r, Ref(i, j)) || r == Ref(i, j) {}
  }

  /** The end of one server's mounts is the beginning of the next server's. */
  lemma NextServer(servers: seq<Server>, kind: Kind, i: nat)
    requires i < |servers|
    ensures forall r :: Valid(servers, r) ==> (Before(r, Ref(i + 1, 0)) <==> Before(r, Ref(i, |servers[i].mounts|)))
    ensures IndexedBefore(servers, kind, Ref(i + 1, 0)) == IndexedBefore(servers, kind, Ref(i, |servers[i].mounts|))
  {
    assert forall r :: Valid(servers, r) ==> (Before(r, Ref(i + 1, 0)) <==> Before(r, Ref(i, |servers[i].mounts|)));
  }

  lemma ViolationIsValid(servers: seq<Server>, v: Violation)
    requires IsViolation(servers, v)
    ensures Valid(servers, v.at) && Valid(servers, v.owner)
  {
  }

  /** A mount has at most one violation of each kind. */
  lemma OwnerUnique(servers: seq<Server>, kind: Kind, at: Ref, o: Ref, o': Ref)
    requires IsViolation(servers, Violation(kind, at, o)) && IsViolation(servers, Violation(kind, at, o'))
    ensures o == o'
  {
  }

  lemma AppendErrors(
      servers: seq<Server>, i: nat, j: nat, errs: seq<Violation>, host: Option<Violation>, claim: Option<Violation>)
    requires Valid(servers, Ref(i, j)) && ErrorsOk(servers, Ref(i, j), errs)
    requires VisitOutcome(servers, HostPath, Ref(i, j), host) && VisitOutcome(servers, ClaimName, Ref(i, j), claim)
    ensures ErrorsOk(servers, Ref(i, j + 1), errs + AsSeq(host) + AsSeq(claim))
  {
    var all := errs + AsSeq(host) + AsSeq(claim);
    var at := Ref(i, j);
    forall v ensures v in all <==> IsViolation(servers, v) && Before(v.at, Ref(i, j + 1)) {
      if v.at == at && IsViolation(servers, v) {
        assert v == Violation(v.kind, at, v.owner);
        if v.kind == HostPath { OwnerUnique(servers, v.kind, at, v.owner, host.value.owner); }
        else { OwnerUnique(servers, v.kind, at, v.owner, claim.value.owner); }
      }
    }
    forall a, b | 0 <= a < b < |all| ensures Reported(all[a], all[b]) {
      if a < |errs| { assert errs[a] in errs; }
    }
  }

  function AsSeq<T>(o: Option<T>): seq<T> { if o.Some? then [o.value] else [] }

  ghost predicate VisitOutcome(servers: seq<Server>, kind: Kind, at: Ref, violation: Option<Violation>) {
    && (violation.Some? ==>
          violation.value.kind == kind && violation.value.at == at && IsViolation(servers, violation.value))
    && (violation.None? ==> forall o :: !IsViolation(servers, Violation(kind, at, o)))
  }

  method ValidateChunkServerMountPaths(servers: seq<Server>) returns (errs: seq<Violation>)
    ensures forall v :: v in errs <==> IsViolation(servers, v)
    ensures forall a, b :: 0 <= a < b < |errs| ==> Reported(errs[a], errs[b])
    ensures |errs| + |Keys(servers, HostPath)| + |Keys(servers, ClaimName)|
         == |IndexedBefore(servers, HostPath, EndOf(servers))| + |IndexedBefore(servers, ClaimName, EndOf(servers))|
  {
    errs := [];
    var claimOwners: map<string, Ref>, hostPathOwners: map<string, Ref> := map[], map[];
    for i := 0 to |servers|
      invariant ErrorsOk(servers, Ref(i, 0), errs)
      invariant OwnersOk(servers, HostPath, Ref(i, 0), hostPathOwners)
      invariant OwnersOk(servers, ClaimName, Ref(i, 0), claimOwners)
      invariant |errs| + |hostPathOwners| + |claimOwners|
             == |IndexedBefore(servers, HostPath, Ref(i, 0))| + |IndexedBefore(servers, ClaimName, Ref(i, 0))|
    {
      var hostPathsInServer: map<string, nat>, claimNamesInServer: map<string, nat> := map[], map[];
      for j := 0 to |servers[i].mounts|
        invariant ErrorsOk(servers, Ref(i, j), errs)
        invariant OwnersOk(servers, HostPath, Ref(i, j), hostPathOwners)
        invariant OwnersOk(servers, ClaimName, Ref(i, j), claimOwners)
        invariant InServerOk(servers, HostPath, i, j, hostPathsInServer)
        invariant InServerOk(servers, ClaimName, i, j, claimNamesInServer)
        invariant |errs| + |hostPathOwners| + |claimOwners|
               == |IndexedBefore(servers, HostPath, Ref(i, j))| + |IndexedBefore(servers, ClaimName, Ref(i, j))|
      {
        var host, claim;
        CountStep(servers, HostPath, i, j, hostPathOwners);
        CountStep(servers, ClaimName, i, j, claimOwners);
        hostPathsInServer, hostPathOwners, host := Visit(servers, HostPath, i, j, hostPathsInServer, hostPathOwners);
        claimNamesInServer, claimOwners, claim := Visit(servers, ClaimName, i, j, claimNamesInServer, claimOwners);
        AppendErrors(servers, i, j, errs, host, claim);
        errs := errs + AsSeq(host) + AsSeq(claim);
      }
      NextServer(servers, HostPath, i);
      NextServer(servers, ClaimName, i);
      EndOfServer(servers, i, errs);
    }
    OwnersAreKeys(servers, HostPath, hostPathOwners);
    OwnersAreKeys(servers, ClaimName, claimOwners);
    forall v | IsViolation(servers, v) ensures v in errs { ViolationIsValid(servers, v); }
  }

  lemma EndOfServer(servers: seq<Server>, i: nat, errs: seq<Violation>)
    requires i < |servers| && ErrorsOk(servers, Ref(i, |servers[i].mounts|), errs)
    ensures ErrorsOk(servers, Ref(i + 1, 0), errs)
  {
    NextServer(servers, HostPath, i);
    forall v | IsViolation(servers, v) ensures Valid(servers, v.at) { ViolationIsValid(servers, v); }
  }

  /** Sizes after the visit of one mount. */
  lemma CountStep(servers: seq<Server>, kind: Kind, i: nat, j: nat, owners: map<string, Ref>)
    requires Valid(servers, Ref(i, j))
    ensures |IndexedBefore(servers, kind, Ref(i, j + 1))|
         == |IndexedBefore(servers, kind, Ref(i, j))| + if Indexed(servers, kind, Ref(i, j)) then 1 else 0
    ensures forall k, owners': map<string, Ref> ::
              k !in owners && owners'.Keys == owners.Keys + {k} ==> |owners'| == |owners| + 1
  {
    IndexedStep(servers, kind, i, j);
    forall k, owners': map<string, Ref> | k !in owners && owners'.Keys == owners.Keys + {k}
      ensures |owners'| == |owners| + 1
    {
      assert |owners'.Keys| == |owners.Keys| + 1;
    }
  }

  lemma OwnersAreKeys(servers: seq<Server>, kind: Kind, owners: map<string, Ref>)
    requires OwnersOk(servers, kind, EndOf(servers), owners)
    ensures |owners| == |Keys(servers, kind)|
  {
    forall k ensures k in owners <==> k in Keys(servers, kind) {
      if k in owners { assert owners[k] in IndexedBefore(servers, kind, EndOf(servers)); }
    }
    assert owners.Keys == Keys(servers, kind);
  }
}
