/** From admission to isolation: what an admitted spec guarantees about the
    objects and volumes that are built from it. */
module ChunkIsolation {
  import opened Common
  import opened Admission
  import opened Decimal

  // ── Who is flagged ───────────────────────────────────────────────────────

  ghost predicate Flagged(servers: seq<Server>, kind: Kind, at: Ref) {
    exists o :: IsViolation(servers, Violation(kind, at, o))
  }

  /** The first twin of `at`, restricted to at's own server when `local`. */
  lemma {:induction false} FirstTwin(servers: seq<Server>, kind: Kind, at: Ref, r: Ref, local: bool) returns (o: Ref)
    requires Twins(servers, kind, r, at) && Before(r, at) && (local ==> r.server == at.server)
    ensures Twins(servers, kind, o, at) && Before(o, at) && (local ==> o.server == at.server)
    ensures forall x :: Twins(servers, kind, x, at) && (local ==> x.server == at.server) ==> !Before(x, o)
    decreases r.server, r.mount
  {
    if x :| Twins(servers, kind, x, at) && (local ==> x.server == at.server) && Before(x, r) {
      o := FirstTwin(servers, kind, at, x, local);
    } else {
      o := r;
    }
  }

  /** The map form equals the quadratic one: a mount is flagged exactly when
      some earlier mount names the same storage. */
  lemma FlaggedIffEarlierTwin(servers: seq<Server>, kind: Kind, at: Ref)
    ensures Flagged(servers, kind, at) <==> exists r :: Twins(servers, kind, r, at) && Before(r, at)
  {
    if r :| Twins(servers, kind, r, at) && Before(r, at) {
      if l :| Twins(servers, kind, l, at) && Before(l, at) && l.server == at.server {
        var o := FirstTwin(servers, kind, at, l, true);
        assert IsViolation(servers, Violation(kind, at, o));
      } else {
        var o := FirstTwin(servers, kind, at, r, false);
        assert IsViolation(servers, Violation(kind, at, o));
      }
    }
    if o :| IsViolation(servers, Violation(kind, at, o)) {
      assert Twins(servers, kind, o, at) && Before(o, at);
    }
  }

  // ── The joined key ───────────────────────────────────────────────────────

  /** The same storage, without the detour through the key. */
  predicate SameStorage(servers: seq<Server>, kind: Kind, a: Ref, b: Ref) {
    && Valid(servers, a) && Valid(servers, b)
    && var m, n := servers[a.server].mounts[a.mount], servers[b.server].mounts[b.mount];
       match kind
       case HostPath =>
         m.hostPath != "" && m.hostPath == n.hostPath && servers[a.server].nodeName == servers[b.server].nodeName
       case ClaimName => m.claimName != "" && m.claimName == n.claimName
  }

  predicate NulFree(servers: seq<Server>) {
    forall i :: 0 <= i < |servers| ==> '\0' !in servers[i].nodeName
  }

  function Joined(node: string, path: string): string { node + "\0" + path }

  lemma JoinedFirstNul(node: string, path: string)
    ensures Joined(node, path)[..|node|] == node && Joined(node, path)[|node|] == '\0'
    ensures Joined(node, path)[|node| + 1..] == path
  {
  }

  lemma JoinedInjective(m: string, p: string, n: string, q: string)
    requires Joined(m, p) == Joined(n, q) && '\0' !in m && '\0' !in n
    ensures m == n && p == q
  {
    JoinedFirstNul(m, p);
    JoinedFirstNul(n, q);
    if m != n { ConfusedNodes(m, p, n, q); }
  }

  /** Two node names can be confused by the joined key exactly when one continues
      the other with a NUL. */
  lemma KeysCollideIff(m: string, n: string)
    requires m != n
    ensures (exists p, q :: p != "" && q != "" && Joined(m, p) == Joined(n, q)) <==> m + "\0" <= n || n + "\0" <= m
  {
    if m + "\0" <= n {
      var p := n[|m| + 1..] + "\0x";
      assert n == m + "\0" + n[|m| + 1..];
      assert Joined(m, p) == Joined(n, "x");
    } else if n + "\0" <= m {
      var q := m[|n| + 1..] + "\0x";
      assert m == n + "\0" + m[|n| + 1..];
      assert Joined(m, "x") == Joined(n, q);
    } else {
      forall p, q | Joined(m, p) == Joined(n, q) ensures false { ConfusedNodes(m, p, n, q); }
    }
  }

  lemma ConfusedNodes(m: string, p: string, n: string, q: string)
    requires m != n && Joined(m, p) == Joined(n, q)
    ensures m + "\0" <= n || n + "\0" <= m
    ensures '\0' in m || '\0' in n
  {
    JoinedFirstNul(m, p);
    JoinedFirstNul(n, q);
    if |m| < |n| {
      assert n[..|m|] == m && n[|m|] == '\0';
      assert m + "\0" == n[..|m| + 1];
    } else if |n| < |m| {
      assert m[..|n|] == n && m[|n|] == '\0';
      assert n + "\0" == m[..|n| + 1];
    }
  }

  lemma TwinsAreSameStorage(servers: seq<Server>, kind: Kind, a: Ref, b: Ref)
    requires NulFree(servers)
    ensures Twins(servers, kind, a, b) <==> SameStorage(servers, kind, a, b)
  {
    if kind == HostPath && Twins(servers, kind, a, b) {
      JoinedInjective(servers[a.server].nodeName, MountAt(servers, a).hostPath,
                      servers[b.server].nodeName, MountAt(servers, b).hostPath);
    }
  }

  // ── Names ────────────────────────────────────────────────────────────────

  predicate IsNameViolation(servers: seq<Server>, v: NameViolation) {
    && v.owner < v.server < |servers|
    && servers[v.owner].name == servers[v.server].name
    && forall j: nat :: j < v.owner ==> servers[j].name != servers[v.server].name
  }

  method ValidateChunkServerNames(servers: seq<Server>) returns (errs: seq<NameViolation>)
    ensures forall v :: v in errs <==> IsNameViolation(servers, v)
    ensures forall a, b :: 0 <= a < b < |errs| ==> errs[a].server < errs[b].server
  {
    errs := [];
    var firstSeenAt: map<string, nat> := map[];
    for i := 0 to |servers|
      invariant forall k :: k in firstSeenAt ==> firstSeenAt[k] < i && servers[firstSeenAt[k]].name == k
      invariant forall j: nat :: j < i ==> servers[j].name in firstSeenAt && firstSeenAt[servers[j].name] <= j
      invariant forall v :: v in errs <==> IsNameViolation(servers, v) && v.server < i
      invariant forall a, b :: 0 <= a < b < |errs| ==> errs[a].server < errs[b].server
    {
      if servers[i].name in firstSeenAt {
        var v := NameViolation(i, firstSeenAt[servers[i].name]);
        assert IsNameViolation(servers, v);
        assert forall w :: IsNameViolation(servers, w) && w.server == i ==> w.owner == v.owner;
        errs := errs + [v];
        continue;
      }
      firstSeenAt := firstSeenAt[servers[i].name := i];
    }
  }

  /** The webhook accepts the names exactly when they are pairwise distinct. */
  lemma NamesAdmittedIff(servers: seq<Server>)
    ensures (forall v :: !IsNameViolation(servers, v)) <==>
            (forall i, j :: 0 <= i < j < |servers| ==> servers[i].name != servers[j].name)
  {
    if i, j :| 0 <= i < j < |servers| && servers[i].name == servers[j].name {
      var v := SameNameMeansViolation(servers, i, j);
    }
  }

  /** StatefulSet and headless Service; the ConfigMap adds "-hdd". */
  function ObjectName(cluster: string, server: Server): string { cluster + "-chunk-" + server.name }

  function ConfigMapName(cluster: string, server: Server): string { ObjectName(cluster, server) + "-hdd" }

  lemma ObjectNamesDiffer(cluster: string, a: Server, b: Server)
    requires a.name != b.name
    ensures ObjectName(cluster, a) != ObjectName(cluster, b) && ConfigMapName(cluster, a) != ConfigMapName(cluster, b)
  {
    var n := |cluster + "-chunk-"|;
    assert ObjectName(cluster, a)[n..] == a.name && ObjectName(cluster, b)[n..] == b.name;
    assert ConfigMapName(cluster, a)[..|ConfigMapName(cluster, a)| - 4] == ObjectName(cluster, a);
    assert ConfigMapName(cluster, b)[..|ConfigMapName(cluster, b)| - 4] == ObjectName(cluster, b);
  }

  // ── The controller's own checks ──────────────────────────────────────────

  /** For the unsupported shadow fields only emptiness matters. */
  datatype Shadow = Shadow(image: string, nodeSelector: nat, tolerations: nat, requests: nat, limits: nat)

  datatype ClusterSpec = ClusterSpec(
    csiEnabled: Option<bool>,
    masterImage: string,
    shadow: Option<Shadow>,
    servers: seq<Server>)

  datatype Problem =
    | CsiUnsupported
    | ShadowImageDiffers
    | ShadowNodeSelector
    | ShadowTolerations
    | ShadowResources
    | DynamicPvc(at: Ref)

  const DEFAULT_MASTER_IMAGE := "ghcr.io/henres/leilfs-container/leilfs-master:5.10.1"

  function EffectiveImage(spec: ClusterSpec): string {
    if spec.masterImage == "" then DEFAULT_MASTER_IMAGE else spec.masterImage
  }

  /** The order in which problems are listed. */
  predicate ListedBefore(p: Problem, q: Problem) {
    if p.DynamicPvc? && q.DynamicPvc? then Before(p.at, q.at) else Place(p) < Place(q)
  }

  function Place(p: Problem): nat {
    match p
    case CsiUnsupported => 0
    case ShadowImageDiffers => 1
    case ShadowNodeSelector => 2
    case ShadowTolerations => 3
    case ShadowResources => 4
    case DynamicPvc(_) => 5
  }

  predicate Unprovisioned(m: Mount) { m.path != "" && m.hostPath == "" && m.claimName == "" }

  predicate HasProblem(spec: ClusterSpec, p: Problem) {
    match p
    case CsiUnsupported => spec.csiEnabled == Some(true)
    case ShadowImageDiffers =>
      && spec.shadow.Some?
      && spec.shadow.value.image != ""
      && spec.shadow.value.image != EffectiveImage(spec)
    case ShadowNodeSelector => spec.shadow.Some? && spec.shadow.value.nodeSelector > 0
    case ShadowTolerations => spec.shadow.Some? && spec.shadow.value.tolerations > 0
    case ShadowResources => spec.shadow.Some? && (spec.shadow.value.requests > 0 || spec.shadow.value.limits > 0)
    case DynamicPvc(at) => Valid(spec.servers, at) && Unprovisioned(MountAt(spec.servers, at))
  }

  method ValidateClusterSpec(spec: ClusterSpec) returns (problems: seq<Problem>)
    ensures CsiUnsupported in problems <==> spec.csiEnabled == Some(true)
    ensures ShadowNodeSelector in problems <==> spec.shadow.Some? && spec.shadow.value.nodeSelector != 0
    ensures ShadowTolerations in problems <==> spec.shadow.Some? && spec.shadow.value.tolerations != 0
    ensures ShadowResources in problems <==>
              spec.shadow.Some? && !(spec.shadow.value.requests == 0 == spec.shadow.value.limits)
    ensures ShadowImageDiffers in problems <==>
              && spec.shadow.Some?
              && spec.shadow.value.image !in ["", spec.masterImage]
              && (spec.masterImage == "" ==>
                    spec.shadow.value.image != "ghcr.io/henres/leilfs-container/leilfs-master:5.10.1")
    ensures forall i: nat, j: nat :: DynamicPvc(Ref(i, j)) in problems <==>
              && i < |spec.servers| && j < |spec.servers[i].mounts|
              && spec.servers[i].mounts[j].path != ""
              && spec.servers[i].mounts[j].hostPath == "" == spec.servers[i].mounts[j].claimName
    ensures forall p :: p in problems <==> HasProblem(spec, p)
    ensures forall i, j :: 0 <= i < j < |problems| ==> ListedBefore(problems[i], problems[j])
  {
    problems := ShadowProblems(spec);
    for i := 0 to |spec.servers|
      invariant forall p :: p in problems <==> HasProblem(spec, p) && (p.DynamicPvc? ==> p.at.server < i)
      invariant forall a, b :: 0 <= a < b < |problems| ==> ListedBefore(problems[a], problems[b])
    {
      for j := 0 to |spec.servers[i].mounts|
        invariant forall p :: p in problems <==> HasProblem(spec, p) && (p.DynamicPvc? ==> Before(p.at, Ref(i, j)))
        invariant forall a, b :: 0 <= a < b < |problems| ==> ListedBefore(problems[a], problems[b])
      {
        var mp := spec.servers[i].mounts[j];
        if mp.path != "" && mp.hostPath == "" && mp.claimName == "" {
          problems := problems + [DynamicPvc(Ref(i, j))];
        }
      }
    }
  }

  /** All problems of the first k places, in order. */
  ghost predicate ListedUpTo(spec: ClusterSpec, problems: seq<Problem>, k: nat) {
    && (forall p :: p in problems <==> HasProblem(spec, p) && Place(p) < k)
    && forall i, j :: 0 <= i < j < |problems| ==> ListedBefore(problems[i], problems[j])
  }

  /** One `if` of the check: the problem at place k is appended if it exists. */
  method Report(spec: ClusterSpec, found: seq<Problem>, p: Problem, applies: bool) returns (problems: seq<Problem>)
    requires !p.DynamicPvc? && ListedUpTo(spec, found, Place(p)) && applies == HasProblem(spec, p)
    ensures ListedUpTo(spec, problems, Place(p) + 1)
  {
    problems := if applies then found + [p] else found;
    forall q ensures q in problems <==> HasProblem(spec, q) && Place(q) < Place(p) + 1 {
      assert Place(q) == Place(p) ==> q == p;
    }
  }

  method MasterImage(spec: ClusterSpec) returns (masterImage: string)
    ensures masterImage == EffectiveImage(spec)
  {
    masterImage := spec.masterImage;
    if masterImage == "" { masterImage := DEFAULT_MASTER_IMAGE; }
  }

  method ShadowProblems(spec: ClusterSpec) returns (problems: seq<Problem>)
    ensures ListedUpTo(spec, problems, 5)
  {
    problems := Report(spec, [], CsiUnsupported, spec.csiEnabled == Some(true));
    if spec.shadow.None? { return; }
    var shadow := spec.shadow.value;
    var masterImage := MasterImage(spec);
    problems := Report(spec, problems, ShadowImageDiffers, shadow.image != "" && shadow.image != masterImage);
    problems := Report(spec, problems, ShadowNodeSelector, shadow.nodeSelector > 0);
    problems := Report(spec, problems, ShadowTolerations, shadow.tolerations > 0);
    problems := Report(spec, problems, ShadowResources, shadow.requests > 0 || shadow.limits > 0);
  }

  // ── Volumes ──────────────────────────────────────────────────────────────

  datatype Source = HostDir(dir: string) | Pvc(claim: string) | EmptyDir

  datatype Volume = Volume(name: string, source: Source)

  datatype VolumeMount = VolumeMount(name: string, mountPath: string)

  function VolumeName(i: nat): string { "data-" + Numeral(i) }

  lemma VolumeNameInjective(i: nat, j: nat)
    requires VolumeName(i) == VolumeName(j)
    ensures i == j
  {
    assert VolumeName(i)[5..] == Numeral(i) && VolumeName(j)[5..] == Numeral(j);
    NumeralValue(i);
    NumeralValue(j);
  }

  method BuildChunkVolumes(server: Server) returns (mounts: seq<VolumeMount>, volumes: seq<Volume>)
    ensures |mounts| == |volumes| == |server.mounts|
    ensures forall i :: 0 <= i < |volumes| ==>
              && mounts[i] == VolumeMount("data-" + Numeral(i), server.mounts[i].path)
              && volumes[i].name == "data-" + Numeral(i)
              && (server.mounts[i].hostPath != "" ==> volumes[i].source == HostDir(server.mounts[i].hostPath))
              && (server.mounts[i].hostPath == "" && server.mounts[i].claimName != "" ==>
                    volumes[i].source == Pvc(server.mounts[i].claimName))
              && (server.mounts[i].hostPath == "" && server.mounts[i].claimName == "" ==> volumes[i].source == EmptyDir)
              && volumes[i].source == SourceOf(server.mounts[i])
    ensures forall i, j :: 0 <= i < j < |volumes| ==> volumes[i].name != volumes[j].name
  {
    mounts, volumes := [], [];
    for i := 0 to |server.mounts|
      invariant |mounts| == |volumes| == i
      invariant forall k :: 0 <= k < i ==> volumes[k].name == VolumeName(k)
      invariant forall k :: 0 <= k < i ==>
                  && mounts[k] == VolumeMount(volumes[k].name, server.mounts[k].path)
                  && volumes[k].source == SourceOf(server.mounts[k])
    {
      var mp := server.mounts[i];
      var volName := VolumeName(i);
      mounts := mounts + [VolumeMount(volName, mp.path)];
      var source;
      if mp.hostPath != "" {
        source := HostDir(mp.hostPath);
      } else if mp.claimName != "" {
        source := Pvc(mp.claimName);
      } else {
        source := EmptyDir;
      }
      volumes := volumes + [Volume(volName, source)];
    }
    forall i, j | 0 <= i < j < |volumes| ensures volumes[i].name != volumes[j].name {
      if volumes[i].name == volumes[j].name { VolumeNameInjective(i, j); }
    }
  }

  function SourceOf(m: Mount): Source {
    if m.hostPath != "" then HostDir(m.hostPath)
    else if m.claimName != "" then Pvc(m.claimName)
    else EmptyDir
  }

  // ── Admission implies isolation ──────────────────────────────────────────

  ghost predicate Admitted(spec: ClusterSpec) {
    && (forall v :: !IsNameViolation(spec.servers, v))
    && (forall v :: !IsViolation(spec.servers, v))
    && (forall p :: !HasProblem(spec, p))
  }

  /** Storage two pods would share: the same claim, or the same directory of
      the same node. */
  predicate Shared(servers: seq<Server>, a: Ref, b: Ref)
    requires Valid(servers, a) && Valid(servers, b)
  {
    var s, t := SourceOf(MountAt(servers, a)), SourceOf(MountAt(servers, b));
    || (s.Pvc? && s == t)
    || (s.HostDir? && s == t && servers[a.server].nodeName == servers[b.server].nodeName)
  }

  lemma SharedMeansViolation(servers: seq<Server>, a: Ref, b: Ref)
    requires Valid(servers, a) && Valid(servers, b) && a != b && Shared(servers, a, b)
    ensures exists v :: IsViolation(servers, v)
  {
    var kind := if SourceOf(MountAt(servers, a)).Pvc? then ClaimName else HostPath;
    var first, second := if Before(a, b) then a else b, if Before(a, b) then b else a;
    assert Twins(servers, kind, first, second) && Before(first, second);
    FlaggedIffEarlierTwin(servers, kind, second);
    var o :| IsViolation(servers, Violation(kind, second, o));
  }

  lemma SameNameMeansViolation(servers: seq<Server>, i: nat, j: nat) returns (v: NameViolation)
    requires i < j < |servers| && servers[i].name == servers[j].name
    ensures IsNameViolation(servers, v)
    decreases i
  {
    if k: nat :| k < i && servers[k].name == servers[j].name {
      v := SameNameMeansViolation(servers, k, j);
    } else {
      v := NameViolation(j, i);
    }
  }

  /** For any spec that passes the webhook and the controller's checks: chunk
      object names are pairwise distinct per kind, no two volumes of any servers
      share storage, and only a mount without a path gets an emptyDir. */
  lemma AdmissionImpliesIsolation(cluster: string, spec: ClusterSpec)
    requires Admitted(spec)
    ensures forall i, j :: 0 <= i < j < |spec.servers| ==>
              && ObjectName(cluster, spec.servers[i]) != ObjectName(cluster, spec.servers[j])
              && ConfigMapName(cluster, spec.servers[i]) != ConfigMapName(cluster, spec.servers[j])
    ensures forall server <- spec.servers ::
              && ObjectName(cluster, server) == cluster + "-chunk-" + server.name
              && ConfigMapName(cluster, server) == cluster + "-chunk-" + server.name + "-hdd"
    ensures forall a, b :: Valid(spec.servers, a) && Valid(spec.servers, b) && a != b ==> !Shared(spec.servers, a, b)
    ensures forall a :: Valid(spec.servers, a) && SourceOf(MountAt(spec.servers, a)) == EmptyDir ==>
              MountAt(spec.servers, a).path == ""
  {
    forall i, j | 0 <= i < j < |spec.servers|
      ensures ObjectName(cluster, spec.servers[i]) != ObjectName(cluster, spec.servers[j])
      ensures ConfigMapName(cluster, spec.servers[i]) != ConfigMapName(cluster, spec.servers[j])
    {
      NamesAdmittedIff(spec.servers);
      ObjectNamesDiffer(cluster, spec.servers[i], spec.servers[j]);
    }
    forall a, b | Valid(spec.servers, a) && Valid(spec.servers, b) && a != b ensures !Shared(spec.servers, a, b) {
      if Shared(spec.servers, a, b) { SharedMeansViolation(spec.servers, a, b); }
    }
    forall a | Valid(spec.servers, a) && SourceOf(MountAt(spec.servers, a)) == EmptyDir
      ensures MountAt(spec.servers, a).path == ""
    {
      assert !HasProblem(spec, DynamicPvc(a));
    }
  }

  /** And admission asks for nothing more than that: with NUL-free node names
      the storage check passes exactly when no two mounts name the same storage. */
  lemma StorageAdmittedIff(servers: seq<Server>)
    requires NulFree(servers)
    ensures (forall v :: !IsViolation(servers, v)) <==>
            (forall kind, a, b :: SameStorage(servers, kind, a, b) ==> a == b)
  {
    forall kind, a, b ensures Twins(servers, kind, a, b) <==> SameStorage(servers, kind, a, b) {
      TwinsAreSameStorage(servers, kind, a, b);
    }
    if forall v :: !IsViolation(servers, v) {
      forall kind, a, b | SameStorage(servers, kind, a, b) ensures a == b {
        if Before(a, b) {
          FlaggedIffEarlierTwin(servers, kind, b);
        } else if Before(b, a) {
          FlaggedIffEarlierTwin(servers, kind, a);
        }
      }
    } else {
      var v :| IsViolation(servers, v);
      assert SameStorage(servers, v.kind, v.owner, v.at);
    }
  }
}
