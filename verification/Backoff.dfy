/** The shadow's back-off before it tries to take the Lease, and the pod names
    it is computed from. */
module Backoff {
  import opened Common
  import opened Decimal
  import opened ElectionTimes

  // ── Pod names ────────────────────────────────────────────────────────────

  function PodName(cluster: string, i: nat): string {
    cluster + "-master-" + Numeral(i)
  }

  /** Position just after the last '-' of s, or 0 when there is none. */
  function AfterLastDash(s: string): (k: nat)
    ensures k <= |s|
    ensures k == 0 || s[k - 1] == '-'
    ensures forall j :: k <= j < |s| ==> s[j] != '-'
    ensures k == 0 ==> '-' !in s
  {
    if s == "" then 0
    else if s[|s| - 1] == '-' then |s|
    else AfterLastDash(s[..|s| - 1])
  }

  /** sed 's/.*-\([0-9][0-9]*\)$/\1/': the digits after the last dash, or the
      whole name when the pattern does not match. */
  function SedOrdinal(name: string): string {
    var k := AfterLastDash(name);
    if 0 < k < |name| && AllDigits(name[k..]) then name[k..] else name
  }

  /** The `case` that maps anything but a non-empty run of digits to 0. */
  function Ordinal(name: string): nat {
    var o := SedOrdinal(name);
    if o == "" || !AllDigits(o) then 0 else Value(o)
  }

  /** A name that does not end in a dash and digits, and is no number itself,
      counts as 0. */
  lemma NoOrdinal(name: string)
    requires name == "" || !AllDigits(name)
    requires forall k :: 0 < k < |name| && name[k - 1] == '-' ==> !AllDigits(name[k..])
    ensures Ordinal(name) == 0
  {
  }

  /** The ordinal fallback recovers the StatefulSet index from a generated name. */
  lemma OrdinalOfPodName(cluster: string, i: nat)
    ensures Ordinal(PodName(cluster, i)) == i
  {
    var name := PodName(cluster, i);
    var n := |cluster + "-master-"|;
    assert name[n..] == Numeral(i);
    assert name[n - 1] == '-';
    assert forall j :: n <= j < |name| ==> name[j] == Numeral(i)[j - n];
    assert AfterLastDash(name) == n;
    NumeralValue(i);
  }

  // ── Replica counts and the Role's delete list ────────────────────────────

  /** Number of pods of the master StatefulSet; an unset shadow count adds none. */
  function StatefulSetPods(shadowReplicas: Option<nat>): nat {
    1 + if shadowReplicas.Some? then shadowReplicas.value else 0
  }

  /** The pod names the sidecar's Role may delete. An unset shadow count
      stands for one shadow here, unlike in the StatefulSet. */
  method RolePodNames(cluster: string, shadowReplicas: Option<nat>) returns (names: seq<string>)
    ensures forall i :: 0 <= i < |names| ==> names[i] == cluster + "-master-" + Numeral(i)
    ensures forall i :: 0 <= i < StatefulSetPods(shadowReplicas) ==> PodName(cluster, i) in names
    ensures forall j, k :: 0 <= j < k < |names| ==> names[j] != names[k]
    ensures forall j :: 0 <= j < |names| ==> Ordinal(names[j]) == j
    ensures |names| == match shadowReplicas case None => 2 case Some(n) => 1 + n
    ensures StatefulSetPods(shadowReplicas) == match shadowReplicas case None => 1 case Some(n) => 1 + n
  {
    var shadows := 1;
    if shadowReplicas.Some? { shadows := shadowReplicas.value; }
    names := [];
    for i := 0 to 1 + shadows
      invariant |names| == i
      invariant forall j :: 0 <= j < i ==> names[j] == PodName(cluster, j)
    {
      names := names + [PodName(cluster, i)];
    }
    OrdinalsInOrder(cluster, names);
    forall i | 0 <= i < StatefulSetPods(shadowReplicas) ensures PodName(cluster, i) in names {
      assert names[i] == PodName(cluster, i);
    }
  }

  lemma OrdinalsInOrder(cluster: string, names: seq<string>)
    requires forall j :: 0 <= j < |names| ==> names[j] == PodName(cluster, j)
    ensures forall j :: 0 <= j < |names| ==> Ordinal(names[j]) == j
    ensures forall j, k :: 0 <= j < k < |names| ==> names[j] != names[k]
  {
    forall j | 0 <= j < |names| ensures Ordinal(names[j]) == j { OrdinalOfPodName(cluster, j); }
  }

  // ── The staleness delay ──────────────────────────────────────────────────

  function Clamp(lo: int, x: int, hi: int): int { if x < lo then lo else if x > hi then hi else x }

  /** Seconds a shadow waits before its compare-and-swap: half of what its
      changelog is older than a Lease, or its ordinal when there is no
      changelog (mtime 0), never more than 15. */
  function StaleDelay(pod: string, mtime: int, now: int): (delay: int)
    ensures 0 <= delay <= MAX_DELAY
    ensures mtime != 0 && now - mtime <= LEASE_DURATION + 1 ==> delay == 0
  {
    if mtime != 0 then Clamp(0, (now - mtime - LEASE_DURATION) / 2, MAX_DELAY)
    else Clamp(0, Ordinal(pod), MAX_DELAY)
  }

  /** The script's own sequence of assignments computes StaleDelay. */
  method ComputeStaleDelay(pod: string, mtime: int, now: int) returns (staleDelay: int)
    ensures staleDelay == StaleDelay(pod, mtime, now)
  {
    staleDelay := 0;
    if mtime != 0 {
      var changelogAge := now - mtime;
      if changelogAge > LEASE_DURATION {
        staleDelay := (changelogAge - LEASE_DURATION) / 2;
      }
    } else {
      var ordinal := SedOrdinal(pod);
      if ordinal == "" || !AllDigits(ordinal) { ordinal := "0"; }
      staleDelay := Value(ordinal);
      assert "0"[..0] == "";
      assert Value("0") == 10 * Value("0"[..0]) + DigitValue('0');
    }
    if staleDelay > MAX_DELAY { staleDelay := MAX_DELAY; }
  }

  /** Without a changelog the pods of a StatefulSet wait 0, 1, 2 and so on up to
      15 seconds, at any time. */
  lemma DelayByOrdinal(cluster: string, i: nat, now: int)
    ensures StaleDelay(PodName(cluster, i), 0, now) == if i < 15 then i else 15
  {
    OrdinalOfPodName(cluster, i);
  }

  /** With one, no wait up to an age of 31 seconds, 15 seconds from 60 on, and
      in between two seconds of age for each second of delay. */
  lemma DelayByAge(pod: string, mtime: int, now: int)
    requires mtime != 0
    ensures var delay, age := StaleDelay(pod, mtime, now), now - mtime;
            && (delay == 0 <==> age <= 31)
            && (delay == 15 <==> age >= 60)
            && (30 <= age < 60 ==> 30 + 2 * delay <= age <= 31 + 2 * delay)
  {
  }

  /** At a common instant the shadow with the older changelog never waits less;
      once delayed, one that is two seconds staler waits strictly longer, unless
      it has reached the cap. */
  lemma StalerWaitsLonger(p: string, q: string, mtimeP: int, mtimeQ: int, now: int)
    requires mtimeP != 0 && mtimeQ != 0 && mtimeP <= mtimeQ
    ensures StaleDelay(q, mtimeQ, now) <= StaleDelay(p, mtimeP, now)
    ensures mtimeP + 2 <= mtimeQ && now - mtimeP >= LEASE_DURATION + 2 ==>
              StaleDelay(q, mtimeQ, now) < StaleDelay(p, mtimeP, now) || StaleDelay(p, mtimeP, now) == MAX_DELAY
  {
    var a, b := now - mtimeP - LEASE_DURATION, now - mtimeQ - LEASE_DURATION;
    assert b / 2 <= a / 2;
    if b + 2 <= a { assert b / 2 < a / 2; }
  }
}
