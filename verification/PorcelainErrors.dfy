/** What the parsers make of arbitrary input, line by line and field by field. */
module PorcelainErrors {
  import opened Common
  import opened Decimal
  import opened Porcelain
  import opened PorcelainRoundTrip

  // ── White space ──────────────────────────────────────────────────────────

  /** The 25 characters with the Unicode property White_Space. */
  lemma WhiteSpaceIs(c: char)
    ensures IsSpace(c) <==>
              c in "\U{9}\U{A}\U{B}\U{C}\U{D} \U{85}\U{A0}\U{1680}\U{2028}\U{2029}\U{202F}\U{205F}\U{3000}"
                || c in "\U{2000}\U{2001}\U{2002}\U{2003}\U{2004}\U{2005}\U{2006}\U{2007}\U{2008}\U{2009}\U{200A}"
  {
  }

  // ── Every text is a document ─────────────────────────────────────────────

  function Unsplit(lines: seq<string>): string {
    if lines == [] then ""
    else if |lines| == 1 then lines[0]
    else lines[0] + "\n" + Unsplit(lines[1..])
  }

  lemma {:induction false} UnsplitSplit(s: string)
    ensures Unsplit(Split(s)) == s
    ensures forall l :: l in Split(s) ==> '\n' !in l
  {
    if s != "" {
      UnsplitSplit(s[1..]);
      var rest := Split(s[1..]);
      assert s == s[..1] + s[1..];
      if s[0] == '\n' {
        assert ([""] + rest)[1..] == rest;
      } else {
        assert ([s[..1] + rest[0]] + rest[1..])[1..] == rest[1..];
      }
    }
  }

  function TrailingCrs(l: string): nat {
    if l != "" && l[|l| - 1] == '\r' then TrailingCrs(l[..|l| - 1]) + 1 else 0
  }

  function LineOf(l: string): OutLine {
    if Blank(l) then Padding(l) else Body(TrimCr(l), TrailingCrs(l))
  }

  lemma {:induction false} TrimmedLine(l: string)
    ensures l == TrimCr(l) + Crs(TrailingCrs(l))
    ensures TrimCr(l) != "" ==> TrimCr(l)[|TrimCr(l)| - 1] != '\r'
    ensures Blank(l) <==> Blank(TrimCr(l))
  {
    if l != "" && l[|l| - 1] == '\r' {
      TrimmedLine(l[..|l| - 1]);
      assert l == l[..|l| - 1] + "\r";
      assert Crs(TrailingCrs(l)) == Crs(TrailingCrs(l[..|l| - 1])) + "\r";
    } else {
      assert l == l + Crs(0);
    }
  }

  function DocumentOf(lines: seq<string>): seq<OutLine> {
    if lines == [] then [] else [LineOf(lines[0])] + DocumentOf(lines[1..])
  }

  lemma {:induction false} DocumentIsLaidOut(lines: seq<string>)
    requires forall l :: l in lines ==> '\n' !in l
    ensures LayoutOk(DocumentOf(lines)) && |DocumentOf(lines)| == |lines|
    ensures Assemble(DocumentOf(lines)) == Unsplit(lines)
  {
    if lines != [] {
      TrimmedLine(lines[0]);
      assert LineOk(LineOf(lines[0])) && Printed(LineOf(lines[0])) == lines[0];
      DocumentIsLaidOut(lines[1..]);
      assert DocumentOf(lines)[1..] == DocumentOf(lines[1..]);
    }
  }

  /** Any output whatever is a document of bodies and padding, so what is said of
      documents is said of every input. */
  lemma EveryTextIsADocument(s: string) returns (lines: seq<OutLine>)
    ensures LayoutOk(lines) && Assemble(lines) == s && Kept(Split(s)) == Bodies(lines)
  {
    UnsplitSplit(s);
    DocumentIsLaidOut(Split(s));
    lines := DocumentOf(Split(s));
    KeptBodies(lines);
  }

  // ── Counters ─────────────────────────────────────────────────────────────

  /** Decimal digits for at most 2^64 - 1. */
  predicate IsCounter(s: string) { s != "" && AllDigits(s) && Value(s) <= 18446744073709551615 }

  /** The first of the fields from `from` on that is no counter. */
  predicate FirstBad(f: seq<string>, from: nat, k: nat) {
    from <= k < |f| && !IsCounter(f[k]) && forall i :: from <= i < k ==> IsCounter(f[i])
  }

  lemma {:induction false} CountersMeaning(f: seq<string>, from: nat)
    requires from <= |f|
    ensures match Counters(f, from)
            case Ok(v) =>
              && |v| == |f| - from
              && forall i :: from <= i < |f| ==> IsCounter(f[i]) && v[i - from] == Value(f[i])
            case Err(e) => e.BadNumber? && FirstBad(f, from, e.field) && e.text == f[e.field]
    decreases |f| - from
  {
    if from < |f| { CountersMeaning(f, from + 1); }
  }

  // ── Rows ─────────────────────────────────────────────────────────────────

  /** Each line by its fields: the tag decides, AVA takes exactly three counters
      and ignores what follows, REP and DEL take all there are. */
  lemma RowMeaning(line: string)
    ensures var f := Fields(line);
            if |f| < 2 || (f[0] == "AVA" && |f| < 5) then ParseRow(line) == Err(TooFewFields(line))
            else if f[0] !in ["AVA", "REP", "DEL"] then ParseRow(line) == Err(UnknownTag(f[0]))
            else
              var last := if f[0] == "AVA" then 5 else |f|;
              match ParseRow(line)
              case Err(e) => e.BadNumber? && FirstBad(f[..last], 2, e.field) && e.text == f[e.field]
              case Ok(row) =>
                && (forall i :: 2 <= i < last ==> IsCounter(f[i]))
                && match row
                   case Ava(a) => f[0] == "AVA" && a == Availability(f[1], Value(f[2]), Value(f[3]), Value(f[4]))
                   case Rep(r) => f[0] == "REP" && IsReplication(r, f)
                   case Del(r) => f[0] == "DEL" && IsReplication(r, f)
  {
    var f := Fields(line);
    if |f| >= 2 {
      CountersMeaning(f, 2);
      if |f| >= 5 { CountersMeaning(f[..5], 2); }
    }
  }

  predicate IsReplication(r: Replication, f: seq<string>) {
    && 2 <= |f| && r.goal == f[1] && |r.counts| == |f| - 2
    && forall i :: 2 <= i < |f| ==> IsCounter(f[i]) && r.counts[i - 2] == Value(f[i])
  }

  predicate RowsOkBefore(lines: seq<string>, k: nat)
    requires k <= |lines|
  {
    forall i :: 0 <= i < k ==> ParseRow(lines[i]).Ok?
  }

  /** The report has all rows, or the error is that of the first bad line. */
  lemma {:induction false} FirstBadLine(lines: seq<string>)
    ensures match ParseRows(lines)
            case Ok(rows) => |rows| == |lines| && forall i :: 0 <= i < |lines| ==> ParseRow(lines[i]) == Ok(rows[i])
            case Err(e) =>
              exists k :: 0 <= k < |lines| && ParseRow(lines[k]) == Err(e) && RowsOkBefore(lines, k)
  {
    if lines != [] {
      FirstBadLine(lines[1..]);
      if ParseRow(lines[0]).Ok? && ParseRows(lines[1..]).Err? {
        var e := ParseRows(lines[1..]).error;
        var k :| 0 <= k < |lines[1..]| && ParseRow(lines[1..][k]) == Err(e) && RowsOkBefore(lines[1..], k);
        assert ParseRow(lines[k + 1]) == Err(e);
        forall i | 0 <= i < k + 1 ensures ParseRow(lines[i]).Ok? { assert i > 0 ==> lines[i] == lines[1..][i - 1]; }
      }
    }
  }

  // ── Goals ────────────────────────────────────────────────────────────────

  /** d is j without a quote at its beginning and, after that, at its end. */
  predicate IsUnquoted(d: string, j: string) {
    if j == "" || j == "\"" then d == ""
    else (if j[0] == '"' then "\"" else "") + d + (if j[|j| - 1] == '"' then "\"" else "") == j
  }

  lemma QuotesOff(j: string)
    ensures IsUnquoted(TrimSuffixQuote(TrimPrefixQuote(j)), j)
  {
    if j != "" && j[0] == '"' { assert j == "\"" + j[1..]; }
  }

  /** Each goal line by its fields. */
  lemma GoalMeaning(line: string)
    ensures var f := Fields(line);
            if |f| < 3 then ParseGoal(line) == Err(TooFewFields(line))
            else if !IsCounter(f[0]) then ParseGoal(line) == Err(BadNumber(0, f[0]))
            else
              && ParseGoal(line).Ok?
              && ParseGoal(line).value.id == Value(f[0]) && ParseGoal(line).value.name == f[1]
              && IsUnquoted(ParseGoal(line).value.definition, Join(f[2..]))
  {
    if |Fields(line)| >= 3 { QuotesOff(Join(Fields(line)[2..])); }
  }

  predicate GoalsOkBefore(lines: seq<string>, k: nat)
    requires k <= |lines|
  {
    forall i :: 0 <= i < k ==> ParseGoal(lines[i]).Ok?
  }

  lemma {:induction false} FirstBadGoal(lines: seq<string>)
    ensures match GoalsOf(lines)
            case Ok(goals) => |goals| == |lines| && forall i :: 0 <= i < |lines| ==> ParseGoal(lines[i]) == Ok(goals[i])
            case Err(e) =>
              exists k :: 0 <= k < |lines| && ParseGoal(lines[k]) == Err(e) && GoalsOkBefore(lines, k)
  {
    if lines != [] {
      FirstBadGoal(lines[1..]);
      if ParseGoal(lines[0]).Ok? && GoalsOf(lines[1..]).Err? {
        var e := GoalsOf(lines[1..]).error;
        var k :| 0 <= k < |lines[1..]| && ParseGoal(lines[1..][k]) == Err(e) && GoalsOkBefore(lines[1..], k);
        assert ParseGoal(lines[k + 1]) == Err(e);
        forall i | 0 <= i < k + 1 ensures ParseGoal(lines[i]).Ok? { assert i > 0 ==> lines[i] == lines[1..][i - 1]; }
      }
    }
  }
}
