/** The line parsers for `saunafs-admin --porcelain` output. */
module Porcelain {
  import opened Common
  import opened Decimal

  // ── Go's string functions ────────────────────────────────────────────────

  /** unicode.IsSpace */
  predicate IsSpace(c: char) {
    || '\t' <= c <= '\r' || c == ' '
    || c == '\U{85}' || c == '\U{A0}' || c == '\U{1680}'
    || '\U{2000}' <= c <= '\U{200A}'
    || c == '\U{2028}' || c == '\U{2029}' || c == '\U{202F}' || c == '\U{205F}' || c == '\U{3000}'
  }

  predicate Blank(s: string) { forall i :: 0 <= i < |s| ==> IsSpace(s[i]) }

  /** A non-empty run of characters without white space. */
  predicate IsWord(s: string) { s != "" && forall i :: 0 <= i < |s| ==> !IsSpace(s[i]) }

  /** strings.Fields */
  function Fields(s: string): (words: seq<string>)
    ensures s != "" && !IsSpace(s[0]) ==> words != []
  {
    if s == "" then []
    else if IsSpace(s[0]) then Fields(s[1..])
    else if |s| == 1 || IsSpace(s[1]) then [s[..1]] + Fields(s[1..])
    else
      var words := Fields(s[1..]);
      [s[..1] + words[0]] + words[1..]
  }

  /** strings.Join(words, " ") */
  function Join(words: seq<string>): string {
    if words == [] then ""
    else if |words| == 1 then words[0]
    else words[0] + " " + Join(words[1..])
  }

  /** strings.Split(s, "\n") */
  function Split(s: string): (lines: seq<string>)
    ensures lines != []
  {
    if s == "" then [""]
    else
      var lines := Split(s[1..]);
      if s[0] == '\n' then [""] + lines else [s[..1] + lines[0]] + lines[1..]
  }

  /** strings.TrimRight(l, "\r") */
  function TrimCr(l: string): string {
    if l != "" && l[|l| - 1] == '\r' then TrimCr(l[..|l| - 1]) else l
  }

  function TrimPrefixQuote(s: string): string { if s != "" && s[0] == '"' then s[1..] else s }

  function TrimSuffixQuote(s: string): string { if s != "" && s[|s| - 1] == '"' then s[..|s| - 1] else s }

  const UINT64 := 0x1_0000_0000_0000_0000

  /** strconv.ParseUint(s, 10, 64) */
  function ParseUint(s: string): Option<nat> {
    if s != "" && AllDigits(s) && Value(s) < UINT64 then Some(Value(s)) else None
  }

  // ── Lines ────────────────────────────────────────────────────────────────

  function Kept(lines: seq<string>): seq<string> {
    if lines == [] then []
    else (if Blank(TrimCr(lines[0])) then [] else [TrimCr(lines[0])]) + Kept(lines[1..])
  }

  method NonEmptyLines(s: string) returns (out: seq<string>)
    ensures out == Kept(Split(s))
  {
    var lines := Split(s);
    out := [];
    for i := 0 to |lines|
      invariant out + Kept(lines[i..]) == Kept(lines)
    {
      var l := TrimCr(lines[i]);
      assert lines[i..][1..] == lines[i + 1..];
      if Blank(l) { continue; }
      out := out + [l];
    }
    assert lines[|lines|..] == [];
  }

  // ── chunks-health ────────────────────────────────────────────────────────

  datatype Availability = Availability(goal: string, safe: nat, endangered: nat, lost: nat)

  datatype Replication = Replication(goal: string, counts: seq<nat>)

  datatype Row = Ava(a: Availability) | Rep(r: Replication) | Del(r: Replication)

  datatype Report = Report(availability: seq<Availability>, replication: seq<Replication>, deletion: seq<Replication>)

  datatype ParseError = TooFewFields(line: string) | BadNumber(field: nat, text: string) | UnknownTag(tag: string)

  /** What is already done, then the rest or its error. */
  function Prepend<T>(done: seq<T>, rest: Result<seq<T>, ParseError>): Result<seq<T>, ParseError> {
    match rest
    case Err(e) => Err(e)
    case Ok(v) => Ok(done + v)
  }

  lemma PrependNone<T>(rest: Result<seq<T>, ParseError>)
    ensures Prepend([], rest) == rest
  {
    if rest.Ok? { assert [] + rest.value == rest.value; }
  }

  lemma PrependOne<T>(done: seq<T>, x: T, rest: Result<seq<T>, ParseError>)
    ensures Prepend(done, Prepend([x], rest)) == Prepend(done + [x], rest)
  {
    if rest.Ok? { assert done + ([x] + rest.value) == done + [x] + rest.value; }
  }

  /** The counters from field `from` on, or the first field that is not one. */
  function Counters(f: seq<string>, from: nat): Result<seq<nat>, ParseError>
    requires from <= |f|
    decreases |f| - from
  {
    if from == |f| then Ok([])
    else
      match ParseUint(f[from])
      case None => Err(BadNumber(from, f[from]))
      case Some(v) => Prepend([v], Counters(f, from + 1))
  }

  lemma {:induction false} CountersLength(f: seq<string>, from: nat)
    requires from <= |f|
    ensures Counters(f, from).Ok? ==> |Counters(f, from).value| == |f| - from
    decreases |f| - from
  {
    if from < |f| { CountersLength(f, from + 1); }
  }

  function ParseRow(line: string): Result<Row, ParseError> {
    var f := Fields(line);
    if |f| < 2 then Err(TooFewFields(line))
    else if f[0] == "AVA" then
      if |f| < 5 then Err(TooFewFields(line))
      else
        match Counters(f[..5], 2)
        case Err(e) => Err(e)
        case Ok(v) =>
          CountersLength(f[..5], 2);
          Ok(Ava(Availability(f[1], v[0], v[1], v[2])))
    else if f[0] == "REP" || f[0] == "DEL" then
      match Counters(f, 2)
      case Err(e) => Err(e)
      case Ok(v) => Ok(if f[0] == "REP" then Rep(Replication(f[1], v)) else Del(Replication(f[1], v)))
    else Err(UnknownTag(f[0]))
  }

  /** All rows in order, or the error of the first bad line. */
  function ParseRows(lines: seq<string>): Result<seq<Row>, ParseError> {
    if lines == [] then Ok([])
    else
      match ParseRow(lines[0])
      case Err(e) => Err(e)
      case Ok(row) => Prepend([row], ParseRows(lines[1..]))
  }

  function AvaRows(rows: seq<Row>): seq<Availability> {
    if rows == [] then [] else AvaRows(rows[..|rows| - 1]) + if rows[|rows| - 1].Ava? then [rows[|rows| - 1].a] else []
  }

  function RepRows(rows: seq<Row>): seq<Replication> {
    if rows == [] then [] else RepRows(rows[..|rows| - 1]) + if rows[|rows| - 1].Rep? then [rows[|rows| - 1].r] else []
  }

  function DelRows(rows: seq<Row>): seq<Replication> {
    if rows == [] then [] else DelRows(rows[..|rows| - 1]) + if rows[|rows| - 1].Del? then [rows[|rows| - 1].r] else []
  }

  /** The rows split by tag, each kind in its original order. */
  function ByTag(rows: seq<Row>): Report { Report(AvaRows(rows), RepRows(rows), DelRows(rows)) }

  /** What ParseChunksHealth must return. */
  function HealthOf(out: string): Result<Report, ParseError> {
    match ParseRows(Kept(Split(out)))
    case Err(e) => Err(e)
    case Ok(rows) => Ok(ByTag(rows))
  }

  /** `for i := 2; i < len(f); i++`: parse, append, or return the error. */
  method ReadCounters(f: seq<string>, from: nat) returns (result: Result<seq<nat>, ParseError>)
    requires from <= |f|
    ensures result == Counters(f, from)
  {
    var counts: seq<nat> := [];
    PrependNone(Counters(f, from));
    for i := from to |f|
      invariant Counters(f, from) == Prepend(counts, Counters(f, i))
    {
      var v := ParseUint(f[i]);
      if v.None? { return Err(BadNumber(i, f[i])); }
      PrependOne(counts, v.value, Counters(f, i + 1));
      counts := counts + [v.value];
    }
    assert counts + [] == counts;
    return Ok(counts);
  }

  /** The body of the switch: one row, or the error it returns. */
  method ReadRow(line: string) returns (result: Result<Row, ParseError>)
    ensures result == ParseRow(line)
  {
    var f := Fields(line);
    if |f| < 2 { return Err(TooFewFields(line)); }
    if f[0] == "AVA" {
      if |f| < 5 { return Err(TooFewFields(line)); }
      var v := ReadCounters(f[..5], 2);
      if v.Err? { return Err(v.error); }
      CountersLength(f[..5], 2);
      return Ok(Ava(Availability(f[1], v.value[0], v.value[1], v.value[2])));
    } else if f[0] == "REP" || f[0] == "DEL" {
      var v := ReadCounters(f, 2);
      if v.Err? { return Err(v.error); }
      var cr := Replication(f[1], v.value);
      if f[0] == "REP" { return Ok(Rep(cr)); }
      return Ok(Del(cr));
    }
    return Err(UnknownTag(f[0]));
  }

  method ParseChunksHealth(out: string) returns (result: Result<Report, ParseError>)
    ensures result == HealthOf(out)
  {
    var lines := NonEmptyLines(out);
    var rep := Report([], [], []);
    ghost var seen: seq<Row> := [];
    assert lines[0..] == lines;
    PrependNone(ParseRows(lines));
    for n := 0 to |lines|
      invariant ParseRows(lines) == Prepend(seen, ParseRows(lines[n..]))
      invariant rep == ByTag(seen)
    {
      RowStep(lines, n, seen);
      var parsed := ReadRow(lines[n]);
      if parsed.Err? { return Err(parsed.error); }
      match parsed.value {
        case Ava(a) => rep := rep.(availability := rep.availability + [a]);
        case Rep(r) => rep := rep.(replication := rep.replication + [r]);
        case Del(r) => rep := rep.(deletion := rep.deletion + [r]);
      }
      ByTagAppend(seen, parsed.value);
      seen := seen + [parsed.value];
    }
    assert lines[|lines|..] == [];
    assert seen + [] == seen;
    return Ok(rep);
  }

  /** One more line: its row joins the rows seen, or its error ends the parse. */
  lemma RowStep(lines: seq<string>, n: nat, seen: seq<Row>)
    requires n < |lines| && ParseRows(lines) == Prepend(seen, ParseRows(lines[n..]))
    ensures match ParseRow(lines[n])
            case Err(e) => ParseRows(lines) == Err(e)
            case Ok(row) => ParseRows(lines) == Prepend(seen + [row], ParseRows(lines[n + 1..]))
  {
    assert lines[n..][0] == lines[n] && lines[n..][1..] == lines[n + 1..];
    if ParseRow(lines[n]).Ok? { PrependOne(seen, ParseRow(lines[n]).value, ParseRows(lines[n + 1..])); }
  }

  lemma ByTagAppend(rows: seq<Row>, row: Row)
    ensures AvaRows(rows + [row]) == AvaRows(rows) + if row.Ava? then [row.a] else []
    ensures RepRows(rows + [row]) == RepRows(rows) + if row.Rep? then [row.r] else []
    ensures DelRows(rows + [row]) == DelRows(rows) + if row.Del? then [row.r] else []
  {
    assert (rows + [row])[..|rows + [row]| - 1] == rows;
  }

  // ── list-goals ───────────────────────────────────────────────────────────

  datatype Goal = Goal(id: nat, name: string, definition: string)

  function ParseGoal(line: string): Result<Goal, ParseError> {
    var f := Fields(line);
    if |f| < 3 then Err(TooFewFields(line))
    else
      match ParseUint(f[0])
      case None => Err(BadNumber(0, f[0]))
      case Some(id) => Ok(Goal(id, f[1], TrimSuffixQuote(TrimPrefixQuote(Join(f[2..])))))
  }

  function GoalsOf(lines: seq<string>): Result<seq<Goal>, ParseError> {
    if lines == [] then Ok([])
    else
      match ParseGoal(lines[0])
      case Err(e) => Err(e)
      case Ok(g) => Prepend([g], GoalsOf(lines[1..]))
  }

  method ParseGoals(out: string) returns (result: Result<seq<Goal>, ParseError>)
    ensures result == GoalsOf(Kept(Split(out)))
  {
    var lines := NonEmptyLines(out);
    var goals: seq<Goal> := [];
    assert lines[0..] == lines;
    PrependNone(GoalsOf(lines));
    for n := 0 to |lines|
      invariant GoalsOf(lines) == Prepend(goals, GoalsOf(lines[n..]))
    {
      var line := lines[n];
      assert lines[n..][0] == line && lines[n..][1..] == lines[n + 1..];
      var f := Fields(line);
      if |f| < 3 { return Err(TooFewFields(line)); }
      var id := ParseUint(f[0]);
      if id.None? { return Err(BadNumber(0, f[0])); }
      var def := Join(f[2..]);
      def := TrimPrefixQuote(def);
      def := TrimSuffixQuote(def);
      PrependOne(goals, Goal(id.value, f[1], def), GoalsOf(lines[n + 1..]));
      goals := goals + [Goal(id.value, f[1], def)];
    }
    assert lines[|lines|..] == [];
    assert goals + [] == goals;
    return Ok(goals);
  }
}
