/** The parsers invert the documented layouts. */
module PorcelainRoundTrip {
  import opened Common
  import opened Decimal
  import opened Porcelain

  // ── Documents: bodies, blank lines and carriage returns ──────────────────

  /** A line of output: white space only, or a body followed by CRs. A body is
      not blank and ends in no CR of its own. */
  datatype OutLine = Padding(ws: string) | Body(text: string, crs: nat)

  function Crs(n: nat): string { seq(n, _ => '\r') }

  function Printed(l: OutLine): string {
    match l
    case Padding(ws) => ws
    case Body(text, crs) => text + Crs(crs)
  }

  /** Lines separated by newlines; a final newline is a last empty Padding. */
  function Assemble(lines: seq<OutLine>): string {
    if lines == [] then ""
    else if |lines| == 1 then Printed(lines[0])
    else Printed(lines[0]) + "\n" + Assemble(lines[1..])
  }

  function Bodies(lines: seq<OutLine>): seq<string> {
    if lines == [] then [] else (if lines[0].Body? then [lines[0].text] else []) + Bodies(lines[1..])
  }

  predicate LineOk(l: OutLine) {
    match l
    case Padding(ws) => Blank(ws) && '\n' !in ws
    case Body(text, _) => !Blank(text) && text[|text| - 1] != '\r' && '\n' !in text
  }

  predicate LayoutOk(lines: seq<OutLine>) { forall i :: 0 <= i < |lines| ==> LineOk(lines[i]) }

  lemma {:induction false} SplitAtNewline(l: string, rest: string)
    requires '\n' !in l
    ensures Split(l + "\n" + rest) == [l] + Split(rest)
    ensures Split(l) == [l]
  {
    if l == "" {
      assert (l + "\n" + rest)[1..] == rest;
    } else {
      SplitAtNewline(l[1..], rest);
      assert (l + "\n" + rest)[1..] == l[1..] + "\n" + rest;
      assert [l[0]] + l[1..] == l && l[..1] == [l[0]] == (l + "\n" + rest)[..1];
    }
  }

  lemma {:induction false} TrimCrs(text: string, n: nat)
    requires text == "" || text[|text| - 1] != '\r'
    ensures TrimCr(text + Crs(n)) == text
  {
    if n > 0 {
      assert (text + Crs(n))[..|text + Crs(n)| - 1] == text + Crs(n - 1);
      TrimCrs(text, n - 1);
    } else {
      assert text + Crs(0) == text;
    }
  }

  lemma {:induction false} BlankStaysBlank(ws: string)
    requires Blank(ws)
    ensures Blank(TrimCr(ws))
  {
    if ws != "" && ws[|ws| - 1] == '\r' { BlankStaysBlank(ws[..|ws| - 1]); }
  }

  lemma LineKept(l: OutLine)
    requires LineOk(l)
    ensures Kept([Printed(l)]) == if l.Body? then [l.text] else []
    ensures '\n' !in Printed(l)
  {
    match l {
      case Padding(ws) => BlankStaysBlank(ws);
      case Body(text, crs) => TrimCrs(text, crs);
    }
    assert Kept([Printed(l)][1..]) == [];
  }

  /** Whatever the padding, the non-empty lines are the bodies. */
  lemma {:induction false} KeptBodies(lines: seq<OutLine>)
    requires LayoutOk(lines)
    ensures Kept(Split(Assemble(lines))) == Bodies(lines)
  {
    if lines == [] {
      assert Kept([""][1..]) == [];
    } else {
      LineKept(lines[0]);
      var l := Printed(lines[0]);
      if |lines| == 1 {
        SplitAtNewline(l, "");
        assert Bodies(lines[1..]) == [];
      } else {
        SplitAtNewline(l, Assemble(lines[1..]));
        KeptBodies(lines[1..]);
        var all := [l] + Split(Assemble(lines[1..]));
        assert all[1..] == Split(Assemble(lines[1..])) && Kept([l][1..]) == [];
      }
    }
  }

  // ── Words ────────────────────────────────────────────────────────────────

  lemma {:induction false} FieldsFirstWord(w: string, rest: string)
    requires IsWord(w)
    ensures Fields(w + " " + rest) == [w] + Fields(rest)
    ensures Fields(w) == [w]
  {
    var s := w + " " + rest;
    if |w| == 1 {
      assert s[1..] == " " + rest && s[..1] == w;
      assert (" " + rest)[1..] == rest;
      assert w[1..] == "" && w[..1] == w;
    } else {
      FieldsFirstWord(w[1..], rest);
      assert s[1..] == w[1..] + " " + rest && s[..1] == w[..1] && w[..1] + w[1..] == w;
    }
  }

  lemma {:induction false} FieldsOfJoin(words: seq<string>)
    requires forall i :: 0 <= i < |words| ==> IsWord(words[i])
    ensures Fields(Join(words)) == words
  {
    if |words| == 1 {
      FieldsFirstWord(words[0], "");
    } else if words != [] {
      FieldsOfJoin(words[1..]);
      FieldsFirstWord(words[0], Join(words[1..]));
    }
  }

  lemma {:induction false} JoinShape(words: seq<string>)
    requires words != [] && forall i :: 0 <= i < |words| ==> IsWord(words[i])
    ensures Join(words) != "" && !IsSpace(Join(words)[|Join(words)| - 1]) && '\n' !in Join(words)
  {
    if |words| > 1 { JoinShape(words[1..]); }
    assert '\n' !in words[0];
  }

  // ── chunks-health ────────────────────────────────────────────────────────

  function Numerals(ns: seq<nat>): (words: seq<string>)
    ensures |words| == |ns| && forall i :: 0 <= i < |ns| ==> words[i] == Numeral(ns[i])
  {
    if ns == [] then [] else [Numeral(ns[0])] + Numerals(ns[1..])
  }

  function Tag(row: Row): string {
    match row
    case Ava(_) => "AVA"
    case Rep(_) => "REP"
    case Del(_) => "DEL"
  }

  function GoalName(row: Row): string { if row.Ava? then row.a.goal else row.r.goal }

  function CountersOf(row: Row): seq<nat> {
    if row.Ava? then [row.a.safe, row.a.endangered, row.a.lost] else row.r.counts
  }

  function Words(row: Row): seq<string> { [Tag(row), GoalName(row)] + Numerals(CountersOf(row)) }

  /** The documented layout: tag, goal name and counters, one space apart. */
  function PrintRow(row: Row): string { Join(Words(row)) }

  /** All of them are 64-bit counters. */
  predicate AllFit(ns: seq<nat>) { forall i :: 0 <= i < |ns| ==> ns[i] < UINT64 }

  predicate Fits(row: Row) { AllFit(CountersOf(row)) }

  predicate AllRowsFit(rows: seq<Row>) { forall i :: 0 <= i < |rows| ==> Fits(rows[i]) }

  lemma FitStep(ns: seq<nat>)
    requires ns != []
    ensures AllFit(ns) <==> ns[0] < UINT64 && AllFit(ns[1..])
  {
    if ns[0] < UINT64 && AllFit(ns[1..]) {
      forall i | 0 <= i < |ns| ensures ns[i] < UINT64 { assert i > 0 ==> ns[i] == ns[1..][i - 1]; }
    }
  }

  lemma RowsFitStep(rows: seq<Row>)
    requires rows != []
    ensures AllRowsFit(rows) <==> Fits(rows[0]) && AllRowsFit(rows[1..])
  {
    if Fits(rows[0]) && AllRowsFit(rows[1..]) {
      forall i | 0 <= i < |rows| ensures Fits(rows[i]) { assert i > 0 ==> rows[i] == rows[1..][i - 1]; }
    }
  }

  lemma WordsAreWords(row: Row)
    requires IsWord(GoalName(row))
    ensures forall i :: 0 <= i < |Words(row)| ==> IsWord(Words(row)[i])
  {
  }

  /** A list of numerals parses to its numbers, if they all fit in 64 bits. */
  lemma {:induction false} CountersOfNumerals(f: seq<string>, ns: seq<nat>, from: nat)
    requires from <= |f| && f[from..] == Numerals(ns)
    ensures Counters(f, from).Ok? <==> AllFit(ns)
    ensures Counters(f, from).Ok? ==> Counters(f, from).value == ns
    decreases |f| - from
  {
    if ns != [] {
      NumeralsStep(f, ns, from);
      NumeralValue(ns[0]);
      CountersOfNumerals(f, ns[1..], from + 1);
      FitStep(ns);
      assert ns == [ns[0]] + ns[1..];
    }
  }

  lemma NumeralsStep(f: seq<string>, ns: seq<nat>, from: nat)
    requires ns != [] && from <= |f| && f[from..] == Numerals(ns)
    ensures from < |f| && f[from] == Numeral(ns[0]) && f[from + 1..] == Numerals(ns[1..])
  {
    assert f[from] == f[from..][0];
    assert f[from + 1..] == f[from..][1..];
  }

  lemma RowRoundTrip(row: Row)
    requires IsWord(GoalName(row))
    ensures if Fits(row) then ParseRow(PrintRow(row)) == Ok(row) else ParseRow(PrintRow(row)).Err?
  {
    var f := Words(row);
    WordsAreWords(row);
    FieldsOfJoin(f);
    assert f[2..] == Numerals(CountersOf(row));
    CountersOfNumerals(f, CountersOf(row), 2);
    if row.Ava? { assert f[..5] == f; }
  }

  function PrintRows(rows: seq<Row>): seq<string> {
    if rows == [] then [] else [PrintRow(rows[0])] + PrintRows(rows[1..])
  }

  lemma {:induction false} RowsRoundTrip(rows: seq<Row>)
    requires forall i :: 0 <= i < |rows| ==> IsWord(GoalName(rows[i]))
    ensures if AllRowsFit(rows) then ParseRows(PrintRows(rows)) == Ok(rows) else ParseRows(PrintRows(rows)).Err?
  {
    if rows != [] {
      RowRoundTrip(rows[0]);
      RowsRoundTrip(rows[1..]);
      RowsFitStep(rows);
      assert [rows[0]] + rows[1..] == rows;
    }
  }

  /** Rows of any kinds in any order, with blank lines and CRs anywhere between
      them: parsing returns exactly those rows split by tag, in order, if every
      counter fits in 64 bits, and an error otherwise. */
  lemma HealthRoundTrip(lines: seq<OutLine>, rows: seq<Row>)
    requires forall i :: 0 <= i < |rows| ==> IsWord(GoalName(rows[i]))
    requires LayoutOk(lines) && Bodies(lines) == PrintRows(rows)
    ensures if AllRowsFit(rows) then HealthOf(Assemble(lines)) == Ok(ByTag(rows)) else HealthOf(Assemble(lines)).Err?
  {
    KeptBodies(lines);
    RowsRoundTrip(rows);
  }

  /** Such a document exists for any rows, so the round trip is about all of
      them: each printed row is an acceptable body. */
  lemma PrintedRowsAreBodies(row: Row, crs: nat)
    requires IsWord(GoalName(row))
    ensures LineOk(Body(PrintRow(row), crs))
  {
    WordsAreWords(row);
    JoinShape(Words(row));
  }

  lemma {:induction false} TagCounts(rows: seq<Row>)
    ensures |AvaRows(rows)| + |RepRows(rows)| + |DelRows(rows)| == |rows|
  {
    if rows != [] { TagCounts(rows[..|rows| - 1]); }
  }

  lemma {:induction false} OneRowPerLine(lines: seq<string>)
    ensures ParseRows(lines).Ok? ==> |ParseRows(lines).value| == |lines|
  {
    if lines != [] { OneRowPerLine(lines[1..]); }
  }

  /** On any output at all, no non-empty line is lost or counted twice. */
  lemma RowCountsSumToLines(out: string)
    requires HealthOf(out).Ok?
    ensures var r := HealthOf(out).value;
            |r.availability| + |r.replication| + |r.deletion| == |Kept(Split(out))|
  {
    OneRowPerLine(Kept(Split(out)));
    TagCounts(ParseRows(Kept(Split(out))).value);
  }

  // ── list-goals ───────────────────────────────────────────────────────────

  /** Every run of white space replaced by a single space. */
  function Collapse(s: string): string {
    if s == "" then ""
    else if !IsSpace(s[0]) then [s[0]] + Collapse(s[1..])
    else if |s| > 1 && IsSpace(s[1]) then Collapse(s[1..])
    else " " + Collapse(s[1..])
  }

  /** No white space but single spaces. */
  predicate SingleSpaced(s: string) {
    && (forall i :: 0 <= i < |s| && IsSpace(s[i]) ==> s[i] == ' ')
    && (forall i :: 0 <= i < |s| - 1 ==> !(IsSpace(s[i]) && IsSpace(s[i + 1])))
  }

  lemma {:induction false} CollapseLength(s: string)
    ensures |Collapse(s)| <= |s|
  {
    if s != "" { CollapseLength(s[1..]); }
  }

  lemma {:induction false} CollapseFixedIff(s: string)
    ensures Collapse(s) == s <==> SingleSpaced(s)
  {
    if s != "" {
      CollapseFixedIff(s[1..]);
      CollapseLength(s[1..]);
      assert s == [s[0]] + s[1..];
      if |s| > 1 && IsSpace(s[0]) && IsSpace(s[1]) {
        assert |Collapse(s)| < |s|;
      } else {
        assert SingleSpaced(s) <==> SingleSpaced(s[1..]) && (IsSpace(s[0]) ==> s[0] == ' ') by {
          SingleSpacedStep(s);
        }
        if Collapse(s) == s { assert Collapse(s)[1..] == s[1..] && Collapse(s)[0] == s[0]; }
      }
    }
  }

  lemma SingleSpacedStep(s: string)
    requires s != "" && !(|s| > 1 && IsSpace(s[0]) && IsSpace(s[1]))
    ensures SingleSpaced(s) <==> SingleSpaced(s[1..]) && (IsSpace(s[0]) ==> s[0] == ' ')
  {
    if SingleSpaced(s[1..]) && (IsSpace(s[0]) ==> s[0] == ' ') {
      forall i | 0 <= i < |s| && IsSpace(s[i]) ensures s[i] == ' ' {
        if i > 0 { assert s[i] == s[1..][i - 1]; }
      }
      forall i | 0 <= i < |s| - 1 ensures !(IsSpace(s[i]) && IsSpace(s[i + 1])) {
        if i > 0 { assert s[i] == s[1..][i - 1] && s[i + 1] == s[1..][i]; }
      }
    }
  }

  lemma {:induction false} CollapseQuote(s: string)
    ensures Collapse(s + "\"") == Collapse(s) + "\""
  {
    if s != "" {
      CollapseQuote(s[1..]);
      assert (s + "\"")[1..] == s[1..] + "\"";
    } else {
      assert "\""[1..] == "";
    }
  }

  /** Splitting into fields and joining again collapses white space. */
  lemma {:induction false} JoinOfFields(s: string)
    requires s != "" && !IsSpace(s[|s| - 1])
    ensures Fields(s) != []
    ensures Collapse(s) == (if IsSpace(s[0]) then " " else "") + Join(Fields(s))
  {
    if |s| > 1 {
      JoinOfFields(s[1..]);
      var words := Fields(s[1..]);
      if !IsSpace(s[0]) && IsSpace(s[1]) {
        assert Fields(s) == [s[..1]] + words && Fields(s)[1..] == words;
      } else if !IsSpace(s[0]) {
        assert Fields(s) == [s[..1] + words[0]] + words[1..] && Fields(s)[1..] == words[1..];
      }
    } else {
      assert s[1..] == "" && s[..1] == s == [s[0]];
    }
  }

  function Quoted(def: string): string { "\"" + def + "\"" }

  lemma QuotedFields(def: string)
    ensures Fields(Quoted(def)) != [] && Join(Fields(Quoted(def))) == Quoted(Collapse(def))
  {
    JoinOfFields(Quoted(def));
    CollapseQuote(def);
    assert Quoted(def)[1..] == def + "\"";
    assert Quoted(Collapse(def)) == ['"'] + (Collapse(def) + "\"");
  }

  /** The documented layout of one goal. */
  function PrintGoal(g: Goal): string { Numeral(g.id) + " " + (g.name + " " + Quoted(g.definition)) }

  lemma GoalFields(g: Goal)
    requires IsWord(g.name)
    ensures Fields(PrintGoal(g)) == [Numeral(g.id), g.name] + Fields(Quoted(g.definition))
  {
    var q := Quoted(g.definition);
    FieldsFirstWord(Numeral(g.id), g.name + " " + q);
    FieldsFirstWord(g.name, q);
  }

  lemma QuotesStripped(c: string)
    ensures TrimSuffixQuote(TrimPrefixQuote(Quoted(c))) == c
  {
    assert Quoted(c)[1..] == c + "\"";
  }

  /** One printed goal: the definition comes back with its white space collapsed. */
  lemma GoalRoundTrip(g: Goal)
    requires IsWord(g.name)
    ensures if g.id < UINT64 then ParseGoal(PrintGoal(g)) == Ok(g.(definition := Collapse(g.definition)))
            else ParseGoal(PrintGoal(g)).Err?
  {
    NumeralValue(g.id);
    GoalFields(g);
    QuotedFields(g.definition);
    QuotesStripped(Collapse(g.definition));
    assert Fields(PrintGoal(g))[2..] == Fields(Quoted(g.definition));
  }

  function PrintGoals(goals: seq<Goal>): seq<string> {
    if goals == [] then [] else [PrintGoal(goals[0])] + PrintGoals(goals[1..])
  }

  function Collapsed(goals: seq<Goal>): (r: seq<Goal>)
    ensures |r| == |goals|
    ensures forall i :: 0 <= i < |goals| ==> r[i] == goals[i].(definition := Collapse(goals[i].definition))
  {
    if goals == [] then [] else [goals[0].(definition := Collapse(goals[0].definition))] + Collapsed(goals[1..])
  }

  lemma {:induction false} GoalLines(goals: seq<Goal>)
    requires forall i :: 0 <= i < |goals| ==> IsWord(goals[i].name) && goals[i].id < UINT64
    ensures GoalsOf(PrintGoals(goals)) == Ok(Collapsed(goals))
  {
    if goals != [] {
      GoalRoundTrip(goals[0]);
      GoalLines(goals[1..]);
    }
  }

  /** Printing any goals and parsing the output gives them back with collapsed
      definitions; they come back unchanged if and only if every definition has
      no white space but single spaces. */
  lemma GoalsRoundTrip(lines: seq<OutLine>, goals: seq<Goal>)
    requires forall i :: 0 <= i < |goals| ==> IsWord(goals[i].name) && goals[i].id < UINT64
    requires LayoutOk(lines) && Bodies(lines) == PrintGoals(goals)
    ensures GoalsOf(Kept(Split(Assemble(lines)))) == Ok(Collapsed(goals))
    ensures GoalsOf(Kept(Split(Assemble(lines)))) == Ok(goals) <==>
            forall i :: 0 <= i < |goals| ==> SingleSpaced(goals[i].definition)
  {
    KeptBodies(lines);
    GoalLines(goals);
    forall i | 0 <= i < |goals| ensures Collapsed(goals)[i] == goals[i] <==> SingleSpaced(goals[i].definition) {
      CollapseFixedIff(goals[i].definition);
    }
    if forall i :: 0 <= i < |goals| ==> SingleSpaced(goals[i].definition) { assert Collapsed(goals) == goals; }
  }
}
