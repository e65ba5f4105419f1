/** The exported grade sheet, and a reader of comma-separated values as section 2 of RFC 4180 describes them. */
module Csv {
  import opened Decimals
  import opened Values

  // ---------------------------------------------------------------- the reader

  const CRLF: string := "\r\n"

  /** Any character but a comma, a quotation mark, CR and LF. */
  predicate Plain(c: char) { c != ',' && c != '"' && c != '\r' && c != '\n' }

  /** A field, or a list of fields, or of records, and the text after it. */
  datatype Parsed<T> = Parsed(value: T, rest: string)

  /** After the opening mark: up to the closing one; two marks stand for one. */
  function ReadQuoted(s: string): (p: Option<Parsed<string>>)
    ensures p.Some? ==> |p.value.rest| < |s|
  {
    if s == [] then None
    else if s[0] != '"' then Prefixed(s[0], ReadQuoted(s[1..]))
    else if |s| > 1 && s[1] == '"' then Prefixed('"', ReadQuoted(s[2..]))
    else Some(Parsed("", s[1..]))
  }

  function Prefixed(c: char, p: Option<Parsed<string>>): Option<Parsed<string>> {
    if p.Some? then Some(Parsed([c] + p.value.value, p.value.rest)) else None
  }

  function ReadPlain(s: string): (p: Parsed<string>)
    ensures |p.rest| <= |s|
  {
    if s == [] || !Plain(s[0]) then Parsed("", s)
    else
      var p := ReadPlain(s[1..]);
      Parsed([s[0]] + p.value, p.rest)
  }

  function ReadField(s: string): Option<Parsed<string>> {
    if s != [] && s[0] == '"' then ReadQuoted(s[1..]) else Some(ReadPlain(s))
  }

  /** Fields separated by commas. */
  function ReadRecord(s: string): (p: Option<Parsed<seq<string>>>)
    ensures p.Some? ==> |p.value.rest| <= |s|
    decreases |s|
  {
    var f := ReadField(s);
    if f.None? then None
    else if f.value.rest != [] && f.value.rest[0] == ',' then
      var more := ReadRecord(f.value.rest[1..]);
      if more.None? then None else Some(Parsed([f.value.value] + more.value.value, more.value.rest))
    else Some(Parsed([f.value.value], f.value.rest))
  }

  /** Records separated by CRLF; the last one may end in CRLF as well. */
  function ReadFile(s: string): Option<seq<seq<string>>>
    decreases |s|
  {
    if s == [] then Some([])
    else
      var r := ReadRecord(s);
      if r.None? then None
      else if r.value.rest == [] then Some([r.value.value])
      else if CRLF <= r.value.rest then
        var more := ReadFile(r.value.rest[2..]);
        if more.None? then None else Some([r.value.value] + more.value)
      else None
  }

  // ---------------------------------------------------------------- the writer

  /** A spreadsheet would take the text for a formula. */
  predicate Risky(s: string) { s != [] && s[0] in "=+-@\t\r" }

  function Guarded(s: string): string { if Risky(s) then "'" + s else s }

  function Doubled(s: string): string { if s == [] then [] else (if s[0] == '"' then "\"\"" else [s[0]]) + Doubled(s[1..]) }

  function Cell(s: string): string { "\"" + Doubled(Guarded(s)) + "\"" }

  function Join(cells: seq<string>): string {
    if cells == [] then [] else if |cells| == 1 then cells[0] else cells[0] + "," + Join(cells[1..])
  }

  /** A grade in hundredths, without trailing zeros. */
  function Decimal(h: nat): string {
    Digits(h / 100) + if h % 100 == 0 then "" else if h % 10 == 0 then "." + Digits(h % 100 / 10) else "." + Digits(h % 100 / 10) + Digits(h % 10)
  }

  datatype GradeRow = GradeRow(no: string, name: string, title: string, passed: nat, required: nat, attempts: nat, score: nat)

  function Status(r: GradeRow): string {
    if r.attempts == 0 then "未提交" else if r.required > 0 && r.passed == r.required then "全部通过" else "未全部通过"
  }

  function Fields(r: GradeRow): seq<string> {
    [r.no, r.name, r.title, Digits(r.passed), Digits(r.required), Digits(r.attempts), Decimal(r.score), Status(r)]
  }

  const HEADER: seq<string> := ["学号", "姓名", "实验", "通过题数", "必做题数", "提交次数", "成绩（100分）", "状态"]
  const BOM: string := "\U{feff}"

  function Cells(fields: seq<string>): seq<string> { if fields == [] then [] else [Cell(fields[0])] + Cells(fields[1..]) }

  function Line(r: GradeRow): string { Join(Cells(Fields(r))) + CRLF }

  function Lines(rows: seq<GradeRow>): string { if rows == [] then "" else Line(rows[0]) + Lines(rows[1..]) }

  function AllGuarded(fields: seq<string>): seq<string> { if fields == [] then [] else [Guarded(fields[0])] + AllGuarded(fields[1..]) }

  /** What a reader of the sheet gets to see. */
  function Records(rows: seq<GradeRow>): seq<seq<string>> { if rows == [] then [] else [AllGuarded(Fields(rows[0]))] + Records(rows[1..]) }

  // ---------------------------------------------------------------- round trip

  lemma {:induction false} QuotedRoundTrip(s: string, rest: string)
    requires rest == [] || rest[0] != '"'
    ensures ReadQuoted(Doubled(s) + "\"" + rest) == Some(Parsed(s, rest))
  {
    var text := Doubled(s) + "\"" + rest;
    if s == [] {
      assert text == "\"" + rest && text[1..] == rest;
    } else {
      QuotedRoundTrip(s[1..], rest);
      var tail := Doubled(s[1..]) + "\"" + rest;
      if s[0] == '"' {
        assert text == "\"\"" + tail && text[2..] == tail;
      } else {
        assert text == [s[0]] + tail && text[1..] == tail;
      }
      assert s == [s[0]] + s[1..];
    }
  }

  lemma CellRoundTrip(s: string, rest: string)
    requires rest == [] || rest[0] != '"'
    ensures ReadField(Cell(s) + rest) == Some(Parsed(Guarded(s), rest))
  {
    QuotedRoundTrip(Guarded(s), rest);
    assert (Cell(s) + rest)[1..] == Doubled(Guarded(s)) + "\"" + rest;
  }

  lemma {:induction false} RecordRoundTrip(fields: seq<string>, rest: string)
    requires fields != [] && (rest == [] || (rest[0] != '"' && rest[0] != ','))
    ensures ReadRecord(Join(Cells(fields)) + rest) == Some(Parsed(AllGuarded(fields), rest))
  {
    hide Cell, Guarded, ReadField, ReadRecord;
    var c := Cell(fields[0]);
    if |fields| == 1 {
      OneField(fields);
      CellRoundTrip(fields[0], rest);
      LastField(c + rest, Guarded(fields[0]), rest);
    } else {
      var tail := Join(Cells(fields[1..])) + rest;
      RecordRoundTrip(fields[1..], rest);
      JoinMore(c, Cells(fields[1..]));
      assert Join(Cells(fields)) + rest == c + ("," + tail);
      CellRoundTrip(fields[0], "," + tail);
      FieldThenMore(c + ("," + tail), Guarded(fields[0]), tail, AllGuarded(fields[1..]), rest);
    }
  }

  lemma OneField(fields: seq<string>)
    requires |fields| == 1
    ensures Cells(fields) == [Cell(fields[0])] && AllGuarded(fields) == [Guarded(fields[0])]
  {
    assert fields[1..] == [];
  }

  lemma LastField(s: string, f: string, rest: string)
    requires ReadField(s) == Some(Parsed(f, rest)) && (rest == [] || rest[0] != ',')
    ensures ReadRecord(s) == Some(Parsed([f], rest))
  {
  }

  lemma FieldThenMore(s: string, f: string, tail: string, more: seq<string>, rest: string)
    requires ReadField(s) == Some(Parsed(f, "," + tail)) && ReadRecord(tail) == Some(Parsed(more, rest))
    ensures ReadRecord(s) == Some(Parsed([f] + more, rest))
  {
    assert ("," + tail)[1..] == tail;
  }

  lemma JoinMore(c: string, cells: seq<string>)
    requires cells != []
    ensures Join([c] + cells) == c + "," + Join(cells)
  {
    assert ([c] + cells)[1..] == cells;
  }

  lemma {:induction false} LinesRoundTrip(rows: seq<GradeRow>)
    ensures ReadFile(Lines(rows)) == Some(Records(rows))
  {
    hide Fields, Join, Cells, AllGuarded, ReadRecord;
    if rows != [] {
      var rest := CRLF + Lines(rows[1..]);
      LinesRoundTrip(rows[1..]);
      EightFields(rows[0]);
      RecordRoundTrip(Fields(rows[0]), rest);
      assert Lines(rows) == Join(Cells(Fields(rows[0]))) + rest && rest[2..] == Lines(rows[1..]);
      NotEmpty(Fields(rows[0]), rest);
    }
  }

  lemma EightFields(r: GradeRow)
    ensures |Fields(r)| == |HEADER|
  {
  }

  lemma NotEmpty(fields: seq<string>, rest: string)
    requires rest != []
    ensures Join(Cells(fields)) + rest != []
  {
  }

  lemma {:induction false} PlainRoundTrip(s: string, rest: string)
    requires (forall c | c in s :: Plain(c)) && (rest == [] || !Plain(rest[0]))
    ensures ReadPlain(s + rest) == Parsed(s, rest)
  {
    if s == [] {
      assert s + rest == rest;
    } else {
      PlainRoundTrip(s[1..], rest);
      assert (s + rest)[1..] == s[1..] + rest && s == [s[0]] + s[1..];
    }
  }

  predicate PlainFields(fields: seq<string>) { forall f | f in fields :: f != [] && forall c | c in f :: Plain(c) }

  /** The header is not quoted. */
  lemma {:induction false} HeaderRoundTrip(fields: seq<string>, rest: string)
    requires fields != [] && PlainFields(fields) && CRLF <= rest
    ensures ReadRecord(Join(fields) + rest) == Some(Parsed(fields, rest))
  {
    hide ReadRecord, ReadField, Plain;
    SeparatorsAreNotPlain();
    assert fields[0] in fields;
    if |fields| == 1 {
      PlainField(fields[0], rest);
      LastField(fields[0] + rest, fields[0], rest);
      assert fields == [fields[0]];
    } else {
      var tail := Join(fields[1..]) + rest;
      assert forall f | f in fields[1..] :: f in fields;
      HeaderRoundTrip(fields[1..], rest);
      PlainField(fields[0], "," + tail);
      FieldThenMore(fields[0] + ("," + tail), fields[0], tail, fields[1..], rest);
      assert Join(fields) + rest == fields[0] + ("," + tail);
      assert fields == [fields[0]] + fields[1..];
    }
  }

  lemma SeparatorsAreNotPlain()
    ensures !Plain(',') && !Plain('\r')
  {
  }

  lemma PlainField(f: string, rest: string)
    requires f != [] && (forall c | c in f :: Plain(c)) && (rest == [] || !Plain(rest[0]))
    ensures ReadField(f + rest) == Some(Parsed(f, rest))
  {
    PlainRoundTrip(f, rest);
    assert (f + rest)[0] == f[0] && f[0] in f;
    hide ReadPlain;
  }

  lemma HeaderIsPlain()
    ensures PlainFields(HEADER)
  {
  }

  /** The exported sheet, whatever names and titles contain, reads as the header and one record per row. */
  method ExportGrades(rows: seq<GradeRow>) returns (csv: string)
    ensures BOM <= csv && ReadFile(csv[|BOM|..]) == Some([HEADER] + Records(rows))
  {
    hide Fields, Join, Cells, ReadFile, Lines, Cell, Records;
    csv := BOM + Join(HEADER) + CRLF;
    var i := 0;
    assert rows[0..] == rows;
    while i < |rows|
      invariant i <= |rows| && csv + Lines(rows[i..]) == BOM + Join(HEADER) + CRLF + Lines(rows)
    {
      var line := JoinedCells(Fields(rows[i]));
      NextLine(rows, i);
      assert csv + (line + CRLF + Lines(rows[i + 1..])) == csv + line + CRLF + Lines(rows[i + 1..]);
      csv := csv + line;
      csv := csv + CRLF;
      i := i + 1;
    }
    NoLine(rows, i);
    assert csv + Lines(rows[i..]) == csv;
    SheetReads(rows);
    assert csv == BOM + (Join(HEADER) + CRLF + Lines(rows));
  }

  /** Quotes the values and joins them. */
  method JoinedCells(values: seq<string>) returns (line: string)
    ensures line == Join(Cells(values))
  {
    var cells, k := [], 0;
    assert values[0..] == values;
    while k < |values|
      invariant k <= |values| && cells + Cells(values[k..]) == Cells(values)
    {
      assert values[k..][1..] == values[k + 1..];
      cells := cells + [Cell(values[k])];
      k := k + 1;
    }
    assert cells == Cells(values);
    line := Join(cells);
  }

  lemma NextLine(rows: seq<GradeRow>, i: nat)
    requires i < |rows|
    ensures Lines(rows[i..]) == Join(Cells(Fields(rows[i]))) + CRLF + Lines(rows[i + 1..])
  {
    assert rows[i..][1..] == rows[i + 1..];
  }

  lemma NoLine(rows: seq<GradeRow>, i: nat)
    requires i == |rows|
    ensures Lines(rows[i..]) == ""
  {
  }

  lemma SheetReads(rows: seq<GradeRow>)
    ensures ReadFile(Join(HEADER) + CRLF + Lines(rows)) == Some([HEADER] + Records(rows))
  {
    hide Fields, Lines, Records, ReadRecord;
    var rest := CRLF + Lines(rows);
    HeaderIsPlain();
    HeaderRoundTrip(HEADER, rest);
    LinesRoundTrip(rows);
    assert Join(HEADER) + CRLF + Lines(rows) == Join(HEADER) + rest && rest[2..] == Lines(rows);
    hide Join;
  }

  // ---------------------------------------------------------------- the guard

  /** Every record has as many fields as the header, and none of them would be taken for a formula. */
  lemma {:induction false} RecordsAreSafe(rows: seq<GradeRow>)
    ensures |Records(rows)| == |rows|
    ensures forall r | r in Records(rows) :: |r| == |HEADER| && forall f | f in r :: !Risky(f)
  {
    if rows != [] {
      RecordsAreSafe(rows[1..]);
      GuardedAreSafe(Fields(rows[0]));
    }
  }

  lemma {:induction false} GuardedAreSafe(fields: seq<string>)
    ensures |AllGuarded(fields)| == |fields| && forall f | f in AllGuarded(fields) :: !Risky(f)
  {
    if fields != [] {
      GuardedAreSafe(fields[1..]);
    }
  }

  /** Two texts look the same in the sheet exactly when one is the other, risky, behind an apostrophe of its own. */
  lemma GuardClashes(s: string, t: string)
    requires s != t
    ensures Guarded(s) == Guarded(t) <==> (Risky(s) && t == "'" + s) || (Risky(t) && s == "'" + t)
  {
    assert ("'" + s)[1..] == s && ("'" + t)[1..] == t;
  }

  /** Numbers and grades are never guarded. */
  lemma NumbersAreSafe(n: nat)
    ensures Guarded(Digits(n)) == Digits(n) && Guarded(Decimal(n)) == Decimal(n)
  {
    DigitsStart(n);
    DigitsStart(n / 100);
  }
}
