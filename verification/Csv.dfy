/** CSV exports, and a reader that follows section 2 of RFC 4180 to say what the written text means. */
module Csv {
  import opened Base

  /** A value handed to the writer: absent, a string, or anything else by its printed form. */
  datatype Cell = Absent | Text(text: string) | Other(printed: string)

  const BOM := ['\U{FEFF}']
  const CRLF := "\r\n"

  predicate Digits(s: string) {
    s != [] && forall i :: 0 <= i < |s| ==> '0' <= s[i] <= '9'
  }

  /** Optional sign, digits, optionally a point and more digits. */
  predicate PlainNumber(s: string) {
    var d := if s != [] && (s[0] == '+' || s[0] == '-') then s[1..] else s;
    Digits(d) || exists i :: 0 <= i < |d| && d[i] == '.' && Digits(d[..i]) && Digits(d[i + 1..])
  }

  predicate Triggers(c: char) {
    c == '=' || c == '+' || c == '-' || c == '@' || c == '\t' || c == '\r'
  }

  /** A spreadsheet would run this text as a formula. */
  predicate RunsAsFormula(s: string) {
    s != [] && Triggers(s[0]) && !PlainNumber(s)
  }

  /** The text of a cell, with the apostrophe that keeps a formula from running. */
  function Shown(c: Cell): string {
    match c
    case Absent => ""
    case Text(s) => if RunsAsFormula(s) then "'" + s else s
    case Other(s) => s
  }

  predicate Special(c: char) {
    c == '"' || c == ',' || c == '\n' || c == '\r'
  }

  predicate NeedsQuotes(s: string) {
    exists i :: 0 <= i < |s| && Special(s[i])
  }

  function Doubled(s: string): string {
    if s == [] then ""
    else (if s[0] == '"' then "\"\"" else [s[0]]) + Doubled(s[1..])
  }

  function Closed(s: string): string {
    Doubled(s) + "\""
  }

  function Written(s: string): string {
    if NeedsQuotes(s) then "\"" + Closed(s) else s
  }

  function EscapeField(c: Cell): string {
    Written(Shown(c))
  }

  function Join(parts: seq<string>, separator: string): string {
    if parts == [] then ""
    else if |parts| == 1 then parts[0]
    else parts[0] + separator + Join(parts[1..], separator)
  }

  function Escaped(row: seq<Cell>): seq<string> {
    if row == [] then [] else [EscapeField(row[0])] + Escaped(row[1..])
  }

  function Line(row: seq<Cell>): string {
    Join(Escaped(row), ",")
  }

  function Lines(table: seq<seq<Cell>>): seq<string> {
    if table == [] then [] else [Line(table[0])] + Lines(table[1..])
  }

  function Body(table: seq<seq<Cell>>): string {
    Join(Lines(table), CRLF)
  }

  function Texts(headers: seq<string>): seq<Cell> {
    if headers == [] then [] else [Text(headers[0])] + Texts(headers[1..])
  }

  function Table(headers: seq<string>, rows: seq<seq<Cell>>): seq<seq<Cell>> {
    [Texts(headers)] + rows
  }

  function ToCsv(headers: seq<string>, rows: seq<seq<Cell>>): string {
    BOM + Body(Table(headers, rows))
  }

  // ---- The reader -----------------------------------------------------------------------------------

  /** An unquoted field runs up to the next comma, quote or line break. */
  function ReadBare(s: string): (string, string) {
    if s == [] || Special(s[0]) then ("", s)
    else
      var (field, rest) := ReadBare(s[1..]);
      ([s[0]] + field, rest)
  }

  /** Past the opening quote: up to the first quote that is not doubled. */
  function ReadQuoted(s: string): Option<(string, string)> {
    if s == [] then None
    else if s[0] != '"' then
      var r := ReadQuoted(s[1..]);
      if r.None? then None else Some(([s[0]] + r.value.0, r.value.1))
    else if |s| > 1 && s[1] == '"' then
      var r := ReadQuoted(s[2..]);
      if r.None? then None else Some((['"'] + r.value.0, r.value.1))
    else Some(("", s[1..]))
  }

  function ReadField(s: string): Option<(string, string)> {
    if s != [] && s[0] == '"' then ReadQuoted(s[1..]) else Some(ReadBare(s))
  }

  lemma {:induction false} BareShrinks(s: string)
    ensures |ReadBare(s).0| + |ReadBare(s).1| == |s|
    ensures !NeedsQuotes(ReadBare(s).0)
  {
    if s != [] && !Special(s[0]) {
      BareShrinks(s[1..]);
    }
  }

  lemma {:induction false} QuotedShrinks(s: string)
    requires ReadQuoted(s).Some?
    ensures |ReadQuoted(s).value.0| + |ReadQuoted(s).value.1| < |s|
  {
    if s[0] != '"' {
      QuotedShrinks(s[1..]);
    } else if |s| > 1 && s[1] == '"' {
      QuotedShrinks(s[2..]);
    }
  }

  function ReadRecord(s: string): Option<(seq<string>, string)>
    decreases |s|
  {
    var f := ReadField(s);
    if f.None? then None
    else
      var (field, rest) := f.value;
      if rest == [] || rest[0] != ',' then Some(([field], rest))
      else if |rest| > |s| then None
      else
        var more := ReadRecord(rest[1..]);
        if more.None? then None else Some(([field] + more.value.0, more.value.1))
  }

  /** `lastBreak` says whether a line break may end the last record, as section 2 rule 2 of the RFC allows. */
  function ReadRecords(s: string, lastBreak: bool): Option<seq<seq<string>>>
    decreases |s|
  {
    var r := ReadRecord(s);
    if r.None? then None
    else
      var (record, rest) := r.value;
      if rest == [] || (lastBreak && rest == CRLF) then Some([record])
      else if |rest| > |s| || |rest| < 2 || rest[..2] != CRLF then None
      else
        var more := ReadRecords(rest[2..], lastBreak);
        if more.None? then None else Some([record] + more.value)
  }

  /** Reads a file, skipping its byte order mark. */
  function Parse(file: string, lastBreak: bool): Option<seq<seq<string>>> {
    if file == [] || file[0] != BOM[0] then None else ReadRecords(file[1..], lastBreak)
  }

  // ---- One field ------------------------------------------------------------------------------------

  lemma {:induction false} Behind(c: char, s: string)
    ensures ([c] + s)[0] == c && ([c] + s)[1..] == s
  {
  }

  lemma {:induction false} ClosedStep(t: string, tail: string)
    requires t != []
    ensures Closed(t) + tail == if t[0] == '"' then ['"'] + (['"'] + (Closed(t[1..]) + tail))
                                else [t[0]] + (Closed(t[1..]) + tail)
  {
    var more := Closed(t[1..]);
    if t[0] == '"' {
      assert Closed(t) == ['"'] + (['"'] + more);
      Regroup(['"'], ['"'] + more, tail);
      Regroup(['"'], more, tail);
    } else {
      Regroup([t[0]], Doubled(t[1..]), "\"");
      Regroup([t[0]], more, tail);
    }
  }

  lemma {:induction false} QuotedReadsBack(t: string, tail: string)
    requires tail == [] || tail[0] != '"'
    ensures ReadQuoted(Closed(t) + tail) == Some((t, tail))
  {
    if t == [] {
      assert Closed(t) == ['"'];
      Behind('"', tail);
    } else {
      var more := Closed(t[1..]) + tail;
      ClosedStep(t, tail);
      QuotedReadsBack(t[1..], tail);
      Behind(t[0], more);
      Behind('"', ['"'] + more);
      Behind(t[0], t[1..]);
      assert t == [t[0]] + t[1..];
    }
  }

  lemma {:induction false} BareReadsBack(t: string, tail: string)
    requires !NeedsQuotes(t) && (tail == [] || Special(tail[0]))
    ensures ReadBare(t + tail) == (t, tail)
  {
    if t == [] {
      assert t + tail == tail;
    } else {
      assert !Special(t[0]);
      assert (t + tail)[1..] == t[1..] + tail;
      assert !NeedsQuotes(t[1..]) by {
        assert forall i :: 0 <= i < |t[1..]| ==> t[1..][i] == t[i + 1];
      }
      BareReadsBack(t[1..], tail);
      assert t == [t[0]] + t[1..];
    }
  }

  predicate EndsField(tail: string) {
    tail == [] || tail[0] == ',' || tail[0] == '\r'
  }

  /** Whatever a field holds, reading it back gives it and stops where it ends. */
  lemma {:induction false} FieldReadsBack(t: string, tail: string)
    requires EndsField(tail)
    ensures ReadField(Written(t) + tail) == Some((t, tail))
  {
    if NeedsQuotes(t) {
      Regroup("\"", Closed(t), tail);
      Behind('"', Closed(t) + tail);
      QuotedReadsBack(t, tail);
    } else {
      BareStart(t, tail);
      BareReadsBack(t, tail);
    }
  }

  lemma {:induction false} BareStart(t: string, tail: string)
    requires !NeedsQuotes(t) && EndsField(tail)
    ensures t + tail == [] || (t + tail)[0] != '"'
  {
    assert t != [] ==> (t + tail)[0] == t[0] && !Special(t[0]);
  }

  /** Quotes are added exactly when the field as it stands would not be read back. */
  lemma {:induction false} BareIffReadable(t: string)
    ensures Written(t) == t <==> ReadField(t) == Some((t, ""))
  {
    assert t + "" == t;
    if NeedsQuotes(t) {
      DoubledGrows(t);
      if t[0] == '"' {
        if ReadField(t).Some? {
          QuotedShrinks(t[1..]);
        }
      } else {
        BareShrinks(t);
      }
    } else {
      FieldReadsBack(t, "");
    }
  }

  lemma {:induction false} DoubledGrows(t: string)
    ensures |t| <= |Doubled(t)|
  {
    if t != [] {
      DoubledGrows(t[1..]);
    }
  }

  /** A text cell is shown as it is or behind one apostrophe, and never runs as a formula. */
  lemma {:induction false} ShownNeverRuns(s: string)
    ensures !RunsAsFormula(Shown(Text(s)))
    ensures Shown(Text(s)) != s <==> RunsAsFormula(s)
    ensures Shown(Text(s)) != s ==> Shown(Text(s)) == "'" + s
  {
    assert |"'" + s| == |s| + 1;
  }

  /** `[0-9]+`. */
  predicate Numeral(s: string) {
    |s| > 0 && forall i :: 0 <= i < |s| ==> s[i] in {'0', '1', '2', '3', '4', '5', '6', '7', '8', '9'}
  }

  ghost predicate Reads(s: string, sign: string, whole: string, rest: string) {
    && s == sign + (whole + rest) && (sign == "" || sign == "+" || sign == "-") && Numeral(whole)
    && (rest == "" || (rest[0] == '.' && Numeral(rest[1..])))
  }

  /** A number as a spreadsheet shows one: a sign or none, whole digits, and perhaps a point with more digits. */
  ghost predicate Number(s: string) {
    exists sign: string, whole: string, rest: string :: Reads(s, sign, whole, rest)
  }

  function Sign(s: string): string {
    if s != [] && (s[0] == '+' || s[0] == '-') then [s[0]] else ""
  }

  lemma {:induction false} DigitsIsNumeral(s: string)
    ensures Digits(s) <==> Numeral(s)
  {
  }

  lemma {:induction false} WholeIsNumber(s: string, sign: string, d: string)
    requires s == sign + d && (sign == "" || sign == "+" || sign == "-") && Digits(d)
    ensures Number(s)
  {
    DigitsIsNumeral(d);
    assert d + "" == d;
    assert Reads(s, sign, d, "");
  }

  lemma {:induction false} PointedIsNumber(s: string, sign: string, d: string, i: nat)
    requires s == sign + d && (sign == "" || sign == "+" || sign == "-")
    requires i < |d| && d[i] == '.' && Digits(d[..i]) && Digits(d[i + 1..])
    ensures Number(s)
  {
    var whole, rest := d[..i], d[i..];
    DigitsIsNumeral(whole);
    DigitsIsNumeral(d[i + 1..]);
    assert whole + rest == d && rest[0] == '.' && rest[1..] == d[i + 1..];
    assert Reads(s, sign, whole, rest);
  }

  lemma {:induction false} PlainIsNumber(s: string)
    requires PlainNumber(s)
    ensures Number(s)
  {
    var sign, d := Sign(s), s[|Sign(s)|..];
    assert s == sign + d;
    if Digits(d) {
      WholeIsNumber(s, sign, d);
    } else {
      var i :| 0 <= i < |d| && d[i] == '.' && Digits(d[..i]) && Digits(d[i + 1..]);
      PointedIsNumber(s, sign, d, i);
    }
  }

  lemma {:induction false} NumberIsPlain(s: string, sign: string, whole: string, rest: string)
    requires Reads(s, sign, whole, rest)
    ensures PlainNumber(s)
  {
    var d := whole + rest;
    assert sign == "" ==> s == d && s[0] == whole[0];
    assert sign != "" ==> s[0] == sign[0] && s[1..] == d;
    DigitsIsNumeral(whole);
    if rest == "" {
      assert d == whole;
    } else {
      DigitsIsNumeral(rest[1..]);
      assert d[|whole|] == '.' && d[..|whole|] == whole && d[|whole| + 1..] == rest[1..];
    }
  }

  lemma {:induction false} PlainIffNumber(s: string)
    ensures PlainNumber(s) <==> Number(s)
  {
    if PlainNumber(s) {
      PlainIsNumber(s);
    }
    if sign: string, whole: string, rest: string :| Reads(s, sign, whole, rest) {
      NumberIsPlain(s, sign, whole, rest);
    }
  }

  /** Only a text gets the apostrophe, and exactly if it begins like a formula and is no number. */
  lemma {:induction false} ShownAs(c: Cell)
    ensures c.Absent? ==> Shown(c) == ""
    ensures c.Other? ==> Shown(c) == c.printed
    ensures c.Text? ==>
              Shown(c) == (if |c.text| > 0 && c.text[0] in {'=', '+', '-', '@', '\t', '\r'} && !Number(c.text) then "'" else "")
                          + c.text
  {
    if c.Text? {
      PlainIffNumber(c.text);
      assert "" + c.text == c.text;
    }
  }

  /** A field is quoted exactly if it holds a quote, a comma or a line break character. */
  lemma {:induction false} QuotedIff(t: string)
    ensures Written(t) != t <==> exists i :: 0 <= i < |t| && t[i] in {'"', ',', '\n', '\r'}
    ensures Written(t) != t ==> |Written(t)| >= |t| + 2 && Written(t)[0] == '"' && Written(t)[|Written(t)| - 1] == '"'
  {
    DoubledGrows(t);
    assert NeedsQuotes(t) <==> exists i :: 0 <= i < |t| && t[i] in {'"', ',', '\n', '\r'};
  }

  // ---- Records and files ----------------------------------------------------------------------------

  function ShownRow(row: seq<Cell>): (r: seq<string>)
    ensures |r| == |row| && forall i :: 0 <= i < |row| ==> r[i] == Shown(row[i])
  {
    if row == [] then [] else [Shown(row[0])] + ShownRow(row[1..])
  }

  function ShownTable(table: seq<seq<Cell>>): (r: seq<seq<string>>)
    ensures |r| == |table| && forall i :: 0 <= i < |table| ==> r[i] == ShownRow(table[i])
  {
    if table == [] then [] else [ShownRow(table[0])] + ShownTable(table[1..])
  }

  lemma {:induction false} JoinStep(first: string, rest: seq<string>, separator: string)
    ensures Join([first] + rest, separator) == first + if rest == [] then "" else separator + Join(rest, separator)
  {
    assert ([first] + rest)[1..] == rest;
    if rest != [] {
      Regroup(first, separator, Join(rest, separator));
    }
  }

  lemma {:induction false} LineStep(row: seq<Cell>)
    requires row != []
    ensures Line(row) == Written(Shown(row[0])) + if |row| == 1 then "" else "," + Line(row[1..])
  {
    JoinStep(EscapeField(row[0]), Escaped(row[1..]), ",");
  }

  lemma {:induction false} FieldThenRecord(s: string, field: string, rest: string, fields: seq<string>, tail: string)
    requires ReadField(s) == Some((field, rest)) && rest != [] && rest[0] == ',' && |rest| <= |s|
    requires ReadRecord(rest[1..]) == Some((fields, tail))
    ensures ReadRecord(s) == Some(([field] + fields, tail))
  {
  }

  lemma {:induction false} LastField(field: string, tail: string)
    requires tail == [] || tail[0] == '\r'
    ensures ReadRecord(Written(field) + tail) == Some(([field], tail))
  {
    FieldReadsBack(field, tail);
  }

  lemma {:induction false} RecordReadsBack(row: seq<Cell>, tail: string)
    requires row != [] && (tail == [] || tail[0] == '\r')
    ensures ReadRecord(Line(row) + tail) == Some((ShownRow(row), tail))
  {
    var first := Shown(row[0]);
    LineStep(row);
    if |row| == 1 {
      assert Line(row) == Written(first) && ShownRow(row) == [first];
      LastField(first, tail);
    } else {
      var line := Line(row[1..]);
      RecordReadsBack(row[1..], tail);
      MoreFields(first, line, ShownRow(row[1..]), tail);
      Regroup(Written(first), "," + line, tail);
    }
  }

  lemma {:induction false} MoreFields(field: string, line: string, fields: seq<string>, tail: string)
    requires ReadRecord(line + tail) == Some((fields, tail))
    ensures ReadRecord(Written(field) + ("," + line + tail)) == Some(([field] + fields, tail))
  {
    var rest := "," + line + tail;
    Regroup(",", line, tail);
    Behind(',', line + tail);
    FieldReadsBack(field, rest);
    FieldThenRecord(Written(field) + rest, field, rest, fields, tail);
  }

  predicate Columns(table: seq<seq<Cell>>) {
    table != [] && forall i :: 0 <= i < |table| ==> table[i] != []
  }

  /** The last of several records is one empty field: its line is empty. */
  predicate EndsInEmptyLine(table: seq<seq<Cell>>) {
    |table| > 1 && Line(table[|table| - 1]) == ""
  }

  lemma {:induction false} BodyStep(table: seq<seq<Cell>>)
    requires table != []
    ensures Body(table) == Line(table[0]) + if |table| == 1 then "" else CRLF + Body(table[1..])
  {
    JoinStep(Line(table[0]), Lines(table[1..]), CRLF);
  }

  lemma {:induction false} RecordThenRecords(s: string, record: seq<string>, rest: string, lastBreak: bool)
    requires ReadRecord(s) == Some((record, rest))
    requires 2 <= |rest| <= |s| && rest[..2] == CRLF && (lastBreak ==> rest != CRLF)
    requires ReadRecords(rest[2..], lastBreak).Some?
    ensures ReadRecords(s, lastBreak) == Some([record] + ReadRecords(rest[2..], lastBreak).value)
  {
  }

  lemma {:induction false} MoreRecords(row: seq<Cell>, body: string, lastBreak: bool)
    requires row != [] && (lastBreak ==> body != "")
    requires ReadRecords(body, lastBreak).Some?
    ensures ReadRecords(Line(row) + (CRLF + body), lastBreak)
            == Some([ShownRow(row)] + ReadRecords(body, lastBreak).value)
  {
    var rest := CRLF + body;
    RecordReadsBack(row, rest);
    assert rest[..2] == CRLF && rest[2..] == body;
    RecordThenRecords(Line(row) + rest, ShownRow(row), rest, lastBreak);
  }

  lemma {:induction false} OneRecord(row: seq<Cell>, lastBreak: bool)
    requires row != []
    ensures ReadRecords(Line(row), lastBreak) == Some([ShownRow(row)])
  {
    RecordReadsBack(row, "");
    assert Line(row) + "" == Line(row);
  }

  lemma {:induction false} RecordsReadBack(table: seq<seq<Cell>>, lastBreak: bool)
    requires Columns(table) && (lastBreak ==> !EndsInEmptyLine(table))
    ensures ReadRecords(Body(table), lastBreak) == Some(ShownTable(table))
  {
    BodyStep(table);
    if |table| == 1 {
      OneRecord(table[0], lastBreak);
      assert ShownTable(table) == [ShownRow(table[0])];
    } else {
      if lastBreak {
        BodyNotEmpty(table[1..]);
      }
      RecordsReadBack(table[1..], lastBreak);
      MoreRecords(table[0], Body(table[1..]), lastBreak);
    }
  }

  lemma {:induction false} BodyNotEmpty(table: seq<seq<Cell>>)
    requires table != [] && (|table| > 1 || Line(table[0]) != "")
    ensures Body(table) != ""
  {
    BodyStep(table);
  }

  lemma {:induction false} LastBreak(row: seq<Cell>)
    requires row != []
    ensures ReadRecords(Line(row) + (CRLF + ""), true) == Some([ShownRow(row)])
  {
    RecordReadsBack(row, CRLF);
    assert CRLF + "" == CRLF;
  }

  lemma {:induction false} ShownInit(table: seq<seq<Cell>>, n: nat)
    requires 0 < n <= |table|
    ensures ShownTable(table[..n]) == [ShownRow(table[0])] + ShownTable(table[1..][..n - 1])
  {
    assert table[..n][1..] == table[1..][..n - 1];
  }

  /** An empty last line is taken for the optional line break: that record is lost. */
  lemma {:induction false} EmptyLineLost(table: seq<seq<Cell>>)
    requires Columns(table) && EndsInEmptyLine(table)
    ensures ReadRecords(Body(table), true) == Some(ShownTable(table[..|table| - 1]))
  {
    var n := |table| - 1;
    BodyStep(table);
    ShownInit(table, n);
    if n == 1 {
      BodyStep(table[1..]);
      assert Body(table[1..]) == "" && ShownTable(table[1..][..n - 1]) == [];
      assert ShownTable(table[..n]) == [ShownRow(table[0])];
      LastBreak(table[0]);
    } else {
      EmptyLineLost(table[1..]);
      BodyNotEmpty(table[1..]);
      MoreRecords(table[0], Body(table[1..]), true);
    }
  }

  lemma {:induction false} ParseBody(headers: seq<string>, rows: seq<seq<Cell>>, lastBreak: bool)
    ensures Parse(ToCsv(headers, rows), lastBreak) == ReadRecords(Body(Table(headers, rows)), lastBreak)
  {
    Behind(BOM[0], Body(Table(headers, rows)));
  }

  /**
   * For all headers and rows with at least one column, a reader that takes every line break for a
   * separator gets back every field as shown, whatever commas, quotes or line breaks it holds.
   */
  lemma {:induction false} CsvRoundTrip(headers: seq<string>, rows: seq<seq<Cell>>)
    requires headers != [] && forall i :: 0 <= i < |rows| ==> rows[i] != []
    ensures Parse(ToCsv(headers, rows), false) == Some(ShownTable(Table(headers, rows)))
  {
    ParseBody(headers, rows, false);
    RecordsReadBack(Table(headers, rows), false);
  }

  /**
   * A reader that allows the optional last line break gets the same if and only if the file does not
   * end in a row whose only field is empty.
   */
  lemma {:induction false} CsvRoundTripIff(headers: seq<string>, rows: seq<seq<Cell>>)
    requires headers != [] && forall i :: 0 <= i < |rows| ==> rows[i] != []
    ensures Parse(ToCsv(headers, rows), true) == Some(ShownTable(Table(headers, rows)))
            <==> !(rows != [] && |rows[|rows| - 1]| == 1 && Shown(rows[|rows| - 1][0]) == "")
  {
    var table := Table(headers, rows);
    ParseBody(headers, rows, true);
    if rows != [] {
      LineEmptyIff(rows[|rows| - 1]);
    }
    if EndsInEmptyLine(table) {
      EmptyLineLost(table);
      assert |ShownTable(table[..|rows|])| == |rows|;
    } else {
      RecordsReadBack(table, true);
    }
  }

  lemma {:induction false} LineEmptyIff(row: seq<Cell>)
    requires row != []
    ensures Line(row) == "" <==> |row| == 1 && Shown(row[0]) == ""
  {
    LineStep(row);
  }
}
