/**
 The CSV writer of the daily users report and the row stage of the CSV reader
 used for seller mailings. The reader is an indexed loop with four mutable
 variables; `Scanned` is the recursive scanner it refines.
 */
module Csv {
  import opened Base
  import opened Text

  type Row = seq<string>

  // ---------- writer (daily-users-report.service.ts) ----------

  predicate Special(c: char) {
    c == '"' || c == ',' || c == '\r' || c == '\n'
  }

  function DoubleQuotes(s: string): string {
    if s == [] then []
    else (if s[0] == '"' then "\"\"" else [s[0]]) + DoubleQuotes(s[1..])
  }

  function Escape(s: string): string {
    if exists c :: c in s && Special(c) then "\"" + DoubleQuotes(s) + "\"" else s
  }

  function EscapeAll(row: Row): Row {
    seq(|row|, i requires 0 <= i < |row| => Escape(row[i]))
  }

  function Line(row: Row): string {
    Join(EscapeAll(row), ",")
  }

  /** The printed form of a table: every record ends with CR LF (section 2 of RFC 4180). */
  function Printed(rows: seq<Row>): string {
    if rows == [] then "" else Line(rows[0]) + "\r\n" + Printed(rows[1..])
  }

  datatype ReportUser = ReportUser(
    id: string, email: string, phone: string, name: string,
    isActive: bool, roles: seq<string>, createdAt: string, updatedAt: string)

  const HEADER: Row := ["id", "email", "phone", "name", "isActive", "roles", "createdAt", "updatedAt"]

  function Cells(u: ReportUser): Row {
    [u.id, u.email, u.phone, u.name, if u.isActive then "true" else "false",
     Join(u.roles, "|"), u.createdAt, u.updatedAt]
  }

  function Table(users: seq<ReportUser>): seq<Row> {
    [HEADER] + seq(|users|, i requires 0 <= i < |users| => Cells(users[i]))
  }

  // ---------- reader (seller-email-csv.util.ts) ----------

  predicate Blank(row: Row) {
    forall cell :: cell in row ==> cell == ""
  }

  datatype Scan = Scan(rows: seq<Row>, row: Row, field: string, inQuotes: bool) {
    function Put(c: char): Scan {
      this.(field := field + [c])
    }

    function EndCell(): Scan {
      this.(row := row + [field], field := "")
    }

    /** A finished row is kept only when one of its cells is not empty. */
    function EndRow(): Scan {
      var full := row + [field];
      this.(rows := if Blank(full) then rows else rows + [full], row := [], field := "")
    }
  }

  const START := Scan([], [], "", false)

  function Scanned(s: string, st: Scan): Scan
    decreases |s|
  {
    if s == [] then st
    else if st.inQuotes then
      if s[0] != '"' then Scanned(s[1..], st.Put(s[0]))
      else if |s| > 1 && s[1] == '"' then Scanned(s[2..], st.Put('"'))
      else Scanned(s[1..], st.(inQuotes := false))
    else if s[0] == '"' then Scanned(s[1..], st.(inQuotes := true))
    else if s[0] == ',' then Scanned(s[1..], st.EndCell())
    else if s[0] == '\n' then Scanned(s[1..], st.EndRow())
    else if s[0] == '\r' then Scanned(s[1..], st)
    else Scanned(s[1..], st.Put(s[0]))
  }

  function RowsOf(content: string): seq<Row> {
    Scanned(content, START).EndRow().rows
  }

  method ParseRows(content: string) returns (rows: seq<Row>)
    ensures rows == RowsOf(content)
  {
    rows := [];
    var field, row, i, inQuotes := "", [], 0, false;
    while i < |content|
      invariant 0 <= i <= |content|
      invariant Scanned(content, START) == Scanned(content[i..], Scan(rows, row, field, inQuotes))
    {
      var c := content[i];
      assert content[i..][1..] == content[i + 1..];
      if inQuotes {
        if c == '"' {
          if i + 1 < |content| && content[i + 1] == '"' {
            assert content[i..][2..] == content[i + 2..];
            field := field + "\"";
            i := i + 2;
            continue;
          }
          inQuotes := false;
          i := i + 1;
          continue;
        }
        field := field + [c];
        i := i + 1;
        continue;
      }
      if c == '"' {
        inQuotes := true;
      } else if c == ',' {
        row := row + [field];
        field := "";
      } else if c == '\n' {
        row := row + [field];
        field := "";
        if exists cell :: cell in row && |cell| > 0 {
          rows := rows + [row];
        }
        row := [];
      } else if c != '\r' {
        field := field + [c];
      }
      i := i + 1;
    }
    row := row + [field];
    if exists cell :: cell in row && |cell| > 0 {
      rows := rows + [row];
    }
  }

  // ---------- the reader undoes the writer ----------

  function NonBlank(rows: seq<Row>): seq<Row> {
    if rows == [] then []
    else (if Blank(rows[0]) then [] else [rows[0]]) + NonBlank(rows[1..])
  }

  lemma {:induction false} ScanPlain(cell: string, rest: string, st: Scan)
    requires !st.inQuotes
    requires forall c :: c in cell ==> !Special(c)
    ensures Scanned(cell + rest, st) == Scanned(rest, st.(field := st.field + cell))
  {
    if cell == [] {
      assert cell + rest == rest && st.field + cell == st.field;
    } else {
      assert cell[0] in cell;
      ScanPlain(cell[1..], rest, st.Put(cell[0]));
      assert (cell + rest)[1..] == cell[1..] + rest;
      assert st.field + [cell[0]] + cell[1..] == st.field + cell;
    }
  }

  /** Inside quotes, one printed character of a cell adds that character to the field. */
  lemma ScanQuotedChar(c: char, tail: string, st: Scan)
    requires st.inQuotes
    ensures Scanned((if c == '"' then "\"\"" else [c]) + tail, st) == Scanned(tail, st.Put(c))
  {
  }

  lemma ScanClosingQuote(rest: string, st: Scan)
    requires st.inQuotes
    requires rest == [] || rest[0] != '"'
    ensures Scanned("\"" + rest, st) == Scanned(rest, st.(inQuotes := false))
  {
  }

  lemma {:induction false} ScanQuoted(cell: string, rest: string, st: Scan)
    requires st.inQuotes
    requires rest == [] || rest[0] != '"'
    ensures Scanned(DoubleQuotes(cell) + "\"" + rest, st)
         == Scanned(rest, st.(field := st.field + cell, inQuotes := false))
    decreases |cell|
  {
    hide Scanned;
    var close := "\"" + rest;
    assert DoubleQuotes(cell) + "\"" + rest == DoubleQuotes(cell) + close;
    if cell == [] {
      assert DoubleQuotes(cell) + close == close && st.field + cell == st.field;
      ScanClosingQuote(rest, st);
    } else {
      var tail := DoubleQuotes(cell[1..]) + close;
      var head := if cell[0] == '"' then "\"\"" else [cell[0]];
      assert DoubleQuotes(cell) + close == head + tail;
      ScanQuotedChar(cell[0], tail, st);
      ScanQuoted(cell[1..], rest, st.Put(cell[0]));
      assert DoubleQuotes(cell[1..]) + "\"" + rest == tail;
      assert st.field + [cell[0]] + cell[1..] == st.field + cell;
    }
  }

  /** Whatever a cell contains, its escaped form is read back as that cell. */
  lemma ScanCell(cell: string, rest: string, st: Scan)
    requires !st.inQuotes && st.field == ""
    requires rest == [] || rest[0] != '"'
    ensures Scanned(Escape(cell) + rest, st) == Scanned(rest, st.(field := cell))
  {
    if exists c :: c in cell && Special(c) {
      var body := DoubleQuotes(cell) + "\"" + rest;
      assert Escape(cell) + rest == "\"" + body;
      assert ("\"" + body)[1..] == body;
      ScanQuoted(cell, rest, st.(inQuotes := true));
      assert "" + cell == cell;
    } else {
      ScanPlain(cell, rest, st);
      assert "" + cell == cell;
    }
  }

  lemma ScanComma(rest: string, st: Scan)
    requires !st.inQuotes
    ensures Scanned("," + rest, st) == Scanned(rest, st.EndCell())
  {
  }

  /** A line end: with or without the carriage return. */
  type Eol = s | s == "\n" || s == "\r\n" witness "\n"

  lemma ScanLineEnd(eol: Eol, rest: string, st: Scan)
    requires !st.inQuotes
    ensures Scanned(eol + rest, st) == Scanned(rest, st.EndRow())
  {
  }

  /** The cells of one printed line, up to its end. */
  lemma {:induction false} ScanLine(row: Row, tail: string, st: Scan)
    requires !st.inQuotes && st.field == "" && row != []
    requires tail == [] || tail[0] != '"'
    ensures Scanned(Line(row) + tail, st)
         == Scanned(tail, st.(row := st.row + row[..|row| - 1], field := row[|row| - 1]))
    decreases |row|
  {
    hide Scanned, Escape, Blank;
    if |row| == 1 {
      ScanCell(row[0], tail, st);
      assert Line(row) + tail == Escape(row[0]) + tail;
      assert st.row + row[..0] == st.row;
    } else {
      var more := Line(row[1..]) + tail;
      assert EscapeAll(row)[1..] == EscapeAll(row[1..]);
      assert Line(row) + tail == Escape(row[0]) + ("," + more);
      ScanCell(row[0], "," + more, st);
      var st' := st.(field := row[0]);
      ScanComma(more, st');
      ScanLine(row[1..], tail, st'.EndCell());
      assert st'.EndCell().row + row[1..][..|row| - 2] == st.row + row[..|row| - 1];
    }
  }

  /** The scanner after the last cell of a line. */
  function AtLineEnd(row: Row, done: seq<Row>): Scan {
    if row == [] then START.(rows := done)
    else START.(rows := done, row := row[..|row| - 1], field := row[|row| - 1])
  }

  lemma ScanLastLine(row: Row, tail: string, done: seq<Row>)
    requires tail == [] || tail[0] != '"'
    ensures Scanned(Line(row) + tail, START.(rows := done)) == Scanned(tail, AtLineEnd(row, done))
  {
    hide Scanned, Escape;
    if row == [] {
      assert Line(row) + tail == tail;
    } else {
      ScanLine(row, tail, START.(rows := done));
      assert START.row + row[..|row| - 1] == row[..|row| - 1];
    }
  }

  lemma LineEnds(row: Row, done: seq<Row>)
    ensures AtLineEnd(row, done).EndRow() == START.(rows := if Blank(row) then done else done + [row])
  {
    if row == [] {
      assert Blank([""]) && START.row + [START.field] == [""];
    } else {
      assert row[..|row| - 1] + [row[|row| - 1]] == row;
    }
  }

  lemma ScanRecord(row: Row, eol: Eol, rest: string, done: seq<Row>)
    ensures Scanned(Line(row) + (eol + rest), START.(rows := done))
         == Scanned(rest, START.(rows := if Blank(row) then done else done + [row]))
  {
    hide Line, Scanned, Blank, Scan.EndRow;
    ScanLastLine(row, eol + rest, done);
    ScanLineEnd(eol, rest, AtLineEnd(row, done));
    LineEnds(row, done);
  }

  /** A table printed with a line end of its own for each record. */
  function PrintedWith(rows: seq<Row>, ends: seq<Eol>): string
    requires |ends| == |rows|
  {
    if rows == [] then "" else Line(rows[0]) + ends[0] + PrintedWith(rows[1..], ends[1..])
  }

  lemma {:induction false} ScanTable(rows: seq<Row>, ends: seq<Eol>, rest: string, done: seq<Row>)
    requires |ends| == |rows|
    ensures Scanned(PrintedWith(rows, ends) + rest, START.(rows := done))
         == Scanned(rest, START.(rows := done + NonBlank(rows)))
    decreases |rows|
  {
    hide Line, Blank, Scan.EndRow, Scanned;
    if rows == [] {
      assert done + NonBlank(rows) == done && PrintedWith(rows, ends) + rest == rest;
    } else {
      var done' := if Blank(rows[0]) then done else done + [rows[0]];
      var more := PrintedWith(rows[1..], ends[1..]) + rest;
      MoreText(Line(rows[0]), ends[0], PrintedWith(rows[1..], ends[1..]), rest);
      ScanRecord(rows[0], ends[0], more, done);
      ScanTable(rows[1..], ends[1..], rest, done');
      assert done' + NonBlank(rows[1..]) == done + NonBlank(rows);
    }
  }

  lemma MoreText(line: string, eol: string, more: string, rest: string)
    ensures line + eol + more + rest == line + (eol + (more + rest))
  {
  }

  lemma ScanNothing(st: Scan)
    ensures Scanned("", st) == st
  {
  }

  /**
   For every table, over every character and with any line end for each record, reading
   what was written returns exactly the rows that have a non-empty cell, and so it does
   when the last record has no line end.
   */
  lemma AnyLineEnds(rows: seq<Row>, ends: seq<Eol>, last: Row)
    requires |ends| == |rows|
    ensures RowsOf(PrintedWith(rows, ends)) == NonBlank(rows)
    ensures RowsOf(PrintedWith(rows, ends) + Line(last)) == NonBlank(rows) + NonBlank([last])
  {
    hide Scanned, Line, PrintedWith, Scan.EndRow, Blank;
    var text, done := PrintedWith(rows, ends), NonBlank(rows);
    assert [] + done == done && text + "" == text && Line(last) + "" == Line(last);
    ScanTable(rows, ends, "", []);
    ScanNothing(START.(rows := done));
    LineEnds([], done);
    ScanTable(rows, ends, Line(last), []);
    ScanLastLine(last, "", done);
    ScanNothing(AtLineEnd(last, done));
    LineEnds(last, done);
    NothingBlank();
    assert [last][1..] == [];
  }

  lemma NothingBlank()
    ensures Blank([])
  {
  }

  function AllCrLf(n: nat): seq<Eol> {
    seq(n, _ => "\r\n")
  }

  lemma {:induction false} PrintedCrLf(rows: seq<Row>)
    ensures Printed(rows) == PrintedWith(rows, AllCrLf(|rows|))
  {
    if rows != [] {
      PrintedCrLf(rows[1..]);
      assert AllCrLf(|rows|)[1..] == AllCrLf(|rows| - 1);
    }
  }

  lemma RoundTrip(rows: seq<Row>)
    ensures RowsOf(Printed(rows)) == NonBlank(rows)
  {
    PrintedCrLf(rows);
    AnyLineEnds(rows, AllCrLf(|rows|), []);
  }

  lemma BlankCells(row: Row)
    ensures !Blank(row) <==> exists k :: 0 <= k < |row| && row[k] != ""
  {
    if exists k :: 0 <= k < |row| && row[k] != "" {
      var k :| 0 <= k < |row| && row[k] != "";
      assert row[k] in row;
    }
  }

  /** The rows kept are those with a cell that is not empty. */
  lemma {:induction false} NonBlankKeeps(rows: seq<Row>, r: Row)
    ensures r in NonBlank(rows) <==> r in rows && exists k :: 0 <= k < |r| && r[k] != ""
  {
    BlankCells(r);
    if rows != [] {
      NonBlankKeeps(rows[1..], r);
      assert rows == [rows[0]] + rows[1..];
    }
  }

  /** Nothing is lost if and only if no row is blank. */
  lemma {:induction false} NonBlankIdentity(rows: seq<Row>)
    ensures |NonBlank(rows)| <= |rows|
    ensures NonBlank(rows) == rows <==> forall r :: r in rows ==> !Blank(r)
  {
    if rows != [] {
      NonBlankIdentity(rows[1..]);
      assert rows == [rows[0]] + rows[1..];
      if !Blank(rows[0]) {
        assert NonBlank(rows)[1..] == NonBlank(rows[1..]);
      }
    }
  }

  lemma RoundTripExact(rows: seq<Row>)
    ensures RowsOf(Printed(rows)) == rows <==> forall r :: r in rows ==> !Blank(r)
  {
    RoundTrip(rows);
    NonBlankIdentity(rows);
  }

  // ---------- carriage returns ----------

  /** The text is cut between a quote that ends `a` and one that starts `b`. */
  predicate BetweenQuotes(a: string, b: string) {
    a != [] && a[|a| - 1] == '"' && b != [] && b[0] == '"'
  }

  lemma {:induction false} ScanAppend(a: string, b: string, st: Scan)
    requires !BetweenQuotes(a, b)
    ensures Scanned(a + b, st) == Scanned(b, Scanned(a, st))
    decreases |a|
  {
    if a == [] {
      assert a + b == b;
    } else {
      assert (a + b)[1..] == a[1..] + b;
      var c := a[0];
      if st.inQuotes {
        if c != '"' {
          ScanAppend(a[1..], b, st.Put(c));
        } else if |a| > 1 && a[1] == '"' {
          assert (a + b)[2..] == a[2..] + b;
          ScanAppend(a[2..], b, st.Put('"'));
        } else {
          ScanAppend(a[1..], b, st.(inQuotes := false));
        }
      } else if c == '"' {
        ScanAppend(a[1..], b, st.(inQuotes := true));
      } else if c == ',' {
        ScanAppend(a[1..], b, st.EndCell());
      } else if c == '\n' {
        ScanAppend(a[1..], b, st.EndRow());
      } else if c == '\r' {
        ScanAppend(a[1..], b, st);
      } else {
        ScanAppend(a[1..], b, st.Put(c));
      }
    }
  }

  /** Two quotes that meet are read as one that belongs to the cell. */
  lemma {:induction false} ScanMeeting(a: string, b: string, st: Scan)
    requires BetweenQuotes(a, b) && !Scanned(a, st).inQuotes
    ensures Scanned(a + b, st) == Scanned(b[1..], Scanned(a, st).Put('"').(inQuotes := true))
    decreases |a|
  {
    assert (a + b)[1..] == a[1..] + b;
    var c := a[0];
    if |a| == 1 {
      assert a[1..] == [] && (a + b)[2..] == b[1..];
    } else if st.inQuotes {
      if c != '"' {
        ScanMeeting(a[1..], b, st.Put(c));
      } else if a[1] == '"' {
        assert (a + b)[2..] == a[2..] + b;
        if |a| > 2 {
          ScanMeeting(a[2..], b, st.Put('"'));
        }
      } else {
        ScanMeeting(a[1..], b, st.(inQuotes := false));
      }
    } else if c == '"' {
      ScanMeeting(a[1..], b, st.(inQuotes := true));
    } else if c == ',' {
      ScanMeeting(a[1..], b, st.EndCell());
    } else if c == '\n' {
      ScanMeeting(a[1..], b, st.EndRow());
    } else if c == '\r' {
      ScanMeeting(a[1..], b, st);
    } else {
      ScanMeeting(a[1..], b, st.Put(c));
    }
  }

  function Chars(row: Row): nat {
    if row == [] then 0 else Chars(row[..|row| - 1]) + |row[|row| - 1]|
  }

  function AllChars(rows: seq<Row>): nat {
    if rows == [] then 0 else AllChars(rows[..|rows| - 1]) + Chars(rows[|rows| - 1])
  }

  /** How many characters the scanner has kept. */
  function Weight(st: Scan): nat {
    AllChars(st.rows) + Chars(st.row) + |st.field|
  }

  lemma {:induction false} BlankWeighsNothing(row: Row)
    requires Blank(row)
    ensures Chars(row) == 0
  {
    if row != [] {
      var front, last := row[..|row| - 1], row[|row| - 1];
      assert row == front + [last];
      assert last in row;
      assert forall cell :: cell in front ==> cell in front + [last];
      BlankWeighsNothing(front);
    }
  }

  lemma EndRowKeepsWeight(st: Scan)
    ensures Weight(st.EndRow()) == Weight(st) == AllChars(st.EndRow().rows)
  {
    var full := st.row + [st.field];
    assert full[..|st.row|] == st.row;
    if Blank(full) {
      BlankWeighsNothing(full);
    } else {
      assert (st.rows + [full])[..|st.rows|] == st.rows;
    }
  }

  lemma EndCellKeepsWeight(st: Scan)
    ensures Weight(st.EndCell()) == Weight(st)
  {
    assert (st.row + [st.field])[..|st.row|] == st.row;
  }

  /** What a text adds to the weight does not depend on what was read before. */
  lemma {:induction false} SameGain(s: string, a: Scan, b: Scan)
    requires a.inQuotes == b.inQuotes
    ensures Weight(Scanned(s, a)) - Weight(a) == Weight(Scanned(s, b)) - Weight(b)
    decreases |s|
  {
    hide Weight;
    if s == [] {
    } else if a.inQuotes {
      if s[0] != '"' {
        PutWeighsOne(a, s[0]);
        PutWeighsOne(b, s[0]);
        SameGain(s[1..], a.Put(s[0]), b.Put(s[0]));
      } else if |s| > 1 && s[1] == '"' {
        PutWeighsOne(a, '"');
        PutWeighsOne(b, '"');
        SameGain(s[2..], a.Put('"'), b.Put('"'));
      } else {
        QuotesWeighNothing(a, false);
        QuotesWeighNothing(b, false);
        SameGain(s[1..], a.(inQuotes := false), b.(inQuotes := false));
      }
    } else if s[0] == '"' {
      QuotesWeighNothing(a, true);
      QuotesWeighNothing(b, true);
      SameGain(s[1..], a.(inQuotes := true), b.(inQuotes := true));
    } else if s[0] == ',' {
      EndCellKeepsWeight(a);
      EndCellKeepsWeight(b);
      SameGain(s[1..], a.EndCell(), b.EndCell());
    } else if s[0] == '\n' {
      EndRowKeepsWeight(a);
      EndRowKeepsWeight(b);
      SameGain(s[1..], a.EndRow(), b.EndRow());
    } else if s[0] == '\r' {
      SameGain(s[1..], a, b);
    } else {
      PutWeighsOne(a, s[0]);
      PutWeighsOne(b, s[0]);
      SameGain(s[1..], a.Put(s[0]), b.Put(s[0]));
    }
  }

  lemma PutWeighsOne(st: Scan, c: char)
    ensures Weight(st.Put(c)) == Weight(st) + 1
  {
  }

  lemma QuotesWeighNothing(st: Scan, inQuotes: bool)
    ensures Weight(st.(inQuotes := inQuotes)) == Weight(st)
  {
  }

  /**
   A carriage return outside quotes never changes the rows, with one exception: between a
   closing and an opening quote it keeps the two from being read as a quote of the cell.
   */
  lemma CarriageReturnExactly(a: string, b: string)
    requires !Scanned(a, START).inQuotes
    ensures RowsOf(a + "\r" + b) == RowsOf(a + b) <==> !BetweenQuotes(a, b)
  {
    var st := Scanned(a, START);
    assert a + "\r" + b == a + ("\r" + b);
    ScanAppend(a, "\r" + b, START);
    assert ("\r" + b)[1..] == b;
    if BetweenQuotes(a, b) {
      ScanMeeting(a, b, START);
      var with, without := st.(inQuotes := true), st.Put('"').(inQuotes := true);
      QuotesWeighNothing(st, true);
      QuotesWeighNothing(st.Put('"'), true);
      PutWeighsOne(st, '"');
      SameGain(b[1..], with, without);
      EndRowKeepsWeight(Scanned(b[1..], with));
      EndRowKeepsWeight(Scanned(b[1..], without));
    } else {
      ScanAppend(a, b, START);
    }
  }

  // ---------- the report file itself ----------

  lemma {:induction false} PrintedSnoc(rows: seq<Row>, row: Row)
    ensures Printed(rows + [row]) == Printed(rows) + Line(row) + "\r\n"
  {
    if rows == [] {
      assert Printed([row]) == Line(row) + "\r\n" + "";
    } else {
      PrintedSnoc(rows[1..], row);
      assert (rows + [row])[1..] == rows[1..] + [row];
    }
  }

  lemma {:induction false} JoinSnoc(parts: seq<string>, part: string, sep: string)
    requires parts != []
    ensures Join(parts + [part], sep) == Join(parts, sep) + sep + part
  {
    if |parts| > 1 {
      JoinSnoc(parts[1..], part, sep);
      assert (parts + [part])[1..] == parts[1..] + [part];
    }
  }

  lemma TableSnoc(users: seq<ReportUser>, u: ReportUser)
    ensures Printed(Table(users + [u])) == Printed(Table(users)) + Line(Cells(u)) + "\r\n"
  {
    hide Cells, Line;
    assert Table(users + [u]) == Table(users) + [Cells(u)];
    PrintedSnoc(Table(users), Cells(u));
  }

  lemma HeaderLine()
    ensures Join(HEADER, ",") + "\r\n" == Printed(Table([]))
  {
    HeaderIsPlain();
    hide Escape, Join;
    assert Table([]) == [HEADER];
    assert Printed([HEADER]) == Line(HEADER) + "\r\n" + "";
  }

  method BuildCsv(users: seq<ReportUser>) returns (csv: string)
    ensures csv == Printed(Table(users))
  {
    hide Cells, Line, Table, Printed, Join;
    var lines := [Join(HEADER, ",")];
    JoinOne(lines[0], "\r\n");
    HeaderLine();
    assert users[..0] == [];
    for k := 0 to |users|
      invariant lines != []
      invariant Join(lines, "\r\n") + "\r\n" == Printed(Table(users[..k]))
    {
      JoinSnoc(lines, Line(Cells(users[k])), "\r\n");
      TableSnoc(users[..k], users[k]);
      assert users[..k + 1] == users[..k] + [users[k]];
      lines := lines + [Line(Cells(users[k]))];
    }
    assert users[..|users|] == users;
    csv := Join(lines, "\r\n") + "\r\n";
  }

  lemma JoinOne(part: string, sep: string)
    ensures Join([part], sep) == part
  {
  }

  lemma EscapePlain(s: string)
    requires forall i :: 0 <= i < |s| ==> !Special(s[i])
    ensures Escape(s) == s
  {
  }

  /** The header is written unescaped, which agrees with escaping it. */
  lemma HeaderIsPlain()
    ensures EscapeAll(HEADER) == HEADER
  {
    EscapePlain("id");
    EscapePlain("email");
    EscapePlain("phone");
    EscapePlain("name");
    EscapePlain("isActive");
    EscapePlain("roles");
    EscapePlain("createdAt");
    EscapePlain("updatedAt");
  }

  /** A user row is never blank, so the report is read back whole, for all users. */
  lemma ReportRoundTrip(users: seq<ReportUser>)
    ensures RowsOf(Printed(Table(users))) == Table(users)
  {
    forall r | r in Table(users)
      ensures !Blank(r)
    {
      RecordNotBlank(users, r);
    }
    hide Table, Cells;
    RoundTripExact(Table(users));
  }

  lemma RecordNotBlank(users: seq<ReportUser>, r: Row)
    requires r in Table(users)
    ensures !Blank(r)
  {
    var cell := if r == HEADER then "id" else r[4];
    assert r == HEADER || exists i :: 0 <= i < |users| && r == Cells(users[i]);
    assert HEADER[0] == "id";
    assert cell in r && |cell| > 0;
  }

  // ---------- columns ----------

  /** The cell of a row under a header name, if there is one. */
  function Under(rows: seq<Row>, k: nat, name: string): Option<string>
    requires 0 < k < |rows|
  {
    Cell(rows[0], rows[k], name)
  }

  function Cell(header: Row, row: Row, name: string): Option<string> {
    if header == [] || row == [] then None
    else if header[0] == name then Some(row[0])
    else Cell(header[1..], row[1..], name)
  }

  lemma {:induction false} CellAt(header: Row, row: Row, j: nat)
    requires j < |header| == |row| && NoDup(header)
    ensures Cell(header, row, header[j]) == Some(row[j])
  {
    if j > 0 {
      assert header[0] != header[j];
      CellAt(header[1..], row[1..], j - 1);
    }
  }

  lemma HeaderNames()
    ensures NoDup(HEADER)
  {
    forall i, j | 0 <= i < j < |HEADER|
      ensures HEADER[i] != HEADER[j]
    {
    }
  }

  lemma RolesSplit(roles: seq<string>)
    requires roles != [] && forall r :: r in roles ==> '|' !in r
    ensures Split(Join(roles, "|"), '|') == roles
  {
    assert "|" == ['|'];
    SplitJoin(roles, '|');
  }

  lemma CellsNamed(u: ReportUser)
    ensures var row := Cells(u);
            && Cell(HEADER, row, "id") == Some(u.id) && Cell(HEADER, row, "email") == Some(u.email)
            && Cell(HEADER, row, "phone") == Some(u.phone) && Cell(HEADER, row, "name") == Some(u.name)
            && Cell(HEADER, row, "isActive") == Some(if u.isActive then "true" else "false")
            && Cell(HEADER, row, "roles") == Some(Join(u.roles, "|"))
            && Cell(HEADER, row, "createdAt") == Some(u.createdAt)
            && Cell(HEADER, row, "updatedAt") == Some(u.updatedAt)
  {
    HeaderNames();
    hide Cell, Join, NoDup;
    var row := Cells(u);
    CellAt(HEADER, row, 0);
    CellAt(HEADER, row, 1);
    CellAt(HEADER, row, 2);
    CellAt(HEADER, row, 3);
    CellAt(HEADER, row, 4);
    CellAt(HEADER, row, 5);
    CellAt(HEADER, row, 6);
    CellAt(HEADER, row, 7);
    assert HEADER[0] == "id" && HEADER[1] == "email" && HEADER[2] == "phone" && HEADER[3] == "name";
    assert HEADER[4] == "isActive" && HEADER[5] == "roles" && HEADER[6] == "createdAt" && HEADER[7] == "updatedAt";
  }

  /** Read back, each user's values stand under the names they belong to. */
  lemma ColumnsReadBack(users: seq<ReportUser>, k: nat)
    requires k < |users|
    ensures var rows, u := RowsOf(Printed(Table(users))), users[k];
            && |rows| == |users| + 1
            && Under(rows, k + 1, "id") == Some(u.id) && Under(rows, k + 1, "email") == Some(u.email)
            && Under(rows, k + 1, "phone") == Some(u.phone) && Under(rows, k + 1, "name") == Some(u.name)
            && Under(rows, k + 1, "isActive") == Some(if u.isActive then "true" else "false")
            && Under(rows, k + 1, "createdAt") == Some(u.createdAt)
            && Under(rows, k + 1, "updatedAt") == Some(u.updatedAt)
            && Under(rows, k + 1, "roles").Some?
            && ((forall r :: r in u.roles ==> '|' !in r) && u.roles != [] ==>
                  Split(Under(rows, k + 1, "roles").value, '|') == u.roles)
  {
    ReportRoundTrip(users);
    CellsNamed(users[k]);
    hide RowsOf, Printed, Cell, Cells, Join;
    assert Table(users)[k + 1] == Cells(users[k]);
    if (forall r :: r in users[k].roles ==> '|' !in r) && users[k].roles != [] {
      RolesSplit(users[k].roles);
    }
  }
}
