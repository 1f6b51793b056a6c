/** The hand-written CSV tokenizer of utils/paser.go.

    The reader walks the input one character at a time keeping five pieces of
    state: the rows found so far, the fields of the current row, the text of
    the current field, whether it is inside quotes and whether the current
    field was quoted. `RunFrom` states that walk as a function of the state and
    the unread input; `Parse` is the loop itself, proved to compute it. */
module Tokenizer {
  import opened Text

  datatype State = State(rows: seq<seq<string>>, row: seq<string>, field: string,
                         inQuotes: bool, wasQuoted: bool)

  const Start := State([], [], "", false, false)

  /** A quoted field keeps its text verbatim; an unquoted one is trimmed. */
  function FieldValue(st: State): string
  {
    if st.wasQuoted then st.field else TrimSpace(st.field)
  }

  /** A row is recorded unless it is a single empty field. */
  predicate KeepRow(row: seq<string>)
  {
    |row| > 0 && !(|row| == 1 && row[0] == "")
  }

  /** An unquoted ',' closes the current field. */
  function EndField(st: State): State
  {
    st.(row := st.row + [FieldValue(st)], field := "", wasQuoted := false)
  }

  /** An unquoted line break closes the field and the row. */
  function EndRow(st: State): State
  {
    var row := st.row + [FieldValue(st)];
    st.(rows := if KeepRow(row) then st.rows + [row] else st.rows,
        row := [], field := "", wasQuoted := false)
  }

  /** The state after reading `rest` from `st`. */
  function RunFrom(st: State, rest: string): State
    decreases |rest|
  {
    if rest == [] then st
    else
      var c := rest[0];
      if c == '"' then
        if st.inQuotes && |rest| > 1 && rest[1] == '"' then
          RunFrom(st.(field := st.field + ['"']), rest[2..])  // an escaped quote
        else
          RunFrom(st.(inQuotes := !st.inQuotes, wasQuoted := st.wasQuoted || !st.inQuotes), rest[1..])
      else if c == ',' && !st.inQuotes then RunFrom(EndField(st), rest[1..])
      else if c == '\n' && !st.inQuotes then RunFrom(EndRow(st), rest[1..])
      else if c == '\r' && !st.inQuotes then
        if |rest| > 1 && rest[1] == '\n' then RunFrom(st, rest[1..])  // "\r\n": the '\n' ends the row
        else RunFrom(EndRow(st), rest[1..])
      else RunFrom(st.(field := st.field + [c]), rest[1..])
  }

  /** End of input: a pending field or row is closed as a line break would. */
  function Finish(st: State): seq<seq<string>>
  {
    if |st.field| > 0 || |st.row| > 0 then
      var row := st.row + [FieldValue(st)];
      if KeepRow(row) then st.rows + [row] else st.rows
    else st.rows
  }

  /** The rows `Parse` returns for `input`. */
  function ParseSpec(input: string): seq<seq<string>>
  {
    if input == "" then [] else Finish(RunFrom(Start, input))
  }

  /** `Parse`: split CSV text into rows of fields. */
  method Parse(input: string) returns (result: seq<seq<string>>)
    ensures result == ParseSpec(input)
    ensures input == "" ==> result == []
  {
    if input == "" {
      return [];
    }
    result := [];
    var currentRow: seq<string> := [];
    var currentField: string := "";
    var inQuotes := false;
    var fieldWasQuoted := false;
    var i := 0;
    while i < |input|
      invariant 0 <= i <= |input|
      invariant RunFrom(State(result, currentRow, currentField, inQuotes, fieldWasQuoted), input[i..])
             == RunFrom(Start, input)
      decreases |input| - i
    {
      ghost var st := State(result, currentRow, currentField, inQuotes, fieldWasQuoted);
      ghost var s := input[i..];
      assert s[0] == input[i] && s[1..] == input[i + 1..];
      var c := input[i];
      if c == '"' {
        if inQuotes && i + 1 < |input| && input[i + 1] == '"' {
          assert s[1] == input[i + 1] && s[2..] == input[i + 2..];
          StepEscapedQuote(st, s);
          currentField := currentField + ['"'];
          i := i + 1;
        } else {
          StepQuote(st, s);
          inQuotes := !inQuotes;
          if inQuotes {
            fieldWasQuoted := true;
          }
        }
      } else if c == ',' {
        if inQuotes {
          StepChar(st, s);
          currentField := currentField + [c];
        } else {
          StepComma(st, s);
          var fieldValue := currentField;
          if !fieldWasQuoted {
            fieldValue := TrimSpace(fieldValue);
          }
          currentRow := currentRow + [fieldValue];
          currentField := "";
          fieldWasQuoted := false;
        }
      } else if c == '\n' {
        if inQuotes {
          StepChar(st, s);
          currentField := currentField + [c];
        } else {
          StepLineEnd(st, s);
          var fieldValue := currentField;
          if !fieldWasQuoted {
            fieldValue := TrimSpace(fieldValue);
          }
          currentRow := currentRow + [fieldValue];
          currentField := "";
          fieldWasQuoted := false;
          if |currentRow| > 0 && !(|currentRow| == 1 && currentRow[0] == "") {
            result := result + [currentRow];
          }
          currentRow := [];
        }
      } else if c == '\r' {
        if !inQuotes && i + 1 < |input| && input[i + 1] == '\n' {
          assert s[1] == input[i + 1];
          StepCrBeforeLf(st, s);
        } else if inQuotes {
          StepChar(st, s);
          currentField := currentField + [c];
        } else {
          StepLineEnd(st, s);
          var fieldValue := currentField;
          if !fieldWasQuoted {
            fieldValue := TrimSpace(fieldValue);
          }
          currentRow := currentRow + [fieldValue];
          currentField := "";
          fieldWasQuoted := false;
          if |currentRow| > 0 && !(|currentRow| == 1 && currentRow[0] == "") {
            result := result + [currentRow];
          }
          currentRow := [];
        }
      } else {
        StepChar(st, s);
        currentField := currentField + [c];
      }
      i := i + 1;
    }
    assert input[i..] == [];
    if |currentField| > 0 || |currentRow| > 0 {
      var fieldValue := currentField;
      if !fieldWasQuoted {
        fieldValue := TrimSpace(fieldValue);
      }
      currentRow := currentRow + [fieldValue];
      if |currentRow| > 0 && !(|currentRow| == 1 && currentRow[0] == "") {
        result := result + [currentRow];
      }
    }
  }

  // ----- single steps of the walk -----
  // Each lemma unfolds one case of the step function, so together they read
  // as the transition table of utils/paser.go; they hold by definition and
  // carry no proof work, which sits in Parse and ParseRenderTable.

  lemma StepEscapedQuote(st: State, s: string)
    requires |s| > 1 && s[0] == '"' && s[1] == '"' && st.inQuotes
    ensures RunFrom(st, s) == RunFrom(st.(field := st.field + ['"']), s[2..])
  {
  }

  lemma StepQuote(st: State, s: string)
    requires s != [] && s[0] == '"' && !(st.inQuotes && |s| > 1 && s[1] == '"')
    ensures RunFrom(st, s) == RunFrom(st.(inQuotes := !st.inQuotes, wasQuoted := st.wasQuoted || !st.inQuotes), s[1..])
  {
  }

  lemma StepComma(st: State, s: string)
    requires s != [] && s[0] == ',' && !st.inQuotes
    ensures RunFrom(st, s) == RunFrom(EndField(st), s[1..])
  {
  }

  lemma StepLineEnd(st: State, s: string)
    requires s != [] && !st.inQuotes
    requires s[0] == '\n' || (s[0] == '\r' && !(|s| > 1 && s[1] == '\n'))
    ensures RunFrom(st, s) == RunFrom(EndRow(st), s[1..])
  {
  }

  lemma StepCrBeforeLf(st: State, s: string)
    requires |s| > 1 && s[0] == '\r' && s[1] == '\n' && !st.inQuotes
    ensures RunFrom(st, s) == RunFrom(st, s[1..])
  {
  }

  lemma StepChar(st: State, s: string)
    requires s != [] && s[0] != '"'
    requires st.inQuotes || s[0] !in {',', '\n', '\r'}
    ensures RunFrom(st, s) == RunFrom(st.(field := st.field + [s[0]]), s[1..])
  {
  }

  // ----- no blank rows -----

  predicate AllKept(rows: seq<seq<string>>)
  {
    forall k :: 0 <= k < |rows| ==> KeepRow(rows[k])
  }

  lemma {:induction false} RunFromKeepsRows(st: State, rest: string)
    requires AllKept(st.rows)
    ensures AllKept(RunFrom(st, rest).rows)
    decreases |rest|
  {
    if rest != [] {
      var c := rest[0];
      if c == '"' {
        if st.inQuotes && |rest| > 1 && rest[1] == '"' {
          RunFromKeepsRows(st.(field := st.field + ['"']), rest[2..]);
        } else {
          RunFromKeepsRows(st.(inQuotes := !st.inQuotes, wasQuoted := st.wasQuoted || !st.inQuotes), rest[1..]);
        }
      } else if c == ',' && !st.inQuotes {
        RunFromKeepsRows(EndField(st), rest[1..]);
      } else if c == '\n' && !st.inQuotes {
        RunFromKeepsRows(EndRow(st), rest[1..]);
      } else if c == '\r' && !st.inQuotes {
        if |rest| > 1 && rest[1] == '\n' {
          RunFromKeepsRows(st, rest[1..]);
        } else {
          RunFromKeepsRows(EndRow(st), rest[1..]);
        }
      } else {
        RunFromKeepsRows(st.(field := st.field + [c]), rest[1..]);
      }
    }
  }

  /** Every parsed row has a field, and none is a lone empty field. */
  lemma ParseHasNoBlankRows(input: string)
    ensures forall k :: 0 <= k < |ParseSpec(input)| ==> KeepRow(ParseSpec(input)[k])
  {
    if input != "" {
      RunFromKeepsRows(Start, input);
    }
  }

  // ----- round trip -----

  /** A cell as a writer would emit it: quoted (any text, quotes doubled) or
      bare (no quote, comma or line break). */
  datatype Cell = Quoted(text: string) | Bare(raw: string)

  predicate CellOk(c: Cell)
  {
    c.Bare? ==> forall k :: 0 <= k < |c.raw| ==> c.raw[k] !in {'"', ',', '\n', '\r'}
  }

  predicate RowOk(cells: seq<Cell>)
  {
    |cells| > 0 && forall k :: 0 <= k < |cells| ==> CellOk(cells[k])
  }

  predicate TableOk(rows: seq<seq<Cell>>)
  {
    forall k :: 0 <= k < |rows| ==> RowOk(rows[k])
  }

  predicate IsBreak(brk: string)
  {
    brk == "\n" || brk == "\r\n" || brk == "\r"
  }

  function Escape(t: string): string
  {
    if t == [] then [] else (if t[0] == '"' then "\"\"" else [t[0]]) + Escape(t[1..])
  }

  function RenderCell(c: Cell): string
  {
    match c
    case Quoted(t) => "\"" + Escape(t) + "\""
    case Bare(r) => r
  }

  /** The field text the reader collects for a cell. */
  function CellText(c: Cell): string
  {
    match c
    case Quoted(t) => t
    case Bare(r) => r
  }

  /** The value the reader returns for a cell. */
  function CellValue(c: Cell): string
  {
    match c
    case Quoted(t) => t
    case Bare(r) => TrimSpace(r)
  }

  function RowValues(cells: seq<Cell>): seq<string>
  {
    seq(|cells|, k requires 0 <= k < |cells| => CellValue(cells[k]))
  }

  function RenderRow(cells: seq<Cell>): string
    requires |cells| > 0
  {
    if |cells| == 1 then RenderCell(cells[0]) else RenderCell(cells[0]) + ("," + RenderRow(cells[1..]))
  }

  function RenderRows(rows: seq<seq<Cell>>, brk: string): string
    requires |rows| > 0 && TableOk(rows)
  {
    if |rows| == 1 then RenderRow(rows[0]) else RenderRow(rows[0]) + (brk + RenderRows(rows[1..], brk))
  }

  /** A whole file: rows joined by one kind of line break, optionally ending with one. */
  function RenderTable(rows: seq<seq<Cell>>, brk: string, trailing: bool): string
    requires TableOk(rows)
  {
    if rows == [] then "" else RenderRows(rows, brk) + (if trailing then brk else "")
  }

  /** The row values the reader keeps, in order. */
  function KeptValues(rows: seq<seq<Cell>>): seq<seq<string>>
  {
    if rows == [] then [] else KeptOne(rows[0]) + KeptValues(rows[1..])
  }

  predicate FieldStart(st: State)
  {
    st.field == "" && !st.inQuotes && !st.wasQuoted
  }

  /** The state once a row's last cell has been read but not yet closed,
      `prefix` being the fields that came before the row's cells. */
  function Pending(rows: seq<seq<string>>, prefix: seq<string>, cells: seq<Cell>): State
    requires |cells| > 0
  {
    State(rows, prefix + RowValues(cells[..|cells| - 1]), CellText(cells[|cells| - 1]), false, cells[|cells| - 1].Quoted?)
  }

  lemma {:induction false} ReadEscaped(t: string, st: State, rest: string)
    requires st.inQuotes && st.wasQuoted
    requires rest == [] || rest[0] != '"'
    ensures RunFrom(st, Escape(t) + "\"" + rest) == RunFrom(st.(field := st.field + t, inQuotes := false), rest)
    decreases |t|
  {
    var s := Escape(t) + "\"" + rest;
    if t == [] {
      assert s == "\"" + rest && s[1..] == rest;
      assert st.field + t == st.field;
    } else {
      var st' := st.(field := st.field + [t[0]]);
      assert s == (if t[0] == '"' then "\"\"" else [t[0]]) + (Escape(t[1..]) + "\"" + rest);
      ReadEscaped(t[1..], st', rest);
      assert st'.field + t[1..] == st.field + t;
      if t[0] == '"' {
        assert s[2..] == Escape(t[1..]) + "\"" + rest;
      } else {
        assert s[1..] == Escape(t[1..]) + "\"" + rest;
      }
    }
  }

  /** An unquoted ordinary character joins the current field. */
  lemma ReadPlain(st: State, c: char, tail: string)
    requires !st.inQuotes && c !in {'"', ',', '\n', '\r'}
    ensures RunFrom(st, [c] + tail) == RunFrom(st.(field := st.field + [c]), tail)
  {
    assert ([c] + tail)[1..] == tail;
  }

  lemma {:induction false} ReadBare(raw: string, st: State, rest: string)
    requires !st.inQuotes && CellOk(Bare(raw))
    ensures RunFrom(st, raw + rest) == RunFrom(st.(field := st.field + raw), rest)
    decreases |raw|
  {
    if raw == [] {
      assert raw + rest == rest && st.field + raw == st.field;
    } else {
      var st' := st.(field := st.field + [raw[0]]);
      assert raw + rest == [raw[0]] + (raw[1..] + rest) by {
        assert raw == [raw[0]] + raw[1..];
        Assoc3([raw[0]], raw[1..], rest);
      }
      assert raw[0] !in {'"', ',', '\n', '\r'};
      ReadPlain(st, raw[0], raw[1..] + rest);
      assert CellOk(Bare(raw[1..]));
      ReadBare(raw[1..], st', rest);
      assert st'.field + raw[1..] == st.field + raw by {
        Assoc3(st.field, [raw[0]], raw[1..]);
        assert [raw[0]] + raw[1..] == raw;
      }
    }
  }

  lemma ReadCell(c: Cell, st: State, rest: string)
    requires FieldStart(st) && CellOk(c)
    requires rest == [] || rest[0] != '"'
    ensures RunFrom(st, RenderCell(c) + rest) == RunFrom(st.(field := CellText(c), wasQuoted := c.Quoted?), rest)
  {
    match c
    case Quoted(t) =>
      var s := RenderCell(c) + rest;
      assert s == "\"" + (Escape(t) + "\"" + rest);
      assert s[1..] == Escape(t) + "\"" + rest;
      ReadEscaped(t, st.(inQuotes := true, wasQuoted := true), rest);
      assert st.field + t == t;
    case Bare(r) =>
      ReadBare(r, st, rest);
      assert st.field + r == r;
  }

  lemma Assoc3(a: string, b: string, c: string)
    ensures (a + b) + c == a + (b + c)
  {
  }

  /** Reading a row's first cell moves its value into the row prefix. */
  lemma PendingShift(rows: seq<seq<string>>, prefix: seq<string>, cells: seq<Cell>)
    requires |cells| > 1
    ensures Pending(rows, prefix + [CellValue(cells[0])], cells[1..]) == Pending(rows, prefix, cells)
  {
    assert cells[1..][..|cells| - 2] == cells[1..|cells| - 1];
    assert [CellValue(cells[0])] + RowValues(cells[1..|cells| - 1]) == RowValues(cells[..|cells| - 1]);
  }

  lemma ReadComma(st: State, tail: string)
    requires !st.inQuotes
    ensures RunFrom(st, [','] + tail) == RunFrom(EndField(st), tail)
  {
    assert ([','] + tail)[1..] == tail;
  }

  lemma {:induction false} ReadRow(cells: seq<Cell>, st: State, rest: string)
    requires FieldStart(st) && RowOk(cells)
    requires rest == [] || rest[0] != '"'
    ensures RunFrom(st, RenderRow(cells) + rest) == RunFrom(Pending(st.rows, st.row, cells), rest)
    decreases |cells|, 1
  {
    if |cells| == 1 {
      ReadCell(cells[0], st, rest);
      assert RowValues(cells[..0]) == [];
      assert st.row + [] == st.row;
    } else {
      ReadCells(cells, st, rest);
    }
  }

  lemma {:induction false} ReadCells(cells: seq<Cell>, st: State, rest: string)
    requires FieldStart(st) && RowOk(cells) && |cells| > 1
    requires rest == [] || rest[0] != '"'
    ensures RunFrom(st, RenderRow(cells) + rest) == RunFrom(Pending(st.rows, st.row, cells), rest)
    decreases |cells|, 0
  {
    var tail := RenderRow(cells[1..]) + rest;
    var after := [','] + tail;
    var st1 := st.(field := CellText(cells[0]), wasQuoted := cells[0].Quoted?);
    var st2 := EndField(st1);
    assert RunFrom(st, RenderRow(cells) + rest) == RunFrom(st1, after) by {
      Assoc3(RenderCell(cells[0]), [','] + RenderRow(cells[1..]), rest);
      Assoc3([','], RenderRow(cells[1..]), rest);
      ReadCell(cells[0], st, after);
    }
    ReadComma(st1, tail);
    assert RowOk(cells[1..]);
    ReadRow(cells[1..], st2, rest);
    PendingShift(st.rows, st.row, cells);
  }

  lemma ReadBreak(brk: string, st: State, rest: string)
    requires IsBreak(brk) && !st.inQuotes
    requires brk == "\r" ==> rest == [] || rest[0] != '\n'
    ensures RunFrom(st, brk + rest) == RunFrom(EndRow(st), rest)
  {
    if brk == "\r\n" {
      ReadCrLf(st, rest);
    } else if brk == "\n" {
      ReadLf(st, rest);
    } else {
      ReadCr(st, rest);
    }
  }

  lemma ReadLf(st: State, rest: string)
    requires !st.inQuotes
    ensures RunFrom(st, "\n" + rest) == RunFrom(EndRow(st), rest)
  {
    assert ("\n" + rest)[1..] == rest;
  }

  lemma ReadCr(st: State, rest: string)
    requires !st.inQuotes
    requires rest == [] || rest[0] != '\n'
    ensures RunFrom(st, "\r" + rest) == RunFrom(EndRow(st), rest)
  {
    assert ("\r" + rest)[1..] == rest;
  }

  lemma ReadCrLf(st: State, rest: string)
    requires !st.inQuotes
    ensures RunFrom(st, "\r\n" + rest) == RunFrom(EndRow(st), rest)
  {
    assert ("\r\n" + rest)[1..] == "\n" + rest;
    ReadLf(st, rest);
  }

  /** Closing a pending row yields all of its cell values. */
  lemma PendingClose(rows: seq<seq<string>>, cells: seq<Cell>)
    requires |cells| > 0
    ensures Pending(rows, [], cells).row + [FieldValue(Pending(rows, [], cells))] == RowValues(cells)
  {
    var n := |cells|;
    assert [] + RowValues(cells[..n - 1]) == RowValues(cells[..n - 1]);
    assert RowValues(cells[..n - 1]) + [CellValue(cells[n - 1])] == RowValues(cells);
  }

  /** A rendered row never starts with a line feed. */
  lemma RowStartsNoLf(cells: seq<Cell>, rest: string)
    requires RowOk(cells)
    requires rest == [] || rest[0] != '\n'
    ensures RenderRow(cells) + rest == [] || (RenderRow(cells) + rest)[0] != '\n'
  {
    var c := cells[0];
    if |RenderCell(c)| > 0 {
      if c.Bare? {
        assert c.raw[0] !in {'"', ',', '\n', '\r'};
      }
    } else if |cells| > 1 {
      assert RenderRow(cells) + rest == RenderCell(c) + ("," + RenderRow(cells[1..])) + rest;
      assert RenderRow(cells)[0] == ',';
    }
  }

  lemma RowsStartNoLf(rows: seq<seq<Cell>>, brk: string, rest: string)
    requires |rows| > 0 && TableOk(rows) && IsBreak(brk) && brk == "\r"
    requires rest == [] || rest[0] != '\n'
    ensures RenderRows(rows, brk) + rest == [] || (RenderRows(rows, brk) + rest)[0] != '\n'
  {
    assert RowOk(rows[0]);
    if |rows| == 1 {
      RowStartsNoLf(rows[0], rest);
    } else {
      var more := brk + RenderRows(rows[1..], brk) + rest;
      Assoc3(RenderRow(rows[0]), brk + RenderRows(rows[1..], brk), rest);
      RowStartsNoLf(rows[0], more);
    }
  }

  function KeptOne(cells: seq<Cell>): seq<seq<string>>
  {
    if KeepRow(RowValues(cells)) then [RowValues(cells)] else []
  }

  lemma {:induction false} KeptSnoc(rows: seq<seq<Cell>>)
    requires |rows| > 0
    ensures KeptValues(rows) == KeptValues(rows[..|rows| - 1]) + KeptOne(rows[|rows| - 1])
    decreases |rows|
  {
    var n := |rows|;
    if n == 1 {
      assert rows[..0] == [] && rows[1..] == [];
    } else {
      KeptSnoc(rows[1..]);
      assert rows[1..][..n - 2] == rows[..n - 1][1..];
      assert rows[1..][n - 2] == rows[n - 1];
      assert rows[..n - 1][0] == rows[0];
      var a, b, c := KeptOne(rows[0]), KeptValues(rows[..n - 1][1..]), KeptOne(rows[n - 1]);
      assert KeptValues(rows) == a + (b + c);
      assert KeptValues(rows[..n - 1]) == a + b;
    }
  }

  predicate RowStart(st: State)
  {
    st.row == [] && FieldStart(st)
  }

  lemma {:induction false} ReadRows(rows: seq<seq<Cell>>, brk: string, st: State, rest: string)
    requires |rows| > 0 && TableOk(rows) && IsBreak(brk) && RowStart(st)
    requires rest == [] || rest == brk
    ensures RunFrom(st, RenderRows(rows, brk) + rest)
         == RunFrom(Pending(st.rows + KeptValues(rows[..|rows| - 1]), [], rows[|rows| - 1]), rest)
    decreases |rows|, 1
  {
    if |rows| == 1 {
      assert RowOk(rows[0]);
      ReadRow(rows[0], st, rest);
      assert KeptValues(rows[..0]) == [];
      assert st.rows + [] == st.rows;
    } else {
      ReadMoreRows(rows, brk, st, rest);
    }
  }

  lemma {:induction false} ReadMoreRows(rows: seq<seq<Cell>>, brk: string, st: State, rest: string)
    requires |rows| > 1 && TableOk(rows) && IsBreak(brk) && RowStart(st)
    requires rest == [] || rest == brk
    ensures RunFrom(st, RenderRows(rows, brk) + rest)
         == RunFrom(Pending(st.rows + KeptValues(rows[..|rows| - 1]), [], rows[|rows| - 1]), rest)
    decreases |rows|, 0
  {
    var n := |rows|;
    var tail := RenderRows(rows[1..], brk) + rest;
    var st1 := State(st.rows + KeptOne(rows[0]), [], "", false, false);
    assert RunFrom(st, RenderRows(rows, brk) + rest) == RunFrom(st, RenderRow(rows[0]) + (brk + tail)) by {
      RowsSplit(rows, brk, rest);
    }
    assert RunFrom(st, RenderRow(rows[0]) + (brk + tail)) == RunFrom(st1, tail) by {
      assert RowOk(rows[0]);
      if brk == "\r" {
        RowsStartNoLf(rows[1..], brk, rest);
      }
      RowThenBreak(rows[0], brk, st, tail);
      CloseRowState(st.rows, rows[0]);
    }
    var acc1 := st1.rows + KeptValues(rows[1..][..n - 2]);
    assert RunFrom(st1, tail) == RunFrom(Pending(acc1, [], rows[1..][n - 2]), rest) by {
      ReadRows(rows[1..], brk, st1, rest);
    }
    assert Pending(acc1, [], rows[1..][n - 2]) == Pending(st.rows + KeptValues(rows[..n - 1]), [], rows[n - 1]) by {
      KeptShift(rows, st.rows);
    }
  }

  lemma KeptShift(rows: seq<seq<Cell>>, acc: seq<seq<string>>)
    requires |rows| > 1
    ensures (acc + KeptOne(rows[0])) + KeptValues(rows[1..][..|rows| - 2]) == acc + KeptValues(rows[..|rows| - 1])
    ensures rows[1..][|rows| - 2] == rows[|rows| - 1]
  {
    var n := |rows|;
    assert rows[..n - 1][1..] == rows[1..][..n - 2];
    assert rows[..n - 1][0] == rows[0];
  }

  lemma RowsSplit(rows: seq<seq<Cell>>, brk: string, rest: string)
    requires |rows| > 1 && TableOk(rows)
    ensures RenderRows(rows, brk) + rest == RenderRow(rows[0]) + (brk + (RenderRows(rows[1..], brk) + rest))
  {
    Assoc3(RenderRow(rows[0]), brk + RenderRows(rows[1..], brk), rest);
    Assoc3(brk, RenderRows(rows[1..], brk), rest);
  }

  lemma CloseRowState(rows: seq<seq<string>>, cells: seq<Cell>)
    requires |cells| > 0
    ensures EndRow(Pending(rows, [], cells)) == State(rows + KeptOne(cells), [], "", false, false)
  {
    PendingClose(rows, cells);
  }

  /** A row followed by a line break: the row is closed and recorded if kept. */
  lemma RowThenBreak(cells: seq<Cell>, brk: string, st: State, tail: string)
    requires RowOk(cells) && IsBreak(brk) && RowStart(st)
    requires brk == "\r" ==> tail == [] || tail[0] != '\n'
    ensures RunFrom(st, RenderRow(cells) + (brk + tail))
         == RunFrom(EndRow(Pending(st.rows, [], cells)), tail)
  {
    var p0 := Pending(st.rows, [], cells);
    ReadRow(cells, st, brk + tail);
    ReadBreak(brk, p0, tail);
  }

  /** Reading a rendered table gives back every row's cell values, except
      rows that are a single empty field. */
  lemma ParseRenderTable(rows: seq<seq<Cell>>, brk: string, trailing: bool)
    requires TableOk(rows) && IsBreak(brk)
    ensures ParseSpec(RenderTable(rows, brk, trailing)) == KeptValues(rows)
  {
    if rows != [] {
      var n := |rows|;
      var rest := if trailing then brk else [];
      var s := RenderRows(rows, brk) + rest;
      var acc := KeptValues(rows[..n - 1]);
      var p := Pending(acc, [], rows[n - 1]);
      ReadRows(rows, brk, Start, rest);
      assert [] + acc == acc;
      KeptSnoc(rows);
      PendingClose(acc, rows[n - 1]);
      assert ParseSpec(s) == Finish(RunFrom(Start, s));
      if trailing {
        ReadBreak(brk, p, []);
        assert brk + [] == brk;
      } else {
        assert s == RenderRows(rows, brk);
        if !(|p.field| > 0 || |p.row| > 0) {
          assert RowValues(rows[n - 1]) == [FieldValue(p)];
        }
      }
    }
  }
}
