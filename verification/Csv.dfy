/** The CSV writer of the activity exports, and a reader for the grammar of RFC 4180, section 2. */
module Csv {
  import opened Prelude
  import opened JsText

  // ---------------------------------------------------------------- the writer

  /** replace(/\r?\n/g, " "). */
  function Normalized(v: Text): (r: Text)
    ensures LF !in r && |r| <= |v|
  {
    if v == [] then []
    else if v[0] == CR && |v| > 1 && v[1] == LF then [SPACE] + Normalized(v[2..])
    else if v[0] == LF then [SPACE] + Normalized(v[1..])
    else [v[0]] + Normalized(v[1..])
  }

  predicate StartsFormula(v: Text) { v != [] && v[0] in [EQUALS, PLUS, MINUS, AT] }

  function Guarded(v: Text): Text { if StartsFormula(v) then [APOSTROPHE] + v else v }

  /** replace(/"/g, '""'). */
  function Doubled(v: Text): Text {
    if v == [] then [] else (if v[0] == QUOTE then [QUOTE, QUOTE] else [v[0]]) + Doubled(v[1..])
  }

  /** What a reader of the file should see of a value. */
  function Cell(value: Option<Text>): Text { Guarded(Normalized(if value.Some? then value.value else [])) }

  /** csvCell. */
  function Quoted(value: Option<Text>): Text { [QUOTE] + Doubled(Cell(value)) + [QUOTE] }

  /** The fields of a row, joined with commas. */
  function Line(row: seq<Option<Text>>): Text
    requires row != []
  {
    if |row| == 1 then Quoted(row[0]) else Quoted(row[0]) + [COMMA] + Line(row[1..])
  }

  /** There is a header, and no row is without fields: the selected columns are never none. */
  predicate Filled(rows: seq<seq<Option<Text>>>) { rows != [] && forall i | 0 <= i < |rows| :: rows[i] != [] }

  /** The rows, the header first, joined with CR LF. */
  function File(rows: seq<seq<Option<Text>>>): Text
    requires Filled(rows)
  {
    if |rows| == 1 then Line(rows[0]) else Line(rows[0]) + [CR, LF] + File(rows[1..])
  }

  // ---------------------------------------------------------------- the reader

  datatype Read<T> = Read(value: T, rest: Text) | Malformed

  /** The rest of a quoted field: two quotes stand for one, a single quote ends it. */
  function ReadQuoted(s: Text): (r: Read<Text>)
    ensures r.Read? ==> |r.rest| < |s|
  {
    if s == [] then Malformed
    else if s[0] == QUOTE && |s| > 1 && s[1] == QUOTE then
      var r := ReadQuoted(s[2..]);
      if r.Read? then r.(value := [QUOTE] + r.value) else Malformed
    else if s[0] == QUOTE then Read([], s[1..])
    else
      var r := ReadQuoted(s[1..]);
      if r.Read? then r.(value := [s[0]] + r.value) else Malformed
  }

  /** A field without quotes: anything up to a comma or a line end. */
  function ReadPlain(s: Text): (r: Read<Text>)
    ensures r.Read? ==> |r.rest| <= |s|
  {
    if s == [] || s[0] in [COMMA, CR, LF] then Read([], s)
    else if s[0] == QUOTE then Malformed
    else
      var r := ReadPlain(s[1..]);
      if r.Read? then r.(value := [s[0]] + r.value) else Malformed
  }

  function ReadField(s: Text): (r: Read<Text>)
    ensures r.Read? ==> |r.rest| <= |s|
  {
    if s != [] && s[0] == QUOTE then ReadQuoted(s[1..]) else ReadPlain(s)
  }

  function ReadRecord(s: Text): (r: Read<seq<Text>>)
    ensures r.Read? ==> |r.rest| <= |s|
    decreases |s|
  {
    var first := ReadField(s);
    if first.Malformed? then Malformed
    else if first.rest != [] && first.rest[0] == COMMA then
      var others := ReadRecord(first.rest[1..]);
      if others.Read? then others.(value := [first.value] + others.value) else Malformed
    else Read([first.value], first.rest)
  }

  /** Records separated by CR LF, the last one with or without it. */
  function ReadFile(s: Text): Option<seq<seq<Text>>>
    decreases |s|
  {
    var first := ReadRecord(s);
    if first.Malformed? then None
    else if first.rest == [] || first.rest == [CR, LF] then Some([first.value])
    else if |first.rest| > 2 && first.rest[..2] == [CR, LF] then
      var others := ReadFile(first.rest[2..]);
      if others.Some? then Some([first.value] + others.value) else None
    else None
  }

  // ---------------------------------------------------------------- round trip

  lemma {:induction false} QuotedIsRead(v: Text, rest: Text)
    requires rest == [] || rest[0] != QUOTE
    ensures ReadQuoted(Doubled(v) + [QUOTE] + rest) == Read(v, rest)
  {
    if v == [] {
      assert Doubled(v) + [QUOTE] + rest == [QUOTE] + rest;
    } else {
      QuotedIsRead(v[1..], rest);
      var tail := Doubled(v[1..]) + [QUOTE] + rest;
      assert v == [v[0]] + v[1..];
      if v[0] == QUOTE {
        assert Doubled(v) + [QUOTE] + rest == [QUOTE, QUOTE] + tail;
        assert ([QUOTE, QUOTE] + tail)[2..] == tail;
      } else {
        assert Doubled(v) + [QUOTE] + rest == [v[0]] + tail;
        assert ([v[0]] + tail)[1..] == tail;
      }
    }
  }

  /** A cell reads back as itself wherever it stands. */
  lemma CellIsRead(value: Option<Text>, rest: Text)
    requires rest == [] || rest[0] != QUOTE
    ensures ReadField(Quoted(value) + rest) == Read(Cell(value), rest)
  {
    hide Cell, Doubled, ReadQuoted;
    QuotedIsRead(Cell(value), rest);
    assert (Quoted(value) + rest)[1..] == Doubled(Cell(value)) + [QUOTE] + rest;
  }

  function Cells(row: seq<Option<Text>>): (r: seq<Text>)
    ensures |r| == |row| && forall j | 0 <= j < |row| :: r[j] == Cell(row[j])
  {
    if row == [] then [] else [Cell(row[0])] + Cells(row[1..])
  }

  lemma {:induction false} LineIsRead(row: seq<Option<Text>>, rest: Text)
    requires row != [] && (rest == [] || rest[0] == CR)
    ensures ReadRecord(Line(row) + rest) == Read(Cells(row), rest)
  {
    if |row| == 1 {
      CellIsRead(row[0], rest);
      assert Cells(row) == [Cell(row[0])];
    } else {
      var after := [COMMA] + (Line(row[1..]) + rest);
      assert Line(row) + rest == Quoted(row[0]) + after;
      CellIsRead(row[0], after);
      LineIsRead(row[1..], rest);
      assert after[1..] == Line(row[1..]) + rest;
    }
  }

  function Table(rows: seq<seq<Option<Text>>>): (r: seq<seq<Text>>)
    ensures |r| == |rows| && forall i | 0 <= i < |rows| :: r[i] == Cells(rows[i])
  {
    if rows == [] then [] else [Cells(rows[0])] + Table(rows[1..])
  }

  /** The exported file reads back as exactly its cells: as many records, as many fields, the same contents. */
  lemma {:induction false} FileIsRead(rows: seq<seq<Option<Text>>>)
    requires Filled(rows)
    ensures ReadFile(File(rows)) == Some(Table(rows))
  {
    if |rows| == 1 {
      LineIsRead(rows[0], []);
      assert Line(rows[0]) + [] == Line(rows[0]);
      assert Table(rows) == [Cells(rows[0])];
    } else {
      var rest := [CR, LF] + File(rows[1..]);
      assert File(rows) == Line(rows[0]) + rest;
      LineIsRead(rows[0], rest);
      FileIsRead(rows[1..]);
      assert rest[2..] == File(rows[1..]) && rest[..2] == [CR, LF];
      FileNotEmpty(rows[1..]);
    }
  }

  lemma {:induction false} FileNotEmpty(rows: seq<seq<Option<Text>>>)
    requires Filled(rows)
    ensures File(rows) != []
  {
    assert |Quoted(rows[0][0])| >= 2;
    assert |Line(rows[0])| >= 2;
  }

  // ---------------------------------------------------------------- what a reader sees

  /** No field that a reader gets back can be taken for a formula, and none holds a line feed. */
  lemma NoFieldIsFormula(rows: seq<seq<Option<Text>>>, i: nat, j: nat)
    requires Filled(rows) && i < |rows| && j < |rows[i]|
    ensures var read := ReadFile(File(rows));
            && read.Some? && i < |read.value| && j < |read.value[i]|
            && (read.value[i][j] != [] ==> read.value[i][j][0] !in {43, 45, 61, 64})   // + - = @
            && LF !in read.value[i][j]
  {
    FileIsRead(rows);
  }

  lemma {:induction false} NormalizedSame(v: Text)
    ensures Normalized(v) == v <==> LF !in v
  {
    if v != [] {
      NormalizedSame(v[1..]);
      assert v == [v[0]] + v[1..];
      assert v[0] == CR && |v| > 1 && v[1] == LF ==> |Normalized(v)| < |v|;
    }
  }

  /** A value comes back unchanged exactly when it has no line feed and does not start like a formula. */
  lemma LosslessExactly(v: Text)
    ensures Cell(Some(v)) == v <==> LF !in v && !StartsFormula(v)
  {
    NormalizedSame(v);
    assert StartsFormula(v) && LF !in v ==> |Cell(Some(v))| == |v| + 1;
  }

  function FirstEnd(v: Text): nat
    requires v != []
  {
    if v[0] == CR && |v| > 1 && v[1] == LF then 2 else 1
  }

  lemma NormalizedNothing()
    ensures Normalized([]) == []
  {
  }

  lemma {:induction false} NormalizedStep(v: Text)
    requires v != []
    ensures FirstEnd(v) <= |v|
    ensures Normalized(v) == [if FirstEnd(v) == 2 || v[0] == LF then SPACE else v[0]] + Normalized(v[FirstEnd(v)..])
  {
  }

  lemma {:induction false} CrLfBecomesSpace(a: Text, b: Text)
    ensures Normalized(a + [CR, LF] + b) == Normalized(a) + [SPACE] + Normalized(b)
  {
    hide Normalized;
    var all := a + [CR, LF] + b;
    NormalizedStep(all);
    if a == [] {
      assert all[FirstEnd(all)..] == b;
      NormalizedNothing();
    } else {
      var n := FirstEnd(a);
      NormalizedStep(a);
      CrLfBecomesSpace(a[n..], b);
      assert all[n..] == a[n..] + [CR, LF] + b && all[0] == a[0];
    }
  }

  /** Every line end of a value, CR LF or LF alone, becomes one space. */
  lemma {:induction false} LineEndsBecomeSpaces(a: Text, b: Text)
    ensures Normalized(a + [CR, LF] + b) == Normalized(a) + [SPACE] + Normalized(b)
    ensures (a == [] || a[|a| - 1] != CR) ==> Normalized(a + [LF] + b) == Normalized(a) + [SPACE] + Normalized(b)
  {
    CrLfBecomesSpace(a, b);
    if a == [] || a[|a| - 1] != CR {
      LfBecomesSpace(a, b);
    }
  }

  lemma {:induction false} LfBecomesSpace(a: Text, b: Text)
    requires a == [] || a[|a| - 1] != CR
    ensures Normalized(a + [LF] + b) == Normalized(a) + [SPACE] + Normalized(b)
  {
    hide Normalized;
    var all := a + [LF] + b;
    NormalizedStep(all);
    if a == [] {
      assert all[FirstEnd(all)..] == b;
      NormalizedNothing();
    } else {
      var n := FirstEnd(a);
      NormalizedStep(a);
      LfBecomesSpace(a[n..], b);
      assert all[n..] == a[n..] + [LF] + b && all[0] == a[0];
    }
  }

  // ---------------------------------------------------------------- what a guarded cell still says

  /** A reader who knows the guard takes it off. */
  function Unguarded(cell: Text): Text {
    if |cell| > 1 && cell[0] == APOSTROPHE && StartsFormula(cell[1..]) then cell[1..] else cell
  }

  /** The cell is the normalised value, behind an apostrophe exactly if it would start like a formula. */
  lemma CellKeepsValue(v: Text)
    ensures var n, cell := Normalized(v), Cell(Some(v));
            && (cell == n || cell == [APOSTROPHE] + n) && (cell == n <==> !StartsFormula(n))
            && Cell(None) == []
  {
    NormalizedNothing();
  }

  /** So taking the guard off gives the normalised value back, exactly unless the value itself looks guarded. */
  lemma UnguardedIsValue(v: Text)
    ensures Unguarded(Cell(Some(v))) == Normalized(v) <==>
            !(|Normalized(v)| > 1 && Normalized(v)[0] == APOSTROPHE && StartsFormula(Normalized(v)[1..]))
  {
    var n := Normalized(v);
    if StartsFormula(n) {
      assert ([APOSTROPHE] + n)[1..] == n;
    }
  }
}
