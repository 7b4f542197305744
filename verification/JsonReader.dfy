/**
 A reader for the grammar of RFC 8259 without insignificant white space, on numbers that are integers, and the proof
 that it undoes the printers.
 */
module JsonReader {
  import opened Prelude
  import opened JsText
  import opened JsonTree
  import opened JsonPrinter
  import opened JsonMeaning

  const SLASH: Unit := 47

  datatype Read<T> = Read(value: T, rest: Text) | Malformed

  // ---------------------------------------------------------------- strings: section 7

  /** The value of a hexadecimal digit in either case, or -1. */
  function HexValue(u: Unit): (n: int)
    ensures -1 <= n < 16
  {
    if ZERO <= u <= NINE then u - ZERO
    else if 97 <= u <= 102 then u - 87
    else if 65 <= u <= 70 then u - 55
    else -1
  }

  /** What an escape stands for, and how long it is. */
  function ReadEscape(s: Text): (r: Read<Unit>)
    requires s != [] && s[0] == BACKSLASH
    ensures r.Read? ==> |r.rest| < |s|
  {
    if |s| < 2 then Malformed
    else if s[1] == QUOTE || s[1] == BACKSLASH || s[1] == SLASH then Read(s[1], s[2..])
    else if s[1] == LOWER_B then Read(8, s[2..])
    else if s[1] == LOWER_T then Read(9, s[2..])
    else if s[1] == LOWER_N then Read(LF, s[2..])
    else if s[1] == LOWER_F then Read(12, s[2..])
    else if s[1] == LOWER_R then Read(CR, s[2..])
    else if s[1] == LOWER_U && |s| >= 6 then
      var a, b, c, d := HexValue(s[2]), HexValue(s[3]), HexValue(s[4]), HexValue(s[5]);
      if a < 0 || b < 0 || c < 0 || d < 0 then Malformed else Read(((a * 16 + b) * 16 + c) * 16 + d, s[6..])
    else Malformed
  }

  function Prepend<T>(x: T, r: Read<seq<T>>): Read<seq<T>> {
    if r.Read? then r.(value := [x] + r.value) else Malformed
  }

  /** The rest of a string, up to its closing quote. */
  function ReadChars(s: Text): (r: Read<Text>)
    ensures r.Read? ==> |r.rest| < |s|
    decreases |s|
  {
    if s == [] then Malformed
    else if s[0] == QUOTE then Read([], s[1..])
    else if s[0] == BACKSLASH then
      var u := ReadEscape(s);
      if u.Malformed? then Malformed else Prepend(u.value, ReadChars(u.rest))
    else if s[0] < SPACE then Malformed
    else Prepend(s[0], ReadChars(s[1..]))
  }

  // ---------------------------------------------------------------- numbers: section 6

  predicate IsDigit(u: Unit) { ZERO <= u <= NINE }

  /** How many digits the text starts with. */
  function DigitCount(s: Text): (n: nat)
    ensures n <= |s|
  {
    if s == [] || !IsDigit(s[0]) then 0 else 1 + DigitCount(s[1..])
  }

  function ValueOf(digits: Text): nat
    requires forall i | 0 <= i < |digits| :: IsDigit(digits[i])
  {
    if digits == [] then 0
    else
      var last := digits[|digits| - 1];
      assert IsDigit(last);
      ValueOf(digits[..|digits| - 1]) * 10 + (last - ZERO)
  }

  lemma {:induction false} DigitCountIsDigits(s: Text)
    ensures forall i | 0 <= i < DigitCount(s) :: IsDigit(s[i])
  {
    if s != [] && IsDigit(s[0]) {
      DigitCountIsDigits(s[1..]);
      forall i | 0 <= i < DigitCount(s) ensures IsDigit(s[i]) {
        assert i > 0 ==> s[i] == s[1..][i - 1];
      }
    }
  }

  predicate Safe(n: int) { -0x20_0000_0000_0000 <= n <= 0x20_0000_0000_0000 }

  /** An optional minus and digits without a leading zero. */
  function ReadNumber(s: Text): (r: Read<Json>)
    ensures r.Read? ==> |r.rest| < |s|
  {
    var minus := s != [] && s[0] == MINUS;
    var body := if minus then s[1..] else s;
    var n := DigitCount(body);
    DigitCountIsDigits(body);
    if n == 0 || (n > 1 && body[0] == ZERO) then Malformed
    else
      var magnitude: int := ValueOf(body[..n]);
      var value: int := if minus then -magnitude else magnitude;
      if Safe(value) then Read(Num(value), body[n..]) else Malformed
  }

  // ---------------------------------------------------------------- values: sections 3, 4 and 5

  function Literal(s: Text, word: Text, v: Json): (r: Read<Json>)
    requires word != []
    ensures r.Read? ==> |r.rest| < |s|
  {
    if word <= s then Read(v, s[|word|..]) else Malformed
  }

  function ReadValue(s: Text): (r: Read<Json>)
    ensures r.Read? ==> |r.rest| < |s|
    decreases |s|, 0
  {
    if s == [] then Malformed
    else if s[0] == QUOTE then
      var t := ReadChars(s[1..]);
      if t.Read? then Read(Str(t.value), t.rest) else Malformed
    else if s[0] == LEFT_BRACKET then
      if |s| > 1 && s[1] == RIGHT_BRACKET then Read(Arr([]), s[2..])
      else
        var items := ReadItems(s[1..]);
        if items.Read? then Read(Arr(items.value), items.rest) else Malformed
    else if s[0] == LEFT_BRACE then
      if |s| > 1 && s[1] == RIGHT_BRACE then Read(Obj([]), s[2..])
      else
        var members := ReadMembers(s[1..]);
        if members.Read? then Read(Obj(members.value), members.rest) else Malformed
    else if s[0] == NULL_TEXT[0] then Literal(s, NULL_TEXT, Null)
    else if s[0] == TRUE_TEXT[0] then Literal(s, TRUE_TEXT, Bool(true))
    else if s[0] == FALSE_TEXT[0] then Literal(s, FALSE_TEXT, Bool(false))
    else ReadNumber(s)
  }

  /** One or more values separated by commas, and the closing bracket. */
  function ReadItems(s: Text): (r: Read<seq<Json>>)
    ensures r.Read? ==> |r.rest| < |s|
    decreases |s|, 1
  {
    var first := ReadValue(s);
    if first.Malformed? || first.rest == [] then Malformed
    else if first.rest[0] == RIGHT_BRACKET then Read([first.value], first.rest[1..])
    else if first.rest[0] == COMMA then
      Prepend(first.value, ReadItems(first.rest[1..]))
    else Malformed
  }

  /** One or more members separated by commas, and the closing brace. */
  function ReadMembers(s: Text): (r: Read<seq<Member<Json>>>)
    ensures r.Read? ==> |r.rest| < |s|
    decreases |s|, 1
  {
    if s == [] || s[0] != QUOTE then Malformed
    else
      var key := ReadChars(s[1..]);
      if key.Malformed? || key.rest == [] || key.rest[0] != COLON then Malformed
      else
        var value := ReadValue(key.rest[1..]);
        if value.Malformed? || value.rest == [] then Malformed
        else
          var first := Member(key.value, value.value);
          if value.rest[0] == RIGHT_BRACE then Read([first], value.rest[1..])
          else if value.rest[0] == COMMA then
            Prepend(first, ReadMembers(value.rest[1..]))
          else Malformed
  }

  /** A whole text. */
  function Parse(s: Text): Option<Json> {
    var r := ReadValue(s);
    if r.Read? && r.rest == [] then Some(r.value) else None
  }

  // ---------------------------------------------------------------- strings read back

  lemma HexDigitReads(n: nat)
    requires n < 16
    ensures HexValue(HexDigit(n)) == n
  {
  }

  /** A unit is made up of its four hexadecimal digits. */
  lemma FourDigits(u: Unit)
    ensures u == ((u / 4096 * 16 + u / 256 % 16) * 16 + u / 16 % 16) * 16 + u % 16
  {
  }

  lemma HexReads(u: Unit, rest: Text)
    ensures ReadEscape(UnicodeEscape(u) + rest) == Read(u, rest)
  {
    hide HexValue, HexDigit;
    var a, b, c, d := u / 4096, u / 256 % 16, u / 16 % 16, u % 16;
    var s := UnicodeEscape(u) + rest;
    assert s == [BACKSLASH, LOWER_U, HexDigit(a), HexDigit(b), HexDigit(c), HexDigit(d)] + rest;
    assert s[6..] == rest;
    HexDigitReads(a);
    HexDigitReads(b);
    HexDigitReads(c);
    HexDigitReads(d);
    FourDigits(u);
  }

  lemma EscapeReads(u: Unit, rest: Text)
    requires |Escape(u)| > 1
    ensures Escape(u)[0] == BACKSLASH && ReadEscape(Escape(u) + rest) == Read(u, rest)
  {
    if Escape(u) == UnicodeEscape(u) {
      HexReads(u, rest);
    } else {
      assert (Escape(u) + rest)[2..] == rest;
    }
  }

  /** One unit of the text, however it is written. */
  lemma UnitReads(u: Unit, tail: Text)
    ensures ReadChars(Escape(u) + tail) == Prepend(u, ReadChars(tail))
  {
    if |Escape(u)| > 1 {
      EscapeReads(u, tail);
    } else {
      assert (Escape(u) + tail)[1..] == tail;
    }
  }

  lemma PlainUnitReads(u: Unit, tail: Text)
    requires u >= SPACE && u != QUOTE && u != BACKSLASH
    ensures ReadChars([u] + tail) == Prepend(u, ReadChars(tail))
  {
    assert ([u] + tail)[1..] == tail;
  }

  lemma {:induction false} CharsReadBack(t: Text, rest: Text)
    ensures ReadChars(Escaped(t) + ([QUOTE] + rest)) == Read(t, rest)
  {
    hide ReadChars, Escape;
    var end := [QUOTE] + rest;
    if t == [] {
      assert Escaped(t) + end == end;
      EndReads(rest);
    } else if PairFirst(t) {
      CharsReadBack(t[2..], rest);
      var tail := Escaped(t[2..]) + end;
      PlainUnitReads(t[1], tail);
      PlainUnitReads(t[0], [t[1]] + tail);
      assert Escaped(t) + end == [t[0]] + ([t[1]] + tail);
      assert t == [t[0]] + ([t[1]] + t[2..]);
    } else {
      CharsReadBack(t[1..], rest);
      var tail := Escaped(t[1..]) + end;
      UnitReads(t[0], tail);
      assert Escaped(t) + end == Escape(t[0]) + tail;
      assert t == [t[0]] + t[1..];
    }
  }

  predicate NoCapitals(e: Text) { forall k | 0 <= k < |e| :: !(65 <= e[k] <= 70) }

  /**
   A code unit is written as itself exactly where section 7 allows that and it is not half of a surrogate pair; otherwise
   by the shortest escape that stands for it, with digits in lower case, and that is the only one.
   */
  lemma EscapeIsShortest(u: Unit, e: Text)
    ensures Escape(u) == [u] <==> SPACE <= u && u != QUOTE && u != BACKSLASH && !High(u) && !Low(u)
    ensures Escape(u) != [u] && e != [] && e[0] == BACKSLASH && ReadEscape(e) == Read(u, []) ==>
              |Escape(u)| <= |e| && (|e| == |Escape(u)| && NoCapitals(e) ==> e == Escape(u))
  {
    if Escape(u) != [u] && e != [] && e[0] == BACKSLASH && ReadEscape(e) == Read(u, []) {
      if |e| == 2 {
        assert e == [e[0], e[1]];
      } else {
        LongEscapeIs(u, e);
      }
    }
  }

  lemma HexDigitIs(x: Unit)
    requires HexValue(x) >= 0 && !(65 <= x <= 70)
    ensures HexDigit(HexValue(x)) == x
  {
  }

  lemma DigitsOf(a: nat, b: nat, c: nat, d: nat)
    requires a < 16 && b < 16 && c < 16 && d < 16
    ensures var u := ((a * 16 + b) * 16 + c) * 16 + d; u / 4096 == a && u / 256 % 16 == b && u / 16 % 16 == c && u % 16 == d
  {
  }

  lemma LongEscapeIs(u: Unit, e: Text)
    requires |e| > 2 && e[0] == BACKSLASH && ReadEscape(e) == Read(u, [])
    ensures |e| == 6 && (NoCapitals(e) ==> e == UnicodeEscape(u))
  {
    var a, b, c, d := HexValue(e[2]), HexValue(e[3]), HexValue(e[4]), HexValue(e[5]);
    assert |e| == 6 && u == ((a * 16 + b) * 16 + c) * 16 + d;
    hide HexValue, HexDigit;
    if NoCapitals(e) {
      DigitsOf(a, b, c, d);
      HexDigitIs(e[2]);
      HexDigitIs(e[3]);
      HexDigitIs(e[4]);
      HexDigitIs(e[5]);
      assert e == [e[0], e[1], e[2], e[3], e[4], e[5]];
    }
  }

  lemma EndReads(rest: Text)
    ensures ReadChars([QUOTE] + rest) == Read([], rest)
  {
    assert ([QUOTE] + rest)[1..] == rest;
  }

  lemma QuotedReadsBack(t: Text, rest: Text)
    ensures QuotedText(t) != [] && (QuotedText(t) + rest)[0] == QUOTE && ReadChars((QuotedText(t) + rest)[1..]) == Read(t, rest)
  {
    CharsReadBack(t, rest);
    assert (QuotedText(t) + rest)[1..] == Escaped(t) + ([QUOTE] + rest);
  }

  // ---------------------------------------------------------------- numbers read back

  lemma {:induction false} DigitsAreDigits(n: nat)
    ensures forall i | 0 <= i < |Digits(n)| :: IsDigit(Digits(n)[i])
    ensures Digits(n)[0] == ZERO ==> n == 0 && |Digits(n)| == 1
    ensures ValueOf(Digits(n)) == n
  {
    if n >= 10 {
      DigitsAreDigits(n / 10);
      assert Digits(n)[..|Digits(n)| - 1] == Digits(n / 10);
    } else {
      assert Digits(n)[..0] == [];
    }
  }

  lemma {:induction false} CountDigits(d: Text, rest: Text)
    requires (forall i | 0 <= i < |d| :: IsDigit(d[i])) && (rest == [] || !IsDigit(rest[0]))
    ensures DigitCount(d + rest) == |d|
  {
    if d == [] {
      assert d + rest == rest;
    } else {
      assert (d + rest)[1..] == d[1..] + rest && (d + rest)[0] == d[0];
      CountDigits(d[1..], rest);
    }
  }

  lemma ReadMagnitude(d: Text, rest: Text)
    requires d != [] && (forall i | 0 <= i < |d| :: IsDigit(d[i])) && (rest == [] || !IsDigit(rest[0]))
    requires d[0] == ZERO ==> |d| == 1
    ensures DigitCount(d + rest) == |d| && (d + rest)[..|d|] == d && (d + rest)[|d|..] == rest
    ensures !(|d| > 1 && (d + rest)[0] == ZERO) && (d + rest)[0] != MINUS
  {
    CountDigits(d, rest);
  }

  lemma NumberReadsBack(n: SafeInt, rest: Text)
    requires rest == [] || !IsDigit(rest[0])
    ensures ReadNumber(Decimal(n) + rest) == Read(Num(n), rest)
  {
    hide Digits, DigitCount, ValueOf;
    var magnitude: nat := if n < 0 then -n else n;
    var d := Digits(magnitude);
    DigitsAreDigits(magnitude);
    ReadMagnitude(d, rest);
    var s := Decimal(n) + rest;
    if n < 0 {
      assert s == [MINUS] + (d + rest) && s[1..] == d + rest;
    } else {
      assert s == d + rest;
    }
  }

  // ---------------------------------------------------------------- trees read back

  /** What may follow a value inside a text. */
  predicate Stops(rest: Text) { rest == [] || rest[0] == COMMA || rest[0] == RIGHT_BRACKET || rest[0] == RIGHT_BRACE }

  lemma LiteralReads(word: Text, v: Json, rest: Text)
    requires word != []
    ensures Literal(word + rest, word, v) == Read(v, rest)
  {
    assert (word + rest)[|word|..] == rest;
  }

  lemma ScalarReadsBack(v: Json, rest: Text)
    requires Stops(rest) && !v.Arr? && !v.Obj?
    ensures ReadValue(Write(v) + rest) == Read(v, rest)
  {
    hide ReadChars, ReadNumber, QuotedText, Digits, DigitCount, ValueOf, Literal;
    match v
    case Null => LiteralReads(NULL_TEXT, v, rest);
    case Bool(b) => LiteralReads(if b then TRUE_TEXT else FALSE_TEXT, v, rest);
    case Num(n) =>
      DigitsAreDigits(if n < 0 then -n else n);
      NumberReadsBack(n, rest);
      assert (Write(v) + rest)[0] == Decimal(n)[0];
    case Str(t) => QuotedReadsBack(t, rest);
  }

  lemma ArrayReads(s: Text, items: seq<Json>, rest: Text)
    requires s != [] && s[0] != RIGHT_BRACKET && ReadItems(s) == Read(items, rest)
    ensures ReadValue([LEFT_BRACKET] + s) == Read(Arr(items), rest)
  {
    assert ([LEFT_BRACKET] + s)[1..] == s;
  }

  lemma ObjectReads(s: Text, members: seq<Member<Json>>, rest: Text)
    requires s != [] && s[0] != RIGHT_BRACE && ReadMembers(s) == Read(members, rest)
    ensures ReadValue([LEFT_BRACE] + s) == Read(Obj(members), rest)
  {
    assert ([LEFT_BRACE] + s)[1..] == s;
  }

  lemma EmptyReads(rest: Text)
    ensures ReadValue([LEFT_BRACKET, RIGHT_BRACKET] + rest) == Read(Arr([]), rest)
    ensures ReadValue([LEFT_BRACE, RIGHT_BRACE] + rest) == Read(Obj([]), rest)
  {
    assert ([LEFT_BRACKET, RIGHT_BRACKET] + rest)[2..] == rest && ([LEFT_BRACE, RIGHT_BRACE] + rest)[2..] == rest;
  }

  lemma {:induction false} ValueReadsBack(v: Json, rest: Text)
    requires Stops(rest)
    ensures ReadValue(Write(v) + rest) == Read(v, rest)
    decreases v, 1
  {
    hide ReadValue, ReadItems, ReadMembers, WriteItems, WriteMembers;
    match v
    case Arr(items) =>
      if items == [] {
        EmptyReads(rest);
        NoItems();
        assert Write(v) + rest == [LEFT_BRACKET, RIGHT_BRACKET] + rest;
      } else {
        ItemsReadBack(items, rest);
        FirstUnit(items);
        var s := WriteItems(items) + ([RIGHT_BRACKET] + rest);
        ArrayReads(s, items, rest);
        assert Write(v) + rest == [LEFT_BRACKET] + s;
      }
    case Obj(members) =>
      if members == [] {
        EmptyReads(rest);
        NoItems();
        assert Write(v) + rest == [LEFT_BRACE, RIGHT_BRACE] + rest;
      } else {
        MembersReadBack(members, rest);
        FirstQuote(members);
        var s := WriteMembers(members) + ([RIGHT_BRACE] + rest);
        ObjectReads(s, members, rest);
        assert Write(v) + rest == [LEFT_BRACE] + s;
      }
    case _ => ScalarReadsBack(v, rest);
  }

  lemma NoItems()
    ensures WriteItems([]) == [] && WriteMembers([]) == []
  {
  }

  lemma FirstQuote(members: seq<Member<Json>>)
    requires members != []
    ensures WriteMembers(members) != [] && WriteMembers(members)[0] == QUOTE
  {
  }

  /** No value starts with a closing bracket. */
  lemma FirstUnit(items: seq<Json>)
    requires items != []
    ensures WriteItems(items) != [] && WriteItems(items)[0] != RIGHT_BRACKET
  {
    hide Digits;
    var v := items[0];
    if v.Num? {
      DigitsAreDigits(if v.number < 0 then -v.number else v.number);
    }
    assert Write(v) != [] && Write(v)[0] != RIGHT_BRACKET;
  }

  lemma LastItemReads(s: Text, v: Json, rest: Text)
    requires ReadValue(s) == Read(v, [RIGHT_BRACKET] + rest)
    ensures ReadItems(s) == Read([v], rest)
  {
    assert ([RIGHT_BRACKET] + rest)[1..] == rest;
  }

  lemma NextItemReads(s: Text, v: Json, tail: Text)
    requires ReadValue(s) == Read(v, [COMMA] + tail)
    ensures ReadItems(s) == Prepend(v, ReadItems(tail))
  {
    assert ([COMMA] + tail)[1..] == tail;
  }

  lemma WriteItemsStep(items: seq<Json>)
    requires items != []
    ensures WriteItems(items) == Write(items[0]) + if |items| == 1 then [] else [COMMA] + WriteItems(items[1..])
  {
  }

  lemma {:induction false} ItemsReadBack(items: seq<Json>, rest: Text)
    requires items != []
    ensures ReadItems(WriteItems(items) + ([RIGHT_BRACKET] + rest)) == Read(items, rest)
    decreases items, 0
  {
    hide ReadValue, ReadItems, Write, WriteItems;
    WriteItemsStep(items);
    var end := [RIGHT_BRACKET] + rest;
    var s := WriteItems(items) + end;
    if |items| == 1 {
      ValueReadsBack(items[0], end);
      assert s == Write(items[0]) + end;
      LastItemReads(s, items[0], rest);
      assert items == [items[0]];
    } else {
      var tail := WriteItems(items[1..]) + end;
      ValueReadsBack(items[0], [COMMA] + tail);
      ItemsReadBack(items[1..], rest);
      assert s == Write(items[0]) + ([COMMA] + tail);
      NextItemReads(s, items[0], tail);
      assert items == [items[0]] + items[1..];
    }
  }

  /** The first member of an object and what comes behind it. */
  lemma MemberReads(m: Member<Json>, after: Text)
    requires Stops(after) && after != [] && ReadValue(Write(m.value) + after) == Read(m.value, after)
    ensures var s := QuotedText(m.key) + ([COLON] + (Write(m.value) + after));
            && (after[0] == RIGHT_BRACE ==> ReadMembers(s) == Read([m], after[1..]))
            && (after[0] == COMMA ==> ReadMembers(s) == Prepend(m, ReadMembers(after[1..])))
  {
    hide ReadValue, ReadChars, Write;
    var value := Write(m.value) + after;
    var s := QuotedText(m.key) + ([COLON] + value);
    QuotedReadsBack(m.key, [COLON] + value);
    assert ([COLON] + value)[1..] == value;
    assert m == Member(m.key, m.value);
  }

  lemma WriteMembersStep(members: seq<Member<Json>>)
    requires members != []
    ensures WriteMembers(members) == QuotedText(members[0].key) + [COLON] + Write(members[0].value) +
              if |members| == 1 then [] else [COMMA] + WriteMembers(members[1..])
  {
  }

  lemma {:induction false} MembersReadBack(members: seq<Member<Json>>, rest: Text)
    requires members != []
    ensures ReadMembers(WriteMembers(members) + ([RIGHT_BRACE] + rest)) == Read(members, rest)
    decreases members, 0
  {
    hide ReadValue, ReadMembers, Write, WriteMembers, QuotedText;
    var m := members[0];
    WriteMembersStep(members);
    var end := [RIGHT_BRACE] + rest;
    var s := WriteMembers(members) + end;
    if |members| == 1 {
      ValueReadsBack(m.value, end);
      MemberReads(m, end);
      assert s == QuotedText(m.key) + ([COLON] + (Write(m.value) + end)) && end[1..] == rest;
      assert members == [m];
    } else {
      var tail := WriteMembers(members[1..]) + end;
      var after := [COMMA] + tail;
      ValueReadsBack(m.value, after);
      MemberReads(m, after);
      MembersReadBack(members[1..], rest);
      assert s == QuotedText(m.key) + ([COLON] + (Write(m.value) + after)) && after[1..] == tail;
      assert members == [m] + members[1..];
    }
  }

  /** Parsing what JSON.stringify prints gives the tree back. */
  lemma ParseUndoesWrite(v: Json)
    ensures Parse(Write(v)) == Some(v)
  {
    ValueReadsBack(v, []);
    assert Write(v) + [] == Write(v);
  }

  /** Parsing what stableJson prints gives the tree with its keys sorted. */
  lemma ParseUndoesStable(v: Json)
    ensures Parse(StableJson(v)) == Some(Sorted(v))
  {
    StableIsWriteSorted(v);
    ParseUndoesWrite(Sorted(v));
  }

  /** stableJson tells two requests apart exactly when they differ with the order of object members left aside. */
  lemma StableDecidesMeaning(v: Json, w: Json)
    requires Proper(v) && Proper(w)
    ensures StableJson(v) == StableJson(w) <==> Meaning(v) == Meaning(w)
  {
    ParseUndoesStable(v);
    ParseUndoesStable(w);
    SortingKeepsMeaning(v);
    SortingKeepsMeaning(w);
    StableIsWriteSorted(v);
    StableIsWriteSorted(w);
    if Meaning(v) == Meaning(w) {
      MeaningFixesSorted(v, w);
    }
  }
}
