/** The printers: JSON.stringify as far as these trees need it, and stableJson. */
module JsonPrinter {
  import opened JsText
  import opened JsonTree

  const BACKSLASH: Unit := 92
  const LEFT_BRACKET: Unit := 91
  const RIGHT_BRACKET: Unit := 93
  const LEFT_BRACE: Unit := 123
  const RIGHT_BRACE: Unit := 125
  const COLON: Unit := 58
  const LOWER_B: Unit := 98
  const LOWER_F: Unit := 102
  const LOWER_N: Unit := 110
  const LOWER_R: Unit := 114
  const LOWER_T: Unit := 116
  const LOWER_U: Unit := 117
  const NULL_TEXT: Text := [110, 117, 108, 108]
  const TRUE_TEXT: Text := [116, 114, 117, 101]
  const FALSE_TEXT: Text := [102, 97, 108, 115, 101]

  predicate High(u: Unit) { 0xD800 <= u < 0xDC00 }

  predicate Low(u: Unit) { 0xDC00 <= u < 0xE000 }

  // ---------------------------------------------------------------- strings

  function HexDigit(n: nat): Unit
    requires n < 16
  {
    if n < 10 then ZERO + n else LOWER_B - 1 + (n - 10)
  }

  /** A backslash, u and four lower-case hexadecimal digits. */
  function UnicodeEscape(u: Unit): Text {
    [BACKSLASH, LOWER_U, HexDigit(u / 4096), HexDigit(u / 256 % 16), HexDigit(u / 16 % 16), HexDigit(u % 16)]
  }

  /** How one code unit that is not half of a surrogate pair is written. */
  function Escape(u: Unit): Text {
    if u == QUOTE || u == BACKSLASH then [BACKSLASH, u]
    else if u == 8 then [BACKSLASH, LOWER_B]
    else if u == 9 then [BACKSLASH, LOWER_T]
    else if u == LF then [BACKSLASH, LOWER_N]
    else if u == 12 then [BACKSLASH, LOWER_F]
    else if u == CR then [BACKSLASH, LOWER_R]
    else if u < SPACE || High(u) || Low(u) then UnicodeEscape(u)
    else [u]
  }

  predicate PairFirst(t: Text) { |t| > 1 && High(t[0]) && Low(t[1]) }

  function Escaped(t: Text): Text {
    if t == [] then []
    else if PairFirst(t) then [t[0], t[1]] + Escaped(t[2..])
    else Escape(t[0]) + Escaped(t[1..])
  }

  function QuotedText(t: Text): Text { [QUOTE] + Escaped(t) + [QUOTE] }

  // ---------------------------------------------------------------- numbers

  function Digits(n: nat): (r: Text)
    ensures r != []
  {
    if n < 10 then [ZERO + n] else Digits(n / 10) + [ZERO + n % 10]
  }

  function Decimal(n: int): Text { if n < 0 then [MINUS] + Digits(-n) else Digits(n) }

  // ---------------------------------------------------------------- trees

  /** JSON.stringify: the members in the order in which they are listed. */
  function Write(v: Json): Text {
    match v
    case Null => NULL_TEXT
    case Bool(b) => if b then TRUE_TEXT else FALSE_TEXT
    case Num(n) => Decimal(n)
    case Str(t) => QuotedText(t)
    case Arr(items) => [LEFT_BRACKET] + WriteItems(items) + [RIGHT_BRACKET]
    case Obj(members) => [LEFT_BRACE] + WriteMembers(members) + [RIGHT_BRACE]
  }

  function WriteItems(items: seq<Json>): Text {
    if items == [] then []
    else if |items| == 1 then Write(items[0])
    else Write(items[0]) + [COMMA] + WriteItems(items[1..])
  }

  function WriteMembers(members: seq<Member<Json>>): Text {
    if members == [] then []
    else
      var first := QuotedText(members[0].key) + [COLON] + Write(members[0].value);
      if |members| == 1 then first else first + [COMMA] + WriteMembers(members[1..])
  }

  /** stableJson: the keys of an object are sorted, and each is printed with the stable text of its value. */
  function StableJson(v: Json): Text {
    match v
    case Arr(items) => [LEFT_BRACKET] + Joined(StableItems(items)) + [RIGHT_BRACKET]
    case Obj(members) => [LEFT_BRACE] + Joined(Pairs(SortByKey(StableMembers(members)))) + [RIGHT_BRACE]
    case _ => Write(v)
  }

  function StableItems(items: seq<Json>): seq<Text> {
    if items == [] then [] else [StableJson(items[0])] + StableItems(items[1..])
  }

  function StableMembers(members: seq<Member<Json>>): seq<Member<Text>> {
    if members == [] then [] else [Member(members[0].key, StableJson(members[0].value))] + StableMembers(members[1..])
  }

  function Pairs(members: seq<Member<Text>>): seq<Text> {
    if members == [] then [] else [QuotedText(members[0].key) + [COLON] + members[0].value] + Pairs(members[1..])
  }

  /** join(","). */
  function Joined(parts: seq<Text>): Text {
    if parts == [] then [] else if |parts| == 1 then parts[0] else parts[0] + [COMMA] + Joined(parts[1..])
  }

  // ---------------------------------------------------------------- stableJson prints the sorted tree

  function Texts(members: seq<Member<Json>>): (r: seq<Member<Text>>)
    ensures |r| == |members| && forall i | 0 <= i < |members| :: r[i] == Member(members[i].key, Write(members[i].value))
  {
    if members == [] then [] else [Member(members[0].key, Write(members[0].value))] + Texts(members[1..])
  }

  lemma SortTexts(members: seq<Member<Json>>)
    ensures Texts(SortByKey(members)) == SortByKey(Texts(members))
  {
    SortMapped(Write, members, Texts(members));
  }

  lemma {:induction false} WriteItemsJoins(items: seq<Json>)
    ensures WriteItems(items) == Joined(seq(|items|, i requires 0 <= i < |items| => Write(items[i])))
  {
    var parts := seq(|items|, i requires 0 <= i < |items| => Write(items[i]));
    if |items| > 1 {
      WriteItemsJoins(items[1..]);
      assert parts[1..] == seq(|items[1..]|, i requires 0 <= i < |items[1..]| => Write(items[1..][i]));
    }
  }

  lemma {:induction false} WriteMembersJoins(members: seq<Member<Json>>)
    ensures WriteMembers(members) == Joined(Pairs(Texts(members)))
  {
    if |members| > 1 {
      WriteMembersJoins(members[1..]);
      assert |Pairs(Texts(members))| > 1;
    }
  }

  /** stableJson prints what JSON.stringify prints for the tree whose keys are sorted at every level. */
  lemma {:induction false} StableIsWriteSorted(v: Json)
    ensures StableJson(v) == Write(Sorted(v))
  {
    match v
    case Arr(items) =>
      StableItemsSorted(items);
      WriteItemsJoins(SortedItems(items));
    case Obj(members) =>
      StableMembersSorted(members);
      SortTexts(SortedMembers(members));
      WriteMembersJoins(SortByKey(SortedMembers(members)));
    case _ =>
  }

  lemma {:induction false} StableItemsSorted(items: seq<Json>)
    ensures var sorted := SortedItems(items);
            StableItems(items) == seq(|sorted|, i requires 0 <= i < |sorted| => Write(sorted[i]))
  {
    if items != [] {
      StableIsWriteSorted(items[0]);
      StableItemsSorted(items[1..]);
      assert SortedItems(items)[1..] == SortedItems(items[1..]);
    }
  }

  lemma {:induction false} StableMembersSorted(members: seq<Member<Json>>)
    ensures StableMembers(members) == Texts(SortedMembers(members))
  {
    if members != [] {
      StableIsWriteSorted(members[0].value);
      StableMembersSorted(members[1..]);
    }
  }
}
