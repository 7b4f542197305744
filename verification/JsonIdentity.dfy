/** Which trees canonicalJson identifies, and that the printed texts survive the encoding that is hashed. */
module JsonIdentity {
  import opened Prelude
  import opened JsText
  import opened JsonTree
  import opened JsonMeaning
  import opened JsonPrinter
  import opened JsonReader
  import opened JsonCanonical

  ghost predicate ProtoFree(v: Json) {
    match v
    case Arr(items) => forall i | 0 <= i < |items| :: ProtoFree(items[i])
    case Obj(members) => NoProto(members) && forall i | 0 <= i < |members| :: ProtoFree(members[i].value)
    case _ => true
  }

  /** The copy that sortKeysDeep makes means the same as the original. */
  lemma {:induction false} CopyKeepsMeaning(v: Json)
    requires Proper(v) && ProtoFree(v)
    ensures Meaning(Canonical(v)) == Meaning(v)
  {
    match v
    case Arr(items) =>
      MeaningsAt(items);
      MeaningsAt(CanonicalItems(items));
      forall i | 0 <= i < |items| ensures Meaning(Canonical(items[i])) == Meaning(items[i]) {
        CopyKeepsMeaning(items[i]);
      }
      assert Meanings(CanonicalItems(items)) == Meanings(items);
    case Obj(members) =>
      forall i | 0 <= i < |members| ensures Meaning(Canonical(members[i].value)) == Meaning(members[i].value) {
        CopyKeepsMeaning(members[i].value);
      }
      ObjectKeepsMeaning(members, CanonicalMembers(members));
    case _ =>
  }

  lemma ObjectKeepsMeaning(members: seq<Member<Json>>, copies: seq<Member<Json>>)
    requires UniqueKeys(members) && NoProto(members) && SameKeys(copies, members)
    requires forall i | 0 <= i < |members| :: Meaning(copies[i].value) == Meaning(members[i].value)
    ensures Dict(MemberMeanings(Fill(SortByKey(copies)))) == Dict(MemberMeanings(members))
  {
    hide Dict, Fill, Meaning, Index, Enumerated, MemberMeanings;
    var sorted := SortByKey(copies);
    SortHolds(copies);
    SortIsPermutation(copies);
    SortedNoProto(copies);
    FillHolds(sorted);
    assert Kept(sorted) == sorted;
    PermutedMeanings(copies, Fill(sorted));
    MemberMeaningsAt(copies);
    MemberMeaningsAt(members);
    assert MemberMeanings(copies) == MemberMeanings(members);
  }

  lemma SortedNoProto(copies: seq<Member<Json>>)
    requires UniqueKeys(copies) && NoProto(copies)
    ensures NoProto(SortByKey(copies))
  {
    SortHolds(copies);
    forall i | 0 <= i < |copies| ensures SortByKey(copies)[i].key != PROTO {
      assert SortByKey(copies)[i] in SortByKey(copies);
      assert SortByKey(copies)[i] in copies;
    }
  }

  /** The order of the members does not matter for the map. */
  lemma PermutedMeanings(a: seq<Member<Json>>, b: seq<Member<Json>>)
    requires UniqueKeys(a) && multiset(a) == multiset(b)
    ensures Dict(MemberMeanings(b)) == Dict(MemberMeanings(a))
  {
    hide Dict, Meaning, MemberMeanings;
    var xs, ys := MemberMeanings(a), MemberMeanings(b);
    MemberMeaningsAt(a);
    MemberMeaningsAt(b);
    PermutedKeys(a, b);
    forall i | 0 <= i < |b| ensures ys[i] in xs {
      assert b[i] in multiset(b);
      var j :| 0 <= j < |a| && a[j] == b[i];
      assert xs[j] == ys[i];
    }
    forall j | 0 <= j < |a| ensures xs[j] in ys {
      assert a[j] in multiset(a);
      var i :| 0 <= i < |b| && b[i] == a[j];
      assert xs[j] == ys[i];
    }
    SameMembersSameDict(ys, xs);
  }

  /** A permutation of a list without double keys has none. */
  lemma {:induction false} PermutedKeys(a: seq<Member<Json>>, b: seq<Member<Json>>)
    requires UniqueKeys(a) && multiset(a) == multiset(b)
    ensures UniqueKeys(b)
  {
    forall i, j | 0 <= i < j < |b| ensures b[i].key != b[j].key {
      assert b[i] in multiset(b) && b[j] in multiset(b);
      var p :| 0 <= p < |a| && a[p] == b[i];
      var q :| 0 <= q < |a| && a[q] == b[j];
      if p == q {
        TwiceInList(b, i, j);
        OnceInList(a, p);
      }
    }
  }

  lemma TwiceInList(b: seq<Member<Json>>, i: nat, j: nat)
    requires i < j < |b| && b[i] == b[j]
    ensures multiset(b)[b[i]] >= 2
  {
    assert b == b[..i] + [b[i]] + b[i + 1..j] + [b[j]] + b[j + 1..];
  }

  lemma OnceInList(a: seq<Member<Json>>, p: nat)
    requires UniqueKeys(a) && p < |a|
    ensures multiset(a)[a[p]] == 1
  {
    assert a == a[..p] + [a[p]] + a[p + 1..];
    assert a[p] !in a[..p] && a[p] !in a[p + 1..];
  }

  /** The copy depends only on what the tree means. */
  lemma {:induction false} MeaningFixesCopy(v: Json, w: Json)
    requires Proper(v) && Proper(w) && Meaning(v) == Meaning(w)
    ensures Canonical(v) == Canonical(w)
    decreases v
  {
    match v
    case Arr(items) =>
      var others := w.items;
      MeaningsAt(items);
      MeaningsAt(others);
      assert |items| == |Meanings(items)| == |others|;
      forall i | 0 <= i < |items| ensures Canonical(items[i]) == Canonical(others[i]) {
        assert Meanings(items)[i] == Meanings(others)[i];
        MeaningFixesCopy(items[i], others[i]);
      }
      assert CanonicalItems(items) == CanonicalItems(others);
    case Obj(members) =>
      CopiedDictsAgree(members, w.members);
      SortByDict(CanonicalMembers(members), CanonicalMembers(w.members));
    case _ =>
  }

  lemma {:induction false} CopiedDictsAgree(members: seq<Member<Json>>, others: seq<Member<Json>>)
    requires Proper(Obj(members)) && Proper(Obj(others)) && Dict(MemberMeanings(members)) == Dict(MemberMeanings(others))
    ensures Dict(CanonicalMembers(members)) == Dict(CanonicalMembers(others))
    decreases members, 0
  {
    hide Dict, Meaning, MemberMeanings, Canonical;
    var xs, ys := CanonicalMembers(members), CanonicalMembers(others);
    forall i | 0 <= i < |members| ensures xs[i] in ys {
      var j := MatchingMember(members, others, i);
      MeaningFixesCopy(members[i].value, others[j].value);
      assert xs[i] == ys[j];
    }
    forall j | 0 <= j < |others| ensures ys[j] in xs {
      var i := MatchingMember(others, members, j);
      MeaningFixesCopy(members[i].value, others[j].value);
      assert xs[i] == ys[j];
    }
    SameMembersSameDict(xs, ys);
  }

  lemma ProtoFreeDecides(v: Json, w: Json)
    requires Proper(v) && Proper(w) && ProtoFree(v) && ProtoFree(w)
    ensures CanonicalJson(v) == CanonicalJson(w) <==> Meaning(v) == Meaning(w)
    ensures Parse(CanonicalJson(v)).Some? && Meaning(Parse(CanonicalJson(v)).value) == Meaning(v)
  {
    hide Canonical, Meaning, Write, Parse;
    ParseUndoesWrite(Canonical(v));
    ParseUndoesWrite(Canonical(w));
    CopyKeepsMeaning(v);
    CopyKeepsMeaning(w);
    if Meaning(v) == Meaning(w) {
      MeaningFixesCopy(v, w);
    }
  }

  // ---------------------------------------------------------------- trees with a key __proto__

  /** The tree without the members named __proto__, at every level. */
  function Strip(v: Json): Json {
    match v
    case Arr(items) => Arr(StripItems(items))
    case Obj(members) => Obj(Kept(StripMembers(members)))
    case _ => v
  }

  function StripItems(items: seq<Json>): (r: seq<Json>)
    ensures |r| == |items| && forall i | 0 <= i < |items| :: r[i] == Strip(items[i])
  {
    if items == [] then [] else [Strip(items[0])] + StripItems(items[1..])
  }

  function StripMembers(members: seq<Member<Json>>): (r: seq<Member<Json>>)
    ensures |r| == |members|
    ensures forall i | 0 <= i < |members| :: r[i] == Member(members[i].key, Strip(members[i].value))
  {
    if members == [] then [] else [Member(members[0].key, Strip(members[0].value))] + StripMembers(members[1..])
  }

  lemma {:induction false} StripIsProtoFree(v: Json)
    requires Proper(v)
    ensures Proper(Strip(v)) && ProtoFree(Strip(v))
  {
    match v
    case Arr(items) =>
      forall i | 0 <= i < |items| ensures Proper(Strip(items[i])) && ProtoFree(Strip(items[i])) {
        StripIsProtoFree(items[i]);
      }
    case Obj(members) =>
      var stripped := StripMembers(members);
      var kept := Kept(stripped);
      KeptHolds(stripped);
      forall i | 0 <= i < |kept| ensures Proper(kept[i].value) && ProtoFree(kept[i].value) {
        assert kept[i] in kept;
        var j :| 0 <= j < |stripped| && stripped[j] == kept[i];
        StripIsProtoFree(members[j].value);
      }
    case _ =>
  }

  /** Copying does not see the members that Strip drops. */
  lemma {:induction false} CopyOfStripped(v: Json)
    requires Proper(v)
    ensures Canonical(Strip(v)) == Canonical(v)
  {
    match v
    case Arr(items) =>
      forall i | 0 <= i < |items| ensures Canonical(Strip(items[i])) == Canonical(items[i]) {
        CopyOfStripped(items[i]);
      }
      assert CanonicalItems(StripItems(items)) == CanonicalItems(items);
    case Obj(members) =>
      forall i | 0 <= i < |members| ensures Canonical(Strip(members[i].value)) == Canonical(members[i].value) {
        CopyOfStripped(members[i].value);
      }
      var copies := CanonicalMembers(members);
      assert CanonicalMembers(StripMembers(members)) == copies;
      CopyOfKept(StripMembers(members));
      SortOfKept(copies);
      FillSkipsProto(SortByKey(copies));
    case _ =>
  }

  lemma {:induction false} CopyOfKept(members: seq<Member<Json>>)
    ensures CanonicalMembers(Kept(members)) == Kept(CanonicalMembers(members))
  {
    if members != [] {
      var n := |members| - 1;
      CopyOfKept(members[..n]);
      assert CanonicalMembers(members)[..n] == CanonicalMembers(members[..n]);
      assert CanonicalMembers(Kept(members)) == Kept(CanonicalMembers(members));
    }
  }

  lemma SortOfKept(xs: seq<Member<Json>>)
    requires UniqueKeys(xs)
    ensures SortByKey(Kept(xs)) == Kept(SortByKey(xs))
  {
    var a, b := SortByKey(Kept(xs)), Kept(SortByKey(xs));
    KeptHolds(xs);
    SortHolds(Kept(xs));
    SortHolds(xs);
    KeptHolds(SortByKey(xs));
    KeptAscends(SortByKey(xs));
    forall m: Member<Json> ensures m in a <==> m in b {
      assert m in a <==> m in Kept(xs);
    }
    SortedListIsUnique(a, b);
  }

  lemma {:induction false} KeptAscends(xs: seq<Member<Json>>)
    requires Ascending(xs)
    ensures Ascending(Kept(xs))
  {
    if xs != [] {
      var n := |xs| - 1;
      KeptAscends(xs[..n]);
      KeptHolds(xs[..n]);
      forall i | 0 <= i < |Kept(xs[..n])| ensures Before(Kept(xs[..n])[i].key, xs[n].key) {
        assert Kept(xs[..n])[i] in Kept(xs[..n]);
        assert Kept(xs[..n])[i] in xs[..n];
      }
    }
  }

  /** Dropping the members named __proto__ changes what a tree means exactly if it has one. */
  lemma {:induction false} StripMatters(v: Json)
    requires Proper(v)
    ensures Meaning(Strip(v)) == Meaning(v) <==> ProtoFree(v)
  {
    match v
    case Arr(items) =>
      MeaningsAt(items);
      MeaningsAt(StripItems(items));
      forall i | 0 <= i < |items| ensures Meaning(Strip(items[i])) == Meaning(items[i]) <==> ProtoFree(items[i]) {
        StripMatters(items[i]);
      }
      if Meanings(StripItems(items)) == Meanings(items) {
        forall i | 0 <= i < |items| ensures ProtoFree(items[i]) {
          assert Meanings(StripItems(items))[i] == Meanings(items)[i];
        }
      }
      if ProtoFree(v) {
        assert Meanings(StripItems(items)) == Meanings(items);
      }
    case Obj(members) =>
      forall i | 0 <= i < |members|
        ensures Meaning(Strip(members[i].value)) == Meaning(members[i].value) <==> ProtoFree(members[i].value)
      {
        StripMatters(members[i].value);
      }
      ObjectStripMatters(members, StripMembers(members));
    case _ =>
  }

  lemma ObjectStripMatters(members: seq<Member<Json>>, stripped: seq<Member<Json>>)
    requires UniqueKeys(members) && SameKeys(stripped, members)
    ensures Dict(MemberMeanings(Kept(stripped))) == Dict(MemberMeanings(members)) <==>
            (NoProto(members) && forall i | 0 <= i < |members| :: Meaning(stripped[i].value) == Meaning(members[i].value))
  {
    hide Dict, Meaning, MemberMeanings;
    var xs, ys := MemberMeanings(Kept(stripped)), MemberMeanings(members);
    MemberMeaningsAt(Kept(stripped));
    MemberMeaningsAt(members);
    KeptHolds(stripped);
    DictHolds(xs);
    DictHolds(ys);
    if Dict(xs) == Dict(ys) {
      forall i | 0 <= i < |members| ensures members[i].key != PROTO {
        assert ys[i] in ys;
        assert ys[i] in xs;
      }
      assert Kept(stripped) == stripped;
      forall i | 0 <= i < |members| ensures Meaning(stripped[i].value) == Meaning(members[i].value) {
        assert ys[i] in ys;
        assert ys[i] in xs;
        var j :| 0 <= j < |xs| && xs[j] == ys[i];
        assert j == i;
      }
    }
    if NoProto(members) && forall i | 0 <= i < |members| :: Meaning(stripped[i].value) == Meaning(members[i].value) {
      assert Kept(stripped) == stripped;
      assert xs == ys;
    }
  }

  /**
   canonicalJson tells two trees apart exactly when they mean different things with the members named __proto__ left
   out, and its text parses back to just that meaning: to the meaning of the tree itself exactly if it has no such
   member.
   */
  lemma CanonicalDecidesMeaning(v: Json, w: Json)
    requires Proper(v) && Proper(w)
    ensures CanonicalJson(v) == CanonicalJson(w) <==> Meaning(Strip(v)) == Meaning(Strip(w))
    ensures Parse(CanonicalJson(v)).Some? && Meaning(Parse(CanonicalJson(v)).value) == Meaning(Strip(v))
    ensures Meaning(Parse(CanonicalJson(v)).value) == Meaning(v) <==> ProtoFree(v)
    ensures ProtoFree(v) && ProtoFree(w) ==> (CanonicalJson(v) == CanonicalJson(w) <==> Meaning(v) == Meaning(w))
  {
    hide Canonical, Meaning, Write, Parse, Strip;
    CopyOfStripped(v);
    CopyOfStripped(w);
    StripIsProtoFree(v);
    StripIsProtoFree(w);
    StripMatters(v);
    StripMatters(w);
    ProtoFreeDecides(Strip(v), Strip(w));
  }

  /** For instance, these two trees differ and print the same. */
  lemma ProtoIsLost() returns (v: Json, w: Json)
    ensures Proper(v) && Proper(w) && Meaning(v) != Meaning(w) && CanonicalJson(v) == CanonicalJson(w)
    ensures StableJson(v) != StableJson(w)
  {
    var m := Member(PROTO, Null);
    v, w := Obj([m]), Obj([]);
    var members := [m];
    assert members[1..] == [] && members[..0] == [];
    var copies := CanonicalMembers(members);
    assert copies == [m];
    assert SortByKey(copies) == Insert(m, SortByKey(copies[1..])) == [m];
    assert Fill([m]) == Put(Fill([m][..0]), m) == [];
    assert Canonical(w) == Obj(Fill(SortByKey<Json>([]))) == w;
    assert Canonical(v) == w;
    assert PROTO in Dict(MemberMeanings(members));
    StableDecidesMeaning(v, w);
  }

  // ---------------------------------------------------------------- the encoding that is hashed

  /** No control characters and no lone surrogates: the text can be encoded in UTF-8 without loss. */
  predicate Clean(t: Text) {
    if t == [] then true
    else if PairFirst(t) then Clean(t[2..])
    else !High(t[0]) && !Low(t[0]) && t[0] >= SPACE && Clean(t[1..])
  }

  lemma {:induction false} CleanAppend(a: Text, b: Text)
    requires Clean(a) && Clean(b)
    ensures Clean(a + b)
  {
    if a == [] {
      assert a + b == b;
    } else if PairFirst(a) {
      CleanAppend(a[2..], b);
      assert (a + b)[2..] == a[2..] + b;
    } else {
      CleanAppend(a[1..], b);
      assert (a + b)[1..] == a[1..] + b;
    }
  }

  predicate Ascii(t: Text) { forall i | 0 <= i < |t| :: SPACE <= t[i] < 127 }

  lemma {:induction false} AsciiIsClean(t: Text)
    requires Ascii(t)
    ensures Clean(t)
  {
    if t != [] {
      AsciiIsClean(t[1..]);
    }
  }

  lemma EscapeIsClean(u: Unit)
    ensures Clean(Escape(u))
  {
    if |Escape(u)| > 1 {
      AsciiIsClean(Escape(u));
    } else {
      assert Escape(u)[1..] == [];
    }
  }

  lemma {:induction false} EscapedIsClean(t: Text)
    ensures Clean(Escaped(t))
  {
    if t != [] && PairFirst(t) {
      EscapedIsClean(t[2..]);
      var s := Escaped(t);
      assert s[2..] == Escaped(t[2..]) && s[0] == t[0] && s[1] == t[1];
    } else if t != [] {
      EscapedIsClean(t[1..]);
      EscapeIsClean(t[0]);
      CleanAppend(Escape(t[0]), Escaped(t[1..]));
    }
  }

  /** In a written string only code units that section 7 of RFC 8259 allows unescaped stand for themselves. */
  lemma QuotedIsClean(t: Text)
    ensures Clean(QuotedText(t))
  {
    EscapedIsClean(t);
    AsciiIsClean([QUOTE]);
    CleanAppend([QUOTE], Escaped(t));
    CleanAppend([QUOTE] + Escaped(t), [QUOTE]);
  }

  lemma {:induction false} DecimalIsAscii(n: nat)
    ensures Ascii(Digits(n))
  {
    DigitsAreDigits(n);
  }

  lemma {:induction false} WriteIsClean(v: Json)
    ensures Clean(Write(v))
    decreases v, 1
  {
    hide Clean, QuotedText;
    match v
    case Str(t) => QuotedIsClean(t);
    case Arr(items) =>
      ItemsAreClean(items);
      Bracketed(LEFT_BRACKET, WriteItems(items), RIGHT_BRACKET);
    case Obj(members) =>
      MembersAreClean(members);
      Bracketed(LEFT_BRACE, WriteMembers(members), RIGHT_BRACE);
    case Num(n) =>
      DecimalIsAscii(if n < 0 then -n else n);
      AsciiIsClean(Decimal(n));
    case _ => AsciiIsClean(Write(v));
  }

  lemma Bracketed(open: Unit, t: Text, close: Unit)
    requires Clean(t) && SPACE <= open < 127 && SPACE <= close < 127
    ensures Clean([open] + t + [close])
  {
    hide Clean;
    AsciiIsClean([open]);
    AsciiIsClean([close]);
    CleanAppend([open], t);
    CleanAppend([open] + t, [close]);
  }

  lemma {:induction false} ItemsAreClean(items: seq<Json>)
    ensures Clean(WriteItems(items))
    decreases items, 0
  {
    hide Clean, Write;
    AsciiIsClean([]);
    if items != [] {
      WriteIsClean(items[0]);
      ItemsAreClean(items[1..]);
      AsciiIsClean([COMMA]);
      CleanAppend(Write(items[0]), [COMMA]);
      CleanAppend(Write(items[0]) + [COMMA], WriteItems(items[1..]));
    }
  }

  lemma {:induction false} MembersAreClean(members: seq<Member<Json>>)
    ensures Clean(WriteMembers(members))
    decreases members, 0
  {
    hide Clean, Write, QuotedText;
    AsciiIsClean([]);
    if members != [] {
      var key, value := QuotedText(members[0].key), Write(members[0].value);
      QuotedIsClean(members[0].key);
      WriteIsClean(members[0].value);
      MembersAreClean(members[1..]);
      AsciiIsClean([COLON]);
      AsciiIsClean([COMMA]);
      CleanAppend(key, [COLON]);
      CleanAppend(key + [COLON], value);
      CleanAppend(key + [COLON] + value, [COMMA]);
      CleanAppend(key + [COLON] + value + [COMMA], WriteMembers(members[1..]));
    }
  }

  /** The text that is hashed holds no control character and no lone surrogate, whatever is in the strings of the tree. */
  lemma StableIsClean(v: Json)
    ensures Clean(StableJson(v)) && Clean(CanonicalJson(v))
  {
    StableIsWriteSorted(v);
    WriteIsClean(Sorted(v));
    WriteIsClean(Canonical(v));
  }
}
