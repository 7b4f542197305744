/**
 canonicalJson: sortKeysDeep copies every object key by key, in sorted order, into a new object, and JSON.stringify
 prints the copy in the order in which its keys are enumerated. That order is not the order of insertion for keys
 that look like array indices, and a key named __proto__ is lost in the copy.
 */
module JsonCanonical {
  import opened Prelude
  import opened JsText
  import opened JsonTree
  import opened JsonMeaning
  import opened JsonPrinter
  import opened JsonReader

  const PROTO: Text := [95, 95, 112, 114, 111, 116, 111, 95, 95]

  /** One more than the largest array index (section 6.1.7 of ECMA-262). */
  const INDEX_LIMIT := 0xFFFF_FFFF

  /** The array index that the key is the decimal form of. */
  function Index(key: Text): Option<nat> {
    var n := DigitCount(key);
    DigitCountIsDigits(key);
    if n == 0 || n < |key| || (n > 1 && key[0] == ZERO) || ValueOf(key[..n]) >= INDEX_LIMIT then None
    else Some(ValueOf(key[..n]))
  }

  // ---------------------------------------------------------------- setting a property of an ordinary object

  predicate HasKey(out: seq<Member<Json>>, key: Text) { exists i :: 0 <= i < |out| && out[i].key == key }

  /** Index keys come first, in numeric order. */
  function InsertIndex(out: seq<Member<Json>>, m: Member<Json>, index: nat): (r: seq<Member<Json>>)
    ensures multiset(r) == multiset(out) + multiset{m} && |r| == |out| + 1
  {
    if out == [] || Index(out[0].key).None? || Index(out[0].key).value > index then [m] + out
    else
      assert out == [out[0]] + out[1..];
      [out[0]] + InsertIndex(out[1..], m, index)
  }

  function Replaced(out: seq<Member<Json>>, m: Member<Json>): seq<Member<Json>> {
    if out == [] then [] else [if out[0].key == m.key then m else out[0]] + Replaced(out[1..], m)
  }

  /** out[key] = value, on the list of members in the order of their enumeration. */
  function Put(out: seq<Member<Json>>, m: Member<Json>): seq<Member<Json>> {
    if m.key == PROTO then out
    else if HasKey(out, m.key) then Replaced(out, m)
    else if Index(m.key).Some? then InsertIndex(out, m, Index(m.key).value)
    else out + [m]
  }

  function Fill(members: seq<Member<Json>>): seq<Member<Json>> {
    if members == [] then [] else Put(Fill(members[..|members| - 1]), members[|members| - 1])
  }

  // ---------------------------------------------------------------- the copy

  function Canonical(v: Json): Json {
    match v
    case Arr(items) => Arr(CanonicalItems(items))
    case Obj(members) => Obj(Fill(SortByKey(CanonicalMembers(members))))
    case _ => v
  }

  function CanonicalItems(items: seq<Json>): (r: seq<Json>)
    ensures |r| == |items| && forall i | 0 <= i < |items| :: r[i] == Canonical(items[i])
  {
    if items == [] then [] else [Canonical(items[0])] + CanonicalItems(items[1..])
  }

  function CanonicalMembers(members: seq<Member<Json>>): (r: seq<Member<Json>>)
    ensures |r| == |members|
    ensures forall i | 0 <= i < |members| :: r[i] == Member(members[i].key, Canonical(members[i].value))
  {
    if members == [] then [] else [Member(members[0].key, Canonical(members[0].value))] + CanonicalMembers(members[1..])
  }

  function CanonicalJson(v: Json): Text { Write(Canonical(v)) }

  /** sortKeysDeep: the map over an array, and the loop over the sorted keys of an object. */
  method SortKeysDeep(v: Json) returns (r: Json)
    ensures r == Canonical(v)
    decreases v
  {
    hide SortByKey, Fill, Put, CanonicalMembers, CanonicalItems;
    match v
    case Arr(items) =>
      var copies := [];
      for i := 0 to |items|
        invariant |copies| == i && forall j | 0 <= j < i :: copies[j] == Canonical(items[j])
      {
        var copied := SortKeysDeep(items[i]);
        copies := copies + [copied];
      }
      assert copies == CanonicalItems(items);
      r := Arr(copies);
    case Obj(members) =>
      var keys := SortByKey(members);
      ghost var sorted := SortByKey(CanonicalMembers(members));
      SortedAreCanonical(members);
      var out: seq<Member<Json>> := [];
      FillNothing();
      for i := 0 to |keys|
        invariant out == Fill(sorted[..i])
      {
        SortedFrom(members, keys[i]);
        var value := SortKeysDeep(keys[i].value);
        FillNext(sorted, i);
        out := Put(out, Member(keys[i].key, value));
      }
      assert sorted[..|keys|] == sorted;
      r := Obj(out);
    case _ =>
      r := v;
  }

  lemma SortedAreCanonical(members: seq<Member<Json>>)
    ensures var keys, sorted := SortByKey(members), SortByKey(CanonicalMembers(members));
            |sorted| == |keys| && forall i | 0 <= i < |keys| :: sorted[i] == Member(keys[i].key, Canonical(keys[i].value))
  {
    SortMapped(Canonical, members, CanonicalMembers(members));
  }

  lemma FillNothing()
    ensures Fill([]) == []
  {
  }

  lemma FillNext(members: seq<Member<Json>>, i: nat)
    requires i < |members|
    ensures Fill(members[..i + 1]) == Put(Fill(members[..i]), members[i])
  {
    assert members[..i + 1][..i] == members[..i];
  }

  lemma SortedFrom(members: seq<Member<Json>>, m: Member<Json>)
    requires m in SortByKey(members)
    ensures m in members && m.value < Obj(members)
  {
    SortIsPermutation(members);
    assert m in multiset(SortByKey(members));
    assert m in multiset(members);
  }

  // ---------------------------------------------------------------- when the order survives

  /** In this pair the earlier key may be enumerated before the later one. */
  predicate Follows(a: Text, b: Text) { Index(b).Some? ==> Index(a).Some? && Index(a).value < Index(b).value }

  ghost predicate Enumerated(members: seq<Member<Json>>) {
    && (forall i | 0 <= i < |members| :: members[i].key != PROTO)
    && (forall i, j | 0 <= i < j < |members| :: Follows(members[i].key, members[j].key))
  }

  /** No key is __proto__, and wherever the sorted order puts a key before an index it is a smaller index. */
  ghost predicate KeysAgree(members: seq<Member<Json>>) {
    && (forall i | 0 <= i < |members| :: members[i].key != PROTO)
    && (forall i, j | 0 <= i < |members| && 0 <= j < |members| && Before(members[i].key, members[j].key) ::
          Follows(members[i].key, members[j].key))
  }

  ghost predicate Agrees(v: Json) {
    match v
    case Arr(items) => forall i | 0 <= i < |items| :: Agrees(items[i])
    case Obj(members) => KeysAgree(members) && forall i | 0 <= i < |members| :: Agrees(members[i].value)
    case _ => true
  }

  lemma {:induction false} InsertLast(out: seq<Member<Json>>, m: Member<Json>, index: nat)
    requires forall i | 0 <= i < |out| :: Index(out[i].key).Some? && Index(out[i].key).value < index
    ensures InsertIndex(out, m, index) == out + [m]
  {
    hide Index;
    if out != [] {
      InsertLast(out[1..], m, index);
      assert out == [out[0]] + out[1..];
    }
  }

  lemma {:induction false} FillKeeps(xs: seq<Member<Json>>)
    requires UniqueKeys(xs) && Enumerated(xs)
    ensures Fill(xs) == xs
  {
    hide Index, Follows, Put;
    if xs != [] {
      var n := |xs| - 1;
      FillKeeps(xs[..n]);
      PutLast(xs[..n], xs[n]);
      assert xs == xs[..n] + [xs[n]];
    }
  }

  /** A member that may be enumerated after all others goes to the end. */
  lemma PutLast(out: seq<Member<Json>>, m: Member<Json>)
    requires m.key != PROTO && !HasKey(out, m.key)
    requires forall i | 0 <= i < |out| :: Follows(out[i].key, m.key)
    ensures Put(out, m) == out + [m]
  {
    hide Index;
    if Index(m.key).Some? {
      InsertLast(out, m, Index(m.key).value);
    }
  }

  // ---------------------------------------------------------------- what the copy looks like

  lemma {:induction false} InsertIndexHolds(out: seq<Member<Json>>, m: Member<Json>, index: nat)
    requires Enumerated(out) && m.key != PROTO && Index(m.key) == Some(index)
    requires forall i | 0 <= i < |out| :: Index(out[i].key) != Some(index)
    ensures Enumerated(InsertIndex(out, m, index))
  {
    hide Index;
    if out == [] || Index(out[0].key).None? || Index(out[0].key).value > index {
      assert forall j | 0 < j < |out| :: Follows(out[0].key, out[j].key);
    } else {
      assert out == [out[0]] + out[1..];
      InsertIndexHolds(out[1..], m, index);
      var rest := InsertIndex(out[1..], m, index);
      forall j | 0 <= j < |rest| ensures Follows(out[0].key, rest[j].key) {
        assert rest[j] in multiset(rest);
        assert rest[j] == m || rest[j] in out[1..];
      }
    }
  }

  /** Two keys with the same index are the same key. */
  lemma IndexIsInjective(a: Text, b: Text)
    requires Index(a).Some? && Index(a) == Index(b)
    ensures a == b
  {
    DigitCountIsDigits(a);
    DigitCountIsDigits(b);
    assert a[..|a|] == a && b[..|b|] == b;
    SameDigits(a, b);
  }

  predicate Numeral(d: Text) {
    d != [] && (forall i | 0 <= i < |d| :: IsDigit(d[i])) && (d[0] == ZERO ==> |d| == 1)
  }

  lemma {:induction false} NumeralBounds(d: Text)
    requires Numeral(d)
    ensures |d| > 1 ==> ValueOf(d) >= 10
    ensures |d| == 1 ==> ValueOf(d) == d[0] - ZERO
  {
    var front := d[..|d| - 1];
    if |d| > 1 {
      NumeralBounds(front);
    } else {
      assert front == [] && ValueOf(front) == 0;
    }
  }

  lemma {:induction false} SameDigits(a: Text, b: Text)
    requires Numeral(a) && Numeral(b) && ValueOf(a) == ValueOf(b)
    ensures a == b
    decreases |a|
  {
    NumeralBounds(a);
    NumeralBounds(b);
    if |a| > 1 {
      var x, y := a[..|a| - 1], b[..|b| - 1];
      assert |b| > 1 && IsDigit(a[|a| - 1]) && IsDigit(b[|b| - 1]);
      assert ValueOf(a) == ValueOf(x) * 10 + (a[|a| - 1] - ZERO) && ValueOf(b) == ValueOf(y) * 10 + (b[|b| - 1] - ZERO);
      SameDigits(x, y);
      assert a == x + [a[|a| - 1]] && b == y + [b[|b| - 1]];
    }
  }

  /** A key is an array index exactly if it is the decimal form of an integer up to 2^32 - 2. */
  lemma IndexIsDecimal(key: Text, n: nat)
    ensures Index(key) == Some(n) <==> n < 0xFFFF_FFFF && key == Digits(n)
  {
    var d := Digits(n);
    DigitsAreDigits(n);
    CountDigits(d, []);
    assert d + [] == d && d[..|d|] == d;
    if Index(key) == Some(n) {
      DigitCountIsDigits(key);
      assert key[..|key|] == key;
      SameDigits(key, d);
    }
  }

  predicate NoProto<T>(members: seq<Member<T>>) { forall i | 0 <= i < |members| :: members[i].key != PROTO }

  /** The members whose key is not __proto__. */
  function Kept<T>(members: seq<Member<T>>): (r: seq<Member<T>>)
    ensures NoProto(r)
    ensures NoProto(members) ==> r == members
  {
    if members == [] then []
    else
      var n := |members| - 1;
      assert members == members[..n] + [members[n]];
      if members[n].key == PROTO then Kept(members[..n]) else Kept(members[..n]) + [members[n]]
  }

  /** Setting a key that is there keeps its place and changes its value. */
  lemma {:induction false} ReplacedHolds(out: seq<Member<Json>>, m: Member<Json>)
    requires UniqueKeys(out)
    ensures SameKeys(Replaced(out, m), out)
    ensures forall i | 0 <= i < |out| :: Replaced(out, m)[i] == if out[i].key == m.key then m else out[i]
    ensures HasKey(out, m.key) && m.key != PROTO ==> Put(out, m) == Replaced(out, m)
  {
    if out != [] {
      ReplacedHolds(out[1..], m);
    }
  }

  lemma PutHolds(out: seq<Member<Json>>, m: Member<Json>)
    requires Enumerated(out) && !HasKey(out, m.key)
    ensures Enumerated(Put(out, m))
    ensures multiset(Put(out, m)) == if m.key == PROTO then multiset(out) else multiset(out) + multiset{m}
  {
    hide Index;
    if m.key != PROTO && Index(m.key).Some? {
      forall i | 0 <= i < |out| ensures Index(out[i].key) != Index(m.key) {
        if Index(out[i].key) == Index(m.key) {
          IndexIsInjective(out[i].key, m.key);
        }
      }
      InsertIndexHolds(out, m, Index(m.key).value);
    }
  }

  lemma {:induction false} KeptMembers<T(!new)>(xs: seq<Member<T>>)
    ensures forall m :: m in Kept(xs) <==> m in xs && m.key != PROTO
  {
    if xs != [] {
      KeptMembers(xs[..|xs| - 1]);
      assert xs == xs[..|xs| - 1] + [xs[|xs| - 1]];
    }
  }

  lemma {:induction false} KeptHolds<T(!new)>(xs: seq<Member<T>>)
    ensures forall m :: m in Kept(xs) <==> m in xs && m.key != PROTO
    ensures UniqueKeys(xs) ==> UniqueKeys(Kept(xs))
  {
    KeptMembers(xs);
    if UniqueKeys(xs) && xs != [] {
      var n := |xs| - 1;
      var kept := Kept(xs[..n]);
      KeptHolds(xs[..n]);
      forall i | 0 <= i < |kept| ensures kept[i].key != xs[n].key {
        assert kept[i] in xs[..n];
      }
    }
  }

  lemma SameElements(a: seq<Member<Json>>, b: seq<Member<Json>>)
    requires multiset(a) == multiset(b)
    ensures forall m :: m in a <==> m in b
  {
    forall m: Member<Json> ensures m in a <==> m in b {
      assert m in a <==> m in multiset(a);
      assert m in b <==> m in multiset(b);
    }
  }

  /** What has been copied so far has no key of a member still to come. */
  lemma NotCopiedYet(out: seq<Member<Json>>, xs: seq<Member<Json>>, m: Member<Json>)
    requires multiset(out) == multiset(Kept(xs)) && forall i | 0 <= i < |xs| :: xs[i].key != m.key
    ensures !HasKey(out, m.key)
  {
    SameElements(out, Kept(xs));
    KeptMembers(xs);
    forall i | 0 <= i < |out| ensures out[i].key != m.key {
      assert out[i] in xs;
    }
  }

  lemma {:induction false} FillIsPermutation(xs: seq<Member<Json>>)
    requires UniqueKeys(xs)
    ensures Enumerated(Fill(xs)) && multiset(Fill(xs)) == multiset(Kept(xs))
  {
    hide Enumerated, Put;
    if xs == [] {
      NothingEnumerated();
    } else {
      var n := |xs| - 1;
      FillIsPermutation(xs[..n]);
      NotCopiedYet(Fill(xs[..n]), xs[..n], xs[n]);
      PutHolds(Fill(xs[..n]), xs[n]);
    }
  }

  lemma NothingEnumerated()
    ensures Enumerated([])
  {
  }

  /** The copy lists its keys in the order of enumeration and keeps exactly the members whose key is not __proto__. */
  lemma FillHolds(xs: seq<Member<Json>>)
    requires UniqueKeys(xs)
    ensures Enumerated(Fill(xs))
    ensures multiset(Fill(xs)) == multiset(Kept(xs))
    ensures forall m :: m in Fill(xs) <==> m in xs && m.key != PROTO
  {
    hide Enumerated, Fill, Kept;
    FillIsPermutation(xs);
    SameElements(Fill(xs), Kept(xs));
    KeptMembers(xs);
  }

  /** A member named __proto__ makes no difference to the copy. */
  lemma {:induction false} FillSkipsProto(xs: seq<Member<Json>>)
    ensures Fill(Kept(xs)) == Fill(xs)
  {
    if xs != [] {
      var n := |xs| - 1;
      FillSkipsProto(xs[..n]);
      assert xs[n].key != PROTO ==> Kept(xs)[..|Kept(xs)| - 1] == Kept(xs[..n]);
    }
  }

  // ---------------------------------------------------------------- when canonicalJson is stableJson

  /** On the sorted list the condition on pairs is the condition on neighbours in the order. */
  lemma SortedEnumerated(members: seq<Member<Json>>)
    requires UniqueKeys(members)
    ensures Enumerated(SortByKey(members)) <==> KeysAgree(members)
  {
    hide Index;
    var sorted := SortByKey(members);
    SortHolds(members);
    if KeysAgree(members) {
      forall i | 0 <= i < |sorted| ensures sorted[i].key != PROTO && sorted[i] in members {
        assert sorted[i] in sorted;
      }
      forall i, j | 0 <= i < j < |sorted| ensures Follows(sorted[i].key, sorted[j].key) {
        assert sorted[i] in members && sorted[j] in members && Before(sorted[i].key, sorted[j].key);
      }
    }
    if Enumerated(sorted) {
      forall i | 0 <= i < |members| ensures members[i].key != PROTO {
        assert members[i] in members;
        assert members[i] in sorted;
      }
      forall i, j | 0 <= i < |members| && 0 <= j < |members| && Before(members[i].key, members[j].key)
        ensures Follows(members[i].key, members[j].key)
      {
        PlaceInOrder(members, sorted, i, j);
      }
    }
  }

  lemma PlaceInOrder(members: seq<Member<Json>>, sorted: seq<Member<Json>>, i: nat, j: nat)
    requires Ascending(sorted) && Enumerated(sorted) && forall m :: m in sorted <==> m in members
    requires i < |members| && j < |members| && Before(members[i].key, members[j].key)
    ensures Follows(members[i].key, members[j].key)
  {
    hide Index;
    assert members[i] in members && members[j] in members;
    var p :| 0 <= p < |sorted| && sorted[p] == members[i];
    var q :| 0 <= q < |sorted| && sorted[q] == members[j];
    BeforeAsymmetric(members[i].key, members[j].key);
    BeforeIrreflexive(members[i].key);
    assert p < q;
  }

  lemma EnumeratedKeys(xs: seq<Member<Json>>, ys: seq<Member<Json>>)
    requires SameKeys(xs, ys)
    ensures Enumerated(xs) <==> Enumerated(ys)
  {
    hide Index;
  }

  /** Sorting two lists with the same keys keeps their keys aligned. */
  lemma SortAligned(xs: seq<Member<Json>>, ys: seq<Member<Json>>)
    requires SameKeys(xs, ys)
    ensures SameKeys(SortByKey(xs), SortByKey(ys))
  {
    var keys := seq(|xs|, i requires 0 <= i < |xs| => Member(xs[i].key, ()));
    var none: Json -> () := _ => ();
    SortMapped(none, xs, keys);
    SortMapped(none, ys, keys);
  }

  /** Lists with the same distinct keys that are equal once sorted are equal. */
  lemma SortIsInjective(xs: seq<Member<Json>>, ys: seq<Member<Json>>)
    requires UniqueKeys(xs) && SameKeys(xs, ys) && SortByKey(xs) == SortByKey(ys)
    ensures xs == ys
  {
    SortHolds(xs);
    SortHolds(ys);
    forall i | 0 <= i < |xs| ensures xs[i] == ys[i] {
      assert xs[i] in xs;
      assert xs[i] in ys;
      var j :| 0 <= j < |ys| && ys[j] == xs[i];
      assert i == j;
    }
  }

  lemma {:induction false} CanonicalIsSortedExactly(v: Json)
    requires Proper(v)
    ensures Canonical(v) == Sorted(v) <==> Agrees(v)
  {
    match v
    case Arr(items) =>
      forall i | 0 <= i < |items| ensures Canonical(items[i]) == Sorted(items[i]) <==> Agrees(items[i]) {
        CanonicalIsSortedExactly(items[i]);
      }
      assert CanonicalItems(items) == SortedItems(items) <==> forall i | 0 <= i < |items| ::
                                                                Canonical(items[i]) == Sorted(items[i]);
    case Obj(members) =>
      forall i | 0 <= i < |members|
        ensures Canonical(members[i].value) == Sorted(members[i].value) <==> Agrees(members[i].value)
      {
        CanonicalIsSortedExactly(members[i].value);
      }
      MembersAgree(members);
      ObjectsAgree(members, CanonicalMembers(members), SortedMembers(members));
    case _ =>
  }

  lemma MembersAgree(members: seq<Member<Json>>)
    ensures CanonicalMembers(members) == SortedMembers(members) <==>
            forall i | 0 <= i < |members| :: Canonical(members[i].value) == Sorted(members[i].value)
  {
    var xs, ys := CanonicalMembers(members), SortedMembers(members);
    if xs == ys {
      forall i | 0 <= i < |members| ensures Canonical(members[i].value) == Sorted(members[i].value) {
        assert xs[i] == ys[i];
      }
    }
  }

  lemma ObjectsAgree(members: seq<Member<Json>>, xs: seq<Member<Json>>, ys: seq<Member<Json>>)
    requires UniqueKeys(members) && SameKeys(xs, members) && SameKeys(ys, members)
    ensures Fill(SortByKey(xs)) == SortByKey(ys) <==> KeysAgree(members) && xs == ys
  {
    hide Fill, KeysAgree, Enumerated;
    SortAligned(xs, ys);
    SortAligned(xs, members);
    SortedEnumerated(members);
    EnumeratedKeys(SortByKey(xs), SortByKey(members));
    EnumeratedKeys(SortByKey(xs), SortByKey(ys));
    SortHolds(xs);
    if Fill(SortByKey(xs)) == SortByKey(ys) {
      FillHolds(SortByKey(xs));
      FillKeeps(SortByKey(xs));
      SortIsInjective(xs, ys);
    } else if KeysAgree(members) && xs == ys {
      FillKeeps(SortByKey(xs));
    }
  }

  /**
   canonicalJson and stableJson print the same string exactly when no object has a key __proto__ and sorting puts no
   key before an array index unless it is a smaller index.
   */
  lemma CanonicalIsStableExactly(v: Json)
    requires Proper(v)
    ensures CanonicalJson(v) == StableJson(v) <==> Agrees(v)
  {
    StableIsWriteSorted(v);
    ParseUndoesWrite(Canonical(v));
    ParseUndoesWrite(Sorted(v));
    CanonicalIsSortedExactly(v);
  }
}
