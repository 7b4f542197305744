/** JSON trees, the order of their keys, and what a tree means when the order of object members does not count. */
module JsonTree {
  import opened JsText

  /** The integers that a double holds exactly and prints in full. */
  type SafeInt = n: int | -0x20_0000_0000_0000 <= n <= 0x20_0000_0000_0000

  /** The members of an object are listed in the order in which its keys are enumerated. */
  datatype Json =
    | Null
    | Bool(value: bool)
    | Num(number: SafeInt)
    | Str(text: Text)
    | Arr(items: seq<Json>)
    | Obj(members: seq<Member<Json>>)

  datatype Member<T> = Member(key: Text, value: T)

  /** The same with objects as maps. */
  datatype Tree =
    | NullTree
    | BoolTree(value: bool)
    | NumTree(number: SafeInt)
    | StrTree(text: Text)
    | ArrTree(items: seq<Tree>)
    | ObjTree(members: map<Text, Tree>)

  function Meaning(v: Json): Tree {
    match v
    case Null => NullTree
    case Bool(b) => BoolTree(b)
    case Num(n) => NumTree(n)
    case Str(t) => StrTree(t)
    case Arr(items) => ArrTree(Meanings(items))
    case Obj(members) => ObjTree(Dict(MemberMeanings(members)))
  }

  function Meanings(items: seq<Json>): (r: seq<Tree>)
    ensures |r| == |items|
  {
    if items == [] then [] else [Meaning(items[0])] + Meanings(items[1..])
  }

  function MemberMeanings(members: seq<Member<Json>>): (r: seq<Member<Tree>>)
    ensures SameKeys(r, members)
  {
    if members == [] then [] else [Member(members[0].key, Meaning(members[0].value))] + MemberMeanings(members[1..])
  }

  predicate SameKeys<T, U>(a: seq<Member<T>>, b: seq<Member<U>>) {
    |a| == |b| && forall i | 0 <= i < |a| :: a[i].key == b[i].key
  }

  function Dict<T>(members: seq<Member<T>>): (d: map<Text, T>)
    ensures forall k :: k in d <==> exists i :: 0 <= i < |members| && members[i].key == k
  {
    if members == [] then map[]
    else Dict(members[..|members| - 1])[members[|members| - 1].key := members[|members| - 1].value]
  }

  predicate UniqueKeys<T>(members: seq<Member<T>>) {
    forall i, j | 0 <= i < j < |members| :: members[i].key != members[j].key
  }

  /** No object has a key twice: true of every tree that JSON.parse or object literals can make. */
  predicate Proper(v: Json) {
    match v
    case Arr(items) => forall i | 0 <= i < |items| :: Proper(items[i])
    case Obj(members) => UniqueKeys(members) && forall i | 0 <= i < |members| :: Proper(members[i].value)
    case _ => true
  }

  // ---------------------------------------------------------------- the order of keys

  /** The order of Array.prototype.sort: by code units. */
  predicate Before(a: Text, b: Text) {
    b != [] && (a == [] || a[0] < b[0] || (a[0] == b[0] && Before(a[1..], b[1..])))
  }

  lemma {:induction false} BeforeTotal(a: Text, b: Text)
    ensures a == b || Before(a, b) || Before(b, a)
  {
    if a != [] && b != [] && a[0] == b[0] {
      BeforeTotal(a[1..], b[1..]);
      assert a == [a[0]] + a[1..] && b == [b[0]] + b[1..];
    }
  }

  lemma {:induction false} BeforeTransitive(a: Text, b: Text, c: Text)
    requires Before(a, b) && Before(b, c)
    ensures Before(a, c)
  {
    if a != [] && a[0] == b[0] && b[0] == c[0] {
      BeforeTransitive(a[1..], b[1..], c[1..]);
    }
  }

  lemma {:induction false} BeforeIrreflexive(a: Text)
    ensures !Before(a, a)
  {
    if a != [] {
      BeforeIrreflexive(a[1..]);
    }
  }

  lemma BeforeAsymmetric(a: Text, b: Text)
    ensures !(Before(a, b) && Before(b, a))
  {
    if Before(a, b) && Before(b, a) {
      BeforeTransitive(a, b, a);
      BeforeIrreflexive(a);
    }
  }

  /** The texts differ first where `b` has the greater code unit, or `b` goes on where `a` ends. */
  ghost predicate DifferAt(a: Text, b: Text, k: nat) {
    k <= |a| && k < |b| && a[..k] == b[..k] && (k == |a| || a[k] < b[k])
  }

  lemma HeadsAgree(a: Text, b: Text, k: nat)
    requires DifferAt(a, b, k)
    ensures k > 0 ==> a[0] == b[0]
  {
    assert k > 0 ==> a[..k][0] == b[..k][0];
  }

  /** So the order is that of the first code unit in which two keys differ. */
  lemma {:induction false} BeforeIsByCodeUnit(a: Text, b: Text)
    ensures Before(a, b) <==> exists k: nat :: DifferAt(a, b, k)
  {
    forall k: nat | DifferAt(a, b, k) ensures k > 0 ==> a[0] == b[0] {
      HeadsAgree(a, b, k);
    }
    if b != [] && a != [] && a[0] == b[0] {
      BeforeIsByCodeUnit(a[1..], b[1..]);
      if Before(a, b) {
        var k: nat :| DifferAt(a[1..], b[1..], k);
        assert a[..k + 1] == [a[0]] + a[1..][..k] && b[..k + 1] == [b[0]] + b[1..][..k];
        assert DifferAt(a, b, k + 1);
      } else if k: nat :| DifferAt(a, b, k) {
        assert k > 0 && a[1..][..k - 1] == a[..k][1..] && b[1..][..k - 1] == b[..k][1..];
        assert DifferAt(a[1..], b[1..], k - 1);
      }
    } else if b != [] && (a == [] || a[0] < b[0]) {
      assert DifferAt(a, b, 0);
    }
  }

  ghost predicate Ascending<T>(members: seq<Member<T>>) {
    forall i, j | 0 <= i < j < |members| :: Before(members[i].key, members[j].key)
  }

  /** Insert a member into a sorted list. */
  function Insert<T>(m: Member<T>, sorted: seq<Member<T>>): (r: seq<Member<T>>)
    ensures |r| == |sorted| + 1
  {
    if sorted == [] then [m]
    else if Before(m.key, sorted[0].key) then [m] + sorted
    else [sorted[0]] + Insert(m, sorted[1..])
  }

  lemma {:induction false} InsertIsPermutation<T>(m: Member<T>, sorted: seq<Member<T>>)
    ensures multiset(Insert(m, sorted)) == multiset(sorted) + multiset{m}
  {
    if sorted != [] {
      InsertIsPermutation(m, sorted[1..]);
      assert sorted == [sorted[0]] + sorted[1..];
    }
  }

  /** Object.keys(..).sort(), with the values alongside. */
  function SortByKey<T>(members: seq<Member<T>>): (r: seq<Member<T>>)
    ensures |r| == |members|
  {
    if members == [] then [] else Insert(members[0], SortByKey(members[1..]))
  }

  lemma {:induction false} SortIsPermutation<T>(members: seq<Member<T>>)
    ensures multiset(SortByKey(members)) == multiset(members)
  {
    if members != [] {
      SortIsPermutation(members[1..]);
      InsertIsPermutation(members[0], SortByKey(members[1..]));
      assert members == [members[0]] + members[1..];
    }
  }

  lemma {:induction false} InsertAscends<T>(m: Member<T>, sorted: seq<Member<T>>)
    requires Ascending(sorted) && forall i | 0 <= i < |sorted| :: sorted[i].key != m.key
    ensures Ascending(Insert(m, sorted))
  {
    if sorted != [] {
      BeforeTotal(m.key, sorted[0].key);
      if Before(m.key, sorted[0].key) {
        forall i | 0 <= i < |sorted| ensures Before(m.key, sorted[i].key) {
          if i > 0 {
            BeforeTransitive(m.key, sorted[0].key, sorted[i].key);
          }
        }
      } else {
        InsertAscends(m, sorted[1..]);
        var rest := Insert(m, sorted[1..]);
        InsertIsPermutation(m, sorted[1..]);
        forall i | 0 <= i < |rest| ensures Before(sorted[0].key, rest[i].key) {
          assert rest[i] in multiset(rest);
          assert rest[i] == m || rest[i] in sorted[1..];
        }
      }
    }
  }

  lemma {:induction false} SortAscends<T>(members: seq<Member<T>>)
    requires UniqueKeys(members)
    ensures Ascending(SortByKey(members))
  {
    if members != [] {
      var rest := SortByKey(members[1..]);
      SortAscends(members[1..]);
      SortIsPermutation(members[1..]);
      forall i | 0 <= i < |rest| ensures rest[i].key != members[0].key {
        assert rest[i] in multiset(rest);
        assert rest[i] in members[1..];
      }
      InsertAscends(members[0], rest);
    }
  }

  /** The second list holds what `f` makes of the values of the first. */
  ghost predicate Mapped<T(!new), U>(f: T -> U, a: seq<Member<T>>, b: seq<Member<U>>) {
    |a| == |b| && forall i | 0 <= i < |a| :: b[i] == Member(a[i].key, f(a[i].value))
  }

  lemma {:induction false} InsertMapped<T(!new), U>(f: T -> U, m: Member<T>, a: seq<Member<T>>, b: seq<Member<U>>)
    requires Mapped(f, a, b)
    ensures Mapped(f, Insert(m, a), Insert(Member(m.key, f(m.value)), b))
  {
    if a != [] && !Before(m.key, a[0].key) {
      InsertMapped(f, m, a[1..], b[1..]);
      var n := Member(m.key, f(m.value));
      assert Insert(m, a) == [a[0]] + Insert(m, a[1..]) && Insert(n, b) == [b[0]] + Insert(n, b[1..]);
    }
  }

  /** Sorting looks at the keys only, so it does not matter whether the values are mapped before or after. */
  lemma {:induction false} SortMapped<T(!new), U>(f: T -> U, a: seq<Member<T>>, b: seq<Member<U>>)
    requires Mapped(f, a, b)
    ensures Mapped(f, SortByKey(a), SortByKey(b))
  {
    if a != [] {
      SortMapped(f, a[1..], b[1..]);
      InsertMapped(f, a[0], SortByKey(a[1..]), SortByKey(b[1..]));
    }
  }

  // ---------------------------------------------------------------- sorted trees

  /** The tree with the members of every object in the order of their keys. */
  function Sorted(v: Json): Json {
    match v
    case Arr(items) => Arr(SortedItems(items))
    case Obj(members) => Obj(SortByKey(SortedMembers(members)))
    case _ => v
  }

  function SortedItems(items: seq<Json>): (r: seq<Json>)
    ensures |r| == |items| && forall i | 0 <= i < |items| :: r[i] == Sorted(items[i])
  {
    if items == [] then [] else [Sorted(items[0])] + SortedItems(items[1..])
  }

  function SortedMembers(members: seq<Member<Json>>): (r: seq<Member<Json>>)
    ensures |r| == |members|
    ensures forall i | 0 <= i < |members| :: r[i] == Member(members[i].key, Sorted(members[i].value))
  {
    if members == [] then [] else [Member(members[0].key, Sorted(members[0].value))] + SortedMembers(members[1..])
  }
}
