/** Sorting the keys keeps the meaning of a tree, and trees with the same meaning have the same sorted form. */
module JsonMeaning {
  import opened JsonTree

  /** In an object without double keys the map holds exactly the members. */
  lemma {:induction false} DictHolds<T(!new)>(members: seq<Member<T>>)
    requires UniqueKeys(members)
    ensures forall m {:trigger m in members} :: m in members <==> m.key in Dict(members) && Dict(members)[m.key] == m.value
  {
    if members != [] {
      var n := |members| - 1;
      var front := members[..n];
      DictHolds(front);
      assert members == front + [members[n]];
      forall m: Member<T> ensures m in members <==> m.key in Dict(members) && Dict(members)[m.key] == m.value {
        assert m in members <==> m in front || m == members[n];
        assert m in front ==> m.key != members[n].key;
      }
    }
  }

  lemma {:induction false} AscendingIsUnique<T>(members: seq<Member<T>>)
    requires Ascending(members)
    ensures UniqueKeys(members)
  {
    forall i, j | 0 <= i < j < |members| ensures members[i].key != members[j].key {
      BeforeIrreflexive(members[i].key);
    }
  }

  /** A sorted list is determined by its members. */
  lemma {:induction false} SortedListIsUnique<T(!new)>(xs: seq<Member<T>>, ys: seq<Member<T>>)
    requires Ascending(xs) && Ascending(ys) && forall m :: m in xs <==> m in ys
    ensures xs == ys
  {
    HasMember(ys);
    if xs != [] {
      assert xs[0] in xs && xs[0] in ys;
      assert ys[0] in ys && ys[0] in xs;
      FirstIsLeast(xs, ys[0]);
      FirstIsLeast(ys, xs[0]);
      BeforeAsymmetric(xs[0].key, ys[0].key);
      RestMembers(xs);
      RestMembers(ys);
      SortedListIsUnique(xs[1..], ys[1..]);
      assert xs == [xs[0]] + xs[1..] && ys == [ys[0]] + ys[1..];
    }
  }

  lemma HasMember<T(!new)>(xs: seq<Member<T>>)
    ensures xs == [] || exists m :: m in xs
  {
    assert xs != [] ==> xs[0] in xs;
  }

  lemma {:induction false} FirstIsLeast<T>(xs: seq<Member<T>>, m: Member<T>)
    requires Ascending(xs) && m in xs
    ensures m == xs[0] || Before(xs[0].key, m.key)
  {
  }

  lemma {:induction false} RestMembers<T(!new)>(xs: seq<Member<T>>)
    requires Ascending(xs) && xs != []
    ensures forall m :: m in xs[1..] <==> m in xs && m != xs[0]
  {
    AscendingIsUnique(xs);
    assert xs == [xs[0]] + xs[1..];
    forall i | 0 <= i < |xs[1..]| ensures xs[1..][i] != xs[0] {
      assert xs[1..][i] == xs[i + 1];
    }
  }

  lemma {:induction false} SortHolds<T(!new)>(members: seq<Member<T>>)
    requires UniqueKeys(members)
    ensures Ascending(SortByKey(members)) && UniqueKeys(SortByKey(members))
    ensures forall m :: m in SortByKey(members) <==> m in members
  {
    SortAscends(members);
    SortIsPermutation(members);
    AscendingIsUnique(SortByKey(members));
    forall m: Member<T> ensures m in SortByKey(members) <==> m in members {
      assert m in SortByKey(members) <==> m in multiset(SortByKey(members));
      assert m in members <==> m in multiset(members);
    }
  }

  /** A list in another order has the same map. */
  lemma {:induction false} SortedDict<T(!new)>(members: seq<Member<T>>)
    requires UniqueKeys(members)
    ensures Dict(SortByKey(members)) == Dict(members)
  {
    SortHolds(members);
    SameMembersSameDict(SortByKey(members), members);
  }

  /** Equal maps have equal sorted lists. */
  lemma {:induction false} SortByDict<T(!new)>(xs: seq<Member<T>>, ys: seq<Member<T>>)
    requires UniqueKeys(xs) && UniqueKeys(ys) && Dict(xs) == Dict(ys)
    ensures SortByKey(xs) == SortByKey(ys)
  {
    DictHolds(xs);
    DictHolds(ys);
    SortHolds(xs);
    SortHolds(ys);
    SortedListIsUnique(SortByKey(xs), SortByKey(ys));
  }

  // ---------------------------------------------------------------- sorting commutes with what is done to the values

  lemma MeaningsAt(items: seq<Json>)
    ensures forall i | 0 <= i < |items| :: Meanings(items)[i] == Meaning(items[i])
  {
  }

  lemma MemberMeaningsAt(members: seq<Member<Json>>)
    ensures forall i | 0 <= i < |members| :: MemberMeanings(members)[i] == Member(members[i].key, Meaning(members[i].value))
  {
  }

  lemma SortMeaning(members: seq<Member<Json>>)
    ensures MemberMeanings(SortByKey(members)) == SortByKey(MemberMeanings(members))
  {
    MemberMeaningsAt(members);
    MemberMeaningsAt(SortByKey(members));
    SortMapped(Meaning, members, MemberMeanings(members));
  }

  /** Sorting the keys of a tree does not change what it means. */
  lemma {:induction false} SortingKeepsMeaning(v: Json)
    requires Proper(v)
    ensures Meaning(Sorted(v)) == Meaning(v)
  {
    match v
    case Arr(items) =>
      MeaningsAt(items);
      MeaningsAt(SortedItems(items));
      forall i | 0 <= i < |items| ensures Meaning(Sorted(items[i])) == Meaning(items[i]) {
        SortingKeepsMeaning(items[i]);
      }
      assert Meanings(SortedItems(items)) == Meanings(items);
    case Obj(members) =>
      var sorted := SortedMembers(members);
      MemberMeaningsAt(members);
      MemberMeaningsAt(sorted);
      forall i | 0 <= i < |members| ensures Meaning(Sorted(members[i].value)) == Meaning(members[i].value) {
        SortingKeepsMeaning(members[i].value);
      }
      assert MemberMeanings(sorted) == MemberMeanings(members);
      SortMeaning(sorted);
      SortedDict(MemberMeanings(members));
    case _ =>
  }

  /** Trees that mean the same have the same sorted form. */
  lemma {:induction false} MeaningFixesSorted(v: Json, w: Json)
    requires Proper(v) && Proper(w) && Meaning(v) == Meaning(w)
    ensures Sorted(v) == Sorted(w)
    decreases v
  {
    match v
    case Arr(items) =>
      var others := w.items;
      MeaningsAt(items);
      MeaningsAt(others);
      assert |items| == |Meanings(items)| == |others|;
      forall i | 0 <= i < |items| ensures Sorted(items[i]) == Sorted(others[i]) {
        assert Meanings(items)[i] == Meanings(others)[i];
        MeaningFixesSorted(items[i], others[i]);
      }
      assert SortedItems(items) == SortedItems(others);
    case Obj(members) =>
      SortedDictsAgree(members, w.members);
      SortByDict(SortedMembers(members), SortedMembers(w.members));
    case _ =>
  }

  /** Objects with equal maps: each member of the one has its like in the other. */
  lemma MatchingMember(members: seq<Member<Json>>, others: seq<Member<Json>>, i: nat) returns (j: nat)
    requires UniqueKeys(members) && UniqueKeys(others) && i < |members|
    requires Dict(MemberMeanings(members)) == Dict(MemberMeanings(others))
    ensures j < |others| && others[j].key == members[i].key && Meaning(others[j].value) == Meaning(members[i].value)
  {
    hide Dict, Meaning;
    var xs, ys := MemberMeanings(members), MemberMeanings(others);
    MemberMeaningsAt(members);
    MemberMeaningsAt(others);
    DictHolds(xs);
    DictHolds(ys);
    assert xs[i] in xs && xs[i] in ys;
    j :| 0 <= j < |ys| && ys[j] == xs[i];
  }

  lemma {:induction false} SortedDictsAgree(members: seq<Member<Json>>, others: seq<Member<Json>>)
    requires Proper(Obj(members)) && Proper(Obj(others)) && Dict(MemberMeanings(members)) == Dict(MemberMeanings(others))
    ensures Dict(SortedMembers(members)) == Dict(SortedMembers(others))
    decreases members, 0
  {
    hide Dict, Meaning, MemberMeanings, Sorted;
    var xs, ys := SortedMembers(members), SortedMembers(others);
    forall i | 0 <= i < |members| ensures xs[i] in ys {
      var j := MatchingMember(members, others, i);
      MeaningFixesSorted(members[i].value, others[j].value);
      assert xs[i] == ys[j];
    }
    forall j | 0 <= j < |others| ensures ys[j] in xs {
      var i := MatchingMember(others, members, j);
      MeaningFixesSorted(members[i].value, others[j].value);
      assert xs[i] == ys[j];
    }
    SameMembersSameDict(xs, ys);
  }

  lemma SameMembersSameDict<T(!new)>(xs: seq<Member<T>>, ys: seq<Member<T>>)
    requires UniqueKeys(xs) && UniqueKeys(ys)
    requires (forall i | 0 <= i < |xs| :: xs[i] in ys) && (forall j | 0 <= j < |ys| :: ys[j] in xs)
    ensures Dict(xs) == Dict(ys)
  {
    hide Dict;
    DictHolds(xs);
    DictHolds(ys);
    forall k | k in Dict(xs) ensures k in Dict(ys) && Dict(ys)[k] == Dict(xs)[k] {
      assert Member(k, Dict(xs)[k]) in xs;
      assert Member(k, Dict(xs)[k]) in ys;
    }
    forall k | k in Dict(ys) ensures k in Dict(xs) {
      assert Member(k, Dict(ys)[k]) in ys;
      assert Member(k, Dict(ys)[k]) in xs;
    }
  }
}
