/** Facts about Dafny's finite sets and maps that the loops over keys use. */
module Collections {

  lemma SomeInt(s: set<int>)
    requires s != {}
    ensures exists x :: x in s
  {
    if forall x :: x !in s {
      assert false;
    }
  }

  lemma SomeString(s: set<string>)
    requires s != {}
    ensures exists x :: x in s
  {
    if forall x :: x !in s {
      assert false;
    }
  }

  lemma NamedId(m: map<int, string>, name: string)
    requires name in m.Values
    ensures exists id :: id in m && m[id] == name
  {
    if forall id :: id in m ==> m[id] != name {
      assert false;
    }
  }

  /** Two maps of bone maps with the same keys and the same values are equal. */
  lemma SameEntries(r: map<int, map<int, string>>, m: map<int, map<int, string>>)
    requires forall sid :: sid in m ==> sid in r && r[sid] == m[sid]
    requires forall sid :: sid in r ==> sid in m
    ensures r == m
  {
    assert forall sid :: sid in r <==> sid in m;
    assert forall sid :: sid in r ==> r[sid] == m[sid];
  }
}
