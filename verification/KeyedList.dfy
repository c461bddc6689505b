/** Lists whose items carry an ID and a second unique key, and the finite map by
    ID such a list stands for: replacing, adding, removing and sorting items. */
module KeyedList {
  import StringOrder

  ghost predicate Distinct<T>(s: seq<T>, id: T -> string, key: T -> string) {
    forall i, j | 0 <= i < j < |s| :: id(s[i]) != id(s[j]) && key(s[i]) != key(s[j])
  }

  function AsMap<T>(s: seq<T>, id: T -> string): map<string, T> {
    if |s| == 0 then map[] else AsMap(s[..|s| - 1], id)[id(s[|s| - 1]) := s[|s| - 1]]
  }

  /** Whether the list can take item e under its ID: no item with another ID has
      its key. */
  ghost predicate NoClash<T>(s: seq<T>, e: T, id: T -> string, key: T -> string) {
    forall h | h in s && id(h) != id(e) :: key(h) != key(e)
  }

  lemma {:induction false} AsMapKeys<T>(s: seq<T>, id: T -> string, x: string)
    requires x in AsMap(s, id)
    ensures AsMap(s, id)[x] in s && id(AsMap(s, id)[x]) == x
  {
    if id(s[|s| - 1]) != x {
      AsMapKeys(s[..|s| - 1], id, x);
    }
  }

  lemma {:induction false} AsMapHas<T>(s: seq<T>, id: T -> string, key: T -> string, h: T)
    requires Distinct(s, id, key) && h in s
    ensures id(h) in AsMap(s, id) && AsMap(s, id)[id(h)] == h
  {
    var init, last := s[..|s| - 1], s[|s| - 1];
    if h != last {
      var i :| 0 <= i < |s| && s[i] == h;
      assert init[i] == h;
      AsMapHas(init, id, key, h);
    }
  }

  /** An ID is mapped exactly when an item has it. */
  lemma AsMapLacks<T>(s: seq<T>, id: T -> string, x: string)
    requires forall h | h in s :: id(h) != x
    ensures x !in AsMap(s, id)
  {
    if x in AsMap(s, id) {
      AsMapKeys(s, id, x);
    }
  }

  /** Lists with the same items stand for the same map. */
  lemma SameMap<T>(a: seq<T>, b: seq<T>, id: T -> string, key: T -> string)
    requires Distinct(a, id, key) && Distinct(b, id, key)
    requires (forall h | h in a :: h in b) && (forall h | h in b :: h in a)
    ensures AsMap(a, id) == AsMap(b, id)
  {
    var m, n := AsMap(a, id), AsMap(b, id);
    forall x | x in m
      ensures x in n && n[x] == m[x]
    {
      AsMapKeys(a, id, x);
      AsMapHas(b, id, key, m[x]);
    }
    forall x | x in n
      ensures x in m
    {
      AsMapKeys(b, id, x);
      AsMapHas(a, id, key, n[x]);
    }
  }

  lemma ReplaceDistinct<T>(s: seq<T>, i: nat, e: T, id: T -> string, key: T -> string)
    requires i < |s| && Distinct(s, id, key) && id(s[i]) == id(e)
    ensures Distinct(s[i := e], id, key) <==> NoClash(s, e, id, key)
  {
    var r := s[i := e];
    if NoClash(s, e, id, key) {
      forall k | 0 <= k < |s| && k != i
        ensures id(r[k]) != id(e) && key(r[k]) != key(e)
      {
        assert s[k] in s;
      }
    }
    if Distinct(r, id, key) {
      forall h | h in s && id(h) != id(e)
        ensures key(h) != key(e)
      {
        var k :| 0 <= k < |s| && s[k] == h;
        assert r[k] == h && r[i] == e;
      }
    }
  }

  lemma {:induction false} ReplaceMap<T>(s: seq<T>, i: nat, e: T, id: T -> string)
    requires i < |s| && id(s[i]) == id(e)
    requires forall k | i < k < |s| :: id(s[k]) != id(e)
    ensures AsMap(s[i := e], id) == AsMap(s, id)[id(e) := e]
  {
    var last := |s| - 1;
    if i < last {
      ReplaceMap(s[..last], i, e, id);
      assert s[i := e][..last] == s[..last][i := e];
    } else {
      assert s[i := e][..last] == s[..last];
    }
  }

  lemma AppendDistinct<T>(s: seq<T>, e: T, id: T -> string, key: T -> string)
    requires Distinct(s, id, key) && forall h | h in s :: id(h) != id(e)
    ensures Distinct(s + [e], id, key) <==> NoClash(s, e, id, key)
    ensures AsMap(s + [e], id) == AsMap(s, id)[id(e) := e]
  {
    var r := s + [e];
    assert r[..|s|] == s;
    if Distinct(r, id, key) {
      forall h | h in s
        ensures key(h) != key(e)
      {
        var k :| 0 <= k < |s| && s[k] == h;
        assert r[k] == h && r[|s|] == e;
      }
    }
    if NoClash(s, e, id, key) {
      forall k | 0 <= k < |s|
        ensures id(r[k]) != id(e) && key(r[k]) != key(e)
      {
        assert s[k] in s;
      }
    }
  }

  function Without<T>(s: seq<T>, x: string, id: T -> string): seq<T> {
    if |s| == 0 then []
    else Without(s[..|s| - 1], x, id) + if id(s[|s| - 1]) != x then [s[|s| - 1]] else []
  }

  lemma {:induction false} WithoutItems<T>(s: seq<T>, x: string, id: T -> string)
    ensures |Without(s, x, id)| <= |s|
    ensures forall h | h in Without(s, x, id) :: h in s && id(h) != x
    ensures |Without(s, x, id)| == |s| ==> Without(s, x, id) == s
    ensures |Without(s, x, id)| == |s| <==> forall h | h in s :: id(h) != x
  {
    if |s| > 0 {
      WithoutItems(s[..|s| - 1], x, id);
      assert s == s[..|s| - 1] + [s[|s| - 1]];
    }
  }

  lemma {:induction false} WithoutMap<T>(s: seq<T>, x: string, id: T -> string)
    ensures AsMap(Without(s, x, id), id) == AsMap(s, id) - {x}
  {
    if |s| > 0 {
      var init, last := s[..|s| - 1], s[|s| - 1];
      WithoutMap(init, x, id);
      var m := AsMap(init, id);
      if id(last) != x {
        AsMapAppend(Without(init, x, id), last, id);
        PutThenDrop(m, id(last), last, x);
      } else {
        assert Without(s, x, id) == Without(init, x, id);
        assert m[x := last] - {x} == m - {x};
      }
    }
  }

  lemma AsMapAppend<T>(s: seq<T>, e: T, id: T -> string)
    ensures AsMap(s + [e], id) == AsMap(s, id)[id(e) := e]
  {
    assert (s + [e])[..|s|] == s;
  }

  lemma PutThenDrop<T>(m: map<string, T>, k: string, v: T, x: string)
    requires k != x
    ensures m[k := v] - {x} == (m - {x})[k := v]
  {
  }

  lemma {:induction false} WithoutDistinct<T>(s: seq<T>, x: string, id: T -> string, key: T -> string)
    requires Distinct(s, id, key)
    ensures Distinct(Without(s, x, id), id, key)
  {
    if |s| > 0 {
      var init, last := s[..|s| - 1], s[|s| - 1];
      WithoutDistinct(init, x, id, key);
      WithoutItems(init, x, id);
      LastIsNew(s, id, key);
      AppendDistinct(Without(init, x, id), last, id, key);
    }
  }

  lemma LastIsNew<T>(s: seq<T>, id: T -> string, key: T -> string)
    requires |s| > 0 && Distinct(s, id, key)
    ensures forall h | h in s[..|s| - 1] :: id(h) != id(s[|s| - 1]) && key(h) != key(s[|s| - 1])
  {
    forall h | h in s[..|s| - 1]
      ensures id(h) != id(s[|s| - 1]) && key(h) != key(s[|s| - 1])
    {
      var j :| 0 <= j < |s| - 1 && s[j] == h;
    }
  }

  // ---- Sorting by ID ----

  ghost predicate SortedById<T>(s: seq<T>, id: T -> string) {
    forall i, j | 0 <= i < j < |s| :: StringOrder.Less(id(s[i]), id(s[j]))
  }

  function InsertById<T>(s: seq<T>, e: T, id: T -> string): seq<T> {
    if |s| == 0 || StringOrder.Less(id(s[|s| - 1]), id(e)) then s + [e]
    else InsertById(s[..|s| - 1], e, id) + [s[|s| - 1]]
  }

  function SortById<T>(s: seq<T>, id: T -> string): seq<T> {
    if |s| == 0 then [] else InsertById(SortById(s[..|s| - 1], id), s[|s| - 1], id)
  }

  lemma {:induction false} InsertElements<T(!new)>(s: seq<T>, e: T, id: T -> string)
    ensures |InsertById(s, e, id)| == |s| + 1 && forall h :: h in InsertById(s, e, id) <==> h in s || h == e
  {
    if |s| > 0 && !StringOrder.Less(id(s[|s| - 1]), id(e)) {
      InsertElements(s[..|s| - 1], e, id);
      assert s == s[..|s| - 1] + [s[|s| - 1]];
    }
  }

  lemma {:induction false} InsertSorted<T(!new)>(s: seq<T>, e: T, id: T -> string)
    requires SortedById(s, id) && forall h | h in s :: id(h) != id(e)
    ensures SortedById(InsertById(s, e, id), id)
  {
    if |s| > 0 && !StringOrder.Less(id(s[|s| - 1]), id(e)) {
      var init, last := s[..|s| - 1], s[|s| - 1];
      InsertSorted(init, e, id);
      InsertElements(init, e, id);
      StringOrder.Total(id(last), id(e));
      var r := InsertById(init, e, id);
      forall i | 0 <= i < |r|
        ensures StringOrder.Less(id(r[i]), id(last))
      {
        assert r[i] in r;
      }
    } else {
      forall i | 0 <= i < |s| - 1
        ensures StringOrder.Less(id(s[i]), id(e))
      {
        StringOrder.Transitive(id(s[i]), id(s[|s| - 1]), id(e));
      }
    }
  }

  lemma {:induction false} SortElements<T(!new)>(s: seq<T>, id: T -> string)
    ensures |SortById(s, id)| == |s| && forall h :: h in SortById(s, id) <==> h in s
  {
    if |s| > 0 {
      SortElements(s[..|s| - 1], id);
      InsertElements(SortById(s[..|s| - 1], id), s[|s| - 1], id);
      assert s == s[..|s| - 1] + [s[|s| - 1]];
    }
  }

  lemma {:induction false} SortSorted<T(!new)>(s: seq<T>, id: T -> string, key: T -> string)
    requires Distinct(s, id, key)
    ensures SortedById(SortById(s, id), id)
  {
    if |s| > 0 {
      var init, last := s[..|s| - 1], s[|s| - 1];
      SortSorted(init, id, key);
      SortElements(init, id);
      InsertSorted(SortById(init, id), last, id);
    }
  }

  /** Sorting keeps the items, their distinctness and the map. */
  lemma SortKeeps<T(!new)>(s: seq<T>, id: T -> string, key: T -> string)
    requires Distinct(s, id, key)
    ensures var r := SortById(s, id);
      && SortedById(r, id) && Distinct(r, id, key) && |r| == |s|
      && (forall h :: h in r <==> h in s) && AsMap(r, id) == AsMap(s, id)
  {
    SortSorted(s, id, key);
    SortElements(s, id);
    var r := SortById(s, id);
    forall i, j | 0 <= i < j < |r|
      ensures id(r[i]) != id(r[j]) && key(r[i]) != key(r[j])
    {
      StringOrder.Asymmetric(id(r[i]), id(r[j]));
      assert r[i] in r && r[j] in r;
      var a :| 0 <= a < |s| && s[a] == r[i];
      var b :| 0 <= b < |s| && s[b] == r[j];
    }
    SameMap(r, s, id, key);
  }
}
