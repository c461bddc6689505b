/** Go's order on strings (byte-wise lexicographic) and the sorted listing of a
    set of strings, which is unique. */
module StringOrder {

  predicate Less(a: string, b: string)
    decreases |a|
  {
    |b| > 0 && (|a| == 0 || a[0] < b[0] || (a[0] == b[0] && Less(a[1..], b[1..])))
  }

  lemma {:induction false} Transitive(a: string, b: string, c: string)
    requires Less(a, b) && Less(b, c)
    ensures Less(a, c)
    decreases |a|
  {
    if |a| > 0 && a[0] == b[0] && b[0] == c[0] {
      Transitive(a[1..], b[1..], c[1..]);
    }
  }

  lemma {:induction false} Irreflexive(a: string)
    ensures !Less(a, a)
    decreases |a|
  {
    if |a| > 0 {
      Irreflexive(a[1..]);
    }
  }

  lemma {:induction false} Total(a: string, b: string)
    ensures a == b || Less(a, b) || Less(b, a)
    decreases |a|
  {
    if |a| > 0 && |b| > 0 && a[0] == b[0] {
      Total(a[1..], b[1..]);
      assert a == [a[0]] + a[1..] && b == [b[0]] + b[1..];
    }
  }

  lemma Asymmetric(a: string, b: string)
    requires Less(a, b)
    ensures !Less(b, a) && a != b
  {
    Irreflexive(a);
    if Less(b, a) {
      Transitive(a, b, a);
    }
  }

  ghost predicate Sorted(s: seq<string>) {
    forall i, j | 0 <= i < j < |s| :: Less(s[i], s[j])
  }

  function ToSet(s: seq<string>): set<string> {
    set x | x in s
  }

  lemma {:induction false} SortedSize(s: seq<string>)
    requires Sorted(s)
    ensures |ToSet(s)| == |s|
  {
    if |s| > 0 {
      var init, last := s[..|s| - 1], s[|s| - 1];
      SortedSize(init);
      assert s == init + [last];
      assert ToSet(s) == ToSet(init) + {last};
      if last in ToSet(init) {
        var i :| 0 <= i < |init| && init[i] == last;
        Irreflexive(last);
      }
    }
  }

  /** A sorted listing is determined by its elements. */
  lemma {:induction false} SortedUnique(s: seq<string>, t: seq<string>)
    requires Sorted(s) && Sorted(t) && ToSet(s) == ToSet(t)
    ensures s == t
  {
    SortedSize(s);
    SortedSize(t);
    if |s| > 0 {
      var a, b := s[|s| - 1], t[|t| - 1];
      assert a in ToSet(s) && b in ToSet(t);
      LastIsGreatest(s, b);
      LastIsGreatest(t, a);
      if a != b {
        Asymmetric(a, b);
      }
      var s', t' := s[..|s| - 1], t[..|t| - 1];
      WithoutLast(s);
      WithoutLast(t);
      SortedUnique(s', t');
      assert s == s' + [a] && t == t' + [b];
    }
  }

  lemma LastIsGreatest(s: seq<string>, x: string)
    requires Sorted(s) && x in s
    ensures x == s[|s| - 1] || Less(x, s[|s| - 1])
  {
  }

  lemma WithoutLast(s: seq<string>)
    requires Sorted(s) && |s| > 0
    ensures Sorted(s[..|s| - 1]) && ToSet(s[..|s| - 1]) == ToSet(s) - {s[|s| - 1]}
  {
    var init, last := s[..|s| - 1], s[|s| - 1];
    assert s == init + [last];
    if last in init {
      Irreflexive(last);
    }
  }
}
