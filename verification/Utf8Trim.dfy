/** Cutting UTF-8 text at a byte count without leaving a partial character.
    Valid is section 3 of RFC 3629, as Go's utf8.Valid decides it. */
module Utf8Trim {

  newtype Byte = b: int | 0 <= b < 256

  const UTF_MAX := 4

  /** utf8.RuneStart: not a continuation byte. */
  predicate RuneStart(b: Byte) {
    b < 0x80 || b >= 0xC0
  }

  predicate Tail(b: Byte) {
    0x80 <= b <= 0xBF
  }

  /** The length a lead byte announces; 0 for a byte no character starts with. */
  function Announced(b: Byte): nat {
    if b < 0x80 then 1
    else if 0xC2 <= b <= 0xDF then 2
    else if 0xE0 <= b <= 0xEF then 3
    else if 0xF0 <= b <= 0xF4 then 4
    else 0
  }

  /** The second byte's range: no overlong forms, no surrogates, nothing above
      U+10FFFF. */
  predicate Second(lead: Byte, b: Byte) {
    && Tail(b)
    && (lead == 0xE0 ==> b >= 0xA0) && (lead == 0xED ==> b <= 0x9F)
    && (lead == 0xF0 ==> b >= 0x90) && (lead == 0xF4 ==> b <= 0x8F)
  }

  /** s is a nonempty part of one character, from its first byte. */
  predicate RunePrefix(s: seq<Byte>) {
    && 1 <= |s| <= Announced(s[0])
    && (|s| >= 2 ==> Second(s[0], s[1]))
    && (|s| >= 3 ==> Tail(s[2]))
    && (|s| >= 4 ==> Tail(s[3]))
  }

  predicate Rune(s: seq<Byte>) {
    RunePrefix(s) && |s| == Announced(s[0])
  }

  predicate Valid(s: seq<Byte>)
    decreases |s|
  {
    |s| == 0 ||
    (var n := Announced(s[0]); n > 0 && n <= |s| && Rune(s[..n]) && Valid(s[n..]))
  }

  /** utf8.FullRune: the bytes already decide the first character, valid or not. */
  predicate FullRune(s: seq<Byte>) {
    |s| > 0 &&
    (Announced(s[0]) <= |s| || (|s| > 1 && !Second(s[0], s[1])) || (|s| > 2 && !Tail(s[2])))
  }

  // ---- Valid text is encoded text ----

  /** Code points: no surrogates, nothing above U+10FFFF. */
  predicate Scalar(c: int) {
    0 <= c < 0x11_0000 && !(0xD800 <= c < 0xE000)
  }

  function Continuation(c: int): Byte {
    (0x80 + c % 0x40) as Byte
  }

  /** The table of section 3 of RFC 3629. */
  function Encode(c: int): seq<Byte>
    requires Scalar(c)
  {
    var c1 := c / 0x40;
    var c2 := c1 / 0x40;
    if c < 0x80 then [c as Byte]
    else if c < 0x800 then [(0xC0 + c1) as Byte, Continuation(c)]
    else if c < 0x1_0000 then [(0xE0 + c2) as Byte, Continuation(c1), Continuation(c)]
    else [(0xF0 + c2 / 0x40) as Byte, Continuation(c2), Continuation(c1), Continuation(c)]
  }

  lemma EncodedIsRune(c: int)
    requires Scalar(c)
    ensures Rune(Encode(c))
  {
  }

  lemma RuneIsEncoded(s: seq<Byte>) returns (c: int)
    requires Rune(s)
    ensures Scalar(c) && Encode(c) == s
  {
    if |s| == 1 {
      c := s[0] as int;
    } else if |s| == 2 {
      c := Packed(s[0] as int - 0xC0, s[1]);
    } else if |s| == 3 {
      c := ThreeBytes(s);
    } else {
      c := FourBytes(s);
    }
  }

  lemma ThreeBytes(s: seq<Byte>) returns (c: int)
    requires Rune(s) && |s| == 3
    ensures Scalar(c) && Encode(c) == s
  {
    var c1 := Packed(s[0] as int - 0xE0, s[1]);
    c := Packed(c1, s[2]);
    assert 0x800 <= c < 0x1_0000;
  }

  lemma FourBytes(s: seq<Byte>) returns (c: int)
    requires Rune(s) && |s| == 4
    ensures Scalar(c) && Encode(c) == s
  {
    var c2 := Packed(s[0] as int - 0xF0, s[1]);
    var c1 := Packed(c2, s[2]);
    c := Packed(c1, s[3]);
    assert 0x10 <= c2 < 0x110;
    assert 0x400 <= c1 < 0x4400;
    assert 0x1_0000 <= c < 0x11_0000;
    assert s == [s[0], Continuation(c2), Continuation(c1), Continuation(c)];
    assert c2 / 0x40 == s[0] as int - 0xF0;
  }

  /** Six more bits. */
  function Packed(high: int, b: Byte): (c: int)
    requires Tail(b)
    ensures c / 0x40 == high && Continuation(c) == b && 0x40 * high <= c < 0x40 * (high + 1)
  {
    0x40 * high + (b as int - 0x80)
  }

  function EncodeAll(cs: seq<int>): seq<Byte>
    requires forall c | c in cs :: Scalar(c)
  {
    if |cs| == 0 then [] else Encode(cs[0]) + EncodeAll(cs[1..])
  }

  lemma {:induction false} EncodedIsValid(cs: seq<int>)
    requires forall c | c in cs :: Scalar(c)
    ensures Valid(EncodeAll(cs))
  {
    if |cs| > 0 {
      EncodedIsValid(cs[1..]);
      EncodedIsRune(cs[0]);
      var e, s := Encode(cs[0]), EncodeAll(cs);
      assert s[0] == e[0] && s[..|e|] == e && s[|e|..] == EncodeAll(cs[1..]);
    }
  }

  lemma {:induction false} ValidIsEncoded(s: seq<Byte>) returns (cs: seq<int>)
    requires Valid(s)
    ensures (forall c | c in cs :: Scalar(c)) && EncodeAll(cs) == s
    decreases |s|
  {
    cs := [];
    if |s| > 0 {
      var n := Announced(s[0]);
      var c := RuneIsEncoded(s[..n]);
      var rest := ValidIsEncoded(s[n..]);
      cs := [c] + rest;
      assert cs[1..] == rest && s == s[..n] + s[n..];
    }
  }

  /** Bytes are valid exactly when they encode some text, in the table of RFC 3629. */
  lemma ValidIffEncoded(s: seq<Byte>)
    ensures Valid(s) <==> exists cs: seq<int> :: (forall c | c in cs :: Scalar(c)) && EncodeAll(cs) == s
  {
    if Valid(s) {
      var cs := ValidIsEncoded(s);
    }
    if cs: seq<int> :| (forall c | c in cs :: Scalar(c)) && EncodeAll(cs) == s {
      EncodedIsValid(cs);
    }
  }

  // ---- Where a valid text may be cut ----

  lemma {:induction false} ValidAppend(a: seq<Byte>, b: seq<Byte>)
    requires Valid(a)
    ensures Valid(a + b) <==> Valid(b)
    decreases |a|
  {
    if |a| > 0 {
      var n := Announced(a[0]);
      assert (a + b)[..n] == a[..n];
      assert (a + b)[n..] == a[n..] + b;
      ValidAppend(a[n..], b);
    } else {
      assert a + b == b;
    }
  }

  /** What holds of the text after its first character holds of the whole. */
  lemma AfterFirstRune(w: seq<Byte>, k: nat, c: nat, n: nat)
    requires 0 < k <= k + c <= n <= |w| && Rune(w[..k]) && Valid(w[k..][..c])
    ensures Valid(w[..k + c]) && w[k..][c..n - k] == w[k + c..n]
  {
    var v := w[..k + c];
    assert v[..k] == w[..k] && v[k..] == w[k..][..c];
    assert v[0] == w[..k][0] && Announced(v[0]) == k;
    assert Valid(v);
    CutAfter(w, k, c, n);
  }

  lemma CutAfter(w: seq<Byte>, k: nat, c: nat, n: nat)
    requires k + c <= n <= |w|
    ensures w[k..][c..n - k] == w[k + c..n]
  {
  }

  /** Every cut of a valid text leaves a valid text followed by a proper part,
      possibly empty, of one character. */
  lemma {:induction false} CutShape(w: seq<Byte>, n: nat) returns (b: nat)
    requires Valid(w) && n <= |w|
    ensures b <= n && Valid(w[..b]) && n - b < UTF_MAX
    ensures b < n ==> RunePrefix(w[b..n]) && !Rune(w[b..n])
    decreases |w|
  {
    if n == 0 {
      b := 0;
    } else {
      var k := Announced(w[0]);
      if n < k {
        b := 0;
        assert w[0..n] == w[..k][..n];
      } else {
        var c := CutShape(w[k..], n - k);
        b := k + c;
        AfterFirstRune(w, k, c, n);
      }
    }
  }

  /** Part of a character is not valid text, whatever its length. */
  lemma PartIsInvalid(s: seq<Byte>)
    requires RunePrefix(s) && !Rune(s)
    ensures !Valid(s)
  {
  }

  /** The longest valid prefix of a cut text is what CutShape found. */
  lemma LongerIsInvalid(w: seq<Byte>, n: nat, b: nat, m: nat)
    requires b < m <= n <= |w| && Valid(w[..b]) && RunePrefix(w[b..n]) && !Rune(w[b..n])
    ensures !Valid(w[..m])
  {
    assert w[..m] == w[..b] + w[b..m];
    ValidAppend(w[..b], w[b..m]);
    assert w[b..m] == w[b..n][..m - b];
    PartIsInvalid(w[b..m]);
  }

  ghost predicate LongestValidPrefix(r: seq<Byte>, s: seq<Byte>) {
    && r <= s && Valid(r)
    && forall m | |r| < m <= |s| :: !Valid(s[..m])
  }

  /** data ends in a proper part of one character, preceded by valid text. */
  predicate EndsInPart(data: seq<Byte>, b: nat) {
    b < |data| && Valid(data[..b]) && RunePrefix(data[b..]) && !Rune(data[b..])
  }

  /** r is data without the partial character it ends in, if it ends in one. */
  ghost predicate IsTrim(r: seq<Byte>, data: seq<Byte>) {
    && (forall b | 0 <= b < |data| && EndsInPart(data, b) :: r == data[..b])
    && ((forall b | 0 <= b < |data| :: !EndsInPart(data, b)) ==> r == data)
  }

  method TrimPartialSuffix(data: seq<Byte>) returns (r: seq<Byte>)
    ensures IsTrim(r, data)
  {
    if Valid(data) {
      NoPartInValid(data);
      return data;
    }
    var i: int := |data| - 1;
    while i >= 0 && |data| - i <= UTF_MAX
      invariant -1 <= i < |data|
      invariant forall k | i < k < |data| :: Tail(data[k])
    {
      if RuneStart(data[i]) {
        PartStartsHere(data, i);
        if !Valid(data[..i]) || FullRune(data[i..]) {
          return data;
        }
        return data[..i];
      }
      i := i - 1;
    }
    NoPartBeyond(data, i);
    return data;
  }

  lemma NoPartInValid(data: seq<Byte>)
    requires Valid(data)
    ensures forall b | 0 <= b < |data| :: !EndsInPart(data, b)
  {
    forall b | 0 <= b < |data|
      ensures !EndsInPart(data, b)
    {
      assert data[..|data|] == data && data[b..|data|] == data[b..];
      if EndsInPart(data, b) {
        LongerIsInvalid(data, |data|, b, |data|);
      }
    }
  }

  /** A partial character is shorter than UTF_MAX and starts with no tail byte. */
  lemma NoPartBeyond(data: seq<Byte>, i: int)
    requires -1 <= i < |data| && (i >= 0 ==> |data| - i > UTF_MAX)
    requires forall k | i < k < |data| :: Tail(data[k])
    ensures forall b | 0 <= b < |data| :: !EndsInPart(data, b)
  {
    forall b | 0 <= b < |data|
      ensures !EndsInPart(data, b)
    {
      var p := data[b..];
      assert p[0] == data[b];
    }
  }

  /** With tail bytes only after the rune start at i, a partial character can
      begin nowhere else; it begins there when those bytes decide nothing. */
  lemma PartStartsHere(data: seq<Byte>, i: nat)
    requires i < |data| && RuneStart(data[i]) && forall k | i < k < |data| :: Tail(data[k])
    ensures forall b | 0 <= b < |data| && b != i :: !EndsInPart(data, b)
    ensures EndsInPart(data, i) <==> Valid(data[..i]) && !FullRune(data[i..])
  {
    forall b | 0 <= b < |data| && b != i
      ensures !EndsInPart(data, b)
    {
      var p := data[b..];
      assert p[0] == data[b];
      assert b < i ==> p[i - b] == data[i];
    }
    var q := data[i..];
    assert forall k | 1 <= k < |q| :: q[k] == data[i + k];
  }

  /** Cutting a valid text anywhere and trimming gives the longest valid prefix
      of the cut, at most three bytes shorter. */
  lemma TrimOfCutIsLongestPrefix(w: seq<Byte>, n: nat, r: seq<Byte>)
    requires Valid(w) && n <= |w| && IsTrim(r, w[..n])
    ensures LongestValidPrefix(r, w[..n]) && n - |r| <= 3
  {
    var b := CutShape(w, n);
    if b < n {
      assert w[..n][..b] == w[..b] && w[..n][b..] == w[b..n];
      assert EndsInPart(w[..n], b);
      forall m | b < m <= n
        ensures !Valid(w[..n][..m])
      {
        assert w[..n][..m] == w[..m];
        LongerIsInvalid(w, n, b, m);
      }
    } else {
      NoPartInValid(w[..n]);
    }
  }

  /** A valid text may be cut before any rune start and nowhere else. */
  lemma CutAtRuneStart(w: seq<Byte>, m: nat)
    requires Valid(w) && m < |w|
    ensures Valid(w[..m]) <==> RuneStart(w[m])
  {
    var b := CutShape(w, m);
    if b < m {
      LongerIsInvalid(w, m, b, m);
      NextIsTail(w, b, m);
    } else {
      assert w == w[..m] + w[m..];
      ValidAppend(w[..m], w[m..]);
    }
  }

  lemma NextIsTail(w: seq<Byte>, b: nat, m: nat)
    requires Valid(w) && b < m < |w| && Valid(w[..b]) && RunePrefix(w[b..m]) && !Rune(w[b..m])
    ensures Tail(w[m])
  {
    assert w == w[..b] + w[b..];
    ValidAppend(w[..b], w[b..]);
    var s := w[b..];
    var n := Announced(s[0]);
    assert s[0] == w[b..m][0];
    assert Rune(s[..n]) && s[..n][m - b] == w[m];
  }

  /** clipStringBytes: back up from the limit to a rune start. */
  method ClipStringBytes(s: seq<Byte>, max: int) returns (r: seq<Byte>)
    ensures r <= s && (max <= 0 ==> r == []) && (max > 0 ==> |r| <= max) && (0 < max && |s| <= max ==> r == s)
    ensures Valid(s) ==> Valid(r) && forall m | |r| < m <= |s| && m <= max :: !Valid(s[..m])
  {
    if max <= 0 {
      return [];
    }
    if |s| <= max {
      return s;
    }
    var k := max;
    while k > 0 && !RuneStart(s[k])
      invariant 0 <= k <= max < |s|
      invariant forall m | k < m <= max :: !RuneStart(s[m])
    {
      k := k - 1;
    }
    r := s[..k];
    if Valid(s) {
      forall m | 0 <= m <= max
        ensures Valid(s[..m]) <==> RuneStart(s[m])
      {
        CutAtRuneStart(s, m);
      }
    }
  }
}
