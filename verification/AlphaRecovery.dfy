/** externalOpenerPNGFromBGRAComposites: an icon drawn over black and over white
    gives back its alpha channel and, up to rounding, its colours.

    The two inputs are BGRA buffers; the output is NRGBA, so blue and red change
    places. PNG encoding is the identity here. */
module AlphaRecovery {

  newtype Byte = b: int | 0 <= b < 256

  import opened Wrappers

  /** A pixel of the icon itself. */
  datatype Pixel = Pixel(r: Byte, g: Byte, b: Byte, a: Byte)

  function ClampByte(v: int): Byte {
    if v < 0 then 0 else if v > 255 then 255 else v as Byte
  }

  function Diff(light: Byte, dark: Byte): int {
    if light <= dark then 0 else (light - dark) as int
  }

  /** All operands are non-negative, so Go's truncating division is this one. */
  function Alpha(blackR: Byte, blackG: Byte, blackB: Byte, whiteR: Byte, whiteG: Byte, whiteB: Byte): (alpha: int)
    ensures 0 <= alpha <= 255
  {
    255 - (Diff(whiteR, blackR) + Diff(whiteG, blackG) + Diff(whiteB, blackB)) / 3
  }

  function Channel(black: Byte, alpha: int): Byte
    requires alpha > 0
  {
    ClampByte(black as int * 255 / alpha)
  }

  /** The four bytes written for the pixel at byte offset i. */
  function Recovered(black: seq<Byte>, white: seq<Byte>, i: nat): (p: Pixel)
    requires i + 3 < |black| == |white|
  {
    var alpha := Alpha(black[i + 2], black[i + 1], black[i], white[i + 2], white[i + 1], white[i]);
    if alpha > 0
    then Pixel(Channel(black[i + 2], alpha), Channel(black[i + 1], alpha), Channel(black[i], alpha), alpha as Byte)
    else Pixel(0, 0, 0, 0)
  }

  /** The whole Pix buffer; None when the sizes do not fit together. */
  method FromComposites(black: seq<Byte>, white: seq<Byte>, width: int, height: int) returns (pix: Option<seq<Byte>>)
    ensures pix.None? <==> width <= 0 || height <= 0 || |black| != width * height * 4 || |white| != |black|
    ensures pix.Some? ==> |pix.value| == |black|
    ensures pix.Some? ==>
              forall i: nat | i % 4 == 0 && i + 3 < |black| :: PixelAt(pix.value, i) == Recovered(black, white, i)
  {
    if width <= 0 || height <= 0 || |black| != width * height * 4 || |white| != |black| {
      return None;
    }
    var image := new Byte[|black|](_ => 0);
    var source := 0;
    FourDivides(width, height, |black|);
    ghost var want := Wanted(black, white);
    while source < |black|
      invariant 0 <= source <= |black| && source % 4 == 0
      invariant RecoveredUpTo(image[..], want, source)
    {
      ghost var was := image[..];
      var blackB, blackG, blackR := black[source], black[source + 1], black[source + 2];
      var whiteB, whiteG, whiteR := white[source], white[source + 1], white[source + 2];
      var alpha := Alpha(blackR, blackG, blackB, whiteR, whiteG, whiteB);
      if alpha > 0 {
        image[source] := Channel(blackR, alpha);
        image[source + 1] := Channel(blackG, alpha);
        image[source + 2] := Channel(blackB, alpha);
      }
      image[source + 3] := alpha as Byte;
      NextPixel(was, image[..], want, source);
      source := source + 4;
    }
    return Some(image[..]);
  }

  function PixelAt(pix: seq<Byte>, i: nat): Pixel
    requires i + 3 < |pix|
  {
    Pixel(pix[i], pix[i + 1], pix[i + 2], pix[i + 3])
  }

  /** The pixel wanted at each byte offset that starts one. */
  ghost function Wanted(black: seq<Byte>, white: seq<Byte>): (w: seq<Pixel>)
    requires |black| == |white|
    ensures |w| == |black| && forall i: nat | i + 3 < |w| :: w[i] == Recovered(black, white, i)
  {
    seq(|black|, i requires 0 <= i < |black| =>
      if i + 3 < |black| then Recovered(black, white, i) else Pixel(0, 0, 0, 0))
  }

  /** The pixels before byte n are recovered and the rest is still blank. */
  ghost predicate RecoveredUpTo(pix: seq<Byte>, want: seq<Pixel>, n: nat)
    requires |pix| == |want|
  {
    && (forall i: nat | i % 4 == 0 && i + 3 < n <= |pix| :: PixelAt(pix, i) == want[i])
    && (forall i: nat | n <= i < |pix| :: pix[i] == 0)
  }

  lemma NextPixel(was: seq<Byte>, now: seq<Byte>, want: seq<Pixel>, n: nat)
    requires |was| == |now| == |want| && n % 4 == 0 && n + 4 <= |was|
    requires RecoveredUpTo(was, want, n)
    requires forall k | 0 <= k < |was| && !(n <= k < n + 4) :: now[k] == was[k]
    requires PixelAt(now, n) == want[n]
    ensures RecoveredUpTo(now, want, n + 4)
  {
    forall i: nat | i % 4 == 0 && i + 3 < n + 4
      ensures PixelAt(now, i) == want[i]
    {
      if i < n {
        assert i + 3 < n;
        assert PixelAt(now, i) == PixelAt(was, i);
      }
    }
  }

  lemma FourDivides(width: int, height: int, n: nat)
    requires n == width * height * 4
    ensures n % 4 == 0
  {
  }

  // ---- Any composites ----

  function Gap(light: Byte, dark: Byte): int {
    if light > dark then light as int - dark as int else 0
  }

  /** Whatever the two buffers hold, the opacity missing from alpha is the mean gap
      between them, rounded down; a channel darker over white than over black has
      none. */
  lemma AlphaIsMeanGap(bR: Byte, bG: Byte, bB: Byte, wR: Byte, wG: Byte, wB: Byte)
    ensures var missing := 255 - Alpha(bR, bG, bB, wR, wG, wB);
      3 * missing <= Gap(wR, bR) + Gap(wG, bG) + Gap(wB, bB) < 3 * missing + 3
  {
  }

  /** A channel is divided by its alpha, rounding down, and saturates as soon as it
      reaches it. */
  lemma ChannelSaturates(black: Byte, alpha: int)
    requires 0 < alpha <= 255
    ensures var v := Channel(black, alpha) as int;
      if black as int >= alpha then v == 255 else v * alpha <= black as int * 255 < (v + 1) * alpha && v < 255
  {
    var q := black as int * 255 / alpha;
    DivLower(black as int * 255, alpha, q);
    if black as int >= alpha {
      MulOrder(255, q, alpha);
    } else {
      MulOrder(q, 254, alpha);
    }
  }

  /** An invisible pixel is recovered as nothing, whatever its channels were. */
  lemma InvisibleIsBlank(black: seq<Byte>, white: seq<Byte>, i: nat)
    requires i + 3 < |black| == |white|
    requires forall k | i <= k < i + 3 :: black[k] == 0 && white[k] == 255
    ensures Recovered(black, white, i) == Pixel(0, 0, 0, 0)
  {
    assert black[i] == 0 && black[i + 1] == 0 && black[i + 2] == 0;
    assert white[i] == 255 && white[i + 1] == 255 && white[i + 2] == 255;
  }

  // ---- Exact composites ----

  /** A channel drawn over black and over white, rounding down. */
  function OverBlack(c: Byte, a: Byte): int {
    c as int * a as int / 255
  }

  function OverWhite(c: Byte, a: Byte): int {
    (c as int * a as int + 255 * (255 - a as int)) / 255
  }

  ghost predicate Composites(black: seq<Byte>, white: seq<Byte>, i: nat, p: Pixel)
    requires i + 3 < |black| == |white|
  {
    && black[i] as int == OverBlack(p.b, p.a) && white[i] as int == OverWhite(p.b, p.a)
    && black[i + 1] as int == OverBlack(p.g, p.a) && white[i + 1] as int == OverWhite(p.g, p.a)
    && black[i + 2] as int == OverBlack(p.r, p.a) && white[i + 2] as int == OverWhite(p.r, p.a)
  }

  /** White adds exactly what the alpha leaves uncovered. */
  lemma WhiteOffset(c: Byte, a: Byte)
    ensures OverWhite(c, a) == OverBlack(c, a) + (255 - a as int)
    ensures 0 <= OverBlack(c, a) <= a as int
  {
    var x := c as int * a as int;
    assert (x + 255 * (255 - a as int)) / 255 == x / 255 + (255 - a as int);
    assert x <= 255 * a as int;
  }

  function CeilDiv(n: nat, d: nat): nat
    requires d > 0
  {
    (n + d - 1) / d
  }

  /** Dividing the premultiplied channel by the alpha loses at most
      ceil(254 / alpha) and never overshoots. */
  lemma ChannelBounds(c: Byte, a: Byte)
    requires a > 0
    ensures var v := OverBlack(c, a) * 255 / a as int; c as int - CeilDiv(254, a as nat) <= v <= c as int
  {
    var ci, ai := c as int, a as int;
    var k := CeilDiv(254, ai);
    DivLower(254 + ai - 1, ai, k);
    QuotientBounds(ci * ai, OverBlack(c, a) * 255, ci, ai, k);
  }

  lemma QuotientBounds(x: int, y: int, c: int, a: int, k: int)
    requires a > 0 && x == c * a && x - 254 <= y <= x && k * a >= 254
    ensures c - k <= y / a <= c
  {
    DivLower(y, a, y / a);
    MulOrder(y / a, c, a);
    assert (c - k) * a == x - k * a;
    MulOrder(c - k, y / a, a);
  }

  lemma DivLower(n: int, d: int, q: int)
    requires d > 0 && q == n / d
    ensures q * d <= n < (q + 1) * d
  {
  }

  lemma MulOrder(v: int, c: int, a: int)
    requires a > 0 && v * a < (c + 1) * a
    ensures v <= c
  {
  }

  /** For exact composites the recovered alpha is the true one, and for a
      visible pixel every channel, red and blue in their own places, lies in
      [c - ceil(254 / alpha), c]. */
  lemma ExactCompositesRecover(black: seq<Byte>, white: seq<Byte>, i: nat, p: Pixel)
    requires i + 3 < |black| == |white| && Composites(black, white, i, p)
    ensures var q := Recovered(black, white, i);
      && q.a == p.a && (p.a == 0 ==> q == Pixel(0, 0, 0, 0))
      && (p.a > 0 ==>
            var slack := CeilDiv(254, p.a as nat);
            && p.r as int - slack <= q.r as int <= p.r as int
            && p.g as int - slack <= q.g as int <= p.g as int
            && p.b as int - slack <= q.b as int <= p.b as int)
  {
    WhiteOffset(p.r, p.a);
    WhiteOffset(p.g, p.a);
    WhiteOffset(p.b, p.a);
    if p.a > 0 {
      ChannelBounds(p.r, p.a);
      ChannelBounds(p.g, p.a);
      ChannelBounds(p.b, p.a);
    }
  }

  /** An opaque pixel is recovered exactly. */
  lemma OpaqueIsExact(black: seq<Byte>, white: seq<Byte>, i: nat, p: Pixel)
    requires i + 3 < |black| == |white| && Composites(black, white, i, p) && p.a == 255
    ensures Recovered(black, white, i) == p
  {
    forall c: Byte
      ensures OverBlack(c, 255) == c as int
    {
    }
    ExactCompositesRecover(black, white, i, p);
    assert Channel(p.r, 255) == p.r && Channel(p.g, 255) == p.g && Channel(p.b, 255) == p.b;
  }
}
