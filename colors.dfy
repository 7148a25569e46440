/**
 * The colour helpers shared by the page's canvases in js/main.js:
 * `hexToRGB`, which reads a `#rrggbb` string, and `interpolateColor`,
 * which blends two neighbouring palette colours for a fractional
 * palette index. JavaScript's `%` (sign of the dividend) and
 * `Math.round` (halves round up) are written out.
 */
module Colors {

  /** A colour as the three numbers `hexToRGB` returns. */
  datatype Rgb = Rgb(r: int, g: int, b: int)

  /** The ten palette colours, in order. */
  const Palette: seq<string> := [
    "#4f46e5", "#7c3aed", "#ec4899", "#f43f5e", "#f97316",
    "#eab308", "#22c55e", "#06b6d4", "#3b82f6", "#8b5cf6"
  ]

  predicate IsHexDigit(c: char)
  {
    '0' <= c <= '9' || 'a' <= c <= 'f' || 'A' <= c <= 'F'
  }

  /** The value of one base-16 digit, as `parseInt(_, 16)` reads it. */
  function HexDigitValue(c: char): (v: nat)
    requires IsHexDigit(c)
    ensures v < 16
  {
    if '0' <= c <= '9' then c as int - '0' as int
    else if 'a' <= c <= 'f' then c as int - 'a' as int + 10
    else c as int - 'A' as int + 10
  }

  /** The lower-case digit for a value below 16. */
  function HexDigitChar(v: nat): (c: char)
    requires v < 16
    ensures IsHexDigit(c) && HexDigitValue(c) == v
  {
    if v < 10 then (v + '0' as int) as char else (v - 10 + 'a' as int) as char
  }

  /** A well-formed `#rrggbb` colour. */
  predicate IsHexColor(s: string)
  {
    |s| == 7 && s[0] == '#' && forall i :: 1 <= i < 7 ==> IsHexDigit(s[i])
  }

  /** `parseInt(s.slice(k, k + 2), 16)` on two hex digits. */
  function HexByte(s: string, k: nat): (v: int)
    requires k + 2 <= |s| && IsHexDigit(s[k]) && IsHexDigit(s[k + 1])
    ensures 0 <= v <= 255
  {
    16 * HexDigitValue(s[k]) + HexDigitValue(s[k + 1])
  }

  /** `hexToRGB`: characters 1-2, 3-4 and 5-6 read as base-16 bytes. */
  function HexToRgb(hex: string): (c: Rgb)
    requires IsHexColor(hex)
    ensures 0 <= c.r <= 255 && 0 <= c.g <= 255 && 0 <= c.b <= 255
  {
    Rgb(HexByte(hex, 1), HexByte(hex, 3), HexByte(hex, 5))
  }

  /** A colour whose components are bytes. */
  predicate IsByteColor(c: Rgb)
  {
    0 <= c.r <= 255 && 0 <= c.g <= 255 && 0 <= c.b <= 255
  }

  /** Two lower-case hex digits for a byte. */
  function ByteHex(v: int): (s: string)
    requires 0 <= v <= 255
    ensures |s| == 2 && IsHexDigit(s[0]) && IsHexDigit(s[1])
  {
    [HexDigitChar(v / 16), HexDigitChar(v % 16)]
  }

  /** The `#rrggbb` form of a byte colour, the inverse of `HexToRgb`. */
  function RgbToHex(c: Rgb): (hex: string)
    requires IsByteColor(c)
    ensures IsHexColor(hex)
  {
    "#" + ByteHex(c.r) + ByteHex(c.g) + ByteHex(c.b)
  }

  /** Reading back a written colour gives the colour. */
  lemma HexRoundTrip(c: Rgb)
    requires IsByteColor(c)
    ensures HexToRgb(RgbToHex(c)) == c
  {
    var hex := RgbToHex(c);
    ByteRoundTrip(hex, 1, c.r);
    ByteRoundTrip(hex, 3, c.g);
    ByteRoundTrip(hex, 5, c.b);
  }

  lemma ByteRoundTrip(s: string, k: nat, v: int)
    requires 0 <= v <= 255
    requires k + 2 <= |s| && s[k..k + 2] == ByteHex(v)
    ensures IsHexDigit(s[k]) && IsHexDigit(s[k + 1]) && HexByte(s, k) == v
  {
    assert s[k] == s[k..k + 2][0] && s[k + 1] == s[k..k + 2][1];
  }

  /** Every palette entry is a well-formed colour. */
  lemma PaletteWellFormed()
    ensures |Palette| == 10
    ensures forall k :: 0 <= k < |Palette| ==> IsHexColor(Palette[k])
  {
  }

  /** `hexToRGB(COLORS[i])`. */
  function PaletteColor(i: int): (c: Rgb)
    requires 0 <= i < |Palette|
    ensures IsByteColor(c)
  {
    PaletteWellFormed();
    HexToRgb(Palette[i])
  }

  /** JavaScript's `a % n` on integers: the remainder takes the sign of `a`. */
  function JsIntRem(a: int, n: int): (m: int)
    requires n > 0
    ensures a >= 0 ==> 0 <= m < n && m == a % n
    ensures a < 0 ==> -n < m <= 0
  {
    if a >= 0 then a % n else -((-a) % n)
  }

  /** Truncation toward zero. */
  function Trunc(x: real): (k: int)
    ensures x >= 0.0 ==> k == x.Floor
    ensures x < 0.0 ==> k == -((-x).Floor)
  {
    if x >= 0.0 then x.Floor else -((-x).Floor)
  }

  /** JavaScript's `x % m` on numbers: `x` minus the truncated multiple of `m`. */
  function JsRealRem(x: real, m: real): (r: real)
    requires m > 0.0
    ensures exists k: int :: MultipleApart(x, r, m, k)
    ensures x >= 0.0 ==> 0.0 <= r < m
    ensures x < 0.0 ==> -m < r <= 0.0
    ensures 0.0 <= x < m ==> r == x
  {
    var q := x / m;
    QuotientSign(x, m);
    var k := Trunc(q) as real;
    assert MultipleApart(x, x - m * k, m, Trunc(q));
    if x >= 0.0 then
      ScaleFraction(m, q, k, x, m * k);
      x - m * k
    else
      ScaleFraction(m, k, q, m * k, x);
      x - m * k
  }

  /** `m` times a difference in [0, 1) lies in [0, m). */
  lemma ScaleFraction(m: real, hi: real, lo: real, mhi: real, mlo: real)
    requires m > 0.0 && 0.0 <= hi - lo < 1.0
    requires m * hi - m * lo == mhi - mlo
    ensures 0.0 <= mhi - mlo < m
  {
    var d := hi - lo;
    ScaleUnit(m, d);
    var p := m * d;
    assert p == m * hi - m * lo;
  }

  /** The quotient `x / m` for positive `m`: its sign is that of `x`, and it is below 1 when `x < m`. */
  lemma QuotientSign(x: real, m: real)
    requires m > 0.0
    ensures m * (x / m) == x
    ensures x >= 0.0 ==> x / m >= 0.0
    ensures x < 0.0 ==> x / m < 0.0
    ensures x < m ==> x / m < 1.0
  {
    var q := x / m;
    assert m * q == x;
    PositiveFactor(m, q);
    PositiveFactor(m, 1.0 - q);
    assert m * (1.0 - q) == m - x;
  }

  /** Multiplying by a positive number keeps the sign. */
  lemma PositiveFactor(m: real, d: real)
    requires m > 0.0
    ensures d <= 0.0 ==> m * d <= 0.0
    ensures d >= 0.0 ==> m * d >= 0.0
  {
  }

  /** `x` and `r` differ by `k` times `m`. */
  predicate MultipleApart(x: real, r: real, m: real, k: int)
  {
    r == x - m * k as real
  }

  /** A fraction of `m` in [0, 1) is a value in [0, m). */
  lemma ScaleUnit(m: real, d: real)
    requires m > 0.0 && 0.0 <= d < 1.0
    ensures 0.0 <= m * d < m
  {
    assert m * d < m * 1.0;
  }

  /** `x % 10` for `x` in [10, 20) wraps once: it is `x - 10`. */
  lemma RemTenWraps(x: real)
    requires 10.0 <= x < 20.0
    ensures JsRealRem(x, 10.0) == x - 10.0
  {
    var r := JsRealRem(x, 10.0);
    var k :| MultipleApart(x, r, 10.0, k);
    assert 0 < k < 2;
  }

  /** `x % 1` for a non-negative number is its fractional part. */
  lemma FractionalPart(x: real)
    requires x >= 0.0
    ensures JsRealRem(x, 1.0) == x - x.Floor as real
    ensures 0.0 <= JsRealRem(x, 1.0) < 1.0
  {
    assert x / 1.0 == x;
  }

  /** `Math.round`: the nearest integer, halves rounded up. */
  function Round(x: real): (k: int)
    ensures k as real - 0.5 <= x < k as real + 0.5
  {
    (x + 0.5).Floor
  }

  /** One blended component, `Math.round(a + (b - a) * t)`. */
  function Blend(a: int, b: int, t: real): (c: int)
    ensures var exact := a as real + (b - a) as real * t;
      exact - 0.5 < c as real <= exact + 0.5
  {
    Round(a as real + (b - a) as real * t)
  }

  /** For `t` in [0, 1) the blend lies between the two components, and `t = 0` gives `a`. */
  lemma BlendBetween(a: int, b: int, t: real)
    requires 0.0 <= t < 1.0
    ensures (if a <= b then a else b) <= Blend(a, b, t) <= (if a <= b then b else a)
    ensures t == 0.0 ==> Blend(a, b, t) == a
  {
    var w := (b - a) as real;
    ScaleBetween(w, t);
    var x := a as real + w * t;
    var c := Blend(a, b, t);
    if a <= b {
      assert a as real <= x <= b as real;
    } else {
      assert b as real <= x <= a as real;
    }
    assert x - 0.5 < c as real <= x + 0.5;
  }

  /** A fraction `t` in [0, 1) of `w` lies between 0 and `w`, and is 0 when `t` is. */
  lemma ScaleBetween(w: real, t: real)
    requires 0.0 <= t < 1.0
    ensures w >= 0.0 ==> 0.0 <= w * t <= w
    ensures w <= 0.0 ==> w <= w * t <= 0.0
    ensures t == 0.0 ==> w * t == 0.0
  {
    var p := w * t;
    if w >= 0.0 {
      assert w - p == w * (1.0 - t);
    } else {
      assert p - w == -w * (1.0 - t);
    }
  }

  /** The palette position `Math.floor(idx) % COLORS.length`. */
  function PaletteIndex(idx: real): (i: int)
    requires idx >= 0.0
    ensures 0 <= i < |Palette|
  {
    JsIntRem(idx.Floor, |Palette|)
  }

  /** `v` is within half of the point a fraction `t` of the way from `a` to `b`. */
  predicate BlendsTo(a: int, b: int, t: real, v: int)
  {
    var exact := a as real + (b - a) as real * t;
    exact - 0.5 < v as real <= exact + 0.5
  }

  /** `v` lies between `a` and `b`, whichever is larger. */
  predicate Between(a: int, v: int, b: int)
  {
    a <= v <= b || b <= v <= a
  }

  /**
   * Colour `i` blended toward colour `i + 1` (wrapping) by `t`: each
   * component lies between the two colours' components, and `t = 0`
   * gives colour `i`.
   */
  function Mix(i: int, t: real): (c: Rgb)
    requires 0 <= i < |Palette| && 0.0 <= t < 1.0
    ensures IsByteColor(c)
    ensures var a := PaletteColor(i);
      var b := PaletteColor((i + 1) % |Palette|);
      Between(a.r, c.r, b.r) && Between(a.g, c.g, b.g) && Between(a.b, c.b, b.b)
    ensures var a := PaletteColor(i);
      var b := PaletteColor((i + 1) % |Palette|);
      BlendsTo(a.r, b.r, t, c.r) && BlendsTo(a.g, b.g, t, c.g) && BlendsTo(a.b, b.b, t, c.b)
    ensures t == 0.0 ==> c == PaletteColor(i)
  {
    var a := PaletteColor(i);
    var b := PaletteColor(JsIntRem(i + 1, |Palette|));
    BlendBetween(a.r, b.r, t);
    BlendBetween(a.g, b.g, t);
    BlendBetween(a.b, b.b, t);
    Rgb(Blend(a.r, b.r, t), Blend(a.g, b.g, t), Blend(a.b, b.b, t))
  }

  /**
   * `interpolateColor`: the palette colour at the whole part of `idx`
   * blended toward the next one by its fractional part.
   */
  function InterpolateColor(idx: real): (c: Rgb)
    requires idx >= 0.0
    ensures IsByteColor(c)
    ensures var a := PaletteColor(PaletteIndex(idx));
      var b := PaletteColor((PaletteIndex(idx) + 1) % |Palette|);
      Between(a.r, c.r, b.r) && Between(a.g, c.g, b.g) && Between(a.b, c.b, b.b)
    ensures var a := PaletteColor(PaletteIndex(idx));
      var b := PaletteColor((PaletteIndex(idx) + 1) % |Palette|);
      var t := idx - idx.Floor as real;
      BlendsTo(a.r, b.r, t, c.r) && BlendsTo(a.g, b.g, t, c.g) && BlendsTo(a.b, b.b, t, c.b)
    ensures idx.Floor as real == idx ==> c == PaletteColor(PaletteIndex(idx))
  {
    FractionalPart(idx);
    Mix(PaletteIndex(idx), JsRealRem(idx, 1.0))
  }

  /** At a whole index the colour is exactly that palette entry, and the index wraps every ten. */
  lemma InterpolateAtWholeIndex(n: nat)
    ensures InterpolateColor(n as real) == PaletteColor(n % |Palette|)
  {
    assert (n as real).Floor == n;
  }

  /** The colour depends on the index only modulo the palette length. */
  lemma InterpolatePeriodic(idx: real)
    requires idx >= 0.0
    ensures InterpolateColor(idx + 10.0) == InterpolateColor(idx)
  {
    var k := idx.Floor;
    assert (idx + 10.0).Floor == k + 10;
    assert PaletteIndex(idx + 10.0) == PaletteIndex(idx);
    FractionalPart(idx);
    FractionalPart(idx + 10.0);
  }

  /** The colour-cycle update `(colorIdx + colorSpeed) % COLORS.length`. */
  function NextColorIndex(colorIdx: real, colorSpeed: real): (next: real)
    requires colorIdx + colorSpeed >= 0.0
    ensures 0.0 <= next < 10.0
    ensures colorIdx + colorSpeed < 10.0 ==> next == colorIdx + colorSpeed
    ensures 10.0 <= colorIdx + colorSpeed < 20.0 ==> next == colorIdx + colorSpeed - 10.0
  {
    if 10.0 <= colorIdx + colorSpeed < 20.0 then
      RemTenWraps(colorIdx + colorSpeed);
      JsRealRem(colorIdx + colorSpeed, 10.0)
    else
      JsRealRem(colorIdx + colorSpeed, 10.0)
  }
}
