// `ColorUtils` of gui_verification/utils.py: hex <-> RGB conversion, CSS
// colour parsing (`rgb()`, `rgba()`, `#rrggbb`), relative luminance and the
// contrast ratio of WCAG 2.x (the "relative luminance" and "contrast ratio"
// definitions behind success criterion 1.4.3).

module Colors {
  import opened Wrappers
  import opened Text
  import Arith

  /** An RGB triple as the parsers produce it: non-negative integers, not
      range-checked (`rgb(300, 0, 0)` gives a red channel of 300). */
  datatype Rgb = Rgb(r: nat, g: nat, b: nat)

  predicate InByteRange(c: Rgb) { c.r < 256 && c.g < 256 && c.b < 256 }

  /* ---------------- Hex conversion ---------------- */

  /** `s.lstrip('#')` */
  function TrimHashes(s: string): (t: string)
    ensures |t| <= |s| && t == s[|s| - |t|..]
    ensures t == [] || t[0] != '#'
  {
    if s != [] && s[0] == '#' then TrimHashes(s[1..]) else s
  }

  /** `int(s[i:i+2], 16)` on two hexadecimal digits. */
  function HexPair(s: string, i: nat): (n: nat)
    requires i + 2 <= |s| && IsHexDigit(s[i]) && IsHexDigit(s[i + 1])
    ensures n < 256
  {
    16 * HexDigitValue(s[i]) + HexDigitValue(s[i + 1])
  }

  predicate HexDigitsAt(s: string, i: nat, n: nat)
  {
    i + n <= |s| && forall k :: i <= k < i + n ==> IsHexDigit(s[k])
  }

  /** The three channels spelled by six hexadecimal digits at `i`. */
  function HexRgb(s: string, i: nat): (c: Rgb)
    requires HexDigitsAt(s, i, 6)
    ensures InByteRange(c)
  {
    Rgb(HexPair(s, i), HexPair(s, i + 2), HexPair(s, i + 4))
  }

  /** `ColorUtils.hex_to_rgb`: after removing every leading `#`, exactly six
      hexadecimal digits give the three channels; anything else gives None. */
  function HexToRgb(s: string): (r: Option<Rgb>)
    ensures r.Some? <==> |TrimHashes(s)| == 6 && HexDigitsAt(TrimHashes(s), 0, 6)
    ensures r.Some? ==> InByteRange(r.value)
  {
    var t := TrimHashes(s);
    if |t| == 6 && HexDigitsAt(t, 0, 6) then Some(HexRgb(t, 0)) else None
  }

  /** The lower-case hexadecimal digits of `n`, without leading zeros. */
  function HexDigits(n: nat): (s: string)
    ensures |s| > 0
    ensures forall k :: 0 <= k < |s| ==> IsHexDigit(s[k]) && !('A' <= s[k] <= 'F')
  {
    if n < 16 then [HexChar(n)] else HexDigits(n / 16) + [HexChar(n % 16)]
  }

  /** `'{:02x}'.format(n)`: hexadecimal, zero-padded to two digits. */
  function HexField(n: nat): string
  {
    if n < 16 then "0" + HexDigits(n) else HexDigits(n)
  }

  lemma HexFieldByte(n: nat)
    requires n < 256
    ensures HexField(n) == [HexChar(n / 16), HexChar(n % 16)]
  {
    if n >= 16 {
      assert HexDigits(n / 16) == [HexChar(n / 16)];
    }
  }

  /** `ColorUtils.rgb_to_hex` */
  function RgbToHex(c: Rgb): string
  {
    "#" + HexField(c.r) + HexField(c.g) + HexField(c.b)
  }

  /** For channels 0..255, `rgb_to_hex` gives `#` and six lower-case
      hexadecimal digits, two per channel, high digit first. */
  lemma RgbToHexFormat(c: Rgb)
    requires InByteRange(c)
    ensures RgbToHex(c) == ['#', HexChar(c.r / 16), HexChar(c.r % 16), HexChar(c.g / 16), HexChar(c.g % 16),
                                 HexChar(c.b / 16), HexChar(c.b % 16)]
  {
    HexFieldByte(c.r);
    HexFieldByte(c.g);
    HexFieldByte(c.b);
  }

  /** The digits `HexChar(hi), HexChar(lo)` read back as `16 * hi + lo`. */
  lemma HexPairOfDigits(s: string, i: nat, hi: nat, lo: nat)
    requires hi < 16 && lo < 16 && i + 2 <= |s| && s[i] == HexChar(hi) && s[i + 1] == HexChar(lo)
    ensures IsHexDigit(s[i]) && IsHexDigit(s[i + 1]) && HexPair(s, i) == 16 * hi + lo
  {
  }

  /** The six digits `rgb_to_hex` writes for `c`, at position `i` of `s`. */
  predicate ByteDigitsAt(s: string, i: nat, c: Rgb)
  {
    InByteRange(c) && i + 6 <= |s| &&
    s[i..i + 6] == [HexChar(c.r / 16), HexChar(c.r % 16), HexChar(c.g / 16), HexChar(c.g % 16),
                    HexChar(c.b / 16), HexChar(c.b % 16)]
  }

  lemma HexDigitsOfBytes(s: string, i: nat, c: Rgb)
    requires ByteDigitsAt(s, i, c)
    ensures HexDigitsAt(s, i, 6)
  {
    var d := s[i..i + 6];
    forall k | i <= k < i + 6
      ensures IsHexDigit(s[k])
    {
      assert s[k] == d[k - i];
    }
  }

  lemma HexRgbOfBytes(s: string, i: nat, c: Rgb)
    requires InByteRange(c) && ByteDigitsAt(s, i, c) && HexDigitsAt(s, i, 6)
    ensures HexRgb(s, i) == c
  {
    var d := s[i..i + 6];
    assert s[i] == d[0] && s[i + 1] == d[1] && s[i + 2] == d[2];
    assert s[i + 3] == d[3] && s[i + 4] == d[4] && s[i + 5] == d[5];
    HexPairOfDigits(s, i, c.r / 16, c.r % 16);
    HexPairOfDigits(s, i + 2, c.g / 16, c.g % 16);
    HexPairOfDigits(s, i + 4, c.b / 16, c.b % 16);
  }

  /** The six hex digits of `RgbToHex(c)` read back as `c`. */
  lemma HexRgbOfRgbToHex(c: Rgb, s: string, i: nat)
    requires InByteRange(c) && i + 6 <= |s| && s[i..i + 6] == RgbToHex(c)[1..]
    ensures HexDigitsAt(s, i, 6) && HexRgb(s, i) == c
  {
    RgbToHexFormat(c);
    assert ByteDigitsAt(s, i, c);
    HexDigitsOfBytes(s, i, c);
    HexRgbOfBytes(s, i, c);
  }

  /** For channels 0..255, `hex_to_rgb(rgb_to_hex(c)) == c`. */
  lemma HexRoundTrip(c: Rgb)
    requires InByteRange(c)
    ensures HexToRgb(RgbToHex(c)) == Some(c)
  {
    var h := RgbToHex(c);
    RgbToHexFormat(c);
    var t := h[1..];
    assert TrimHashes(h) == TrimHashes(t);
    assert t[0] == HexChar(c.r / 16);
    assert TrimHashes(t) == t;
    assert t[0..6] == t;
    HexRgbOfRgbToHex(c, t, 0);
  }

  lemma HexCharOfValue(ch: char)
    requires IsHexDigit(ch)
    ensures HexChar(HexDigitValue(ch)) == LowerChar(ch)
  {
  }

  /** The digits that `rgb_to_hex` writes for a channel read from two hex digits. */
  lemma PairDigits(t: string, i: nat, n: nat)
    requires i + 2 <= |t| && IsHexDigit(t[i]) && IsHexDigit(t[i + 1]) && n == HexPair(t, i)
    ensures HexChar(n / 16) == LowerChar(t[i]) && HexChar(n % 16) == LowerChar(t[i + 1])
  {
    HexCharOfValue(t[i]);
    HexCharOfValue(t[i + 1]);
  }

  /** `Lower` on six characters, spelled out. */
  lemma LowerSix(t: string)
    requires |t| == 6
    ensures "#" + Lower(t) == ['#', LowerChar(t[0]), LowerChar(t[1]), LowerChar(t[2]), LowerChar(t[3]),
                                    LowerChar(t[4]), LowerChar(t[5])]
  {
    var l := Lower(t);
    assert l[0] == LowerChar(t[0]) && l[1] == LowerChar(t[1]) && l[2] == LowerChar(t[2]);
    assert l[3] == LowerChar(t[3]) && l[4] == LowerChar(t[4]) && l[5] == LowerChar(t[5]);
  }

  /** Six hex digits, read as a colour and written back, come out as the
      same digits in lower case. */
  lemma HexOfHexRgb(t: string)
    requires |t| == 6 && HexDigitsAt(t, 0, 6)
    ensures RgbToHex(HexRgb(t, 0)) == ['#', LowerChar(t[0]), LowerChar(t[1]), LowerChar(t[2]),
                                            LowerChar(t[3]), LowerChar(t[4]), LowerChar(t[5])]
  {
    var c := HexRgb(t, 0);
    ChannelDigits(t, c);
    RgbToHexFormat(c);
  }

  lemma ChannelDigits(t: string, c: Rgb)
    requires |t| == 6 && HexDigitsAt(t, 0, 6) && c == HexRgb(t, 0)
    ensures HexChar(c.r / 16) == LowerChar(t[0]) && HexChar(c.r % 16) == LowerChar(t[1])
    ensures HexChar(c.g / 16) == LowerChar(t[2]) && HexChar(c.g % 16) == LowerChar(t[3])
    ensures HexChar(c.b / 16) == LowerChar(t[4]) && HexChar(c.b % 16) == LowerChar(t[5])
  {
    PairDigits(t, 0, c.r);
    PairDigits(t, 2, c.g);
    PairDigits(t, 4, c.b);
  }

  lemma RgbToHexOfDigits(t: string)
    requires |t| == 6 && HexDigitsAt(t, 0, 6)
    ensures RgbToHex(HexRgb(t, 0)) == "#" + Lower(t)
  {
    HexOfHexRgb(t);
    LowerSix(t);
  }

  /** The other way round: whatever `hex_to_rgb` accepts, `rgb_to_hex` writes
      back as `#` and the same digits in lower case. */
  lemma RgbToHexOfHexToRgb(s: string)
    requires HexToRgb(s).Some?
    ensures RgbToHex(HexToRgb(s).value) == "#" + Lower(TrimHashes(s))
  {
    RgbToHexOfDigits(TrimHashes(s));
  }

  /* ---------------- Luminance and contrast ---------------- */

  /** The gamma curve `x -> ((x + 0.055) / 1.055) ** 2.4` is a parameter:
      this is what the model relies on about it, for `x` above the linear
      threshold: positive, at most 1 up to 1, and exactly 1 at 1. */
  ghost predicate ValidGamma(gamma: real -> real)
  {
    (forall x :: 0.03928 < x ==> 0.0 < gamma(x)) &&
    (forall x :: 0.03928 < x <= 1.0 ==> gamma(x) <= 1.0) &&
    gamma(1.0) == 1.0
  }

  /** One channel of `calculate_luminance`: `c / 255`, then the linear
      branch `v / 12.92` up to 0.03928 and the gamma curve above it. */
  function Linearize(gamma: real -> real, c: nat): (l: real)
    requires ValidGamma(gamma)
    ensures 0.0 <= l
    ensures c <= 255 ==> l <= 1.0
    ensures c == 0 ==> l == 0.0
    ensures c == 255 ==> l == 1.0
  {
    var v := c as real / 255.0;
    if v <= 0.03928 then v / 12.92 else gamma(v)
  }

  const RedWeight: real := 0.2126
  const GreenWeight: real := 0.7152
  const BlueWeight: real := 0.0722

  /** `ColorUtils.calculate_luminance`: the weighted sum of the linearised
      channels. The weights sum to 1, so luminance lies in [0, 1] for
      channels 0..255, black has 0 and white has 1. */
  function Luminance(gamma: real -> real, c: Rgb): (l: real)
    requires ValidGamma(gamma)
    ensures 0.0 <= l
    ensures InByteRange(c) ==> l <= 1.0
    ensures c == Rgb(0, 0, 0) ==> l == 0.0
    ensures c == Rgb(255, 255, 255) ==> l == 1.0
  {
    RedWeight * Linearize(gamma, c.r) + GreenWeight * Linearize(gamma, c.g)
      + BlueWeight * Linearize(gamma, c.b)
  }

  function MaxReal(a: real, b: real): real { if a < b then b else a }
  function MinReal(a: real, b: real): real { if a < b then a else b }

  /** `(lighter + 0.05) / (darker + 0.05)` for two luminances. */
  function Ratio(l1: real, l2: real): (q: real)
    requires 0.0 <= l1 && 0.0 <= l2
    ensures q >= 1.0
    ensures q == 1.0 <==> l1 == l2
  {
    var lighter, darker := MaxReal(l1, l2), MinReal(l1, l2);
    RatioAtLeastOne(lighter, darker);
    (lighter + 0.05) / (darker + 0.05)
  }

  lemma RatioAtLeastOne(lighter: real, darker: real)
    requires 0.0 <= darker <= lighter
    ensures (lighter + 0.05) / (darker + 0.05) >= 1.0
    ensures (lighter + 0.05) / (darker + 0.05) == 1.0 <==> lighter == darker
  {
    Arith.QuotientCompare(lighter + 0.05, darker + 0.05, 1.0);
  }

  /** `ColorUtils.calculate_contrast_ratio`: at least 1, and exactly 1 when
      the two luminances are equal. */
  function ContrastRatio(gamma: real -> real, c1: Rgb, c2: Rgb): (q: real)
    requires ValidGamma(gamma)
    ensures q >= 1.0
    ensures q == 1.0 <==> Luminance(gamma, c1) == Luminance(gamma, c2)
  {
    Ratio(Luminance(gamma, c1), Luminance(gamma, c2))
  }

  lemma ContrastSymmetric(gamma: real -> real, c1: Rgb, c2: Rgb)
    requires ValidGamma(gamma)
    ensures ContrastRatio(gamma, c1, c2) == ContrastRatio(gamma, c2, c1)
  {
  }

  /** Black against white has the largest possible ratio, 21. */
  lemma ContrastBlackWhite(gamma: real -> real)
    requires ValidGamma(gamma)
    ensures ContrastRatio(gamma, Rgb(0, 0, 0), Rgb(255, 255, 255)) == 21.0
  {
  }

  /** For channels 0..255 no ratio exceeds 21. */
  lemma ContrastAtMost21(gamma: real -> real, c1: Rgb, c2: Rgb)
    requires ValidGamma(gamma) && InByteRange(c1) && InByteRange(c2)
    ensures ContrastRatio(gamma, c1, c2) <= 21.0
  {
    RatioAtMost21(Luminance(gamma, c1), Luminance(gamma, c2));
  }

  lemma RatioAtMost21(l1: real, l2: real)
    requires 0.0 <= l1 <= 1.0 && 0.0 <= l2 <= 1.0
    ensures Ratio(l1, l2) <= 21.0
  {
    var lighter, darker := MaxReal(l1, l2), MinReal(l1, l2);
    Arith.QuotientCompare(lighter + 0.05, darker + 0.05, 21.0);
  }

  /** The ratio `is_color_accessible` requires: 3.0 for large text, else 4.5. */
  function RequiredRatio(isLargeText: bool): real
  {
    if isLargeText then 3.0 else 4.5
  }

  /** `ColorUtils.is_color_accessible`: whether the ratio reaches the required
      one, and the ratio. */
  function IsColorAccessible(gamma: real -> real, foreground: Rgb, background: Rgb, isLargeText: bool)
    : (r: (bool, real))
    requires ValidGamma(gamma)
    ensures r.1 == ContrastRatio(gamma, foreground, background) && r.1 >= 1.0
    ensures r.0 <==> r.1 >= RequiredRatio(isLargeText)
  {
    var ratio := ContrastRatio(gamma, foreground, background);
    (ratio >= RequiredRatio(isLargeText), ratio)
  }

  /** Large text has the lower bar: a pair accessible for normal text is
      accessible for large text; and black on white is accessible for both. */
  lemma LargeTextIsEasier(gamma: real -> real, foreground: Rgb, background: Rgb)
    requires ValidGamma(gamma)
    ensures IsColorAccessible(gamma, foreground, background, false).0 ==>
              IsColorAccessible(gamma, foreground, background, true).0
    ensures IsColorAccessible(gamma, Rgb(0, 0, 0), Rgb(255, 255, 255), false).0
  {
    ContrastBlackWhite(gamma);
  }

  /* ---------------- CSS colour parsing ---------------- */

  /** The end of the run of decimal digits starting at `i` (`\d*`, greedy). */
  function DigitRun(s: string, i: nat): (j: nat)
    requires i <= |s|
    ensures i <= j <= |s|
    ensures forall k :: i <= k < j ==> IsDigit(s[k])
    ensures j < |s| ==> !IsDigit(s[j])
    decreases |s| - i
  {
    if i < |s| && IsDigit(s[i]) then DigitRun(s, i + 1) else i
  }

  /** The end of the run of whitespace starting at `i` (`\s*`). */
  function SpaceRun(s: string, i: nat): (j: nat)
    requires i <= |s|
    ensures i <= j <= |s|
    ensures forall k :: i <= k < j ==> IsSpace(s[k])
    ensures j < |s| ==> !IsSpace(s[j])
    decreases |s| - i
  {
    if i < |s| && IsSpace(s[i]) then SpaceRun(s, i + 1) else i
  }

  predicate IsAlphaChar(c: char) { IsDigit(c) || c == '.' }

  /** The end of the run of digits and dots starting at `i` (`[\d.]*`). */
  function AlphaRun(s: string, i: nat): (j: nat)
    requires i <= |s|
    ensures i <= j <= |s|
    ensures forall k :: i <= k < j ==> IsAlphaChar(s[k])
    ensures j < |s| ==> !IsAlphaChar(s[j])
    decreases |s| - i
  {
    if i < |s| && IsAlphaChar(s[i]) then AlphaRun(s, i + 1) else i
  }

  /** `\d+` at `i`: its decimal value and where it ends. */
  function Number(s: string, i: nat): (r: Option<(nat, nat)>)
    requires i <= |s|
    ensures r.Some? ==> i < r.value.1 <= |s|
  {
    var j := DigitRun(s, i);
    if j == i then None else Some((DecimalValue(s[i..j]), j))
  }

  /** The single character `ch` at `i`; the position after it. */
  function Expect(s: string, i: nat, ch: char): (r: Option<nat>)
    requires i <= |s|
    ensures r.Some? ==> r.value == i + 1 <= |s| && s[i] == ch
  {
    if i < |s| && s[i] == ch then Some(i + 1) else None
  }

  /** `a` occurs in `s` at position `i`: `s[i:i + len(a)] == a`, character
      by character. */
  predicate At(s: string, i: nat, a: string)
    decreases |a|
  {
    i + |a| <= |s| && (|a| == 0 || (s[i] == a[0] && At(s, i + 1, a[1..])))
  }

  /** `s.startswith(prefix)` */
  predicate StartsWith(s: string, prefix: string)
  {
    At(s, 0, prefix)
  }

  /** `,\s*(\d+)` at `i`: the number after the comma and where it ends. */
  function SeparatedNumber(s: string, i: nat): (r: Option<(nat, nat)>)
    requires i <= |s|
    ensures r.Some? ==> i < r.value.1 <= |s|
  {
    var afterComma :- Expect(s, i, ',');
    Number(s, SpaceRun(s, afterComma))
  }

  /** `(\d+),\s*(\d+),\s*(\d+)` at `i`: the three numbers and where they end. */
  function Components(s: string, i: nat): (r: Option<(Rgb, nat)>)
    requires i <= |s|
    ensures r.Some? ==> i < r.value.1 <= |s|
  {
    var red :- Number(s, i);
    var green :- SeparatedNumber(s, red.1);
    var blue :- SeparatedNumber(s, green.1);
    Some((Rgb(red.0, green.0, blue.0), blue.1))
  }

  /** `re.match(r'rgb\((\d+),\s*(\d+),\s*(\d+)\)', s)`: anchored at the start only. */
  function RgbMatch(s: string): Option<Rgb>
  {
    if !StartsWith(s, "rgb(") then None
    else
      var parts :- Components(s, 4);
      var end :- Expect(s, parts.1, ')');
      Some(parts.0)
  }

  /** `,\s*[\d.]+\)` at `i`: the alpha of `rgba()`, which is read past and
      dropped; the position after the closing parenthesis. */
  function AlphaTail(s: string, i: nat): (r: Option<nat>)
    requires i <= |s|
    ensures r.Some? ==> i < r.value <= |s|
  {
    var afterComma :- Expect(s, i, ',');
    var alphaStart := SpaceRun(s, afterComma);
    var alphaEnd := AlphaRun(s, alphaStart);
    if alphaEnd == alphaStart then None else Expect(s, alphaEnd, ')')
  }

  /** `re.match(r'rgba\((\d+),\s*(\d+),\s*(\d+),\s*[\d.]+\)', s)`: the alpha
      must be present but is discarded. */
  function RgbaMatch(s: string): Option<Rgb>
  {
    if !StartsWith(s, "rgba(") then None
    else
      var parts :- Components(s, 5);
      var end :- AlphaTail(s, parts.1);
      Some(parts.0)
  }

  /** `re.match(r'#([0-9a-fA-F]{2}){3}', s)`: a `#` and six hexadecimal
      digits at the start; whatever follows is ignored. */
  function HexMatch(s: string): (r: Option<Rgb>)
    ensures r.Some? <==> |s| >= 7 && s[0] == '#' && HexDigitsAt(s, 1, 6)
  {
    if |s| >= 7 && s[0] == '#' && HexDigitsAt(s, 1, 6) then Some(HexRgb(s, 1)) else None
  }

  /** `ColorUtils.parse_css_color` (and the identical
      `ContrastChecker._parse_color`): None for the empty string and
      `transparent`; otherwise the first of `rgb()`, `rgba()`, `#rrggbb`
      that matches at the start of the string. */
  function ParseCssColor(s: string): (r: Option<Rgb>)
    ensures s == "" || s == "transparent" ==> r == None
  {
    if s == "" || s == "transparent" then None
    else if RgbMatch(s).Some? then RgbMatch(s)
    else if RgbaMatch(s).Some? then RgbaMatch(s)
    else HexMatch(s)
  }

  /* ---------------- What the parser accepts ---------------- */

  lemma {:induction false} AtChar(s: string, i: nat, a: string, k: nat)
    requires At(s, i, a) && k < |a|
    ensures s[i + k] == a[k]
    decreases k
  {
    if k > 0 {
      AtChar(s, i + 1, a[1..], k - 1);
    }
  }

  /** `a + b` at `i` is `a` at `i` and `b` at `j`, the end of `a`. */
  lemma {:induction false} AtSplit(s: string, i: nat, a: string, b: string, j: nat)
    requires At(s, i, a + b) && j == i + |a|
    ensures At(s, i, a) && At(s, j, b)
    decreases |a|
  {
    if |a| == 0 {
      assert a + b == b;
    } else {
      assert (a + b)[1..] == a[1..] + b;
      AtSplit(s, i + 1, a[1..], b, j);
    }
  }

  lemma {:induction false} AtSuffix(s: string, i: nat)
    requires i <= |s|
    ensures At(s, i, s[i..])
    decreases |s| - i
  {
    if i < |s| {
      assert s[i..][1..] == s[i + 1..];
      AtSuffix(s, i + 1);
    }
  }

  lemma AtDigits(s: string, i: nat, a: string)
    requires At(s, i, a) && AllDigits(a)
    ensures forall k :: i <= k < i + |a| ==> IsDigit(s[k])
  {
    forall k | i <= k < i + |a|
      ensures IsDigit(s[k])
    {
      AtChar(s, i, a, k - i);
    }
  }

  lemma AtAlpha(s: string, i: nat, a: string)
    requires At(s, i, a) && forall k :: 0 <= k < |a| ==> IsAlphaChar(a[k])
    ensures forall k :: i <= k < i + |a| ==> IsAlphaChar(s[k])
  {
    forall k | i <= k < i + |a|
      ensures IsAlphaChar(s[k])
    {
      AtChar(s, i, a, k - i);
    }
  }

  /** A digit run that ends where the digits end is the one `DigitRun` finds. */
  lemma {:induction false} DigitRunAt(s: string, i: nat, j: nat)
    requires i <= j <= |s|
    requires forall k :: i <= k < j ==> IsDigit(s[k])
    requires j == |s| || !IsDigit(s[j])
    ensures DigitRun(s, i) == j
    decreases j - i
  {
    if i < j {
      DigitRunAt(s, i + 1, j);
    }
  }

  lemma {:induction false} AlphaRunAt(s: string, i: nat, j: nat)
    requires i <= j <= |s|
    requires forall k :: i <= k < j ==> IsAlphaChar(s[k])
    requires j == |s| || !IsAlphaChar(s[j])
    ensures AlphaRun(s, i) == j
    decreases j - i
  {
    if i < j {
      AlphaRunAt(s, i + 1, j);
    }
  }

  /** Position `j` ends a run of digits: the end of `s` or a non-digit. */
  predicate EndsNumber(s: string, j: nat)
  {
    j == |s| || (j < |s| && !IsDigit(s[j]))
  }

  /** A run of digits `d` at `i`, not followed by a digit, reads as `int(d)`. */
  lemma NumberAt(s: string, i: nat, d: string, n: nat)
    requires |d| > 0 && AllDigits(d) && DecimalValue(d) == n && At(s, i, d) && EndsNumber(s, i + |d|)
    ensures Number(s, i) == Some((n, i + |d|))
  {
    AtDigits(s, i, d);
    DigitRunAt(s, i, i + |d|);
    forall k | 0 <= k < |d|
      ensures s[i..i + |d|][k] == d[k]
    {
      AtChar(s, i, d, k);
    }
    assert s[i..i + |d|] == d;
  }

  lemma SeparatedNumberOfChars(s: string, i: nat)
    requires i + 2 < |s| && s[i] == ',' && s[i + 1] == ' ' && !IsSpace(s[i + 2])
    ensures SeparatedNumber(s, i) == Number(s, i + 2)
  {
    assert SpaceRun(s, i + 2) == i + 2;
  }

  /** `", "` followed by a run of digits: the comma, the space, then the number. */
  lemma SeparatedNumberAt(s: string, i: nat, d: string, n: nat)
    requires |d| > 0 && AllDigits(d) && DecimalValue(d) == n
    requires i + 2 <= |s| && s[i] == ',' && s[i + 1] == ' '
    requires At(s, i + 2, d) && EndsNumber(s, i + 2 + |d|)
    ensures SeparatedNumber(s, i) == Some((n, i + 2 + |d|))
  {
    AtChar(s, i + 2, d, 0);
    NumberAt(s, i + 2, d, n);
    SeparatedNumberOfChars(s, i);
  }

  /** The text `r, g, b` (a comma and one space between numbers). */
  function ComponentsText(c: Rgb): string
  {
    NatToString(c.r) + ", " + NatToString(c.g) + ", " + NatToString(c.b)
  }

  lemma ComponentsTextLength(c: Rgb)
    ensures |ComponentsText(c)| ==
      |NatToString(c.r)| + 2 + |NatToString(c.g)| + 2 + |NatToString(c.b)|
  {
  }

  /** Where each piece of `ComponentsText(c)` sits when the text is at `i`:
      the first separator at `i1`, the second at `i3`. */
  lemma ComponentsPieces(s: string, i: nat, c: Rgb, i1: nat, i3: nat)
    requires At(s, i, ComponentsText(c))
    requires i1 == i + |NatToString(c.r)| && i3 == i1 + 2 + |NatToString(c.g)|
    ensures At(s, i, NatToString(c.r))
    ensures i1 + 2 <= |s| && s[i1] == ',' && s[i1 + 1] == ' ' && At(s, i1 + 2, NatToString(c.g))
    ensures i3 + 2 <= |s| && s[i3] == ',' && s[i3 + 1] == ' ' && At(s, i3 + 2, NatToString(c.b))
  {
    var r, g, b := NatToString(c.r), NatToString(c.g), NatToString(c.b);
    var t := ComponentsText(c);
    AtSplit(s, i, r + ", " + g + ", ", b, i3 + 2);
    AtSplit(s, i, r + ", " + g, ", ", i3);
    AtSplit(s, i, r + ", ", g, i1 + 2);
    AtSplit(s, i, r, ", ", i1);
    AtChar(s, i, t, |r|);
    AtChar(s, i, t, |r| + 1);
    AtChar(s, i, t, |r| + 2 + |g|);
    AtChar(s, i, t, |r| + 3 + |g|);
  }

  lemma ComponentsOfSteps(s: string, i: nat, c: Rgb, i1: nat, i3: nat, e: nat)
    requires i <= |s| && Number(s, i) == Some((c.r, i1))
    requires i1 <= |s| && SeparatedNumber(s, i1) == Some((c.g, i3))
    requires i3 <= |s| && SeparatedNumber(s, i3) == Some((c.b, e))
    ensures Components(s, i) == Some((c, e))
  {
  }

  lemma RedNumber(s: string, i: nat, c: Rgb, i1: nat)
    requires At(s, i, ComponentsText(c)) && i1 == i + |NatToString(c.r)|
    ensures Number(s, i) == Some((c.r, i1))
  {
    ComponentsPieces(s, i, c, i1, i1 + 2 + |NatToString(c.g)|);
    NumberAt(s, i, NatToString(c.r), c.r);
  }

  lemma GreenNumber(s: string, i: nat, c: Rgb, i1: nat, i3: nat)
    requires At(s, i, ComponentsText(c))
    requires i1 == i + |NatToString(c.r)| && i3 == i1 + 2 + |NatToString(c.g)|
    ensures SeparatedNumber(s, i1) == Some((c.g, i3))
  {
    ComponentsPieces(s, i, c, i1, i3);
    SeparatedNumberAt(s, i1, NatToString(c.g), c.g);
  }

  lemma BlueNumber(s: string, i: nat, c: Rgb, i1: nat, i3: nat, e: nat)
    requires At(s, i, ComponentsText(c)) && EndsNumber(s, e)
    requires i1 == i + |NatToString(c.r)| && i3 == i1 + 2 + |NatToString(c.g)|
    requires e == i3 + 2 + |NatToString(c.b)|
    ensures SeparatedNumber(s, i3) == Some((c.b, e))
  {
    ComponentsPieces(s, i, c, i1, i3);
    SeparatedNumberAt(s, i3, NatToString(c.b), c.b);
  }

  /** `ComponentsText(c)` at `i`, not followed by a digit, reads as `c`. */
  lemma ComponentsAt(s: string, i: nat, c: Rgb)
    requires At(s, i, ComponentsText(c)) && EndsNumber(s, i + |ComponentsText(c)|)
    ensures Components(s, i) == Some((c, i + |ComponentsText(c)|))
  {
    var i1 := i + |NatToString(c.r)|;
    var i3 := i1 + 2 + |NatToString(c.g)|;
    var e := i + |ComponentsText(c)|;
    ComponentsTextLength(c);
    RedNumber(s, i, c, i1);
    GreenNumber(s, i, c, i1, i3);
    BlueNumber(s, i, c, i1, i3, e);
    ComponentsOfSteps(s, i, c, i1, i3, e);
  }

  /** `rgb(r, g, b)` as a browser's computed style writes it. */
  function RgbText(c: Rgb): string
  {
    "rgb(" + ComponentsText(c) + ")"
  }

  /** The four characters `rgb(` at the start of `s`. */
  predicate RgbOpen(s: string)
  {
    |s| >= 4 && s[0] == 'r' && s[1] == 'g' && s[2] == 'b' && s[3] == '('
  }

  lemma RgbMatchOfSteps(s: string, c: Rgb, e: nat)
    requires RgbOpen(s) && Components(s, 4) == Some((c, e)) && e < |s| && s[e] == ')'
    ensures ParseCssColor(s) == Some(c)
  {
    assert StartsWith(s, "rgb(");
    assert RgbMatch(s) == Some(c);
  }

  /** Where each piece of `RgbText(c)` sits when the text starts `s`; the
      closing parenthesis is at `e`. */
  lemma RgbPieces(s: string, c: Rgb, e: nat)
    requires StartsWith(s, RgbText(c)) && e == 4 + |ComponentsText(c)|
    ensures RgbOpen(s) && At(s, 4, ComponentsText(c)) && e < |s| && s[e] == ')'
  {
    var t := ComponentsText(c);
    var text := RgbText(c);
    AtSplit(s, 0, "rgb(" + t, ")", e);
    AtSplit(s, 0, "rgb(", t, 4);
    AtChar(s, 0, text, 0);
    AtChar(s, 0, text, 1);
    AtChar(s, 0, text, 2);
    AtChar(s, 0, text, 3);
    AtChar(s, 0, text, e);
  }

  /** What the `rgb()` grammar finds in a string that starts with `RgbText(c)`. */
  lemma RgbTextSteps(s: string, c: Rgb, e: nat)
    requires StartsWith(s, RgbText(c)) && e == 4 + |ComponentsText(c)|
    ensures RgbOpen(s) && Components(s, 4) == Some((c, e)) && e < |s| && s[e] == ')'
  {
    RgbPieces(s, c, e);
    ComponentsAt(s, 4, c);
  }

  /** A string that starts with `rgb(r, g, b)` parses as `(r, g, b)`, whatever
      follows, with no range check on the numbers. */
  lemma ParseRgbText(s: string, c: Rgb)
    requires StartsWith(s, RgbText(c))
    ensures ParseCssColor(s) == Some(c)
  {
    var e := 4 + |ComponentsText(c)|;
    RgbTextSteps(s, c, e);
    RgbMatchOfSteps(s, c, e);
  }

  /** `rgba(r, g, b, alpha)` with `alpha` made of digits and dots. */
  function RgbaText(c: Rgb, alpha: string): string
  {
    "rgba(" + ComponentsText(c) + ", " + alpha + ")"
  }

  /** Where each piece of `RgbaText(c, alpha)` sits when the text starts `s`. */
  lemma RgbaPieces(s: string, c: Rgb, alpha: string, e: nat)
    requires At(s, 0, RgbaText(c, alpha)) && e == 5 + |ComponentsText(c)|
    ensures RgbaOpen(s) && At(s, 5, ComponentsText(c)) && e + 3 + |alpha| <= |s|
    ensures s[e] == ',' && s[e + 1] == ' ' && At(s, e + 2, alpha) && s[e + 2 + |alpha|] == ')'
  {
    var t := ComponentsText(c);
    var text := RgbaText(c, alpha);
    AtSplit(s, 0, "rgba(" + t + ", " + alpha, ")", e + 2 + |alpha|);
    AtSplit(s, 0, "rgba(" + t + ", ", alpha, e + 2);
    AtSplit(s, 0, "rgba(" + t, ", ", e);
    AtSplit(s, 0, "rgba(", t, 5);
    AtChar(s, 0, text, 0);
    AtChar(s, 0, text, 1);
    AtChar(s, 0, text, 2);
    AtChar(s, 0, text, 3);
    AtChar(s, 0, text, 4);
    AtChar(s, 0, text, e);
    AtChar(s, 0, text, e + 1);
    AtChar(s, 0, text, e + 2 + |alpha|);
  }

  /** `", "`, a non-empty run of digits and dots, and `)`, at `e`. */
  lemma AlphaTailAt(s: string, e: nat, alpha: string)
    requires |alpha| > 0 && forall k :: 0 <= k < |alpha| ==> IsAlphaChar(alpha[k])
    requires e + 3 + |alpha| <= |s| && s[e] == ',' && s[e + 1] == ' ' && At(s, e + 2, alpha)
    requires s[e + 2 + |alpha|] == ')'
    ensures AlphaTail(s, e) == Some(e + 3 + |alpha|)
  {
    AtChar(s, e + 2, alpha, 0);
    AtAlpha(s, e + 2, alpha);
    AlphaRunAt(s, e + 2, e + 2 + |alpha|);
    assert SpaceRun(s, e + 2) == e + 2;
  }

  /** The five characters `rgba(` at the start of `s`. */
  predicate RgbaOpen(s: string)
  {
    |s| >= 5 && s[0] == 'r' && s[1] == 'g' && s[2] == 'b' && s[3] == 'a' && s[4] == '('
  }

  lemma RgbaMatchOfSteps(s: string, c: Rgb, e: nat)
    requires RgbaOpen(s) && Components(s, 5) == Some((c, e)) && e <= |s| && AlphaTail(s, e).Some?
    ensures RgbaMatch(s) == Some(c)
  {
    assert StartsWith(s, "rgba(");
  }

  lemma ParseOfRgbaSteps(s: string, c: Rgb, e: nat)
    requires RgbaOpen(s) && Components(s, 5) == Some((c, e)) && e <= |s| && AlphaTail(s, e).Some?
    ensures ParseCssColor(s) == Some(c)
  {
    RgbaMatchOfSteps(s, c, e);
    ParseOfRgbaMatch(s, c);
  }

  /** What `rgba()` accepts, `rgb()` does not: the fourth character is `a`. */
  lemma ParseOfRgbaMatch(s: string, c: Rgb)
    requires RgbaOpen(s) && RgbaMatch(s) == Some(c)
    ensures ParseCssColor(s) == Some(c)
  {
    assert !StartsWith(s, "rgb(");
  }

  /** What the `rgba()` grammar finds in a string that starts with `RgbaText(c, alpha)`. */
  lemma RgbaTextSteps(s: string, c: Rgb, alpha: string, e: nat)
    requires |alpha| > 0 && forall k :: 0 <= k < |alpha| ==> IsAlphaChar(alpha[k])
    requires StartsWith(s, RgbaText(c, alpha)) && e == 5 + |ComponentsText(c)|
    ensures RgbaOpen(s) && Components(s, 5) == Some((c, e)) && e <= |s|
    ensures AlphaTail(s, e) == Some(e + 3 + |alpha|)
  {
    RgbaPieces(s, c, alpha, e);
    ComponentsAt(s, 5, c);
    AlphaTailAt(s, e, alpha);
  }

  /** A string that starts with `rgba(r, g, b, alpha)` parses as `(r, g, b)`:
      the alpha is dropped. */
  lemma ParseRgbaText(s: string, c: Rgb, alpha: string)
    requires |alpha| > 0 && forall k :: 0 <= k < |alpha| ==> IsAlphaChar(alpha[k])
    requires StartsWith(s, RgbaText(c, alpha))
    ensures ParseCssColor(s) == Some(c)
  {
    var e := 5 + |ComponentsText(c)|;
    RgbaTextSteps(s, c, alpha, e);
    ParseOfRgbaSteps(s, c, e);
  }

  /** `rgb_to_hex(c)`, and anything after it, parses back as `c`. */
  lemma ParseHexText(c: Rgb, rest: string)
    requires InByteRange(c)
    ensures ParseCssColor(RgbToHex(c) + rest) == Some(c)
  {
    var h := RgbToHex(c);
    var s := h + rest;
    RgbToHexFormat(c);
    assert s[0] == '#';
    assert s != "transparent" && s != "";
    assert !StartsWith(s, "rgb(") && !StartsWith(s, "rgba(");
    assert s[1..7] == h[1..];
    HexRgbOfRgbToHex(c, s, 1);
  }

  /** `#ff0000zz` is red: the hex grammar ignores what follows six digits. */
  lemma ParseHexWithTrailer()
    ensures ParseCssColor("#ff0000zz") == Some(Rgb(255, 0, 0))
  {
    ParseHexText(Rgb(255, 0, 0), "zz");
    RgbToHexFormat(Rgb(255, 0, 0));
    assert RgbToHex(Rgb(255, 0, 0)) + "zz" == "#ff0000zz";
  }

  /** Three-digit shorthand and a missing `#` are not colours. */
  lemma ParseShortOrBareHex()
    ensures ParseCssColor("#fff") == None
    ensures ParseCssColor("ff0000") == None
  {
    assert !StartsWith("#fff", "rgb(") && !StartsWith("#fff", "rgba(");
    assert !StartsWith("ff0000", "rgb(") && !StartsWith("ff0000", "rgba(");
  }

  lemma AtSelf(s: string)
    ensures StartsWith(s, s)
  {
    AtSuffix(s, 0);
    assert s[0..] == s;
  }

  /** `rgb(300, 0, 0)` is not range-checked. */
  lemma ParseOutOfRange()
    ensures ParseCssColor("rgb(300, 0, 0)") == Some(Rgb(300, 0, 0))
  {
    var s := "rgb(300, 0, 0)";
    assert NatToString(300) == "300" by {
      assert NatToString(3) == "3";
      assert NatToString(30) == "30";
    }
    assert RgbText(Rgb(300, 0, 0)) == s;
    AtSelf(s);
    ParseRgbText(s, Rgb(300, 0, 0));
  }

  /** `rgba(0, 0, 0, 0)` (fully transparent) is black: the alpha is dropped. */
  lemma ParseTransparentBlack()
    ensures ParseCssColor("rgba(0, 0, 0, 0)") == Some(Rgb(0, 0, 0))
  {
    var s := "rgba(0, 0, 0, 0)";
    assert NatToString(0) == "0";
    assert RgbaText(Rgb(0, 0, 0), "0") == s;
    AtSelf(s);
    ParseRgbaText(s, Rgb(0, 0, 0), "0");
  }

  /** Whitespace is allowed only after the commas: `rgb( 1,2,3)` is not a colour. */
  lemma NoSpaceAfterParenthesis()
    ensures ParseCssColor("rgb( 1,2,3)") == None
  {
    var s := "rgb( 1,2,3)";
    assert DigitRun(s, 4) == 4;
    assert !StartsWith(s, "rgba(");
  }
}
