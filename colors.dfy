/**
 * The colour helpers of the application shell (`hexToRgb` and `lightenColor`).
 * The lighten amount is an integer number of channel steps; the floating-point
 * rounding that turns a percentage into it is not modelled.
 */
module ColorUtil {
  import opened Wrappers

  datatype Rgb = Rgb(r: int, g: int, b: int)

  /** The case-insensitive class `[a-f\d]`. */
  predicate IsHexDigit(c: char) {
    '0' <= c <= '9' || 'a' <= c <= 'f' || 'A' <= c <= 'F'
  }

  /** What `toString(16)` emits: digits and lower-case letters only. */
  predicate IsLowerHexDigit(c: char) {
    '0' <= c <= '9' || 'a' <= c <= 'f'
  }

  /** `parseInt(c, 16)` for one hexadecimal digit. */
  function HexDigitValue(c: char): (v: nat)
    requires IsHexDigit(c)
    ensures v < 16
  {
    if '0' <= c <= '9' then (c as int) - ('0' as int)
    else if 'a' <= c <= 'f' then (c as int) - ('a' as int) + 10
    else (c as int) - ('A' as int) + 10
  }

  predicate IsSixHex(s: string) {
    |s| == 6 && forall k :: 0 <= k < 6 ==> IsHexDigit(s[k])
  }

  /** The six digits the pattern `^#?([a-f\d]{2}){3}$` (case-insensitive) accepts, if it matches. */
  function HexBody(hex: string): (r: Option<string>)
    ensures r.Some? ==> IsSixHex(r.value) && |hex| >= 6 && r.value == hex[|hex| - 6..]
    ensures r.Some? <==> IsSixHex(hex) || (|hex| == 7 && hex[0] == '#' && IsSixHex(hex[1..]))
  {
    if |hex| > 0 && hex[0] == '#' && IsSixHex(hex[1..]) then Some(hex[1..])
    else if IsSixHex(hex) then Some(hex)
    else None
  }

  /** `parseInt` of the two hexadecimal digits at `i`. */
  function PairValue(ds: string, i: nat): (v: nat)
    requires i + 1 < |ds| && IsHexDigit(ds[i]) && IsHexDigit(ds[i + 1])
    ensures v <= 255
  {
    16 * HexDigitValue(ds[i]) + HexDigitValue(ds[i + 1])
  }

  /** `hexToRgb`: three channels from a well-formed colour, black from anything else. */
  function HexToRgb(hex: string): (c: Rgb)
    ensures 0 <= c.r <= 255 && 0 <= c.g <= 255 && 0 <= c.b <= 255
    ensures HexBody(hex).None? ==> c == Rgb(0, 0, 0)
  {
    match HexBody(hex)
    case None => Rgb(0, 0, 0)
    case Some(ds) => Rgb(PairValue(ds, 0), PairValue(ds, 2), PairValue(ds, 4))
  }

  /** One channel of `lightenColor`: add, cap at 255, then clamp below at 0. */
  function LightenChannel(c: int, amt: int): (v: int)
    ensures 0 <= v <= 255
    ensures 0 <= c + amt <= 255 ==> v == c + amt
    ensures c + amt >= 255 ==> v == 255
    ensures c + amt < 1 ==> v == 0
  {
    var raised := if c + amt < 255 then c + amt else 255;
    if raised < 255 then (if raised < 1 then 0 else raised) else 255
  }

  function Pow16(w: nat): (p: nat)
    ensures p >= 1
  {
    if w == 0 then 1 else 16 * Pow16(w - 1)
  }

  const LowerHexDigits := "0123456789abcdef"

  function HexChar(d: nat): (c: char)
    requires d < 16
    ensures IsLowerHexDigit(c) && HexDigitValue(c) == d
  {
    LowerHexDigits[d]
  }

  /** `n.toString(16)` for a non-negative integer: lower-case digits, no leading zeros. */
  function ToHexString(n: nat): (r: string)
    decreases n
    ensures |r| > 0 && forall k :: 0 <= k < |r| ==> IsLowerHexDigit(r[k])
    ensures r[0] == '0' <==> n == 0
  {
    if n < 16 then [HexChar(n)] else ToHexString(n / 16) + [HexChar(n % 16)]
  }

  /** The `w`-digit lower-case hexadecimal rendering of `v`, with leading zeros. */
  function FixedHex(v: nat, w: nat): (s: string)
    ensures |s| == w
    ensures forall k :: 0 <= k < w ==> IsLowerHexDigit(s[k])
  {
    if w == 0 then [] else FixedHex(v / 16, w - 1) + [HexChar(v % 16)]
  }

  /** Adding `16^w` to a `w`-digit value puts a leading `1` in front of its fixed rendering. */
  lemma {:induction false} ToHexOfOffset(v: nat, w: nat)
    requires v < Pow16(w)
    ensures ToHexString(Pow16(w) + v) == "1" + FixedHex(v, w)
  {
    if w > 0 {
      var n := Pow16(w) + v;
      assert Pow16(w) == 16 * Pow16(w - 1);
      assert n / 16 == Pow16(w - 1) + v / 16 && n % 16 == v % 16;
      ToHexOfOffset(v / 16, w - 1);
    }
  }

  /** The fixed rendering of `n == hi * 256 + lo` is that of `hi` followed by the two digits of `lo`. */
  lemma FixedHexPair(n: nat, hi: nat, lo: nat, m: nat)
    requires lo < 0x100 && n == hi * 0x100 + lo
    ensures FixedHex(n, m + 2) == FixedHex(hi, m) + FixedHex(lo, 2)
  {
    assert n / 16 == hi * 16 + lo / 16 && n % 16 == lo % 16;
    assert n / 16 / 16 == hi && (n / 16) % 16 == lo / 16 % 16;
    var d := [HexChar(lo / 16 % 16)] + [HexChar(lo % 16)];
    calc {
      FixedHex(n, m + 2);
      FixedHex(n / 16, m + 1) + [HexChar(lo % 16)];
      (FixedHex(hi, m) + [HexChar(lo / 16 % 16)]) + [HexChar(lo % 16)];
      FixedHex(hi, m) + d;
    }
  }

  lemma FixedHexTwo(x: nat)
    ensures FixedHex(x, 2) == [HexChar(x / 16 % 16), HexChar(x % 16)]
  {
    assert FixedHex(x / 16, 1) == [] + [HexChar(x / 16 % 16)];
  }

  /** Two fixed digits read back as the value they render. */
  lemma PairValueOfFixed(x: nat, ds: string, i: nat)
    requires x < 256 && i + 1 < |ds| && ds[i..i + 2] == FixedHex(x, 2)
    ensures IsHexDigit(ds[i]) && IsHexDigit(ds[i + 1]) && PairValue(ds, i) == x
  {
    FixedHexTwo(x);
    assert ds[i] == ds[i..i + 2][0] == HexChar(x / 16 % 16);
    assert ds[i + 1] == ds[i..i + 2][1] == HexChar(x % 16);
    assert x / 16 % 16 == x / 16;
  }

  /** `"#" + (0x1000000 + packed).toString(16).slice(1)`: a colour written as `#` and six fixed digits. */
  function RenderRgb(red: nat, green: nat, blue: nat): (r: string)
    requires red < 256 && green < 256 && blue < 256
    ensures r == "#" + FixedHex(red * 0x10000 + green * 0x100 + blue, 6)
  {
    var v := red * 0x10000 + green * 0x100 + blue;
    assert Pow16(6) == 0x1000000;
    ToHexOfOffset(v, 6);
    assert ("1" + FixedHex(v, 6))[1..] == FixedHex(v, 6);
    "#" + ToHexString(0x1000000 + v)[1..]
  }

  /** `lightenColor`: `#` and the six lower-case digits of the lightened channels. */
  function LightenColor(hex: string, amt: int): (r: string)
    ensures |r| == 7 && r[0] == '#'
    ensures forall k :: 1 <= k < 7 ==> IsLowerHexDigit(r[k])
  {
    var c := HexToRgb(hex);
    RenderRgb(LightenChannel(c.r, amt), LightenChannel(c.g, amt), LightenChannel(c.b, amt))
  }

  /** Six fixed digits of three packed channels are the three channels' two-digit renderings. */
  lemma {:induction false} FixedHexOfChannels(red: nat, green: nat, blue: nat)
    requires red < 256 && green < 256 && blue < 256
    ensures FixedHex(red * 0x10000 + green * 0x100 + blue, 6)
      == FixedHex(red, 2) + FixedHex(green, 2) + FixedHex(blue, 2)
  {
    var hi := red * 0x100 + green;
    FixedHexPair(red * 0x10000 + green * 0x100 + blue, hi, blue, 4);
    FixedHexPair(hi, red, green, 2);
  }

  /** Six fixed digits of three packed channels read back as those channels. */
  lemma {:induction false} HexToRgbOfFixed(red: nat, green: nat, blue: nat)
    requires red < 256 && green < 256 && blue < 256
    ensures HexToRgb("#" + FixedHex(red * 0x10000 + green * 0x100 + blue, 6)) == Rgb(red, green, blue)
  {
    FixedHexOfChannels(red, green, blue);
    var ds := FixedHex(red * 0x10000 + green * 0x100 + blue, 6);
    var out := "#" + ds;
    assert out[1..] == ds;
    assert HexBody(out) == Some(ds);
    assert ds[0..2] == FixedHex(red, 2);
    assert ds[2..4] == FixedHex(green, 2);
    assert ds[4..6] == FixedHex(blue, 2);
    PairValueOfFixed(red, ds, 0);
    PairValueOfFixed(green, ds, 2);
    PairValueOfFixed(blue, ds, 4);
  }

  /**
   * Reading a lightened colour back gives each channel of the original moved by
   * `amt` and clamped to 0..255: `lightenColor` emits what `hexToRgb` accepts.
   */
  lemma {:induction false} LightenColorRoundTrip(hex: string, amt: int)
    ensures var c := HexToRgb(hex);
      HexToRgb(LightenColor(hex, amt))
        == Rgb(LightenChannel(c.r, amt), LightenChannel(c.g, amt), LightenChannel(c.b, amt))
  {
    var c := HexToRgb(hex);
    var red, green, blue := LightenChannel(c.r, amt), LightenChannel(c.g, amt), LightenChannel(c.b, amt);
    assert LightenColor(hex, amt) == RenderRgb(red, green, blue);
    HexToRgbOfFixed(red, green, blue);
  }
}
