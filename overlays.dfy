/**
 * Alpha-blended colour strings (src/theme/overlays.ts): `withAlpha` turns a
 * `#rgb` or `#rrggbb` colour into `rgba(r, g, b, alpha)`, the overlay alpha
 * presets, and the text halo colour.
 */
module Overlays {

  predicate IsDigit(ch: char) { '0' <= ch <= '9' }

  predicate IsHexDigit(ch: char) { '0' <= ch <= '9' || 'a' <= ch <= 'f' || 'A' <= ch <= 'F' }

  /** The value of one hexadecimal digit, either case, as parseInt reads it. */
  function HexValue(ch: char): (v: nat)
    requires IsHexDigit(ch)
    ensures v < 16
  {
    if '0' <= ch <= '9' then (ch - '0') as nat
    else if 'a' <= ch <= 'f' then (ch - 'a') as nat + 10
    else (ch - 'A') as nat + 10
  }

  /** The lower-case digit for a value below 16. */
  function HexChar(v: nat): (ch: char)
    requires v < 16
    ensures IsHexDigit(ch) && HexValue(ch) == v
  {
    if v < 10 then '0' + v as char else 'a' + (v - 10) as char
  }

  /** parseInt(pair, 16) on two hex digits. */
  function ParseHexPair(hi: char, lo: char): (v: nat)
    requires IsHexDigit(hi) && IsHexDigit(lo)
    ensures v == 16 * HexValue(hi) + HexValue(lo)
    ensures v <= 255
  {
    16 * HexValue(hi) + HexValue(lo)
  }

  /** The shorthand step of withAlpha: a 4-character `#xyz` becomes `#xxyyzz`, anything else is kept. */
  function Expand(hex: string): (full: string)
    ensures |hex| != 4 ==> full == hex
    ensures |hex| == 4 ==> (|full| == 7 && full[0] == '#'
      && full[1] == full[2] == hex[1] && full[3] == full[4] == hex[2] && full[5] == full[6] == hex[3])
  {
    if |hex| == 4 then ['#', hex[1], hex[1], hex[2], hex[2], hex[3], hex[3]] else hex
  }

  /** The three two-digit slices [1,3), [3,5), [5,7) are all hexadecimal. */
  predicate HasHexPairs(full: string)
  {
    |full| >= 7 && forall i :: 1 <= i < 7 ==> IsHexDigit(full[i])
  }

  /** A colour withAlpha can read: its expanded form has three full hex pairs. */
  predicate ValidHex(hex: string) { HasHexPairs(Expand(hex)) }

  datatype Rgb = Rgb(r: nat, g: nat, b: nat)

  /** The three channels parsed from the expanded colour. */
  function Channels(full: string): (c: Rgb)
    requires HasHexPairs(full)
    ensures c.r <= 255 && c.g <= 255 && c.b <= 255
  {
    Rgb(ParseHexPair(full[1], full[2]), ParseHexPair(full[3], full[4]), ParseHexPair(full[5], full[6]))
  }

  /** The decimal text of a natural number, as a template literal prints it. */
  function NatToDecimal(n: nat): (s: string)
    ensures |s| > 0 && forall i :: 0 <= i < |s| ==> IsDigit(s[i])
  {
    if n < 10 then ['0' + n as char] else NatToDecimal(n / 10) + ['0' + (n % 10) as char]
  }

  /** Reads a string of decimal digits back as a number. */
  function ParseDecimal(s: string): nat
    requires forall i :: 0 <= i < |s| ==> IsDigit(s[i])
  {
    if s == [] then 0
    else
      var last := s[|s| - 1];
      assert IsDigit(last);
      10 * ParseDecimal(s[..|s| - 1]) + (last as int - '0' as int) as nat
  }

  /** Printing a number in decimal and reading it back gives the number. */
  lemma {:induction false} DecimalRoundTrip(n: nat)
    ensures ParseDecimal(NatToDecimal(n)) == n
  {
    var s := NatToDecimal(n);
    if n >= 10 {
      DecimalRoundTrip(n / 10);
      assert s[..|s| - 1] == NatToDecimal(n / 10);
    }
  }

  /**
   * An alpha between 0 and 1 as JavaScript prints it: "0." followed by `digits`
   * (the presets all have this shape).
   */
  datatype Fraction = Fraction(digits: string)
  {
    predicate Valid()
    {
      |digits| > 0 && (forall i :: 0 <= i < |digits| ==> IsDigit(digits[i])) && digits[|digits| - 1] != '0'
    }

    function Text(): string { "0." + digits }

    function Value(): real
      requires Valid()
    {
      (ParseDecimal(digits) as real) / (Pow10(|digits|) as real)
    }
  }

  function Pow10(k: nat): (p: nat)
    ensures p > 0
  {
    if k == 0 then 1 else 10 * Pow10(k - 1)
  }

  /** The text withAlpha returns for given channels and alpha. */
  function RgbaText(c: Rgb, alpha: Fraction): string
  {
    "rgba(" + NatToDecimal(c.r) + ", " + NatToDecimal(c.g) + ", " + NatToDecimal(c.b) + ", " + alpha.Text() + ")"
  }

  /** withAlpha(hex, alpha): expand the shorthand, parse the three pairs, print rgba(...). */
  function WithAlpha(hex: string, alpha: Fraction): (s: string)
    requires ValidHex(hex)
    ensures |s| > 5 + |alpha.Text()| && s[..5] == "rgba("
    ensures s[|s| - |alpha.Text()| - 3..] == ", " + alpha.Text() + ")"
    ensures |hex| != 4 ==> s == RgbaText(Channels(hex), alpha)
  {
    RgbaText(Channels(Expand(hex)), alpha)
  }

  /** `#xyz` and `#xxyyzz` give the same colour. */
  lemma ShorthandSameAsLongForm(x: char, y: char, z: char, alpha: Fraction)
    requires IsHexDigit(x) && IsHexDigit(y) && IsHexDigit(z)
    ensures ValidHex(['#', x, y, z]) && ValidHex(['#', x, x, y, y, z, z])
    ensures WithAlpha(['#', x, y, z], alpha) == WithAlpha(['#', x, x, y, y, z, z], alpha)
  {
  }

  /** Each channel of a long-form colour is 16·hi + lo of its digit pair and at most 255. */
  lemma ChannelsOfLongForm(hex: string)
    requires |hex| == 7 && HasHexPairs(hex)
    ensures ValidHex(hex)
    ensures Channels(Expand(hex)) == Rgb(
      16 * HexValue(hex[1]) + HexValue(hex[2]),
      16 * HexValue(hex[3]) + HexValue(hex[4]),
      16 * HexValue(hex[5]) + HexValue(hex[6]))
  {
  }

  /** `#rrggbb` for three bytes, in lower-case digits. */
  function FormatHex(c: Rgb): (s: string)
    requires c.r <= 255 && c.g <= 255 && c.b <= 255
    ensures |s| == 7 && HasHexPairs(s)
  {
    ['#', HexChar(c.r / 16), HexChar(c.r % 16), HexChar(c.g / 16), HexChar(c.g % 16),
     HexChar(c.b / 16), HexChar(c.b % 16)]
  }

  /** Formatting bytes as `#rrggbb` and parsing them back gives the same bytes. */
  lemma FormatHexRoundTrip(c: Rgb)
    requires c.r <= 255 && c.g <= 255 && c.b <= 255
    ensures ValidHex(FormatHex(c))
    ensures Channels(Expand(FormatHex(c))) == c
  {
  }

  /** Hence withAlpha on a formatted colour prints exactly its bytes, with the alpha unchanged. */
  lemma WithAlphaOfFormatted(c: Rgb, alpha: Fraction)
    requires c.r <= 255 && c.g <= 255 && c.b <= 255
    ensures ValidHex(FormatHex(c))
    ensures WithAlpha(FormatHex(c), alpha) == RgbaText(c, alpha)
  {
    FormatHexRoundTrip(c);
  }

  /** OVERLAY_ALPHA: subtle 0.05, fill 0.1, medium 0.15, hover 0.2, strong 0.3. */
  const SUBTLE: Fraction := Fraction("05")
  const FILL: Fraction := Fraction("1")
  const MEDIUM: Fraction := Fraction("15")
  const HOVER: Fraction := Fraction("2")
  const STRONG: Fraction := Fraction("3")

  /** The presets have the values the source gives them, strictly increasing and inside (0, 1). */
  lemma OverlayAlphaLadder()
    ensures SUBTLE.Valid() && FILL.Valid() && MEDIUM.Valid() && HOVER.Valid() && STRONG.Valid()
    ensures SUBTLE.Value() == 0.05 && FILL.Value() == 0.1 && MEDIUM.Value() == 0.15
    ensures HOVER.Value() == 0.2 && STRONG.Value() == 0.3
    ensures 0.0 < SUBTLE.Value() < FILL.Value() < MEDIUM.Value() < HOVER.Value() < STRONG.Value() < 1.0
  {
    assert ParseDecimal("05") == 5 by {
      assert "05"[..1] == "0";
      assert ParseDecimal("0") == 0 by { assert "0"[..0] == []; }
    }
    assert ParseDecimal("15") == 15 by {
      assert "15"[..1] == "1";
      assert ParseDecimal("1") == 1 by { assert "1"[..0] == []; }
    }
    assert ParseDecimal("1") == 1 by { assert "1"[..0] == []; }
    assert ParseDecimal("2") == 2 by { assert "2"[..0] == []; }
    assert ParseDecimal("3") == 3 by { assert "3"[..0] == []; }
  }

  const DARK_HALO: string := "rgba(0, 0, 0, 0.4)"
  const LIGHT_HALO: string := "rgba(255, 255, 255, 0.6)"

  /** getHaloColor: the dark halo exactly in dark mode. */
  function HaloColor(isDark: bool): (s: string)
    ensures s == DARK_HALO <==> isDark
    ensures s == LIGHT_HALO <==> !isDark
  {
    if isDark then DARK_HALO else LIGHT_HALO
  }
}
