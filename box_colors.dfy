/** Colour handling of the breathing box: the three theme palettes and
    `interpolateColor`, which reads two `#RRGGBB` strings channel by channel and
    mixes them linearly. Colours are compared as RGB triples: the text form of a
    colour (`#RRGGBB` for a held colour, `rgb(r, g, b)` for a mixed one) is not
    modelled. */
module BoxColors {
  import opened JsMath

  /** The values of the theme selector. */
  datatype Theme = Default | GreenPurple | RedYellow

  datatype Rgb = Rgb(r: int, g: int, b: int)

  /** The two endpoint colours of a theme, as the hex strings the widget holds. */
  datatype Palette = Palette(color1: string, color2: string)

  predicate IsByte(v: int)
  {
    0 <= v < 256
  }

  predicate IsRgb(c: Rgb)
  {
    IsByte(c.r) && IsByte(c.g) && IsByte(c.b)
  }

  predicate IsHexDigit(ch: char)
  {
    '0' <= ch <= '9' || 'a' <= ch <= 'f' || 'A' <= ch <= 'F'
  }

  predicate AllHex(s: string)
  {
    forall i :: 0 <= i < |s| ==> IsHexDigit(s[i])
  }

  /** `#` followed by six hexadecimal digits. */
  predicate WellFormedHex(c: string)
  {
    && |c| == 7 && c[0] == '#'
    && IsHexDigit(c[1]) && IsHexDigit(c[2]) && IsHexDigit(c[3])
    && IsHexDigit(c[4]) && IsHexDigit(c[5]) && IsHexDigit(c[6])
  }

  /** `getColors`: the palette of a theme; every other theme value falls back to
      orange and blue. */
  function GetColors(theme: Theme): (p: Palette)
    ensures WellFormedHex(p.color1) && WellFormedHex(p.color2)
    ensures IsUpperHex(p.color1) && IsUpperHex(p.color2)
  {
    match theme
    case GreenPurple => Palette("#4CAF50", "#9C27B0")
    case RedYellow => Palette("#FFEB3B", "#F44336")
    case Default => Palette("#FF9800", "#2196F3")
  }

  function HexValue(ch: char): (v: nat)
    requires IsHexDigit(ch)
    ensures v < 16
  {
    if ch <= '9' then ch as int - '0' as int
    else if 'a' <= ch then ch as int - 'a' as int + 10
    else ch as int - 'A' as int + 10
  }

  function Pow16(n: nat): (p: nat)
  {
    if n == 0 then 1 else 16 * Pow16(n - 1)
  }

  /** `parseInt(s, 16)` on a non-empty string of hexadecimal digits: the value
      stays below 16 to the power of the number of digits. */
  function ParseHex(s: string): (n: nat)
    requires |s| > 0 && AllHex(s)
    ensures n < Pow16(|s|)
  {
    if |s| == 1 then HexValue(s[0])
    else 16 * ParseHex(s[..|s| - 1]) + HexValue(s[|s| - 1])
  }

  /** The three `parseInt(color.slice(i, i + 2), 16)` calls of `interpolateColor`:
      every channel is a byte. */
  function Decode(c: string): (rgb: Rgb)
    requires WellFormedHex(c)
    ensures IsRgb(rgb)
  {
    Rgb(ParseHex(c[1..3]), ParseHex(c[3..5]), ParseHex(c[5..7]))
  }

  /** One channel of `interpolateColor`: `Math.round(c1 + factor * (c2 - c1))`. */
  function MixChannel(c1: int, c2: int, factor: real): (c: int)
    ensures -0.5 < c as real - (c1 as real + factor * (c2 - c1) as real) <= 0.5
  {
    Round(c1 as real + factor * (c2 - c1) as real)
  }

  /** `interpolateColor(color1, color2, factor)`, as an RGB triple. */
  function InterpolateColor(color1: string, color2: string, factor: real): Rgb
    requires WellFormedHex(color1) && WellFormedHex(color2)
  {
    var c1, c2 := Decode(color1), Decode(color2);
    Rgb(MixChannel(c1.r, c2.r, factor), MixChannel(c1.g, c2.g, factor), MixChannel(c1.b, c2.b, factor))
  }

  // ----- Hex formatting, the inverse of Decode -----

  predicate IsUpperHexDigit(ch: char)
  {
    '0' <= ch <= '9' || 'A' <= ch <= 'F'
  }

  /** `#` followed by six hexadecimal digits written in upper case, the form every
      palette colour takes. */
  predicate IsUpperHex(c: string)
  {
    && |c| == 7 && c[0] == '#'
    && IsUpperHexDigit(c[1]) && IsUpperHexDigit(c[2]) && IsUpperHexDigit(c[3])
    && IsUpperHexDigit(c[4]) && IsUpperHexDigit(c[5]) && IsUpperHexDigit(c[6])
  }

  function HexDigit(v: int): (ch: char)
    requires 0 <= v < 16
    ensures IsUpperHexDigit(ch) && HexValue(ch) == v
  {
    if v < 10 then ('0' as int + v) as char else ('A' as int + v - 10) as char
  }

  function HexByte(v: int): (s: string)
    requires IsByte(v)
    ensures |s| == 2 && AllHex(s) && ParseHex(s) == v
  {
    [HexDigit(v / 16), HexDigit(v % 16)]
  }

  /** The `#RRGGBB` text of a colour. */
  function Encode(c: Rgb): (s: string)
    requires IsRgb(c)
    ensures IsUpperHex(s)
  {
    "#" + HexByte(c.r) + HexByte(c.g) + HexByte(c.b)
  }

  /** Decoding undoes encoding: the parser reads back every channel. */
  lemma DecodeEncode(c: Rgb)
    requires IsRgb(c)
    ensures WellFormedHex(Encode(c)) && Decode(Encode(c)) == c
  {
    var s := Encode(c);
    assert s[1..3] == HexByte(c.r);
    assert s[3..5] == HexByte(c.g);
    assert s[5..7] == HexByte(c.b);
  }

  lemma ParseTwoDigits(s: string)
    requires |s| == 2 && AllHex(s)
    ensures ParseHex(s) == 16 * HexValue(s[0]) + HexValue(s[1])
  {
    assert s[..1] == [s[0]];
  }

  lemma HexDigitOfValue(ch: char)
    requires IsUpperHexDigit(ch)
    ensures HexDigit(HexValue(ch)) == ch
  {
  }

  lemma ByteRoundTrip(s: string)
    requires |s| == 2 && IsUpperHexDigit(s[0]) && IsUpperHexDigit(s[1])
    ensures AllHex(s) && HexByte(ParseHex(s)) == s
  {
    ParseTwoDigits(s);
    var hi, lo := HexValue(s[0]), HexValue(s[1]);
    var v := ParseHex(s);
    assert v / 16 == hi && v % 16 == lo;
    HexDigitOfValue(s[0]);
    HexDigitOfValue(s[1]);
    assert HexByte(v) == [HexDigit(hi), HexDigit(lo)] == [s[0], s[1]];
  }

  /** Encoding undoes decoding on upper-case colours, so Decode loses nothing. */
  lemma EncodeDecode(c: string)
    requires WellFormedHex(c) && IsUpperHex(c)
    ensures Encode(Decode(c)) == c
  {
    ByteRoundTrip(c[1..3]);
    ByteRoundTrip(c[3..5]);
    ByteRoundTrip(c[5..7]);
    assert c == [c[0]] + c[1..3] + c[3..5] + c[5..7];
  }

  // ----- Properties of interpolateColor -----

  /** At factor 0 the mix is the first colour and at factor 1 the second. */
  lemma InterpolateEnds(color1: string, color2: string)
    requires WellFormedHex(color1) && WellFormedHex(color2)
    ensures InterpolateColor(color1, color2, 0.0) == Decode(color1)
    ensures InterpolateColor(color1, color2, 1.0) == Decode(color2)
  {
    var c1, c2 := Decode(color1), Decode(color2);
    MixChannelEnds(c1.r, c2.r);
    MixChannelEnds(c1.g, c2.g);
    MixChannelEnds(c1.b, c2.b);
  }

  lemma MixChannelEnds(c1: int, c2: int)
    ensures MixChannel(c1, c2, 0.0) == c1 && MixChannel(c1, c2, 1.0) == c2
  {
    assert c1 as real + 1.0 * (c2 - c1) as real == c2 as real;
  }

  function Min(a: int, b: int): int { if a <= b then a else b }
  function Max(a: int, b: int): int { if a <= b then b else a }

  /** For a factor in [0, 1] a mixed channel never leaves the range spanned by
      its two endpoint channels. */
  lemma MixChannelBetween(c1: int, c2: int, factor: real)
    requires 0.0 <= factor <= 1.0
    ensures Min(c1, c2) <= MixChannel(c1, c2, factor) <= Max(c1, c2)
  {
    var d := (c2 - c1) as real;
    var v := c1 as real + factor * d;
    if c1 <= c2 {
      assert 0.0 <= factor * d <= d;
    } else {
      assert d <= factor * d <= 0.0;
    }
  }

  /** For a factor in [0, 1] every channel of the mix lies between the matching
      channels of the two endpoint colours, so the mix is a colour again. */
  lemma InterpolateBetween(color1: string, color2: string, factor: real)
    requires WellFormedHex(color1) && WellFormedHex(color2)
    requires 0.0 <= factor <= 1.0
    ensures var c1, c2, m := Decode(color1), Decode(color2), InterpolateColor(color1, color2, factor);
      && Min(c1.r, c2.r) <= m.r <= Max(c1.r, c2.r)
      && Min(c1.g, c2.g) <= m.g <= Max(c1.g, c2.g)
      && Min(c1.b, c2.b) <= m.b <= Max(c1.b, c2.b)
      && IsRgb(m)
  {
    var c1, c2 := Decode(color1), Decode(color2);
    MixChannelBetween(c1.r, c2.r, factor);
    MixChannelBetween(c1.g, c2.g, factor);
    MixChannelBetween(c1.b, c2.b, factor);
  }

  /** The palettes decode to the colours their names promise. */
  lemma PaletteValues()
    ensures Decode(GetColors(Default).color1) == Rgb(255, 152, 0)
    ensures Decode(GetColors(Default).color2) == Rgb(33, 150, 243)
    ensures Decode(GetColors(GreenPurple).color1) == Rgb(76, 175, 80)
    ensures Decode(GetColors(GreenPurple).color2) == Rgb(156, 39, 176)
    ensures Decode(GetColors(RedYellow).color1) == Rgb(255, 235, 59)
    ensures Decode(GetColors(RedYellow).color2) == Rgb(244, 67, 54)
  {
  }
}
