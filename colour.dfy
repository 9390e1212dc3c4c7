/**
 * The colour shader of the renderer: `shadeColor` decodes a `#RRGGBB` colour
 * into three channels, scales each by `(100 + percent * 100) / 100`, drops the
 * fraction, caps the channel at 255 (there is no lower cap) and encodes it
 * again as hexadecimal text, padded to two digits when it is one digit long.
 */
module Colour {

  /** A colour string that is not `#` followed by six hexadecimal digits. */
  datatype ColourError = InvalidColourFormat

  datatype Result<T> = Ok(value: T) | Err(error: ColourError)

  /** The three decoded channels of a colour; after scaling they may leave 0..255. */
  datatype Rgb = Rgb(r: int, g: int, b: int)

  predicate InByteRange(v: int) { 0 <= v < 256 }

  predicate IsByteRgb(c: Rgb) { InByteRange(c.r) && InByteRange(c.g) && InByteRange(c.b) }

  // ---------------------------------------------------------------------------
  // Hexadecimal digits
  // ---------------------------------------------------------------------------

  predicate IsHexDigit(c: char) {
    ('0' <= c <= '9') || ('a' <= c <= 'f') || ('A' <= c <= 'F')
  }

  predicate IsLowerHexDigit(c: char) {
    ('0' <= c <= '9') || ('a' <= c <= 'f')
  }

  /** The value `parseInt(_, 16)` gives one hexadecimal digit, in either case. */
  function DigitValue(c: char): (v: nat)
    requires IsHexDigit(c)
    ensures v < 16
  {
    if '0' <= c <= '9' then c as int - '0' as int
    else if 'a' <= c <= 'f' then c as int - 'a' as int + 10
    else c as int - 'A' as int + 10
  }

  /** The digit `Number.prototype.toString(16)` writes for a value below 16: always lower case. */
  function HexDigit(v: nat): (c: char)
    requires v < 16
    ensures IsLowerHexDigit(c) && IsHexDigit(c)
    ensures DigitValue(c) == v
  {
    if v < 10 then ('0' as int + v) as char else ('a' as int + v - 10) as char
  }

  /** Lower-case form of a hexadecimal digit; other characters are left alone. */
  function LowerDigit(c: char): char {
    if 'A' <= c <= 'F' then (c as int - 'A' as int + 'a' as int) as char else c
  }

  function Lowercase(s: string): (r: string)
    ensures |r| == |s|
  {
    seq(|s|, i requires 0 <= i < |s| => LowerDigit(s[i]))
  }

  // ---------------------------------------------------------------------------
  // Decoding
  // ---------------------------------------------------------------------------

  predicate IsColour(s: string) {
    |s| == 7 && s[0] == '#' && forall i :: 1 <= i < 7 ==> IsHexDigit(s[i])
  }

  /** A colour as the shader writes it: `#` and six lower-case digits. */
  predicate IsLowerColour(s: string) {
    |s| == 7 && s[0] == '#' && forall i :: 1 <= i < 7 ==> IsLowerHexDigit(s[i])
  }

  /** `parseInt(color.substring(k, k + 2), 16)` on a two-digit hexadecimal channel. */
  function ParseChannel(hi: char, lo: char): (v: nat)
    requires IsHexDigit(hi) && IsHexDigit(lo)
    ensures v < 256
  {
    16 * DigitValue(hi) + DigitValue(lo)
  }

  /** The three `parseInt` calls of the shader, on a well-formed colour string. */
  function Parse(s: string): (r: Result<Rgb>)
    ensures r.Ok? <==> IsColour(s)
    ensures r.Ok? ==> IsByteRgb(r.value)
  {
    if IsColour(s) then
      Ok(Rgb(ParseChannel(s[1], s[2]), ParseChannel(s[3], s[4]), ParseChannel(s[5], s[6])))
    else
      Err(InvalidColourFormat)
  }

  // ---------------------------------------------------------------------------
  // Encoding
  // ---------------------------------------------------------------------------

  /** `n.toString(16)` for a non-negative integer: the shortest lower-case digit string. */
  function HexText(n: nat): (t: string)
    ensures |t| >= 1
    ensures forall i :: 0 <= i < |t| ==> IsLowerHexDigit(t[i])
    ensures n < 16 <==> |t| == 1
    decreases n
  {
    if n < 16 then [HexDigit(n)] else HexText(n / 16) + [HexDigit(n % 16)]
  }

  /** `n.toString(16)` for any integer: a negative value gets a leading minus sign. */
  function ToString16(n: int): string {
    if n < 0 then "-" + HexText(-n) else HexText(n)
  }

  /** The shader's padding: a one-character text gets a leading `0`, anything else is kept. */
  function Pad(t: string): string {
    if |t| == 1 then "0" + t else t
  }

  function FormatChannel(v: int): string {
    Pad(ToString16(v))
  }

  function Format(c: Rgb): string {
    "#" + FormatChannel(c.r) + FormatChannel(c.g) + FormatChannel(c.b)
  }

  // ---------------------------------------------------------------------------
  // Scaling
  // ---------------------------------------------------------------------------

  /** `parseInt` of a number: the fraction is dropped, rounding toward zero. */
  function Trunc(x: real): (n: int)
    ensures 0.0 <= x ==> 0 <= n && n as real <= x < n as real + 1.0
    ensures x < 0.0 ==> n <= 0 && x <= n as real && (n as real) - 1.0 < x
  {
    if x >= 0.0 then x.Floor else -((-x).Floor)
  }

  /** The channel after `parseInt(v * (100 + percent * 100) / 100)`, before the cap. */
  function Scaled(v: int, percent: real): int {
    Trunc(v as real * (100.0 + percent * 100.0) / 100.0)
  }

  /** One channel of the shader: scaled, truncated, capped at 255 from above only. */
  function ShadeChannel(v: int, percent: real): (r: int)
    ensures r <= 255
    ensures r == 255 <==> Scaled(v, percent) >= 255
    ensures r < 255 ==> r == Scaled(v, percent)
  {
    var t := Scaled(v, percent);
    if t < 255 then t else 255
  }

  function ShadeRgb(c: Rgb, percent: real): Rgb {
    Rgb(ShadeChannel(c.r, percent), ShadeChannel(c.g, percent), ShadeChannel(c.b, percent))
  }

  /** `shadeColor(color, percent)`. A malformed colour is reported instead of producing NaN text. */
  function ShadeColour(s: string, percent: real): (r: Result<string>)
    ensures r.Ok? <==> IsColour(s)
  {
    match Parse(s)
    case Err(e) => Err(e)
    case Ok(c) => Ok(Format(ShadeRgb(c, percent)))
  }

  // ---------------------------------------------------------------------------
  // Encoding and decoding are inverse on bytes
  // ---------------------------------------------------------------------------

  /** A channel in 0..255 is written as exactly two lower-case digits, high digit first. */
  lemma FormatChannelDigits(v: int)
    requires InByteRange(v)
    ensures FormatChannel(v) == [HexDigit(v / 16), HexDigit(v % 16)]
  {
    if v < 16 {
      assert HexDigit(0) == '0';
    } else {
      assert HexText(v) == HexText(v / 16) + [HexDigit(v % 16)];
      assert HexText(v / 16) == [HexDigit(v / 16)];
    }
  }

  /** The seven characters of an encoded colour whose channels are bytes. */
  lemma FormatText(c: Rgb)
    requires IsByteRgb(c)
    ensures Format(c) == ['#', HexDigit(c.r / 16), HexDigit(c.r % 16), HexDigit(c.g / 16),
                          HexDigit(c.g % 16), HexDigit(c.b / 16), HexDigit(c.b % 16)]
  {
    FormatChannelDigits(c.r);
    FormatChannelDigits(c.g);
    FormatChannelDigits(c.b);
  }

  /** Encoding three bytes yields a well-formed lower-case colour. */
  lemma FormatIsLowerColour(c: Rgb)
    requires IsByteRgb(c)
    ensures IsLowerColour(Format(c)) && IsColour(Format(c))
  {
    FormatText(c);
    var s := Format(c);
    forall i | 1 <= i < 7 ensures IsLowerHexDigit(s[i]) && IsHexDigit(s[i]) {
    }
  }

  /** Decoding what the shader writes gives back the channels it wrote. */
  lemma ParseFormat(c: Rgb)
    requires IsByteRgb(c)
    ensures Parse(Format(c)) == Ok(c)
  {
    FormatText(c);
    FormatIsLowerColour(c);
    ChannelDigits(c.r);
    ChannelDigits(c.g);
    ChannelDigits(c.b);
  }

  /** The two digits written for a byte decode back to it. */
  lemma ChannelDigits(v: int)
    requires InByteRange(v)
    ensures ParseChannel(HexDigit(v / 16), HexDigit(v % 16)) == v
  {
  }

  lemma DigitRoundTrip(c: char)
    requires IsHexDigit(c)
    ensures HexDigit(DigitValue(c)) == LowerDigit(c)
  {
  }

  /** A decoded channel re-encodes as its two digits, in lower case. */
  lemma ChannelRoundTrip(hi: char, lo: char)
    requires IsHexDigit(hi) && IsHexDigit(lo)
    ensures var v := ParseChannel(hi, lo);
      HexDigit(v / 16) == LowerDigit(hi) && HexDigit(v % 16) == LowerDigit(lo)
  {
    var h, l := DigitValue(hi), DigitValue(lo);
    assert (16 * h + l) / 16 == h && (16 * h + l) % 16 == l;
    DigitRoundTrip(hi);
    DigitRoundTrip(lo);
  }

  /** Encoding a decoded colour reproduces its text, with the digits in lower case. */
  lemma FormatParse(s: string)
    requires IsColour(s)
    ensures Format(Parse(s).value) == Lowercase(s)
  {
    var c := Parse(s).value;
    FormatText(c);
    ChannelRoundTrip(s[1], s[2]);
    ChannelRoundTrip(s[3], s[4]);
    ChannelRoundTrip(s[5], s[6]);
    var l := Lowercase(s);
    assert l == [l[0], l[1], l[2], l[3], l[4], l[5], l[6]];
  }

  // ---------------------------------------------------------------------------
  // What shading does to a colour
  // ---------------------------------------------------------------------------

  lemma ShadeChannelZero(v: int)
    requires InByteRange(v)
    ensures ShadeChannel(v, 0.0) == v
  {
    assert v as real * (100.0 + 0.0 * 100.0) / 100.0 == v as real;
  }

  /** `shadeColor(c, 0)` changes nothing but the case of the hexadecimal digits. */
  lemma ShadeZeroIsIdentity(s: string)
    requires IsColour(s)
    ensures ShadeColour(s, 0.0) == Ok(Lowercase(s))
  {
    var c := Parse(s).value;
    ShadeChannelZero(c.r);
    ShadeChannelZero(c.g);
    ShadeChannelZero(c.b);
    assert ShadeRgb(c, 0.0) == c;
    FormatParse(s);
  }

  /** A channel text starting with a minus sign is never a hexadecimal digit pair. */
  lemma NegativeChannelText(v: int)
    requires v < 0
    ensures |FormatChannel(v)| >= 2 && FormatChannel(v)[0] == '-'
  {
  }

  /**
   * The shader's output is a well-formed colour exactly when no channel
   * truncates to a negative value: the cap only works from above.
   */
  lemma ShadeWellFormedIff(s: string, percent: real)
    requires IsColour(s)
    ensures var c := Parse(s).value;
      IsColour(ShadeColour(s, percent).value) <==>
        (Scaled(c.r, percent) >= 0 && Scaled(c.g, percent) >= 0 && Scaled(c.b, percent) >= 0)
  {
    var c := Parse(s).value;
    var d := ShadeRgb(c, percent);
    var out := Format(d);
    if Scaled(c.r, percent) >= 0 && Scaled(c.g, percent) >= 0 && Scaled(c.b, percent) >= 0 {
      FormatIsLowerColour(d);
    } else {
      if d.r < 0 {
        NegativeChannelText(d.r);
        assert out[1] == '-';
      } else if d.g < 0 {
        NegativeChannelText(d.g);
        FormatChannelDigits(d.r);
        assert out[3] == '-';
      } else {
        NegativeChannelText(d.b);
        FormatChannelDigits(d.r);
        FormatChannelDigits(d.g);
        assert out[5] == '-';
      }
    }
  }

  lemma ScaledNonNegative(v: int, percent: real)
    requires 0 <= v && percent >= -1.0
    ensures Scaled(v, percent) >= 0
  {
    assert 100.0 + percent * 100.0 >= 0.0;
    assert v as real * (100.0 + percent * 100.0) >= 0.0;
  }

  /**
   * For `percent >= -1` the shader writes `#` and six lower-case digits, and
   * each channel it writes is `min(255, trunc(c * (100 + percent * 100) / 100))`.
   */
  lemma ShadeChannels(s: string, percent: real)
    requires IsColour(s) && percent >= -1.0
    ensures IsLowerColour(ShadeColour(s, percent).value)
    ensures var c := Parse(s).value;
      Parse(ShadeColour(s, percent).value) == Ok(Rgb(
        if Scaled(c.r, percent) < 255 then Scaled(c.r, percent) else 255,
        if Scaled(c.g, percent) < 255 then Scaled(c.g, percent) else 255,
        if Scaled(c.b, percent) < 255 then Scaled(c.b, percent) else 255))
  {
    var c := Parse(s).value;
    ScaledNonNegative(c.r, percent);
    ScaledNonNegative(c.g, percent);
    ScaledNonNegative(c.b, percent);
    var d := ShadeRgb(c, percent);
    FormatIsLowerColour(d);
    ParseFormat(d);
  }

  lemma ShadeChannelNotBrighter(v: int, percent: real)
    requires InByteRange(v) && percent <= 0.0
    ensures ShadeChannel(v, percent) <= v
  {
    var x := v as real * (100.0 + percent * 100.0) / 100.0;
    assert x == v as real + v as real * percent;
    assert v as real * percent <= 0.0;
  }

  /** With `percent <= 0` no channel of a colour gets brighter. */
  lemma ShadeNeverBrightens(s: string, percent: real)
    requires IsColour(s) && percent <= 0.0
    ensures var c := Parse(s).value; var d := ShadeRgb(c, percent);
      d.r <= c.r && d.g <= c.g && d.b <= c.b
  {
    var c := Parse(s).value;
    ShadeChannelNotBrighter(c.r, percent);
    ShadeChannelNotBrighter(c.g, percent);
    ShadeChannelNotBrighter(c.b, percent);
  }

  /** A channel whose scaled value reaches 255 is written as `ff`. */
  lemma ShadeSaturates(s: string, percent: real)
    requires IsColour(s) && percent >= 0.0
    ensures var c := Parse(s).value; var out := ShadeColour(s, percent).value;
      && (Scaled(c.r, percent) >= 255 ==> out[1..3] == "ff")
      && (Scaled(c.g, percent) >= 255 ==> out[3..5] == "ff")
      && (Scaled(c.b, percent) >= 255 ==> out[5..7] == "ff")
  {
    var c := Parse(s).value;
    ScaledNonNegative(c.r, percent);
    ScaledNonNegative(c.g, percent);
    ScaledNonNegative(c.b, percent);
    var d := ShadeRgb(c, percent);
    FormatChannelDigits(d.r);
    FormatChannelDigits(d.g);
    FormatChannelDigits(d.b);
    assert HexDigit(15) == 'f';
  }

  /** Darkening by more than 100 percent drives channels negative and breaks the format. */
  lemma OverDarkeningBreaksFormat()
    ensures ShadeColour("#ffffff", -2.0) == Ok("#-ff-ff-ff")
    ensures !IsColour(ShadeColour("#ffffff", -2.0).value)
  {
    var c := Parse("#ffffff").value;
    assert c == Rgb(255, 255, 255);
    assert 255.0 * (100.0 + -2.0 * 100.0) / 100.0 == -255.0;
    assert Scaled(255, -2.0) == -255;
    assert ShadeRgb(c, -2.0) == Rgb(-255, -255, -255);
    assert HexDigit(15) == 'f';
    assert HexText(255) == HexText(15) + [HexDigit(15)] == "ff";
    assert FormatChannel(-255) == "-ff";
    assert Format(Rgb(-255, -255, -255)) == "#-ff-ff-ff";
  }
}
