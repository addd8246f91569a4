/** The colour utilities of the theme engine: reading the channels of a `#rrggbb` colour with
    `parseInt(…, 16)`, lightening it, writing it back as lower-case hexadecimal, the `rgba(…)`
    form and the `linear-gradient(…)` built from a list of colours. */
module Colors {

  import opened Wrappers
  import opened Text

  // ---------------------------------------------------------------------------------------
  // Digits

  predicate IsHexDigit(c: char)
  {
    '0' <= c <= '9' || 'a' <= c <= 'f' || 'A' <= c <= 'F'
  }

  predicate IsLowerHexDigit(c: char)
  {
    '0' <= c <= '9' || 'a' <= c <= 'f'
  }

  predicate IsDecimalDigit(c: char)
  {
    '0' <= c <= '9'
  }

  function DigitValue(c: char): (v: nat)
    requires IsHexDigit(c)
    ensures v < 16
    ensures IsDecimalDigit(c) ==> v < 10
  {
    if '0' <= c <= '9' then c as int - '0' as int
    else if 'a' <= c <= 'f' then c as int - 'a' as int + 10
    else c as int - 'A' as int + 10
  }

  /** The lower-case digit `Number.prototype.toString(16)` writes for `d`. */
  function HexChar(d: nat): (c: char)
    requires d < 16
    ensures IsLowerHexDigit(c) && DigitValue(c) == d
    ensures (c == '0') == (d == 0)
  {
    if d < 10 then ('0' as int + d) as char else ('a' as int + d - 10) as char
  }

  /** Re-encoding a lower-case digit gives the digit back. */
  lemma HexCharOfDigit(c: char)
    requires IsLowerHexDigit(c)
    ensures HexChar(DigitValue(c)) == c
  {
  }

  predicate AllHex(s: string)
  {
    forall i :: 0 <= i < |s| ==> IsHexDigit(s[i])
  }

  function Pow16(n: nat): (p: nat)
    ensures p >= 1
  {
    if n == 0 then 1 else 16 * Pow16(n - 1)
  }

  lemma {:induction false} Pow16Monotone(m: nat, n: nat)
    requires m <= n
    ensures Pow16(m) <= Pow16(n)
  {
    if m < n {
      Pow16Monotone(m, n - 1);
    }
  }

  /** The value of a string of hexadecimal digits, most significant first. */
  function HexValue(s: string): (v: nat)
    requires AllHex(s)
    ensures v < Pow16(|s|)
  {
    if s == [] then 0 else HexValue(s[..|s| - 1]) * 16 + DigitValue(s[|s| - 1])
  }

  /** How many hexadecimal digits `s` starts with. */
  function HexPrefixLength(s: string): (n: nat)
    ensures n <= |s|
    ensures n < |s| ==> !IsHexDigit(s[n])
    ensures AllHex(s) ==> n == |s|
  {
    if s == [] || !IsHexDigit(s[0]) then 0 else 1 + HexPrefixLength(s[1..])
  }

  /** The run `HexPrefixLength` measures is made of digits. */
  lemma {:induction false} HexPrefixDigits(s: string)
    ensures AllHex(s[..HexPrefixLength(s)])
  {
    if s != [] && IsHexDigit(s[0]) {
      HexPrefixDigits(s[1..]);
      assert s[..HexPrefixLength(s)] == [s[0]] + s[1..][..HexPrefixLength(s[1..])];
    }
  }

  // ---------------------------------------------------------------------------------------
  // parseInt(s, 16) and toString(16)

  /** `parseInt(s, 16)` on text that starts with its digits: the longest run of hexadecimal
      digits at the start, `None` (`NaN`) when there is none. */
  function ParseIntHex(s: string): (n: Option<int>)
    ensures n.Some? ==> 0 <= n.value < Pow16(|s|)
    ensures n.None? <==> s == [] || !IsHexDigit(s[0])
    ensures n.Some? ==> AllHex(s[..HexPrefixLength(s)]) && n.value == HexValue(s[..HexPrefixLength(s)])
  {
    var k := HexPrefixLength(s);
    if k == 0 then None
    else
      Pow16Monotone(k, |s|);
      HexPrefixDigits(s);
      Some(HexValue(s[..k]))
  }

  /** A string of digits is read as the number it spells. */
  lemma ParseDigits(s: string)
    requires |s| > 0 && AllHex(s)
    ensures ParseIntHex(s) == Some(HexValue(s))
  {
    assert s[..HexPrefixLength(s)] == s;
  }

  /** `n.toString(16)` for a non-negative integer: lower-case digits without leading zeros. */
  function NatHex(n: nat): (r: string)
    ensures |r| >= 1
    ensures forall i :: 0 <= i < |r| ==> IsLowerHexDigit(r[i])
    ensures (r[0] == '0') == (n == 0)
    ensures n == 0 ==> r == "0"
    ensures n < 16 ==> r == [HexChar(n)]
  {
    if n < 16 then [HexChar(n)] else NatHex(n / 16) + [HexChar(n % 16)]
  }

  /** `v.toString(16)`: a minus sign before the digits of a negative number. */
  function HexText(v: int): (r: string)
    ensures |r| >= 1
  {
    if v < 0 then "-" + NatHex(-v) else NatHex(v)
  }

  lemma {:induction false} NatHexValue(n: nat)
    ensures AllHex(NatHex(n)) && HexValue(NatHex(n)) == n
  {
    var r := NatHex(n);
    if n >= 16 {
      NatHexValue(n / 16);
      assert r[..|r| - 1] == NatHex(n / 16);
    }
  }

  /** `parseInt(n.toString(16), 16) === n` for every non-negative integer. */
  lemma ParseHexText(n: nat)
    ensures ParseIntHex(HexText(n)) == Some(n)
  {
    NatHexValue(n);
    ParseDigits(NatHex(n));
  }

  /** `padStart(2, '0')`. */
  function PadStart2(t: string): (r: string)
    ensures |r| >= 2
    ensures |t| >= 2 ==> r == t
  {
    if |t| == 0 then "00" else if |t| == 1 then "0" + t else t
  }

  /** `c.toString(16).padStart(2, '0')` for one channel; `NaN` prints as its name. */
  function ChannelHex(c: Option<int>): (r: string)
    ensures |r| >= 2
    ensures c.None? ==> r == "NaN"
  {
    match c
    case None => "NaN"
    case Some(v) => PadStart2(HexText(v))
  }

  /** A byte is written as exactly two lower-case digits, high digit first. */
  lemma ByteDigits(v: int)
    requires 0 <= v <= 255
    ensures ChannelHex(Some(v)) == [HexChar(v / 16), HexChar(v % 16)]
  {
    if v >= 16 {
      assert NatHex(v) == NatHex(v / 16) + [HexChar(v % 16)];
    }
  }

  /** Two digits are read back as the byte they spell. */
  lemma ParseTwoDigits(a: char, b: char)
    requires IsHexDigit(a) && IsHexDigit(b)
    ensures ParseIntHex([a, b]) == Some(16 * DigitValue(a) + DigitValue(b))
  {
    assert AllHex([a, b]);
    assert [a][..0] == [];
    assert HexValue([a]) == DigitValue(a);
    assert [a, b][..1] == [a];
    assert HexValue([a, b]) == 16 * DigitValue(a) + DigitValue(b);
    ParseDigits([a, b]);
  }

  // ---------------------------------------------------------------------------------------
  // Colours

  /** `s.slice(a, b)` for `0 <= a <= b`: indices past the end are clamped. */
  function Slice(s: string, a: nat, b: nat): (r: string)
    requires a <= b
    ensures |r| <= b - a
    ensures b <= |s| ==> r == s[a..b]
  {
    var lo := if a < |s| then a else |s|;
    var hi := if b < |s| then b else |s|;
    s[lo..hi]
  }

  /** Channel `k` (0 red, 1 green, 2 blue): `parseInt(hex.slice(1 + 2k, 3 + 2k), 16)`. */
  function Channel(hex: string, k: nat): (c: Option<int>)
    ensures c.Some? ==> -255 <= c.value <= 255
  {
    var s := Slice(hex, 1 + 2 * k, 3 + 2 * k);
    Pow16Monotone(|s|, 2);
    ParseIntHex(s)
  }

  /** A well-formed colour: `#` and six hexadecimal digits. */
  predicate IsColorHex(h: string)
  {
    |h| == 7 && h[0] == '#' && IsHexDigit(h[1]) && IsHexDigit(h[2]) && IsHexDigit(h[3])
    && IsHexDigit(h[4]) && IsHexDigit(h[5]) && IsHexDigit(h[6])
  }

  /** A well-formed colour written with lower-case digits, as `lightenHex` writes one. */
  predicate IsLowerColorHex(h: string)
  {
    |h| == 7 && h[0] == '#' && IsLowerHexDigit(h[1]) && IsLowerHexDigit(h[2]) && IsLowerHexDigit(h[3])
    && IsLowerHexDigit(h[4]) && IsLowerHexDigit(h[5]) && IsLowerHexDigit(h[6])
  }

  /** The byte spelled by the two digits of channel `k` of a well-formed colour. */
  function ColorByte(h: string, k: nat): (b: int)
    requires IsColorHex(h) && k < 3
    ensures 0 <= b <= 255
  {
    16 * DigitValue(h[1 + 2 * k]) + DigitValue(h[2 + 2 * k])
  }

  /** A channel whose two digits are present is read as the byte they spell. */
  lemma ChannelOfDigits(h: string, k: nat)
    requires 3 + 2 * k <= |h| && IsHexDigit(h[1 + 2 * k]) && IsHexDigit(h[2 + 2 * k])
    ensures Channel(h, k) == Some(16 * DigitValue(h[1 + 2 * k]) + DigitValue(h[2 + 2 * k]))
  {
    var s := Slice(h, 1 + 2 * k, 3 + 2 * k);
    assert s == [h[1 + 2 * k], h[2 + 2 * k]];
    ParseTwoDigits(h[1 + 2 * k], h[2 + 2 * k]);
  }

  lemma ColorByteDigits(h: string, k: nat)
    requires IsColorHex(h) && k < 3
    ensures ColorByte(h, k) == 16 * DigitValue(h[1 + 2 * k]) + DigitValue(h[2 + 2 * k])
  {
  }

  /** On a well-formed colour every channel is read as the byte its two digits spell. */
  lemma ChannelOfColor(h: string, k: nat)
    requires IsColorHex(h) && k < 3
    ensures Channel(h, k) == Some(ColorByte(h, k))
  {
    ChannelOfDigits(h, k);
    ColorByteDigits(h, k);
    var c := Channel(h, k);
    assert c.Some? && c.value == ColorByte(h, k);
    assert c == Some(c.value);
  }

  function Min(a: int, b: int): (m: int)
    ensures m <= a && m <= b && (m == a || m == b)
  {
    if a < b then a else b
  }

  /** `Math.min(255, c + amount)`; a `NaN` channel stays `NaN`. */
  function LightenChannel(c: Option<int>, amount: int): (r: Option<int>)
    ensures r.None? <==> c.None?
    ensures r.Some? ==> r.value <= 255 && r.value <= c.value + amount
  {
    match c
    case None => None
    case Some(v) => Some(Min(255, v + amount))
  }

  /** `#` and the three channels, each written as `toString(16).padStart(2, '0')`. */
  function RgbHex(r: Option<int>, g: Option<int>, b: Option<int>): (h: string)
    ensures |h| >= 7 && h[0] == '#'
  {
    "#" + ChannelHex(r) + ChannelHex(g) + ChannelHex(b)
  }

  /** `lightenHex`. */
  function LightenHex(hex: string, amount: int): (r: string)
    ensures |r| >= 7 && r[0] == '#'
  {
    RgbHex(LightenChannel(Channel(hex, 0), amount), LightenChannel(Channel(hex, 1), amount),
      LightenChannel(Channel(hex, 2), amount))
  }

  /** Three bytes are written as `#` and their six lower-case digits. */
  lemma RgbHexOfBytes(r: int, g: int, b: int)
    requires 0 <= r <= 255 && 0 <= g <= 255 && 0 <= b <= 255
    ensures RgbHex(Some(r), Some(g), Some(b))
      == ['#', HexChar(r / 16), HexChar(r % 16), HexChar(g / 16), HexChar(g % 16), HexChar(b / 16), HexChar(b % 16)]
  {
    ByteDigits(r);
    ByteDigits(g);
    ByteDigits(b);
  }

  /** A channel holding the two digits of a byte is read as that byte. */
  lemma ChannelOfByte(h: string, k: nat, v: int)
    requires 0 <= v <= 255 && 3 + 2 * k <= |h|
    requires h[1 + 2 * k] == HexChar(v / 16) && h[2 + 2 * k] == HexChar(v % 16)
    ensures Channel(h, k) == Some(v)
  {
    ChannelOfDigits(h, k);
    var c := Channel(h, k);
    assert c.Some? && c.value == v;
    assert c == Some(c.value);
  }

  /** The text `#` followed by the digit pairs of three bytes is a lower-case colour whose
      channels are read as those bytes. */
  lemma ChannelsOfBytes(h: string, r: int, g: int, b: int)
    requires 0 <= r <= 255 && 0 <= g <= 255 && 0 <= b <= 255
    requires h == ['#', HexChar(r / 16), HexChar(r % 16), HexChar(g / 16), HexChar(g % 16), HexChar(b / 16), HexChar(b % 16)]
    ensures IsLowerColorHex(h)
    ensures Channel(h, 0) == Some(r) && Channel(h, 1) == Some(g) && Channel(h, 2) == Some(b)
  {
    ChannelOfByte(h, 0, r);
    ChannelOfByte(h, 1, g);
    ChannelOfByte(h, 2, b);
  }

  /** Writing three bytes and reading the channels back gives the three bytes, and what is
      written is a well-formed lower-case colour. */
  lemma RgbHexRoundTrip(r: int, g: int, b: int)
    requires 0 <= r <= 255 && 0 <= g <= 255 && 0 <= b <= 255
    ensures IsLowerColorHex(RgbHex(Some(r), Some(g), Some(b)))
    ensures Channel(RgbHex(Some(r), Some(g), Some(b)), 0) == Some(r)
    ensures Channel(RgbHex(Some(r), Some(g), Some(b)), 1) == Some(g)
    ensures Channel(RgbHex(Some(r), Some(g), Some(b)), 2) == Some(b)
  {
    RgbHexOfBytes(r, g, b);
    ChannelsOfBytes(RgbHex(Some(r), Some(g), Some(b)), r, g, b);
  }

  /** On a well-formed colour, lightening each channel gives `min(255, c + amount)` of its byte. */
  lemma LightenedChannels(hex: string, amount: int)
    requires IsColorHex(hex)
    ensures LightenChannel(Channel(hex, 0), amount) == Some(Min(255, ColorByte(hex, 0) + amount))
    ensures LightenChannel(Channel(hex, 1), amount) == Some(Min(255, ColorByte(hex, 1) + amount))
    ensures LightenChannel(Channel(hex, 2), amount) == Some(Min(255, ColorByte(hex, 2) + amount))
  {
    ChannelOfColor(hex, 0);
    ChannelOfColor(hex, 1);
    ChannelOfColor(hex, 2);
  }

  lemma RgbHexCongruent(x0: Option<int>, x1: Option<int>, x2: Option<int>, y0: Option<int>, y1: Option<int>, y2: Option<int>)
    requires x0 == y0 && x1 == y1 && x2 == y2
    ensures RgbHex(x0, x1, x2) == RgbHex(y0, y1, y2)
  {
  }

  /** `lightenHex` of a well-formed colour is the colour whose bytes are the lightened bytes. */
  lemma LightenHexBytes(hex: string, amount: int)
    requires IsColorHex(hex)
    ensures LightenHex(hex, amount) == RgbHex(Some(Min(255, ColorByte(hex, 0) + amount)),
      Some(Min(255, ColorByte(hex, 1) + amount)), Some(Min(255, ColorByte(hex, 2) + amount)))
  {
    LightenedChannels(hex, amount);
    RgbHexCongruent(
      LightenChannel(Channel(hex, 0), amount), LightenChannel(Channel(hex, 1), amount),
      LightenChannel(Channel(hex, 2), amount),
      Some(Min(255, ColorByte(hex, 0) + amount)), Some(Min(255, ColorByte(hex, 1) + amount)),
      Some(Min(255, ColorByte(hex, 2) + amount)));
  }

  /** Two equal texts are read alike. */
  lemma SameColorText(x: string, y: string)
    requires x == y
    ensures IsLowerColorHex(x) == IsLowerColorHex(y)
    ensures Channel(x, 0) == Channel(y, 0) && Channel(x, 1) == Channel(y, 1) && Channel(x, 2) == Channel(y, 2)
  {
  }

  /** Lightening a well-formed colour by a non-negative amount yields `#` and six lower-case
      digits, and each channel read back from it is `min(255, c + amount)` of the original. */
  lemma LightenHexSpec(hex: string, amount: int)
    requires IsColorHex(hex) && amount >= 0
    ensures IsLowerColorHex(LightenHex(hex, amount))
    ensures Channel(LightenHex(hex, amount), 0) == Some(Min(255, ColorByte(hex, 0) + amount))
    ensures Channel(LightenHex(hex, amount), 1) == Some(Min(255, ColorByte(hex, 1) + amount))
    ensures Channel(LightenHex(hex, amount), 2) == Some(Min(255, ColorByte(hex, 2) + amount))
  {
    var m0, m1, m2 := Min(255, ColorByte(hex, 0) + amount), Min(255, ColorByte(hex, 1) + amount),
      Min(255, ColorByte(hex, 2) + amount);
    LightenHexBytes(hex, amount);
    RgbHexRoundTrip(m0, m1, m2);
    SameColorText(LightenHex(hex, amount), RgbHex(Some(m0), Some(m1), Some(m2)));
  }

  /** The two digits of a lower-case colour's channel are the digits of its byte. */
  lemma ColorByteDigitsBack(h: string, k: nat)
    requires IsLowerColorHex(h) && k < 3
    ensures IsColorHex(h)
    ensures HexChar(ColorByte(h, k) / 16) == h[1 + 2 * k] && HexChar(ColorByte(h, k) % 16) == h[2 + 2 * k]
  {
    var hi := DigitValue(h[1 + 2 * k]);
    var lo := DigitValue(h[2 + 2 * k]);
    assert ColorByte(h, k) / 16 == hi && ColorByte(h, k) % 16 == lo;
    HexCharOfDigit(h[1 + 2 * k]);
    HexCharOfDigit(h[2 + 2 * k]);
  }

  /** A text of seven characters is the display of its seven characters. */
  lemma SevenChars(h: string)
    requires |h| == 7
    ensures h == [h[0], h[1], h[2], h[3], h[4], h[5], h[6]]
  {
  }

  /** Writing the bytes of a lower-case colour gives the colour back. */
  lemma RgbHexOfColor(hex: string)
    requires IsLowerColorHex(hex)
    ensures IsColorHex(hex)
    ensures RgbHex(Some(ColorByte(hex, 0)), Some(ColorByte(hex, 1)), Some(ColorByte(hex, 2))) == hex
  {
    ColorByteDigitsBack(hex, 0);
    ColorByteDigitsBack(hex, 1);
    ColorByteDigitsBack(hex, 2);
    RgbHexOfBytes(ColorByte(hex, 0), ColorByte(hex, 1), ColorByte(hex, 2));
    SevenChars(hex);
  }

  // ---------------------------------------------------------------------------------------
  // Decimal text, rgba(…) and gradients

  /** `String(n)` for a non-negative integer. */
  function NatDecimal(n: nat): (r: string)
    ensures |r| >= 1
    ensures forall i :: 0 <= i < |r| ==> IsDecimalDigit(r[i])
    ensures (r[0] == '0') == (n == 0)
  {
    if n < 10 then [('0' as int + n) as char] else NatDecimal(n / 10) + [('0' as int + n % 10) as char]
  }

  /** `String(v)` for an integer. */
  function IntText(v: int): (r: string)
    ensures |r| >= 1
    ensures v >= 0 ==> r == NatDecimal(v)
    ensures v < 0 ==> r[0] == '-' && r[1..] == NatDecimal(-v)
  {
    if v < 0 then "-" + NatDecimal(-v) else NatDecimal(v)
  }

  /** A number in a template literal; `NaN` prints as its name. */
  function NumberText(c: Option<int>): (r: string)
    ensures c.None? ==> r == "NaN"
  {
    match c
    case None => "NaN"
    case Some(v) => IntText(v)
  }

  /** `hexToRgba`; the alpha is given as the text the template literal prints for it. */
  function HexToRgba(hex: string, alpha: string): (r: string)
    ensures |r| >= |"rgba(,,,)"| + |alpha|
    ensures r[..5] == "rgba(" && r[|r| - 1] == ')' && r[|r| - 1 - |alpha|..|r| - 1] == alpha
  {
    "rgba(" + NumberText(Channel(hex, 0)) + "," + NumberText(Channel(hex, 1)) + ","
      + NumberText(Channel(hex, 2)) + "," + alpha + ")"
  }

  /** On a well-formed colour `hexToRgba` prints the three bytes its digit pairs spell. */
  lemma HexToRgbaSpec(hex: string, alpha: string)
    requires IsColorHex(hex)
    ensures HexToRgba(hex, alpha) == "rgba(" + NatDecimal(ColorByte(hex, 0)) + "," + NatDecimal(ColorByte(hex, 1))
      + "," + NatDecimal(ColorByte(hex, 2)) + "," + alpha + ")"
  {
    ChannelOfColor(hex, 0);
    ChannelOfColor(hex, 1);
    ChannelOfColor(hex, 2);
  }

  /** `colors.join(', ')`. */
  function Join(colors: seq<string>): (r: string)
    ensures colors == [] ==> r == ""
    ensures |colors| == 1 ==> r == colors[0]
  {
    if colors == [] then "" else if |colors| == 1 then colors[0] else colors[0] + ", " + Join(colors[1..])
  }

  /** A `linear-gradient` over the given colour stops. */
  function LinearGradient(angle: int, stops: seq<string>): string
  {
    "linear-gradient(" + IntText(angle) + "deg, " + Join(stops) + ")"
  }

  /** `buildGradient`. */
  function BuildGradient(colors: seq<string>, angle: int): (g: string)
    ensures |colors| != 1 ==> g == LinearGradient(angle, colors)
    ensures |colors| == 1 ==> g == LinearGradient(angle, [colors[0], colors[0]])
  {
    assert |colors| == 1 ==> Join([colors[0], colors[0]]) == colors[0] + ", " + colors[0] by {
      if |colors| == 1 {
        assert [colors[0], colors[0]][1..] == [colors[0]];
      }
    }
    if |colors| == 1 then "linear-gradient(" + IntText(angle) + "deg, " + colors[0] + ", " + colors[0] + ")"
    else LinearGradient(angle, colors)
  }

  /** One colour is drawn as a gradient from that colour to itself. */
  lemma SingleColourDuplicated(c: string, angle: int)
    ensures BuildGradient([c], angle) == BuildGradient([c, c], angle)
    ensures BuildGradient([c], angle) == LinearGradient(angle, [c, c])
  {
    assert Join([c, c]) == c + ", " + c by {
      assert [c, c][1..] == [c];
    }
  }
}
