/**
 * The colour helpers `lightenColor` / `darkenColor` of game.js.
 *
 * Both read a `#RRGGBB` colour (the hexadecimal notation of section 5.2 of
 * CSS Color Module Level 4), add or subtract `Math.round(2.55 * percent)` on
 * every channel, clamp each channel to [0, 255] and print the result as `#`
 * followed by six lower-case hex digits.  The parse is JavaScript's: the first
 * `#` is removed; `parseInt(_, 16)` skips leading white space, takes one
 * sign, drops a `0x` or `0X` prefix and reads the longest prefix of hex
 * digits that follows (NaN when there is none); the channels are taken with
 * the 32-bit operators `>>` and `&`.
 */
module Colors {

  import opened Util

  // ---------------------------------------------------------------------------
  // Hex digits
  // ---------------------------------------------------------------------------

  predicate IsHexDigit(c: char) {
    ('0' <= c <= '9') || ('a' <= c <= 'f') || ('A' <= c <= 'F')
  }

  predicate IsLowerHexDigit(c: char) {
    ('0' <= c <= '9') || ('a' <= c <= 'f')
  }

  predicate AllHex(s: string) {
    forall i :: 0 <= i < |s| ==> IsHexDigit(s[i])
  }

  predicate AllLowerHex(s: string) {
    forall i :: 0 <= i < |s| ==> IsLowerHexDigit(s[i])
  }

  function DigitValue(c: char): (v: nat)
    requires IsHexDigit(c)
    ensures v < 16
  {
    if '0' <= c <= '9' then (c as int) - ('0' as int)
    else if 'a' <= c <= 'f' then (c as int) - ('a' as int) + 10
    else (c as int) - ('A' as int) + 10
  }

  /** The digit `Number.prototype.toString(16)` prints for a value below 16. */
  function LowerDigit(v: nat): (c: char)
    requires v < 16
    ensures IsLowerHexDigit(c) && DigitValue(c) == v
  {
    if v < 10 then (('0' as int) + v) as char else (('a' as int) + v - 10) as char
  }

  /** A hex digit written in lower case. */
  function HexLower(c: char): char {
    if 'A' <= c <= 'F' then ((c as int) - ('A' as int) + ('a' as int)) as char else c
  }

  function LowerCase(s: string): (r: string)
    ensures |r| == |s|
  {
    seq(|s|, i requires 0 <= i < |s| => HexLower(s[i]))
  }

  function Pow16(k: nat): (p: nat)
    ensures p >= 1
  {
    if k == 0 then 1 else 16 * Pow16(k - 1)
  }

  // ---------------------------------------------------------------------------
  // Reading: parseInt(_, 16) and the 32-bit channel operators
  // ---------------------------------------------------------------------------

  /** Value of a string of hex digits, most significant digit first. */
  function HexValue(s: string): (v: nat)
    requires AllHex(s)
    ensures v < Pow16(|s|)
  {
    if s == [] then 0
    else
      var v0 := HexValue(s[..|s| - 1]);
      assert v0 * 16 <= (Pow16(|s| - 1) - 1) * 16;
      v0 * 16 + DigitValue(s[|s| - 1])
  }

  /** Length of the longest prefix of hex digits (where parseInt stops). */
  function HexPrefixLength(s: string): (n: nat)
    ensures n <= |s|
    ensures forall i :: 0 <= i < n ==> IsHexDigit(s[i])
    ensures n < |s| ==> !IsHexDigit(s[n])
  {
    if s == [] || !IsHexDigit(s[0]) then 0 else 1 + HexPrefixLength(s[1..])
  }

  /** The digits part of `parseInt(s, 16)`: None stands for NaN (no leading hex digit). */
  function ParseHex(s: string): Option<nat> {
    var n := HexPrefixLength(s);
    if n == 0 then None
    else
      assert AllHex(s[..n]);
      Some(HexValue(s[..n]))
  }

  /** The white space and line terminators `parseInt` skips before the number. */
  predicate IsJsSpace(c: char) {
    c == '\t' || c == '\n' || c == '\U{000B}' || c == '\U{000C}' || c == '\r' || c == ' ' ||
    c == '\U{00A0}' || c == '\U{1680}' || ('\U{2000}' <= c <= '\U{200A}') || c == '\U{2028}' ||
    c == '\U{2029}' || c == '\U{202F}' || c == '\U{205F}' || c == '\U{3000}' || c == '\U{FEFF}'
  }

  /** The string without its leading white space. */
  function TrimStart(s: string): (r: string)
    ensures r == [] || !IsJsSpace(r[0])
    ensures s != [] && !IsJsSpace(s[0]) ==> r == s
  {
    if s != [] && IsJsSpace(s[0]) then TrimStart(s[1..]) else s
  }

  /**
   * `parseInt(s, 16)`: leading white space, then an optional sign, then an
   * optional `0x`/`0X`, then the hex digits.  None stands for NaN; a
   * negative zero is 0.
   */
  function ParseInt16(s: string): (r: Option<int>)
    ensures AllHex(s) && s != [] ==> r == Some(HexValue(s))
  {
    var t := TrimStart(s);
    var negative := t != [] && t[0] == '-';
    var unsigned := if t != [] && (t[0] == '+' || t[0] == '-') then t[1..] else t;
    var digits := if |unsigned| >= 2 && unsigned[0] == '0' && (unsigned[1] == 'x' || unsigned[1] == 'X') then unsigned[2..] else unsigned;
    assert AllHex(s) && s != [] ==> digits == s && HexPrefixLength(s) == |s| && s[..|s|] == s;
    match ParseHex(digits)
    case None => None
    case Some(v) => var w: int := v; Some(if negative then -w else w)
  }

  /** On a string of hex digits only, the digits part reads them all. */
  lemma ParseHexAll(s: string)
    requires AllHex(s) && s != []
    ensures ParseHex(s) == Some(HexValue(s))
  {
    PrefixOfAllHex(s);
    assert s[..|s|] == s;
  }

  /** `parseInt("0xff", 16)`: the `0x` prefix is dropped. */
  lemma ParseIntDropsHexPrefix()
    ensures ParseInt16("0xff") == Some(255)
  {
    var s := "0xff";
    assert TrimStart(s) == s;
    assert s[2..] == "ff";
    ValueFF();
  }

  /** The digits `ff` read as 255. */
  lemma ValueFF()
    ensures ParseHex("ff") == Some(255)
  {
    assert "ff"[..1] == "f" && "f"[..0] == "";
    ParseHexAll("ff");
  }

  /** `parseInt("-ff", 16)`: the sign is read. */
  lemma ParseIntReadsSign()
    ensures ParseInt16("-ff") == Some(-255)
  {
    assert "-ff"[1..] == "ff";
    ValueFF();
  }

  /** `parseInt(" ff", 16)`: leading white space is skipped. */
  lemma ParseIntSkipsSpace()
    ensures ParseInt16(" ff") == Some(255)
  {
    assert TrimStart(" ff") == "ff" by {
      assert " ff"[1..] == "ff";
    }
    ValueFF();
  }

  /** A prefix with no digit after it is NaN. */
  lemma ParseIntNeedsDigitsAfterPrefix()
    ensures ParseInt16("0x") == None
  {
    var s := "0x";
    assert TrimStart(s) == s;
    assert s[2..] == [];
  }

  /** A sign with no digit after it is NaN. */
  lemma ParseIntNeedsDigitsAfterSign()
    ensures ParseInt16("-") == None
  {
    var s := "-";
    assert TrimStart(s) == s;
    assert s[1..] == [];
  }

  /** `s.replace(c, "")` with a one-character pattern: drops the first `c` only. */
  function RemoveFirst(s: string, c: char): (r: string)
    ensures c in s ==> |r| == |s| - 1
    ensures c !in s ==> r == s
  {
    if s == [] then []
    else if s[0] == c then s[1..]
    else [s[0]] + RemoveFirst(s[1..], c)
  }

  /** The number a colour string is read as; NaN reaches the bit operators as 0. */
  function Decoded(color: string): int {
    match ParseInt16(RemoveFirst(color, '#'))
    case None => 0
    case Some(v) => v
  }

  /** ECMAScript ToInt32, applied by `>>` and `&` to their left operand. */
  function ToInt32(n: int): (w: int)
    ensures -0x8000_0000 <= w < 0x8000_0000
  {
    var m := n % 0x1_0000_0000;
    if m >= 0x8000_0000 then m - 0x1_0000_0000 else m
  }

  datatype Rgb = Rgb(r: int, g: int, b: int)

  /**
   * `(num >> 16, num >> 8 & 0xFF, num & 0xFF)`.  For a positive divisor
   * Dafny's `/` and `%` round toward minus infinity, which is what the
   * arithmetic shift and the two's-complement mask do on a negative int32.
   */
  function Channels(num: int): Rgb {
    var w := ToInt32(num);
    Rgb(w / 0x10000, (w / 0x100) % 0x100, w % 0x100)
  }

  // ---------------------------------------------------------------------------
  // Writing: Number.prototype.toString(16)
  // ---------------------------------------------------------------------------

  /** `n.toString(16)`: the shortest lower-case hex numeral of `n`. */
  function ToHex(n: nat): (s: string)
    ensures |s| >= 1 && AllLowerHex(s)
  {
    if n < 16 then [LowerDigit(n)] else ToHex(n / 16) + [LowerDigit(n % 16)]
  }

  /** The `k` low hex digits of `p`, zero-padded, most significant first. */
  function FixedHex(p: nat, k: nat): (s: string)
    ensures |s| == k && AllLowerHex(s) && AllHex(s)
  {
    if k == 0 then [] else FixedHex(p / 16, k - 1) + [LowerDigit(p % 16)]
  }

  // ---------------------------------------------------------------------------
  // The colour helpers
  // ---------------------------------------------------------------------------

  /** A colour `#RRGGBB` whose six digits are hex in either case. */
  predicate IsHexColor(s: string) {
    |s| == 7 && s[0] == '#' && AllHex(s[1..])
  }

  /** The form both helpers print: `#` and six lower-case hex digits. */
  predicate IsCanonicalColor(s: string) {
    |s| == 7 && s[0] == '#' && AllLowerHex(s[1..])
  }

  /** The three channels a well-formed colour denotes. */
  function ColorChannels(s: string): Rgb
    requires IsHexColor(s)
  {
    Channels(HexValue(s[1..]))
  }

  predicate InByte(v: int) { 0 <= v <= 255 }

  /** `Math.round(2.55 * percent)` in exact arithmetic: floor(2.55p + 1/2). */
  function Amount(percent: int): (amt: int)
    ensures percent >= 0 ==> amt >= 0
  {
    (255 * percent + 50) / 100
  }

  /** `R < 255 ? (R < 1 ? 0 : R) : 255`. */
  function ClampChannel(v: int): (c: int)
    ensures InByte(c)
    ensures InByte(v) ==> c == v
    ensures v >= 255 ==> c == 255
    ensures v <= 0 ==> c == 0
  {
    if v < 255 then (if v < 1 then 0 else v) else 255
  }

  /** Every channel of the colour moved by `amt`, then clamped and printed. */
  function Shifted(color: string, amt: int): (out: string)
    ensures IsCanonicalColor(out) && IsHexColor(out)
    ensures var c := Channels(Decoded(color));
            ColorChannels(out) == Rgb(ClampChannel(c.r + amt), ClampChannel(c.g + amt), ClampChannel(c.b + amt))
  {
    ShiftedValue(Decoded(color), amt)
  }

  /** The number `v` read as a colour, every channel moved by `amt`, clamped and printed. */
  function ShiftedValue(v: int, amt: int): (out: string)
    ensures IsCanonicalColor(out) && IsHexColor(out)
    ensures var c := Channels(v);
            ColorChannels(out) == Rgb(ClampChannel(c.r + amt), ClampChannel(c.g + amt), ClampChannel(c.b + amt))
  {
    var c := Channels(v);
    var r, g, b := ClampChannel(c.r + amt), ClampChannel(c.g + amt), ClampChannel(c.b + amt);
    var packed := r * 0x10000 + g * 0x100 + b;
    assert packed < Pow16(6) by { assert Pow16(6) == 0x100_0000; }
    ToHexLeadingOne(6, packed);
    assert Pow16(6) == 0x100_0000;
    var out := "#" + ToHex(0x100_0000 + packed)[1..];
    assert out[1..] == FixedHex(packed, 6);
    HexValueOfFixed(packed, 6);
    PackedChannels(r, g, b);
    out
  }

  /** `lightenColor(color, percent)`, game.js:291-298. */
  function LightenColor(color: string, percent: int): string {
    Shifted(color, Amount(percent))
  }

  /** `darkenColor(color, percent)`, game.js:300-307. */
  function DarkenColor(color: string, percent: int): string {
    Shifted(color, -Amount(percent))
  }

  // ---------------------------------------------------------------------------
  // Arithmetic facts
  // ---------------------------------------------------------------------------

  lemma MulAtLeast(x: int, d: int)
    requires x >= 1 && d > 0
    ensures x * d >= d
  {
    assert x * d == (x - 1) * d + d;
  }

  lemma DivModUnique(n: int, d: int, q: int, r: int)
    requires d > 0 && 0 <= r < d && n == q * d + r
    ensures n / d == q && n % d == r
  {
    var q', r' := n / d, n % d;
    assert n == q' * d + r';
    assert (q' - q) * d == q' * d - q * d;
    if q' > q {
      MulAtLeast(q' - q, d);
    } else if q' < q {
      MulAtLeast(q - q', d);
    }
  }

  lemma PackedChannels(r: int, g: int, b: int)
    requires InByte(r) && InByte(g) && InByte(b)
    ensures Channels(r * 0x10000 + g * 0x100 + b) == Rgb(r, g, b)
  {
    var n := r * 0x10000 + g * 0x100 + b;
    DivModUnique(n, 0x1_0000_0000, 0, n);
    assert ToInt32(n) == n;
    DivModUnique(n, 0x10000, r, g * 0x100 + b);
    DivModUnique(n, 0x100, r * 0x100 + g, b);
    DivModUnique(r * 0x100 + g, 0x100, r, g);
  }

  /** Channels of a value below 2^24 are bytes that pack back to the value. */
  lemma ChannelsOfSmall(v: int)
    requires 0 <= v < 0x100_0000
    ensures InByte(Channels(v).r) && InByte(Channels(v).g) && InByte(Channels(v).b)
    ensures Channels(v).r * 0x10000 + Channels(v).g * 0x100 + Channels(v).b == v
  {
    DivModUnique(v, 0x1_0000_0000, 0, v);
    var r, rest := v / 0x10000, v % 0x10000;
    var g, b := rest / 0x100, rest % 0x100;
    DivModUnique(v, 0x100, r * 0x100 + g, b);
    DivModUnique(r * 0x100 + g, 0x100, r, g);
  }

  lemma {:induction false} ToHexLeadingOne(k: nat, p: nat)
    requires p < Pow16(k)
    ensures ToHex(Pow16(k) + p) == ['1'] + FixedHex(p, k)
  {
    if k > 0 {
      var n := Pow16(k) + p;
      DivModUnique(p, 16, p / 16, p % 16);
      DivModUnique(n, 16, Pow16(k - 1) + p / 16, p % 16);
      assert p / 16 < Pow16(k - 1);
      ToHexLeadingOne(k - 1, p / 16);
    }
  }

  /** Reading back `k` printed digits gives the value printed (parse after format). */
  lemma {:induction false} HexValueOfFixed(p: nat, k: nat)
    requires p < Pow16(k)
    ensures HexValue(FixedHex(p, k)) == p
  {
    if k > 0 {
      var s := FixedHex(p, k);
      assert s[..k - 1] == FixedHex(p / 16, k - 1);
      DivModUnique(p, 16, p / 16, p % 16);
      assert p / 16 < Pow16(k - 1);
      HexValueOfFixed(p / 16, k - 1);
    }
  }

  /** Printing the value of a hex string gives it back in lower case (format after parse). */
  lemma {:induction false} FixedOfHexValue(s: string)
    requires AllHex(s)
    ensures FixedHex(HexValue(s), |s|) == LowerCase(s)
  {
    if s != [] {
      var n := |s|;
      var front, last := s[..n - 1], s[n - 1];
      DivModUnique(HexValue(s), 16, HexValue(front), DigitValue(last));
      FixedOfHexValue(front);
      assert LowerDigit(DigitValue(last)) == HexLower(last);
      assert LowerCase(s) == LowerCase(front) + [HexLower(last)];
    }
  }

  lemma {:induction false} PrefixOfAllHex(s: string)
    requires AllHex(s)
    ensures HexPrefixLength(s) == |s|
  {
    if s != [] {
      PrefixOfAllHex(s[1..]);
    }
  }

  /** A well-formed colour decodes to the value of its six digits. */
  lemma DecodedHexColor(color: string)
    requires IsHexColor(color)
    ensures Decoded(color) == HexValue(color[1..])
  {
    assert RemoveFirst(color, '#') == color[1..];
    PrefixOfAllHex(color[1..]);
    assert color[1..][..6] == color[1..];
  }

  // ---------------------------------------------------------------------------
  // Properties of the helpers
  // ---------------------------------------------------------------------------

  /** Printing three bytes and reading them back gives the same three bytes. */
  lemma {:induction false} FormatParseRoundTrip(c: Rgb)
    requires InByte(c.r) && InByte(c.g) && InByte(c.b)
    ensures var s := "#" + FixedHex(c.r * 0x10000 + c.g * 0x100 + c.b, 6);
            IsCanonicalColor(s) && IsHexColor(s) && ColorChannels(s) == c
  {
    var p := c.r * 0x10000 + c.g * 0x100 + c.b;
    assert Pow16(6) == 0x100_0000;
    var s := "#" + FixedHex(p, 6);
    assert s[1..] == FixedHex(p, 6);
    HexValueOfFixed(p, 6);
    PackedChannels(c.r, c.g, c.b);
  }

  /** Lightening by a non-negative percentage never lowers a channel. */
  lemma LightenNeverLowers(color: string, percent: int)
    requires IsHexColor(color) && percent >= 0
    ensures var before, after := ColorChannels(color), ColorChannels(LightenColor(color, percent));
            after.r >= before.r && after.g >= before.g && after.b >= before.b
  {
    DecodedHexColor(color);
    assert Pow16(6) == 0x100_0000;
    ChannelsOfSmall(HexValue(color[1..]));
  }

  /** Darkening by a non-negative percentage never raises a channel. */
  lemma DarkenNeverRaises(color: string, percent: int)
    requires IsHexColor(color) && percent >= 0
    ensures var before, after := ColorChannels(color), ColorChannels(DarkenColor(color, percent));
            after.r <= before.r && after.g <= before.g && after.b <= before.b
  {
    DecodedHexColor(color);
    assert Pow16(6) == 0x100_0000;
    ChannelsOfSmall(HexValue(color[1..]));
  }

  /** The helpers print the packed clamped channels as six zero-padded digits. */
  lemma ShiftedDigits(v: int, amt: int)
    ensures var c := Channels(v);
            var packed := ClampChannel(c.r + amt) * 0x10000 + ClampChannel(c.g + amt) * 0x100 + ClampChannel(c.b + amt);
            ShiftedValue(v, amt) == "#" + FixedHex(packed, 6)
  {
    var c := Channels(v);
    var packed := ClampChannel(c.r + amt) * 0x10000 + ClampChannel(c.g + amt) * 0x100 + ClampChannel(c.b + amt);
    assert packed < Pow16(6) by { assert Pow16(6) == 0x100_0000; }
    ToHexLeadingOne(6, packed);
  }

  /** A number of six hex digits shifted by 0 prints as those six digits. */
  lemma ZeroShiftPrintsValue(v: int)
    requires 0 <= v < 0x100_0000
    ensures ShiftedValue(v, 0) == "#" + FixedHex(v, 6)
  {
    ChannelsOfSmall(v);
    var c := Channels(v);
    assert ClampChannel(c.r + 0) == c.r && ClampChannel(c.g + 0) == c.g && ClampChannel(c.b + 0) == c.b;
    ShiftedDigits(v, 0);
  }

  /** At 0 percent both helpers return the same colour, lower-cased. */
  lemma ZeroPercentIsIdentity(color: string)
    requires IsHexColor(color)
    ensures LightenColor(color, 0) == "#" + LowerCase(color[1..])
    ensures DarkenColor(color, 0) == "#" + LowerCase(color[1..])
  {
    var v := HexValue(color[1..]);
    HelpersAtZero(color);
    assert v < 0x100_0000 by { assert Pow16(6) == 0x100_0000; }
    ZeroShiftPrintsValue(v);
    FixedOfHexValue(color[1..]);
  }

  /** At 0 percent both helpers shift the colour's own number by 0. */
  lemma HelpersAtZero(color: string)
    requires IsHexColor(color)
    ensures LightenColor(color, 0) == ShiftedValue(HexValue(color[1..]), 0)
    ensures DarkenColor(color, 0) == ShiftedValue(HexValue(color[1..]), 0)
  {
    DecodedHexColor(color);
    assert Amount(0) == 0;
  }
}
