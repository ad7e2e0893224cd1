/** The integer part of `Color(hex:)` (Couply/Core/Extensions/Color+Couply.swift):
    trimming, scanning a hexadecimal number and extracting the alpha, red,
    green and blue channels as integers in 0..255. The final division of each
    channel by 255 into a floating-point colour is not modelled. */
module ColorHex {

  /** The four channels, in the source's `(a, r, g, b)` order. */
  datatype ARGB = ARGB(a: int, r: int, g: int, b: int)

  /** Membership in `CharacterSet.alphanumerics`, restricted to ASCII. */
  predicate IsAlphanumeric(ch: char) {
    'a' <= ch <= 'z' || 'A' <= ch <= 'Z' || '0' <= ch <= '9'
  }

  function TrimStart(s: string): (r: string)
    ensures |r| <= |s|
  {
    if s == [] || IsAlphanumeric(s[0]) then s else TrimStart(s[1..])
  }

  function TrimEnd(s: string): (r: string)
    ensures |r| <= |s|
  {
    if s == [] || IsAlphanumeric(s[|s| - 1]) then s else TrimEnd(s[..|s| - 1])
  }

  /** `trimmingCharacters(in: CharacterSet.alphanumerics.inverted)`. */
  function Trim(s: string): string {
    TrimEnd(TrimStart(s))
  }

  /** What is left after trimming the front is empty or starts with an
      alphanumeric character. */
  lemma {:induction false} TrimStartShape(s: string)
    ensures TrimStart(s) == [] || IsAlphanumeric(TrimStart(s)[0])
  {
    if s != [] && !IsAlphanumeric(s[0]) {
      TrimStartShape(s[1..]);
    }
  }

  /** Trimming the end keeps a prefix, which is empty or ends with an
      alphanumeric character. */
  lemma {:induction false} TrimEndShape(s: string)
    ensures TrimEnd(s) == s[..|TrimEnd(s)|]
    ensures TrimEnd(s) == [] || IsAlphanumeric(TrimEnd(s)[|TrimEnd(s)| - 1])
  {
    if s != [] && !IsAlphanumeric(s[|s| - 1]) {
      var s' := s[..|s| - 1];
      TrimEndShape(s');
      assert s'[..|TrimEnd(s')|] == s[..|TrimEnd(s')|];
    }
  }

  /** Trimming strips exactly the non-alphanumeric padding: a string that
      starts and ends with an alphanumeric character comes back unchanged from
      any padding around it. */
  lemma {:induction false} TrimRemovesPadding(pre: string, s: string, post: string)
    requires forall i :: 0 <= i < |pre| ==> !IsAlphanumeric(pre[i])
    requires forall i :: 0 <= i < |post| ==> !IsAlphanumeric(post[i])
    requires s == [] || (IsAlphanumeric(s[0]) && IsAlphanumeric(s[|s| - 1]))
    ensures Trim(pre + s + post) == s
  {
    assert pre + s + post == pre + (s + post);
    TrimStartPadding(pre, s + post);
    if s == [] {
      assert s + post == post + [];
      TrimStartPadding(post, []);
    } else {
      assert (s + post)[0] == s[0];
      TrimEndPadding(s, post);
    }
  }

  lemma {:induction false} TrimStartPadding(pre: string, rest: string)
    requires forall i :: 0 <= i < |pre| ==> !IsAlphanumeric(pre[i])
    ensures TrimStart(pre + rest) == TrimStart(rest)
  {
    if pre == [] {
      assert pre + rest == rest;
    } else {
      assert (pre + rest)[0] == pre[0];
      assert (pre + rest)[1..] == pre[1..] + rest;
      assert forall i :: 0 <= i < |pre[1..]| ==> pre[1..][i] == pre[i + 1];
      TrimStartPadding(pre[1..], rest);
    }
  }

  lemma {:induction false} TrimEndPadding(s: string, post: string)
    requires forall i :: 0 <= i < |post| ==> !IsAlphanumeric(post[i])
    requires s == [] || IsAlphanumeric(s[|s| - 1])
    ensures TrimEnd(s + post) == s
  {
    if post == [] {
      assert s + post == s;
    } else {
      var post' := post[..|post| - 1];
      assert (s + post)[|s + post| - 1] == post[|post| - 1];
      assert (s + post)[..|s + post| - 1] == s + post';
      TrimEndPadding(s, post');
    }
  }

  /** Trimming twice is trimming once. */
  lemma {:induction false} TrimIdempotent(s: string)
    ensures Trim(Trim(s)) == Trim(s)
  {
    var t0 := TrimStart(s);
    var t := Trim(s);
    TrimStartShape(s);
    TrimEndShape(t0);
    if t != [] {
      assert t[0] == t0[0];
    }
    TrimRemovesPadding([], t, []);
    assert [] + t + [] == t;
  }

  // ---------------------------------------------------------------------
  // Scanning

  predicate IsHexDigit(ch: char) {
    '0' <= ch <= '9' || 'a' <= ch <= 'f' || 'A' <= ch <= 'F'
  }

  /** The value of a hexadecimal digit; 0 for any other character. */
  function DigitValue(ch: char): (v: nat)
    ensures v < 16
  {
    if '0' <= ch <= '9' then ch as int - '0' as int
    else if 'a' <= ch <= 'f' then ch as int - 'a' as int + 10
    else if 'A' <= ch <= 'F' then ch as int - 'A' as int + 10
    else 0
  }

  function Pow16(n: nat): (p: nat)
    ensures p >= 1
  {
    if n == 0 then 1 else 16 * Pow16(n - 1)
  }

  predicate AllHexDigits(s: string) {
    forall i :: 0 <= i < |s| ==> IsHexDigit(s[i])
  }

  /** The number a string of hexadecimal digits denotes. */
  function HexValue(s: string): (v: nat)
    ensures v < Pow16(|s|)
  {
    if s == [] then 0 else HexValue(s[..|s| - 1]) * 16 + DigitValue(s[|s| - 1])
  }

  /** The length of the longest prefix of hexadecimal digits. */
  function HexRun(s: string): (n: nat)
    ensures n <= |s|
  {
    if s == [] || !IsHexDigit(s[0]) then 0 else 1 + HexRun(s[1..])
  }

  /** A string of hexadecimal digits is one run. */
  lemma {:induction false} HexRunOfDigits(s: string)
    requires AllHexDigits(s)
    ensures HexRun(s) == |s|
  {
    if s != [] {
      HexRunOfDigits(s[1..]);
    }
  }

  /** Whether the string opens with a `0x` or `0X` prefix followed by a digit. */
  predicate HasHexPrefix(s: string) {
    |s| >= 3 && s[0] == '0' && (s[1] == 'x' || s[1] == 'X') && IsHexDigit(s[2])
  }

  /** `Scanner.scanHexInt64`: an optional `0x` prefix, then the longest run
      of hexadecimal digits; 0 when there is none. */
  function ScanHex(s: string): (v: nat)
    ensures v < Pow16(|s|)
  {
    var body := if HasHexPrefix(s) then s[2..] else s;
    var n := HexRun(body);
    PowMonotone(n, |s|);
    HexValue(body[..n])
  }

  lemma {:induction false} PowMonotone(m: nat, n: nat)
    requires m <= n
    ensures Pow16(m) <= Pow16(n)
  {
    if m < n {
      PowMonotone(m, n - 1);
    }
  }

  // ---------------------------------------------------------------------
  // Channels

  /** `Color(hex:)` up to the division by 255: the channels chosen by the
      length of the trimmed string. Shifts are divisions by powers of two and
      masks are remainders, which agree on the scanner's non-negative value. */
  function Channels(hex: string): ARGB {
    var t := Trim(hex);
    var v := ScanHex(t);
    if |t| == 3 then ARGB(255, (v / 256) * 17, (v / 16 % 16) * 17, (v % 16) * 17)
    else if |t| == 6 then ARGB(255, v / 65536, v / 256 % 256, v % 256)
    else if |t| == 8 then ARGB(v / 16777216, v / 65536 % 256, v / 256 % 256, v % 256)
    else ARGB(1, 1, 1, 0)
  }

  predicate InByteRange(n: int) {
    0 <= n <= 255
  }

  /** Every input, well-formed or not, gives four channels in 0..255: the
      scanned number never has more digits than the trimmed string. Three-
      and six-digit forms are opaque, and any other length gives (1, 1, 1, 0). */
  lemma {:induction false} ChannelsInRange(hex: string)
    ensures var c := Channels(hex);
      InByteRange(c.a) && InByteRange(c.r) && InByteRange(c.g) && InByteRange(c.b)
    ensures |Trim(hex)| == 3 || |Trim(hex)| == 6 ==> Channels(hex).a == 255
    ensures |Trim(hex)| != 3 && |Trim(hex)| != 6 && |Trim(hex)| != 8 ==> Channels(hex) == ARGB(1, 1, 1, 0)
  {
    var t := Trim(hex);
    var v := ScanHex(t);
    if |t| == 3 {
      assert Pow16(3) == 4096;
    } else if |t| == 6 {
      assert Pow16(6) == 16777216;
    } else if |t| == 8 {
      assert Pow16(8) == 4294967296;
    }
  }

  // ---------------------------------------------------------------------
  // Encoding, the partner of decoding

  const HexSymbols: string := "0123456789ABCDEF"

  function HexChar(n: nat): (ch: char)
    requires n < 16
    ensures IsHexDigit(ch) && IsAlphanumeric(ch) && DigitValue(ch) == n
  {
    HexSymbols[n]
  }

  /** A channel as two upper-case hexadecimal digits. */
  function HexByte(n: nat): (s: string)
    requires n < 256
    ensures |s| == 2 && AllHexDigits(s) && HexValue(s) == n
  {
    var s := [HexChar(n / 16), HexChar(n % 16)];
    assert s[..1] == [HexChar(n / 16)];
    s
  }

  lemma {:induction false} HexValueAppend(s: string, t: string)
    ensures HexValue(s + t) == HexValue(s) * Pow16(|t|) + HexValue(t)
  {
    if t == [] {
      assert s + t == s;
    } else {
      var t' := t[..|t| - 1];
      assert (s + t)[..|s + t| - 1] == s + t';
      assert (s + t)[|s + t| - 1] == t[|t| - 1];
      HexValueAppend(s, t');
      ShiftDigit(HexValue(s), Pow16(|t'|), HexValue(t'), DigitValue(t[|t| - 1]));
    }
  }

  lemma ShiftDigit(high: int, p: int, low: int, d: int)
    ensures (high * p + low) * 16 + d == high * (16 * p) + (low * 16 + d)
  {
  }

  lemma AllHexDigitsAppend(s: string, t: string)
    requires AllHexDigits(s) && AllHexDigits(t)
    ensures AllHexDigits(s + t)
  {
    forall i | 0 <= i < |s + t| ensures IsHexDigit((s + t)[i]) {
      if i < |s| {
        assert (s + t)[i] == s[i];
      } else {
        assert (s + t)[i] == t[i - |s|];
      }
    }
  }

  lemma {:induction false} AllAlphanumericTrimmed(s: string)
    requires AllHexDigits(s)
    ensures Trim(s) == s
  {
    TrimRemovesPadding([], s, []);
    assert [] + s + [] == s;
  }

  /** A string made only of hexadecimal digits scans as the number it
      spells: its second symbol is a digit, so it has no `0x` prefix. */
  lemma {:induction false} ScanAllDigits(s: string)
    requires |s| >= 2 && AllHexDigits(s)
    ensures ScanHex(s) == HexValue(s)
  {
    assert !HasHexPrefix(s) by { assert IsHexDigit(s[1]); }
    HexRunOfDigits(s);
    assert s[..|s|] == s;
  }

  /** A string of hexadecimal digits is decoded from the number it spells,
      by its length. */
  lemma {:induction false} DigitsDecode(s: string)
    requires |s| >= 2 && AllHexDigits(s)
    ensures var v := HexValue(s);
      Channels(s) ==
        if |s| == 3 then ARGB(255, (v / 256) * 17, (v / 16 % 16) * 17, (v % 16) * 17)
        else if |s| == 6 then ARGB(255, v / 65536, v / 256 % 256, v % 256)
        else if |s| == 8 then ARGB(v / 16777216, v / 65536 % 256, v / 256 % 256, v % 256)
        else ARGB(1, 1, 1, 0)
  {
    AllAlphanumericTrimmed(s);
    ScanAllDigits(s);
  }

  /** Six digits of red, green and blue decode to those channels, fully
      opaque. */
  lemma {:induction false} RgbRoundTrip(r: nat, g: nat, b: nat)
    requires r < 256 && g < 256 && b < 256
    ensures Channels(HexByte(r) + HexByte(g) + HexByte(b)) == ARGB(255, r, g, b)
  {
    var rg := HexByte(r) + HexByte(g);
    var s := rg + HexByte(b);
    AllHexDigitsAppend(HexByte(r), HexByte(g));
    AllHexDigitsAppend(rg, HexByte(b));
    RgbValue(r, g, b);
    SixDigits(s, r, g, b);
  }

  lemma SixDigits(s: string, r: nat, g: nat, b: nat)
    requires r < 256 && g < 256 && b < 256
    requires |s| == 6 && AllHexDigits(s) && HexValue(s) == r * 65536 + g * 256 + b
    ensures Channels(s) == ARGB(255, r, g, b)
  {
    DigitsDecode(s);
    DecodeRgb(r, g, b);
  }

  lemma {:induction false} RgbValue(r: nat, g: nat, b: nat)
    requires r < 256 && g < 256 && b < 256
    ensures HexValue(HexByte(r) + HexByte(g) + HexByte(b)) == r * 65536 + g * 256 + b
  {
    var hr, hg, hb := HexByte(r), HexByte(g), HexByte(b);
    assert Pow16(2) == 256;
    HexValueAppend(hr, hg);
    var rg := hr + hg;
    assert HexValue(rg) == r * 256 + g;
    HexValueAppend(rg, hb);
    assert HexValue(rg + hb) == (r * 256 + g) * 256 + b;
  }

  lemma DecodeRgb(r: nat, g: nat, b: nat)
    requires r < 256 && g < 256 && b < 256
    ensures (r * 65536 + g * 256 + b) / 65536 == r
    ensures (r * 65536 + g * 256 + b) / 256 % 256 == g
    ensures (r * 65536 + g * 256 + b) % 256 == b
  {
    assert (r * 65536 + g * 256 + b) / 256 == r * 256 + g;
  }

  /** Eight digits decode to alpha, red, green and blue in that order. */
  lemma {:induction false} ArgbRoundTrip(a: nat, r: nat, g: nat, b: nat)
    requires a < 256 && r < 256 && g < 256 && b < 256
    ensures Channels(HexByte(a) + HexByte(r) + HexByte(g) + HexByte(b)) == ARGB(a, r, g, b)
  {
    var rgb := HexByte(r) + HexByte(g) + HexByte(b);
    var s := HexByte(a) + HexByte(r) + HexByte(g) + HexByte(b);
    assert s == HexByte(a) + rgb;
    AllHexDigitsAppend(HexByte(r), HexByte(g));
    AllHexDigitsAppend(HexByte(r) + HexByte(g), HexByte(b));
    AllHexDigitsAppend(HexByte(a), rgb);
    ArgbValue(a, r, g, b);
    EightDigits(s, a, r, g, b);
  }

  lemma EightDigits(s: string, a: nat, r: nat, g: nat, b: nat)
    requires a < 256 && r < 256 && g < 256 && b < 256
    requires |s| == 8 && AllHexDigits(s) && HexValue(s) == a * 16777216 + (r * 65536 + g * 256 + b)
    ensures Channels(s) == ARGB(a, r, g, b)
  {
    var v := HexValue(s);
    DigitsDecode(s);
    assert Channels(s) == ARGB(v / 16777216, v / 65536 % 256, v / 256 % 256, v % 256);
    DecodeArgb(a, r * 65536 + g * 256 + b);
    DecodeRgb(r, g, b);
  }

  lemma {:induction false} ArgbValue(a: nat, r: nat, g: nat, b: nat)
    requires a < 256 && r < 256 && g < 256 && b < 256
    ensures HexValue(HexByte(a) + HexByte(r) + HexByte(g) + HexByte(b)) == a * 16777216 + (r * 65536 + g * 256 + b)
  {
    var rgb := HexByte(r) + HexByte(g) + HexByte(b);
    assert HexByte(a) + HexByte(r) + HexByte(g) + HexByte(b) == HexByte(a) + rgb;
    RgbValue(r, g, b);
    HexValueAppend(HexByte(a), rgb);
    assert Pow16(6) == 16777216;
  }

  lemma DecodeArgb(a: nat, rgb: nat)
    requires a < 256 && rgb < 16777216
    ensures (a * 16777216 + rgb) / 16777216 == a
    ensures (a * 16777216 + rgb) / 65536 % 256 == rgb / 65536
    ensures (a * 16777216 + rgb) / 256 % 256 == rgb / 256 % 256
    ensures (a * 16777216 + rgb) % 256 == rgb % 256
  {
    assert (a * 16777216 + rgb) / 65536 == a * 256 + rgb / 65536;
    assert (a * 16777216 + rgb) / 256 == a * 65536 + rgb / 256;
  }

  /** The short form: each of three digits is one channel, scaled by 17 so
      that `F` becomes 255 and `0` stays 0. */
  lemma {:induction false} ShortFormRoundTrip(x: nat, y: nat, z: nat)
    requires x < 16 && y < 16 && z < 16
    ensures Channels([HexChar(x), HexChar(y), HexChar(z)]) == ARGB(255, 17 * x, 17 * y, 17 * z)
  {
    var s := [HexChar(x), HexChar(y), HexChar(z)];
    ShortValue(x, y, z);
    ThreeDigits(s, x, y, z);
  }

  lemma ThreeDigits(s: string, x: nat, y: nat, z: nat)
    requires x < 16 && y < 16 && z < 16
    requires |s| == 3 && AllHexDigits(s) && HexValue(s) == x * 256 + y * 16 + z
    ensures Channels(s) == ARGB(255, 17 * x, 17 * y, 17 * z)
  {
    DigitsDecode(s);
    DecodeShort(x, y, z);
  }

  lemma DecodeShort(x: nat, y: nat, z: nat)
    requires x < 16 && y < 16 && z < 16
    ensures var v := x * 256 + y * 16 + z;
      (v / 256) * 17 == 17 * x && (v / 16 % 16) * 17 == 17 * y && (v % 16) * 17 == 17 * z
  {
    var v := x * 256 + y * 16 + z;
    assert v / 16 == x * 16 + y;
    assert v / 256 == x && v / 16 % 16 == y && v % 16 == z;
  }

  lemma {:induction false} ShortValue(x: nat, y: nat, z: nat)
    requires x < 16 && y < 16 && z < 16
    ensures HexValue([HexChar(x), HexChar(y), HexChar(z)]) == x * 256 + y * 16 + z
  {
    var s := [HexChar(x), HexChar(y), HexChar(z)];
    assert HexValue([HexChar(x)]) == x by {
      assert [HexChar(x)][..0] == [];
    }
    assert HexValue([HexChar(x), HexChar(y)]) == x * 16 + y by {
      assert [HexChar(x), HexChar(y)][..1] == [HexChar(x)];
    }
    assert s[..2] == [HexChar(x), HexChar(y)];
  }

  /** A leading `#`, the usual way colours are written, makes no difference. */
  lemma LeadingHashIgnored(s: string)
    ensures Channels("#" + s) == Channels(s)
  {
    TrimStartPadding("#", s);
  }
}
