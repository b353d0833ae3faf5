/**
 * The colour-token parser `hex_to_rgb` (main.py): strip leading '#' characters,
 * then read the slices [0:2], [2:4] and [4:6] with Python's `int(_, 16)` and
 * build a python-pptx `RGBColor`, which accepts only channels in 0..255.
 * A token that cannot be resolved makes the call raise; here that is `None`.
 */
module Colours {
  import opened Wrappers

  /** One 8-bit colour channel, the range `RGBColor` accepts. */
  type Channel = x: int | 0 <= x <= 255

  datatype Rgb = Rgb(r: Channel, g: Channel, b: Channel)

  predicate IsHexDigit(c: char) {
    '0' <= c <= '9' || 'a' <= c <= 'f' || 'A' <= c <= 'F'
  }

  function HexDigitValue(c: char): (v: nat)
    requires IsHexDigit(c)
    ensures v < 16
  {
    if '0' <= c <= '9' then c as int - '0' as int
    else if 'a' <= c <= 'f' then c as int - 'a' as int + 10
    else c as int - 'A' as int + 10
  }

  /** `n` '#' characters. */
  function Hashes(n: nat): (s: string)
    ensures |s| == n && forall i :: 0 <= i < n ==> s[i] == '#'
  {
    seq(n, _ => '#')
  }

  /** `s.lstrip('#')`. */
  function LStripHash(s: string): (t: string)
    ensures |t| <= |s|
    ensures t == [] || t[0] != '#'
  {
    if s != [] && s[0] == '#' then LStripHash(s[1..]) else s
  }

  /** `lstrip('#')` removes every leading '#' and nothing else. */
  lemma {:induction false} LStripHashStrips(s: string)
    ensures s == Hashes(|s| - |LStripHash(s)|) + LStripHash(s)
  {
    var t := LStripHash(s);
    if s != [] && s[0] == '#' {
      LStripHashStrips(s[1..]);
      assert s == [s[0]] + s[1..];
      assert Hashes(|s| - |t|) == [s[0]] + Hashes(|s| - 1 - |t|);
    } else {
      assert Hashes(0) == [];
    }
  }

  function Min(a: int, b: int): int {
    if a <= b then a else b
  }

  /** Python's `s[i:j]` for non-negative bounds: both bounds are clamped to `|s|`. */
  function Slice(s: string, i: nat, j: nat): (t: string)
    ensures |t| <= |s| && (i <= j ==> |t| <= j - i)
    ensures i <= j <= |s| ==> t == s[i..j]
    ensures |s| <= i ==> t == []
  {
    var lo, hi := Min(i, |s|), Min(j, |s|);
    if lo <= hi then s[lo..hi] else []
  }

  /** The ASCII whitespace `int()` ignores around its argument. */
  predicate IsSpace(c: char) {
    c == ' ' || c == '\t' || c == '\n' || c == '\U{0B}' || c == '\U{0C}' || c == '\r'
  }

  function TrimLeft(s: string): string {
    if s != [] && IsSpace(s[0]) then TrimLeft(s[1..]) else s
  }

  function TrimRight(s: string): string {
    if s != [] && IsSpace(s[|s| - 1]) then TrimRight(s[..|s| - 1]) else s
  }

  /**
   * The digit part of a base-16 literal: hex digits, where a single '_' may
   * stand between two digits (no leading, trailing or doubled '_').
   */
  predicate DigitGroups(u: string) {
    |u| > 0 && u[0] != '_' && forall i :: 0 <= i < |u| ==> WellPlaced(u, i)
  }

  predicate WellPlaced(u: string, i: nat)
    requires i < |u|
  {
    IsHexDigit(u[i]) || (u[i] == '_' && i + 1 < |u| && IsHexDigit(u[i + 1]))
  }

  /** The base-16 value of `u`, skipping underscores. */
  function DigitsValue(u: string): nat {
    if u == [] then 0
    else if IsHexDigit(u[|u| - 1]) then 16 * DigitsValue(u[..|u| - 1]) + HexDigitValue(u[|u| - 1])
    else DigitsValue(u[..|u| - 1])
  }

  function ParseDigits(u: string): Option<nat> {
    if DigitGroups(u) then Some(DigitsValue(u)) else None
  }

  /** An unsigned base-16 literal, with an optional "0x"/"0X" prefix that one '_' may follow. */
  function ParseMagnitude(t: string): Option<nat> {
    if |t| >= 2 && t[0] == '0' && (t[1] == 'x' || t[1] == 'X') then
      var body := t[2..];
      if body != [] && body[0] == '_' then ParseDigits(body[1..]) else ParseDigits(body)
    else ParseDigits(t)
  }

  /** Python's `int(s, 16)`; `None` where it raises `ValueError`, as it does for a blank string. */
  function ParseInt16(s: string): (v: Option<int>)
    ensures TrimRight(TrimLeft(s)) == [] ==> v == None
  {
    var t := TrimRight(TrimLeft(s));
    if t != [] && (t[0] == '+' || t[0] == '-') then
      match ParseMagnitude(t[1..])
      case None => None
      case Some(m) => Some(if t[0] == '-' then -(m as int) else m as int)
    else ParseMagnitude(t)
  }

  /**
   * `hex_to_rgb(token)`; `None` where the Python function raises. The slice
   * [4:6] must hold a digit, so at least five characters must follow the '#'s.
   */
  function HexToRgb(token: string): (c: Option<Rgb>)
    ensures c.Some? ==> |LStripHash(token)| >= 5
  {
    var t := LStripHash(token);
    match (ParseInt16(Slice(t, 0, 2)), ParseInt16(Slice(t, 2, 4)), ParseInt16(Slice(t, 4, 6)))
    case (Some(r), Some(g), Some(b)) =>
      if 0 <= r <= 255 && 0 <= g <= 255 && 0 <= b <= 255 then Some(Rgb(r, g, b)) else None
    case _ => None
  }

  // ---------------------------------------------------------------------------
  // What `int(_, 16)` does with the one- and two-character slices it is given.

  /** The two-character strings `int(_, 16)` accepts: "hh", " h", "h ", "+h" and "-h". */
  predicate PairAccepted(p: string)
    requires |p| == 2
  {
    ((IsHexDigit(p[0]) || IsSpace(p[0]) || p[0] == '+' || p[0] == '-') && IsHexDigit(p[1]))
    || (IsHexDigit(p[0]) && IsSpace(p[1]))
  }

  /** The value `int(p, 16)` gives an accepted two-character string. */
  function PairValue(p: string): int
    requires |p| == 2 && PairAccepted(p)
  {
    if IsHexDigit(p[0]) && IsHexDigit(p[1]) then 16 * HexDigitValue(p[0]) + HexDigitValue(p[1])
    else if IsHexDigit(p[1]) then (if p[0] == '-' then -(HexDigitValue(p[1]) as int) else HexDigitValue(p[1]))
    else HexDigitValue(p[0])
  }

  lemma ParseEmpty()
    ensures ParseInt16("") == None
  {
  }

  lemma {:induction false} ParseOneChar(c: char)
    ensures ParseInt16([c]) == if IsHexDigit(c) then Some(HexDigitValue(c)) else None
  {
    var s := [c];
    if IsSpace(c) {
      assert TrimLeft(s) == TrimLeft(s[1..]) == [];
    } else {
      assert TrimLeft(s) == s;
      assert TrimRight(s) == s;
      MagnitudeOneChar(c);
    }
  }

  lemma MagnitudeOneChar(c: char)
    ensures ParseMagnitude([c]) == if IsHexDigit(c) then Some(HexDigitValue(c)) else None
  {
    var s := [c];
    if IsHexDigit(c) {
      assert DigitGroups(s);
      assert s[..0] == [];
      assert DigitsValue(s) == 16 * DigitsValue([]) + HexDigitValue(c);
    } else {
      NotDigitGroups(s, 0);
    }
  }

  /** A character that is neither a digit nor a well-placed '_' spoils a digit string. */
  lemma NotDigitGroups(u: string, i: nat)
    requires i < |u| && !IsHexDigit(u[i])
    requires u[i] != '_' || i == 0 || i + 1 == |u|
    ensures !DigitGroups(u)
  {
    if u[i] != '_' || i > 0 {
      assert !WellPlaced(u, i);
    }
  }

  lemma {:induction false} ParsePair(p: string)
    requires |p| == 2
    ensures ParseInt16(p) == if PairAccepted(p) then Some(PairValue(p)) else None
  {
    var a, b := p[0], p[1];
    if IsSpace(a) {
      assert p[1..] == [b];
      assert TrimLeft(p) == TrimLeft([b]);
      ParseOneChar(b);
      assert [b][..0] == [];
      if IsSpace(b) {
        assert TrimLeft([b]) == TrimLeft([b][1..]) == [];
      } else {
        assert TrimLeft([b]) == [b];
        assert TrimRight([b]) == [b];
      }
    } else {
      assert TrimLeft(p) == p;
      if IsSpace(b) {
        assert TrimRight(p) == TrimRight([a]);
        assert p[..1] == [a];
        assert TrimRight([a]) == [a];
        assert TrimLeft([a]) == [a];
        ParseOneChar(a);
      } else {
        assert TrimRight(p) == p;
        if a == '+' || a == '-' {
          assert p[1..] == [b];
          MagnitudeOneChar(b);
        } else if IsHexDigit(a) && IsHexDigit(b) {
          assert ParseMagnitude(p) == ParseDigits(p);
          assert DigitGroups(p);
          assert p[..1] == [a];
          assert [a][..0] == [];
          assert DigitsValue(p) == 16 * DigitsValue([a]) + HexDigitValue(b);
          assert DigitsValue([a]) == HexDigitValue(a);
        } else if a == '0' && (b == 'x' || b == 'X') {
          assert p[2..] == [];
        } else {
          assert ParseMagnitude(p) == ParseDigits(p);
          NotDigitGroups(p, if IsHexDigit(a) then 1 else 0);
        }
      }
    }
  }

  // ---------------------------------------------------------------------------
  // What `hex_to_rgb` accepts and returns.

  /** Python's `s[i:j]` inside the string is the ordinary subsequence. */
  lemma SliceWithin(s: string, i: nat, j: nat)
    requires i <= j <= |s|
    ensures Slice(s, i, j) == s[i..j]
  {
  }

  /**
   * With at least six characters left after the '#'s, the token resolves
   * exactly when each of its first three pairs is a string `int(_, 16)`
   * accepts with a non-negative value, and the channels are those values.
   */
  lemma {:induction false} HexToRgbSixChars(token: string)
    requires |LStripHash(token)| >= 6
    ensures var t := LStripHash(token);
      HexToRgb(token) ==
        if PairAccepted(t[0..2]) && PairAccepted(t[2..4]) && PairAccepted(t[4..6])
           && PairValue(t[0..2]) >= 0 && PairValue(t[2..4]) >= 0 && PairValue(t[4..6]) >= 0
        then Some(Rgb(PairValue(t[0..2]), PairValue(t[2..4]), PairValue(t[4..6])))
        else None
  {
    var t := LStripHash(token);
    SliceWithin(t, 0, 2);
    SliceWithin(t, 2, 4);
    SliceWithin(t, 4, 6);
    ParsePair(t[0..2]);
    ParsePair(t[2..4]);
    ParsePair(t[4..6]);
  }

  /** Six hex digits after the '#'s give the three base-16 byte pairs; later characters are ignored. */
  lemma {:induction false} HexToRgbSixDigits(token: string)
    requires |LStripHash(token)| >= 6
    requires forall i :: 0 <= i < 6 ==> IsHexDigit(LStripHash(token)[i])
    ensures var t := LStripHash(token);
      HexToRgb(token) == Some(Rgb(16 * HexDigitValue(t[0]) + HexDigitValue(t[1]),
                                  16 * HexDigitValue(t[2]) + HexDigitValue(t[3]),
                                  16 * HexDigitValue(t[4]) + HexDigitValue(t[5])))
  {
    HexToRgbSixChars(token);
  }

  /**
   * With exactly five characters after the '#'s, the slice [4:6] holds one
   * character: the token resolves exactly when the first two pairs are
   * accepted with non-negative values and the fifth character is a hex
   * digit, which is then the blue channel on its own.
   */
  lemma {:induction false} HexToRgbFiveChars(token: string)
    requires |LStripHash(token)| == 5
    ensures var t := LStripHash(token);
      HexToRgb(token) ==
        if PairAccepted(t[0..2]) && PairAccepted(t[2..4])
           && PairValue(t[0..2]) >= 0 && PairValue(t[2..4]) >= 0 && IsHexDigit(t[4])
        then Some(Rgb(PairValue(t[0..2]), PairValue(t[2..4]), HexDigitValue(t[4])))
        else None
  {
    var t := LStripHash(token);
    SliceWithin(t, 0, 2);
    SliceWithin(t, 2, 4);
    assert Slice(t, 4, 6) == [t[4]];
    ParsePair(t[0..2]);
    ParsePair(t[2..4]);
    ParseOneChar(t[4]);
  }

  /** Five hex digits are accepted: "abcde" reads as (171, 205, 14). */
  lemma {:induction false} HexToRgbFiveDigits(token: string)
    requires |LStripHash(token)| == 5
    requires forall i :: 0 <= i < 5 ==> IsHexDigit(LStripHash(token)[i])
    ensures var t := LStripHash(token);
      HexToRgb(token) == Some(Rgb(16 * HexDigitValue(t[0]) + HexDigitValue(t[1]),
                                  16 * HexDigitValue(t[2]) + HexDigitValue(t[3]),
                                  HexDigitValue(t[4])))
  {
    HexToRgbFiveChars(token);
  }

  /** "ab cd" reads as (171, 12, 13): "ab", " c" and "d" all parse. */
  lemma FiveCharAccepted()
    ensures HexToRgb("ab cd") == Some(Rgb(171, 12, 13))
  {
    var t := "ab cd";
    assert LStripHash(t) == t;
    HexToRgbFiveChars(t);
    assert t[0..2] == ['a', 'b'] && t[2..4] == [' ', 'c'];
    assert PairAccepted(t[0..2]) && PairValue(t[0..2]) == 171;
    assert PairAccepted(t[2..4]) && PairValue(t[2..4]) == 12;
    assert HexDigitValue(t[4]) == 13;
  }

  /** "abcd+" raises: the lone "+" in the slice [4:6] is not a number. */
  lemma FiveCharRejected()
    ensures HexToRgb("abcd+") == None
  {
    var t := "abcd+";
    assert LStripHash(t) == t;
    HexToRgbFiveChars(t);
    assert !IsHexDigit(t[4]);
  }

  /** With four or fewer characters after the '#'s the slice [4:6] is empty and the call raises. */
  lemma {:induction false} HexToRgbTooShort(token: string)
    requires |LStripHash(token)| <= 4
    ensures HexToRgb(token) == None
  {
    var t := LStripHash(token);
    assert Slice(t, 4, 6) == [];
    ParseEmpty();
  }

  /**
   * A character among the first six after the '#'s that is not a hex digit,
   * whitespace or a sign spoils its pair, and the call raises.
   */
  lemma {:induction false} HexToRgbBadCharacter(token: string, i: nat)
    requires i < 6 && i < |LStripHash(token)|
    requires var c := LStripHash(token)[i]; !IsHexDigit(c) && !IsSpace(c) && c != '+' && c != '-'
    ensures HexToRgb(token) == None
  {
    var t := LStripHash(token);
    if |t| <= 4 {
      HexToRgbTooShort(token);
    } else {
      var lo := i - i % 2;
      SliceWithin(t, 0, 2);
      SliceWithin(t, 2, 4);
      if lo + 2 <= |t| {
        SliceWithin(t, lo, lo + 2);
        ParsePair(t[lo..lo + 2]);
        assert t[lo..lo + 2][i - lo] == t[i];
      } else {
        assert Slice(t, 4, 6) == [t[4]];
        ParseOneChar(t[4]);
      }
    }
  }

  /**
   * Only '#' is stripped: another marker character stays in the slice [0:2]
   * and the call raises, so "$0b1220" is refused.
   */
  lemma OtherMarkerRejected()
    ensures HexToRgb("$0b1220") == None
  {
    assert LStripHash("$0b1220") == "$0b1220";
    HexToRgbBadCharacter("$0b1220", 0);
  }

  lemma {:induction false} LStripHashPrefix(n: nat, s: string)
    ensures LStripHash(Hashes(n) + s) == LStripHash(s)
  {
    var h := Hashes(n) + s;
    if n > 0 {
      assert h[0] == '#';
      assert h[1..] == Hashes(n - 1) + s;
      LStripHashPrefix(n - 1, s);
    } else {
      assert h == s;
    }
  }

  lemma {:induction false} LStripHashAppend(s: string, tail: string)
    requires LStripHash(s) != []
    ensures LStripHash(s + tail) == LStripHash(s) + tail
  {
    if s[0] == '#' {
      assert (s + tail)[1..] == s[1..] + tail;
      LStripHashAppend(s[1..], tail);
    }
  }

  /** Any number of leading '#' characters may precede a token. */
  lemma HexToRgbIgnoresHashes(n: nat, token: string)
    ensures HexToRgb(Hashes(n) + token) == HexToRgb(token)
  {
    LStripHashPrefix(n, token);
  }

  /** Once six characters follow the '#'s, whatever comes after them is ignored. */
  lemma {:induction false} HexToRgbIgnoresTail(token: string, tail: string)
    requires |LStripHash(token)| >= 6
    ensures HexToRgb(token + tail) == HexToRgb(token)
  {
    var t := LStripHash(token);
    LStripHashAppend(token, tail);
    SliceWithin(t, 0, 2);
    SliceWithin(t, 2, 4);
    SliceWithin(t, 4, 6);
    SliceWithin(t + tail, 0, 2);
    SliceWithin(t + tail, 2, 4);
    SliceWithin(t + tail, 4, 6);
    assert (t + tail)[0..2] == t[0..2];
    assert (t + tail)[2..4] == t[2..4];
    assert (t + tail)[4..6] == t[4..6];
  }

  // ---------------------------------------------------------------------------
  // The inverse: writing a colour as a six-digit token.

  function HexChar(d: nat): (c: char)
    requires d < 16
    ensures IsHexDigit(c) && HexDigitValue(c) == d
  {
    if d < 10 then ('0' as int + d) as char else ('a' as int + d - 10) as char
  }

  /** The lower-case "rrggbb" token of a colour, as the theme defaults are written. */
  function FormatHex(c: Rgb): (s: string)
    ensures |s| == 6 && forall i :: 0 <= i < 6 ==> IsHexDigit(s[i])
  {
    [HexChar(c.r / 16), HexChar(c.r % 16), HexChar(c.g / 16), HexChar(c.g % 16),
     HexChar(c.b / 16), HexChar(c.b % 16)]
  }

  /** Every colour survives being written as a token, with or without leading '#'s, and read back. */
  lemma {:induction false} HexToRgbFormat(c: Rgb, n: nat)
    ensures HexToRgb(Hashes(n) + FormatHex(c)) == Some(c)
  {
    HexToRgbIgnoresHashes(n, FormatHex(c));
    FormatHexReadsBack(c);
  }

  lemma HexCharsValue(x: Channel)
    ensures 16 * HexDigitValue(HexChar(x / 16)) + HexDigitValue(HexChar(x % 16)) == x
  {
  }

  lemma FormatHexReadsBack(c: Rgb)
    ensures HexToRgb(FormatHex(c)) == Some(c)
  {
    var s := FormatHex(c);
    assert s[0] != '#';
    assert LStripHash(s) == s;
    HexToRgbSixDigits(s);
    assert s[0] == HexChar(c.r / 16) && s[1] == HexChar(c.r % 16);
    assert s[2] == HexChar(c.g / 16) && s[3] == HexChar(c.g % 16);
    assert s[4] == HexChar(c.b / 16) && s[5] == HexChar(c.b % 16);
    HexCharsValue(c.r);
    HexCharsValue(c.g);
    HexCharsValue(c.b);
  }
}
