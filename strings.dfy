/**
 * String helpers used by the formatting code of the model: decimal rendering of
 * integers as Go's `%d` verb prints them, parsing them back, substring search as
 * `strings.Contains` performs it, and lower-case hexadecimal as `encoding/hex` writes it.
 */
module Strings {
  import opened Wrappers

  predicate IsDigit(c: char) { '0' <= c <= '9' }

  predicate AllDigits(s: string) { forall i :: 0 <= i < |s| ==> IsDigit(s[i]) }

  function DigitChar(d: nat): (c: char)
    requires d < 10
    ensures IsDigit(c) && c as int - '0' as int == d
  {
    ('0' as int + d) as char
  }

  function DigitValue(c: char): (d: nat)
    requires IsDigit(c)
    ensures d < 10 && DigitChar(d) == c
  {
    c as int - '0' as int
  }

  /** Decimal digits of `n`, most significant first, without leading zeros. */
  function NatToString(n: nat): (s: string)
    ensures |s| >= 1 && AllDigits(s)
    ensures |s| > 1 ==> s[0] != '0'
  {
    if n < 10 then [DigitChar(n)] else NatToString(n / 10) + [DigitChar(n % 10)]
  }

  /** Go's `%d`: a minus sign for negative numbers, then the decimal digits. */
  function IntToString(i: int): (s: string)
    ensures |s| >= 1
    ensures forall k :: 0 <= k < |s| ==> s[k] != ':' && s[k] != ' ' && s[k] != '='
  {
    if i < 0 then "-" + NatToString(-i) else NatToString(i)
  }

  /** The value of a non-empty run of decimal digits. */
  function ParseNat(s: string): nat
    requires |s| >= 1 && AllDigits(s)
  {
    if |s| == 1 then DigitValue(s[0]) else ParseNat(s[..|s| - 1]) * 10 + DigitValue(s[|s| - 1])
  }

  /** Reads back what IntToString writes; None for anything else. */
  function ParseInt(s: string): Option<int>
  {
    if |s| >= 2 && s[0] == '-' && AllDigits(s[1..]) then
      var n: int := ParseNat(s[1..]);
      Some(-n)
    else if |s| >= 1 && AllDigits(s) then Some(ParseNat(s))
    else None
  }

  lemma {:induction false} ParseNatToString(n: nat)
    ensures ParseNat(NatToString(n)) == n
  {
    if n >= 10 {
      var s := NatToString(n);
      assert s[..|s| - 1] == NatToString(n / 10);
      ParseNatToString(n / 10);
    }
  }

  /** Decimal rendering is invertible: `%d` loses nothing. */
  lemma IntToStringRoundTrip(i: int)
    ensures ParseInt(IntToString(i)) == Some(i)
  {
    if i < 0 {
      var s := IntToString(i);
      assert s[1..] == NatToString(-i);
      ParseNatToString(-i);
    } else {
      ParseNatToString(i);
    }
  }

  /** `strings.Split` on a one-character separator: always at least one part. */
  function Split(s: string, sep: char): (parts: seq<string>)
    ensures |parts| >= 1
  {
    if |s| == 0 then [""]
    else
      var rest := Split(s[1..], sep);
      if s[0] == sep then [""] + rest else [[s[0]] + rest[0]] + rest[1..]
  }

  /** `strings.Join` on a one-character separator. */
  function Join(parts: seq<string>, sep: char): string
    requires |parts| >= 1
  {
    if |parts| == 1 then parts[0] else parts[0] + [sep] + Join(parts[1..], sep)
  }

  lemma {:induction false} JoinAppend(parts: seq<string>, p: string, sep: char)
    requires |parts| >= 1
    ensures Join(parts + [p], sep) == Join(parts, sep) + [sep] + p
  {
    if |parts| > 1 {
      assert (parts + [p])[1..] == parts[1..] + [p];
      JoinAppend(parts[1..], p, sep);
    }
  }

  lemma {:induction false} SplitPrefix(w: string, t: string, sep: char)
    requires sep !in w
    ensures Split(w + t, sep) == [w + Split(t, sep)[0]] + Split(t, sep)[1..]
  {
    if |w| == 0 {
      var parts := Split(t, sep);
      assert w + t == t && w + parts[0] == parts[0];
      assert [parts[0]] + parts[1..] == parts;
    } else {
      assert (w + t)[1..] == w[1..] + t;
      SplitPrefix(w[1..], t, sep);
      assert [w[0]] + (w[1..] + Split(t, sep)[0]) == w + Split(t, sep)[0];
    }
  }

  /** Splitting undoes joining when no part contains the separator. */
  lemma {:induction false} SplitJoin(parts: seq<string>, sep: char)
    requires |parts| >= 1
    requires forall i :: 0 <= i < |parts| ==> sep !in parts[i]
    ensures Split(Join(parts, sep), sep) == parts
  {
    if |parts| == 1 {
      SplitPrefix(parts[0], "", sep);
      assert parts[0] + "" == parts[0];
    } else {
      var rest := Join(parts[1..], sep);
      SplitJoin(parts[1..], sep);
      assert parts[0] + [sep] + rest == parts[0] + ([sep] + rest);
      SplitPrefix(parts[0], [sep] + rest, sep);
      assert ([sep] + rest)[1..] == rest;
      assert Split([sep] + rest, sep) == [""] + parts[1..];
      assert parts[0] + "" == parts[0];
      assert [parts[0]] + parts[1..] == parts;
    }
  }

  /** `strings.Cut`: the text before and after the first `sep`, and whether there was one. */
  function Cut(s: string, sep: char): (r: (string, string, bool))
  {
    if |s| == 0 then ("", "", false)
    else if s[0] == sep then ("", s[1..], true)
    else
      var (before, after, found) := Cut(s[1..], sep);
      ([s[0]] + before, after, found)
  }

  lemma {:induction false} CutJoined(k: string, v: string, sep: char)
    requires sep !in k
    ensures Cut(k + [sep] + v, sep) == (k, v, true)
  {
    if |k| == 0 {
      assert k + [sep] + v == [sep] + v;
    } else {
      assert (k + [sep] + v)[0] == k[0] && (k + [sep] + v)[1..] == k[1..] + [sep] + v;
      CutJoined(k[1..], v, sep);
      assert [k[0]] + k[1..] == k;
    }
  }

  predicate HasPrefix(s: string, p: string) { |p| <= |s| && s[..|p|] == p }

  /** `sub` occurs in `s` starting at index `i`. */
  predicate OccursAt(s: string, sub: string, i: int)
  {
    0 <= i && i + |sub| <= |s| && s[i..i + |sub|] == sub
  }

  /** `strings.Contains(s, sub)`. */
  function Contains(s: string, sub: string): (b: bool)
    ensures b <==> exists i :: OccursAt(s, sub, i)
  {
    if HasPrefix(s, sub) then
      assert OccursAt(s, sub, 0);
      true
    else if |s| == 0 then false
    else
      var r := Contains(s[1..], sub);
      assert forall i :: OccursAt(s, sub, i + 1) <==> OccursAt(s[1..], sub, i) by {
        forall i ensures OccursAt(s, sub, i + 1) <==> OccursAt(s[1..], sub, i) {
          if 0 <= i && i + |sub| <= |s| - 1 {
            var t := s[1..];
            assert forall j :: i + 1 <= j < i + 1 + |sub| ==> s[j] == t[j - 1];
            assert s[i + 1..i + 1 + |sub|] == t[i..i + |sub|];
          }
        }
      }
      if !r then
        assert forall i :: !OccursAt(s, sub, i) by {
          forall i ensures !OccursAt(s, sub, i) {
            if i >= 1 { assert !OccursAt(s[1..], sub, i - 1); }
          }
        }
        false
      else
        true
  }

  /** Index of the last occurrence of `c` in `s`, if any. */
  function LastIndexOf(s: string, c: char): (r: Option<nat>)
    ensures r.None? <==> forall i :: 0 <= i < |s| ==> s[i] != c
    ensures r.Some? ==> r.value < |s| && s[r.value] == c && forall i :: r.value < i < |s| ==> s[i] != c
  {
    if |s| == 0 then None
    else if s[|s| - 1] == c then Some(|s| - 1)
    else LastIndexOf(s[..|s| - 1], c)
  }

  /** Go's `byte`. */
  newtype uint8 = x: int | 0 <= x < 256

  function HexDigit(d: nat): (c: char)
    requires d < 16
  {
    "0123456789abcdef"[d]
  }

  function HexValue(c: char): Option<nat>
  {
    if '0' <= c <= '9' then Some(c as int - '0' as int)
    else if 'a' <= c <= 'f' then Some(c as int - 'a' as int + 10)
    else None
  }

  lemma HexDigitValue(d: nat)
    requires d < 16
    ensures HexValue(HexDigit(d)) == Some(d)
  {
    var digits := "0123456789abcdef";
    assert digits[d] == HexDigit(d);
  }

  /** Lower-case hexadecimal, two characters per byte, as `hex.EncodeToString` writes it. */
  function HexEncode(b: seq<uint8>): (s: string)
    ensures |s| == 2 * |b|
  {
    if |b| == 0 then []
    else [HexDigit(b[0] as nat / 16), HexDigit(b[0] as nat % 16)] + HexEncode(b[1..])
  }

  function HexDecode(s: string): Option<seq<uint8>>
    decreases |s|
  {
    if |s| == 0 then Some([])
    else if |s| == 1 then None
    else match (HexValue(s[0]), HexValue(s[1]), HexDecode(s[2..]))
      case (Some(hi), Some(lo), Some(rest)) =>
        if hi < 16 && lo < 16 then Some([(hi * 16 + lo) as uint8] + rest) else None
      case _ => None
  }

  /** The hexadecimal form of an identifier determines the identifier. */
  lemma {:induction false} HexRoundTrip(b: seq<uint8>)
    ensures HexDecode(HexEncode(b)) == Some(b)
  {
    if |b| > 0 {
      var hi, lo := b[0] as nat / 16, b[0] as nat % 16;
      HexDigitValue(hi);
      HexDigitValue(lo);
      var s := HexEncode(b);
      assert s[2..] == HexEncode(b[1..]);
      HexRoundTrip(b[1..]);
      assert [b[0]] + b[1..] == b;
    }
  }
}
