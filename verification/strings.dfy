/**
 * The handful of string operations the modelled code relies on: PHP truthiness of a
 * string, `ltrim`/`rtrim` of one character, `implode`, `str_replace` of the pixel unit,
 * and decimal text of integers (PHP interpolation, JavaScript `toString`).
 */
module Strings {

  /** PHP truthiness of a string: only "" and "0" are false. */
  predicate Truthy(s: string) {
    s != "" && s != "0"
  }

  /** PHP `empty()` of a string value. */
  predicate Empty(s: string) {
    !Truthy(s)
  }

  /** `ltrim(s, c)`: drops every leading `c`. */
  function TrimLeft(s: string, c: char): (r: string)
    ensures |r| <= |s| && r == s[|s| - |r|..]
    ensures forall i :: 0 <= i < |s| - |r| ==> s[i] == c
    ensures |r| > 0 ==> r[0] != c
  {
    if |s| > 0 && s[0] == c then TrimLeft(s[1..], c) else s
  }

  /** `rtrim(s, c)`: drops every trailing `c`. */
  function TrimRight(s: string, c: char): (r: string)
    ensures |r| <= |s| && r == s[..|r|]
    ensures forall i :: |r| <= i < |s| ==> s[i] == c
    ensures |r| > 0 ==> r[|r| - 1] != c
  {
    if |s| > 0 && s[|s| - 1] == c then TrimRight(s[..|s| - 1], c) else s
  }

  /** `implode(sep, parts)`. */
  function Implode(parts: seq<string>, sep: string): string
  {
    if |parts| == 0 then ""
    else if |parts| == 1 then parts[0]
    else parts[0] + sep + Implode(parts[1..], sep)
  }

  /** True when `s` holds the two-character unit "px" somewhere. */
  predicate HasPx(s: string) {
    exists i :: 0 <= i < |s| - 1 && s[i] == 'p' && s[i + 1] == 'x'
  }

  /** `str_replace('px', '', s)`: removes every non-overlapping "px", scanning left to right. */
  function StripPx(s: string): (r: string)
    ensures |r| <= |s|
    ensures !HasPx(s) ==> r == s
  {
    if |s| < 2 then s
    else if s[0] == 'p' && s[1] == 'x' then StripPx(s[2..])
    else [s[0]] + StripPx(s[1..])
  }

  /** Removing the unit appended to a value without "px" in it gives the value back. */
  lemma {:induction false} StripPxOfSuffixed(h: string)
    requires !HasPx(h)
    ensures StripPx(h + "px") == h
    decreases |h|
  {
    if |h| == 0 {
      assert h + "px" == "px";
    } else {
      var s := h + "px";
      assert s[0] == h[0];
      if |h| == 1 {
        assert s[1] == 'p';
        assert s[1..] == "px";
      } else {
        assert s[1] == h[1];
        assert !(h[0] == 'p' && h[1] == 'x');
        assert !HasPx(h[1..]);
        assert s[1..] == h[1..] + "px";
        StripPxOfSuffixed(h[1..]);
        assert h == [h[0]] + h[1..];
      }
    }
  }

  function DigitChar(d: nat): char
    requires d < 10
  {
    "0123456789"[d]
  }

  predicate IsDigit(c: char) {
    '0' <= c <= '9'
  }

  function DigitValue(c: char): nat
    requires IsDigit(c)
  {
    (c as int - '0' as int) as nat
  }

  /** Decimal text of a natural number, without leading zeros. */
  function NatToString(n: nat): (r: string)
    ensures |r| > 0
    ensures forall i :: 0 <= i < |r| ==> IsDigit(r[i])
    ensures n < 10 <==> |r| == 1
    ensures 10 <= n < 100 ==> |r| == 2
    decreases n
  {
    if n < 10 then [DigitChar(n)] else NatToString(n / 10) + [DigitChar(n % 10)]
  }

  /** Decimal text of an integer, with a leading '-' when negative. */
  function IntToString(i: int): (r: string)
    ensures |r| > 0
    ensures i < 0 <==> r[0] == '-'
  {
    if i < 0 then "-" + NatToString(-i) else NatToString(i)
  }

  /** Reads a run of decimal digits back into the number it denotes. */
  function ParseDigits(s: string): nat
    requires forall i :: 0 <= i < |s| ==> IsDigit(s[i])
  {
    if |s| == 0 then 0 else 10 * ParseDigits(s[..|s| - 1]) + DigitValue(s[|s| - 1])
  }

  lemma {:induction false} ParseNatToString(n: nat)
    ensures ParseDigits(NatToString(n)) == n
    decreases n
  {
    var r := NatToString(n);
    if n < 10 {
      assert DigitValue(DigitChar(n)) == n;
    } else {
      ParseNatToString(n / 10);
      assert r[..|r| - 1] == NatToString(n / 10);
      assert DigitValue(DigitChar(n % 10)) == n % 10;
    }
  }

  /** Different numbers have different decimal texts. */
  lemma NatToStringInjective(a: nat, b: nat)
    requires NatToString(a) == NatToString(b)
    ensures a == b
  {
    ParseNatToString(a);
    ParseNatToString(b);
  }
}
