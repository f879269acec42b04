/**
 * `ChatApp.formatTimestamp` and `ChatApp.isSameDay` (app/lib/include/builder/firebaseService.js):
 * a date mask where each of the letters d, m, Y, y, H, i, s is replaced, in one left to
 * right pass, by a field of the date, and the day comparison used to separate messages.
 *
 * Turning the timestamp into local date fields (`new Date(timestamp)` and its getters) is
 * not modelled: the fields are the input.
 */
module Timestamp {
  import opened Strings

  /** The fields the getters return; `month` is 0-based like `getMonth()`. */
  datatype DateParts = DateParts(year: int, month: nat, day: nat, hours: nat, minutes: nat, seconds: nat)

  /** The mask letters that are replaced. */
  predicate IsSpecial(c: char) {
    c == 'd' || c == 'm' || c == 'Y' || c == 'y' || c == 'H' || c == 'i' || c == 's'
  }

  /** `n.toString().padStart(2, '0')`. */
  function Pad2(n: nat): (r: string)
    ensures |r| >= 2 && forall i :: 0 <= i < |r| ==> IsDigit(r[i])
    ensures n < 100 ==> |r| == 2
  {
    if n < 10 then "0" + NatToString(n) else NatToString(n)
  }

  /** A leading zero does not change the number a run of digits denotes. */
  lemma {:induction false} ParseLeadingZero(s: string)
    requires forall i :: 0 <= i < |s| ==> IsDigit(s[i])
    ensures ParseDigits("0" + s) == ParseDigits(s)
    decreases |s|
  {
    var z := "0" + s;
    if |s| > 0 {
      ParseLeadingZero(s[..|s| - 1]);
      assert z[..|z| - 1] == "0" + s[..|s| - 1];
      assert z[|z| - 1] == s[|s| - 1];
    }
  }

  /** The padded text reads back as the number: padding loses nothing. */
  lemma Pad2RoundTrip(n: nat)
    ensures ParseDigits(Pad2(n)) == n
  {
    ParseNatToString(n);
    if n < 10 {
      ParseLeadingZero(NatToString(n));
    }
  }

  /** Different numbers are padded to different texts. */
  lemma Pad2Injective(a: nat, b: nat)
    requires Pad2(a) == Pad2(b)
    ensures a == b
  {
    Pad2RoundTrip(a);
    Pad2RoundTrip(b);
  }

  /** `s.slice(-2)`: the last two characters, or all of a shorter string. */
  function LastTwo(s: string): (r: string)
    ensures |s| >= 2 ==> |r| == 2 && r == s[|s| - 2..]
    ensures |s| < 2 ==> r == s
  {
    if |s| >= 2 then s[|s| - 2..] else s
  }

  /**
   * The text a special letter becomes. `replacements[match] || match` keeps the letter
   * when the replacement is falsy, which only the number `getFullYear()` can be: year 0
   * leaves a 'Y' in the output.
   */
  function Replacement(c: char, d: DateParts): (r: string)
    requires IsSpecial(c)
    ensures |r| > 0
  {
    match c
    case 'd' => Pad2(d.day)
    case 'm' => Pad2(d.month + 1)
    case 'Y' => if d.year == 0 then "Y" else IntToString(d.year)
    case 'y' => LastTwo(IntToString(d.year))
    case 'H' => Pad2(d.hours)
    case 'i' => Pad2(d.minutes)
    case 's' => Pad2(d.seconds)
  }

  /** What one mask character becomes. */
  function Substitute(c: char, d: DateParts): (r: string)
    ensures !IsSpecial(c) ==> r == [c]
    ensures IsSpecial(c) ==> r == Replacement(c, d)
  {
    if IsSpecial(c) then Replacement(c, d) else [c]
  }

  /** `mask.replace(/[dmYyHis]/g, ...)`. */
  function Format(mask: string, d: DateParts): string {
    if |mask| == 0 then "" else Substitute(mask[0], d) + Format(mask[1..], d)
  }

  /** The mask `formatTimestamp` uses when it is given none. */
  const DefaultMask := "d/m/Y H:i:s"

  /**
   * A single pass: the text of a mask is the texts of its parts side by side, so an
   * inserted number is never scanned again and no letter is replaced twice.
   */
  lemma {:induction false} FormatAppend(a: string, b: string, d: DateParts)
    ensures Format(a + b, d) == Format(a, d) + Format(b, d)
    decreases |a|
  {
    if |a| == 0 {
      assert a + b == b;
    } else {
      assert (a + b)[0] == a[0];
      assert (a + b)[1..] == a[1..] + b;
      FormatAppend(a[1..], b, d);
    }
  }

  /** A mask without special letters is copied unchanged. */
  lemma {:induction false} FormatPlain(mask: string, d: DateParts)
    requires forall i :: 0 <= i < |mask| ==> !IsSpecial(mask[i])
    ensures Format(mask, d) == mask
    decreases |mask|
  {
    if |mask| > 0 {
      FormatPlain(mask[1..], d);
      assert mask == [mask[0]] + mask[1..];
    }
  }

  /** Every character of the mask becomes its own substitution, in order. */
  lemma {:induction false} FormatCharacters(mask: string, d: DateParts, k: nat)
    requires k <= |mask|
    ensures Format(mask, d) == Format(mask[..k], d) + Format(mask[k..], d)
  {
    FormatAppend(mask[..k], mask[k..], d);
    assert mask[..k] + mask[k..] == mask;
  }

  /** One step of the pass: the first character's substitution, then the rest. */
  lemma FormatCons(c: char, rest: string, d: DateParts)
    ensures Format([c] + rest, d) == Substitute(c, d) + Format(rest, d)
  {
    assert ([c] + rest)[0] == c;
    assert ([c] + rest)[1..] == rest;
  }

  /** A one-letter mask is that letter's substitution. */
  lemma FormatSingle(c: char, d: DateParts)
    ensures Format([c], d) == Substitute(c, d)
  {
    assert [c][1..] == [];
    assert Substitute(c, d) + [] == Substitute(c, d);
  }

  /** The text of the year field. */
  function YearField(year: int): string {
    if year == 0 then "Y" else IntToString(year)
  }

  /** The time half of the default mask gives `HH:ii:ss`. */
  lemma DefaultTime(d: DateParts)
    ensures Format("H:i:s", d) == Pad2(d.hours) + ([':'] + (Pad2(d.minutes) + ([':'] + Pad2(d.seconds))))
  {
    assert "H:i:s" == ['H'] + (":i:s");
    assert ":i:s" == [':'] + "i:s";
    assert "i:s" == ['i'] + ":s";
    assert ":s" == [':'] + "s";
    assert "s" == ['s'] + "";
    FormatCons('s', "", d);
    FormatCons(':', "s", d);
    FormatCons('i', ":s", d);
    FormatCons(':', "i:s", d);
    FormatCons('H', ":i:s", d);
  }

  /** The date half of the default mask gives `dd/mm/YYYY`, the month counted from 1. */
  lemma DefaultDate(d: DateParts)
    ensures Format("d/m/Y", d) == Pad2(d.day) + (['/'] + (Pad2(d.month + 1) + (['/'] + YearField(d.year))))
  {
    assert "d/m/Y" == ['d'] + "/m/Y";
    assert "/m/Y" == ['/'] + "m/Y";
    assert "m/Y" == ['m'] + "/Y";
    assert "/Y" == ['/'] + "Y";
    assert "Y" == ['Y'] + "";
    FormatCons('Y', "", d);
    FormatCons('/', "Y", d);
    FormatCons('m', "/Y", d);
    FormatCons('/', "m/Y", d);
    FormatCons('d', "/m/Y", d);
  }

  /** The default mask gives `dd/mm/YYYY HH:ii:ss`. */
  lemma DefaultFormat(d: DateParts)
    ensures Format(DefaultMask, d) == Format("d/m/Y", d) + [' '] + Format("H:i:s", d)
    ensures Format("d/m/Y", d) == Pad2(d.day) + (['/'] + (Pad2(d.month + 1) + (['/'] + YearField(d.year))))
    ensures Format("H:i:s", d) == Pad2(d.hours) + ([':'] + (Pad2(d.minutes) + ([':'] + Pad2(d.seconds))))
  {
    assert DefaultMask == "d/m/Y" + ([' '] + "H:i:s");
    FormatAppend("d/m/Y", [' '] + "H:i:s", d);
    FormatCons(' ', "H:i:s", d);
    DefaultDate(d);
    DefaultTime(d);
  }

  /** The decimal text of a number ends with its last digit. */
  lemma LastDigit(n: nat)
    ensures NatToString(n)[|NatToString(n)| - 1] == DigitChar(n % 10)
  {
  }

  /** The last two decimal digits of a number are those of the number modulo 100. */
  lemma LastTwoDigits(n: nat)
    ensures (n % 100) / 10 == (n / 10) % 10 && (n % 100) % 10 == n % 10
  {
    var h := n / 100;
    var m := n % 100;
    assert n == 100 * h + m;
    assert n / 10 == 10 * h + m / 10;
    assert n % 10 == m % 10;
  }

  /** The text of a two-digit number. */
  lemma TwoDigitText(m: nat)
    requires m < 100
    ensures Pad2(m) == [DigitChar(m / 10), DigitChar(m % 10)]
  {
    if m >= 10 {
      assert NatToString(m) == NatToString(m / 10) + [DigitChar(m % 10)];
    }
  }

  /** The last two characters of the text of a number with at least two digits. */
  lemma LastTwoOfText(n: nat)
    requires n >= 10
    ensures LastTwo(NatToString(n)) == [DigitChar((n / 10) % 10), DigitChar(n % 10)]
  {
    var t := NatToString(n / 10);
    var x := DigitChar(n % 10);
    var s := NatToString(n);
    assert s == t + [x];
    LastTwoOfAppend(t, x);
    LastDigit(n / 10);
  }

  /** The last two characters of a non-empty text with one more character appended. */
  lemma LastTwoOfAppend(t: string, x: char)
    requires |t| > 0
    ensures LastTwo(t + [x]) == [t[|t| - 1], x]
  {
    var s := t + [x];
    assert s[|s| - 2] == t[|t| - 1];
    assert s[|s| - 2..] == [s[|s| - 2], s[|s| - 1]];
  }

  /** For a year of at least two digits, 'y' is the year modulo 100, zero-padded. */
  lemma ShortYear(year: nat)
    requires year >= 10
    ensures LastTwo(IntToString(year)) == Pad2(year % 100)
  {
    assert IntToString(year) == NatToString(year);
    LastTwoOfText(year);
    LastTwoDigits(year);
    TwoDigitText(year % 100);
  }

  /** `isSameDay`: the same year, month and day of the month. */
  predicate IsSameDay(a: DateParts, b: DateParts) {
    a.year == b.year && a.month == b.month && a.day == b.day
  }

  /** `isSameDay` is an equivalence: reflexive, symmetric and transitive. */
  lemma SameDayEquivalence(a: DateParts, b: DateParts, c: DateParts)
    ensures IsSameDay(a, a)
    ensures IsSameDay(a, b) ==> IsSameDay(b, a)
    ensures IsSameDay(a, b) && IsSameDay(b, c) ==> IsSameDay(a, c)
  {
  }

  /** True when the mask shows no time of day. */
  predicate DateOnly(mask: string) {
    forall i :: 0 <= i < |mask| ==> mask[i] != 'H' && mask[i] != 'i' && mask[i] != 's'
  }

  /** Two moments of the same day print alike under any mask without time letters. */
  lemma {:induction false} SameDaySameText(mask: string, a: DateParts, b: DateParts)
    requires IsSameDay(a, b) && DateOnly(mask)
    ensures Format(mask, a) == Format(mask, b)
    decreases |mask|
  {
    if |mask| > 0 {
      SameDaySameText(mask[1..], a, b);
      assert mask[0] != 'H' && mask[0] != 'i' && mask[0] != 's';
    }
  }

  /** Different days of the month print differently under 'd'; different months under 'm'. */
  lemma DayAndMonthDistinguish(a: DateParts, b: DateParts)
    ensures Format("d", a) == Format("d", b) ==> a.day == b.day
    ensures Format("m", a) == Format("m", b) ==> a.month == b.month
  {
    FormatSingle('d', a);
    FormatSingle('d', b);
    FormatSingle('m', a);
    FormatSingle('m', b);
    assert Substitute('d', a) == Pad2(a.day) && Substitute('d', b) == Pad2(b.day);
    assert Substitute('m', a) == Pad2(a.month + 1) && Substitute('m', b) == Pad2(b.month + 1);
    if Pad2(a.day) == Pad2(b.day) {
      Pad2Injective(a.day, b.day);
    }
    if Pad2(a.month + 1) == Pad2(b.month + 1) {
      Pad2Injective(a.month + 1, b.month + 1);
    }
  }
}
