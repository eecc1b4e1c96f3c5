/** Decimal text as the JavaScript runtime produces and reads it: `String(n)`
    for an integer, `parseInt` with the default radix on decimal text, and
    `padStart`. The view code builds every clock, date and axis label from
    these three. */
module Text {

  datatype Option<+T> = None | Some(value: T)

  predicate IsDigit(c: char) {
    '0' <= c <= '9'
  }

  function DigitChar(d: nat): (c: char)
    requires d < 10
    ensures IsDigit(c) && c as int - '0' as int == d
  {
    ('0' as int + d) as char
  }

  function DigitValue(c: char): (d: nat)
    requires IsDigit(c)
    ensures d < 10 && DigitChar(d) == c
  {
    c as int - '0' as int
  }

  predicate AllDigits(s: string) {
    forall i :: 0 <= i < |s| ==> IsDigit(s[i])
  }

  /** `String(n)` for a non-negative integer: its decimal digits, most
      significant first, with no leading zero. */
  function NatToString(n: nat): (s: string)
    ensures |s| >= 1 && AllDigits(s)
    ensures |s| == 1 <==> n < 10
    ensures n >= 10 ==> s[0] != '0'
  {
    if n < 10 then [DigitChar(n)] else NatToString(n / 10) + [DigitChar(n % 10)]
  }

  /** `String(n)` for any integer: a minus sign in front of a negative one. */
  function IntToString(n: int): (s: string)
    ensures |s| >= 1
    ensures n >= 0 ==> s == NatToString(n)
    ensures n < 0 ==> s == "-" + NatToString(-n)
  {
    if n >= 0 then NatToString(n) else "-" + NatToString(-n)
  }

  /** The value of a run of decimal digits, read left to right (it is only
      applied to digits; anything else would count as 0). */
  function DigitsValue(s: string): nat {
    if s == [] then 0
    else DigitsValue(s[..|s| - 1]) * 10 + (if IsDigit(s[|s| - 1]) then DigitValue(s[|s| - 1]) else 0)
  }

  /** Length of the longest run of digits at the front of `s`. */
  function LeadingDigits(s: string): (k: nat)
    ensures k <= |s|
  {
    if s == [] || !IsDigit(s[0]) then 0 else 1 + LeadingDigits(s[1..])
  }

  /** The white-space characters `parseInt` skips at the front of its
      argument (the Unicode space separators other than U+00A0 are left out). */
  predicate IsJsSpace(c: char) {
    c == ' ' || c == '\t' || c == '\n' || c == '\r' || c == '\U{000B}' || c == '\U{000C}'
    || c == '\U{00A0}' || c == '\U{FEFF}' || c == '\U{2028}' || c == '\U{2029}'
  }

  function TrimStart(s: string): string {
    if s != [] && IsJsSpace(s[0]) then TrimStart(s[1..]) else s
  }

  /** `parseInt(s)` with the default radix, on decimal text: leading white
      space is skipped, one sign is read, then the longest run of digits.
      `None` stands for `NaN` (no digit where one was expected). */
  function ParseInt(s: string): Option<int> {
    var t := TrimStart(s);
    var signed := t != [] && (t[0] == '-' || t[0] == '+');
    var u := if signed then t[1..] else t;
    var k := LeadingDigits(u);
    if k == 0 then None
    else if signed && t[0] == '-' then Some(-(DigitsValue(u[..k]) as int))
    else Some(DigitsValue(u[..k]))
  }

  function Repeat(c: char, n: nat): (s: string)
    ensures |s| == n
  {
    if n == 0 then [] else [c] + Repeat(c, n - 1)
  }

  lemma {:induction false} RepeatIsFill(c: char, n: nat)
    ensures forall i :: 0 <= i < n ==> Repeat(c, n)[i] == c
  {
    if n > 0 {
      RepeatIsFill(c, n - 1);
    }
  }

  /** `s.padStart(width, fill)` with a one-character fill. */
  function PadStart(s: string, width: nat, fill: char): (r: string)
    ensures |r| == if |s| >= width then |s| else width
  {
    if |s| >= width then s else Repeat(fill, width - |s|) + s
  }

  /** `padStart` ends with the text it pads and puts only the fill
      character in front of it. */
  lemma PadStartShape(s: string, width: nat, fill: char)
    ensures var r := PadStart(s, width, fill);
      r[|r| - |s|..] == s && forall i :: 0 <= i < |r| - |s| ==> r[i] == fill
  {
    var r := PadStart(s, width, fill);
    if |s| < width {
      RepeatIsFill(fill, width - |s|);
      assert r[|r| - |s|..] == s;
    }
  }

  // ---------------------------------------------------------------------
  // Round trips

  lemma {:induction false} DigitsValueOfNatToString(n: nat)
    ensures DigitsValue(NatToString(n)) == n
  {
    var s := NatToString(n);
    if n >= 10 {
      DigitsValueOfNatToString(n / 10);
      assert s[..|s| - 1] == NatToString(n / 10);
    }
  }

  /** A zero in front of a run of digits does not change its value. */
  lemma {:induction false} DigitsValueLeadingZero(s: string)
    requires AllDigits(s)
    ensures AllDigits("0" + s) && DigitsValue("0" + s) == DigitsValue(s)
  {
    var z := "0" + s;
    if s != [] {
      assert z[..|z| - 1] == "0" + s[..|s| - 1];
      DigitsValueLeadingZero(s[..|s| - 1]);
    }
  }

  lemma {:induction false} LeadingDigitsOfDigits(s: string)
    requires AllDigits(s)
    ensures LeadingDigits(s) == |s|
  {
    if s != [] {
      LeadingDigitsOfDigits(s[1..]);
    }
  }

  /** `parseInt` reads back any run of decimal digits as its value. */
  lemma ParseIntOfDigits(s: string)
    requires s != [] && AllDigits(s)
    ensures ParseInt(s) == Some(DigitsValue(s))
  {
    assert IsDigit(s[0]);
    assert TrimStart(s) == s;
    LeadingDigitsOfDigits(s);
    assert s[..|s|] == s;
  }

  /** `parseInt(String(n)) === n` for every integer n. */
  lemma ParseIntOfIntToString(n: int)
    ensures ParseInt(IntToString(n)) == Some(n)
  {
    if n >= 0 {
      DigitsValueOfNatToString(n);
      ParseIntOfDigits(NatToString(n));
    } else {
      var d := NatToString(-n);
      var s := "-" + d;
      DigitsValueOfNatToString(-n);
      LeadingDigitsOfDigits(d);
      assert TrimStart(s) == s;
      assert s[1..] == d && d[..|d|] == d;
    }
  }

  /** A number below 100, padded to two places with '0', is two digits that
      `parseInt` reads back as the number. */
  lemma ParseIntOfPadded(n: nat)
    requires n < 100
    ensures |PadStart(NatToString(n), 2, '0')| == 2
    ensures AllDigits(PadStart(NatToString(n), 2, '0'))
    ensures ParseInt(PadStart(NatToString(n), 2, '0')) == Some(n)
  {
    var d := NatToString(n);
    DigitsValueOfNatToString(n);
    if n < 10 {
      assert PadStart(d, 2, '0') == "0" + d;
      DigitsValueLeadingZero(d);
      ParseIntOfDigits("0" + d);
    } else {
      ParseIntOfDigits(d);
    }
  }

  /** Reads a clock text `HH:MM:SS` back as a number of seconds: three
      two-character fields that `parseInt` reads, separated by colons. */
  function ReadClock(t: string): Option<int> {
    if |t| != 8 || t[2] != ':' || t[5] != ':' then None
    else
      match (ParseInt(t[..2]), ParseInt(t[3..5]), ParseInt(t[6..]))
      case (Some(h), Some(m), Some(s)) => Some(h * 3600 + m * 60 + s)
      case _ => None
  }

  /** Three two-character fields joined by colons read back field by
      field. */
  lemma ReadClockOfFields(a: string, b: string, c: string, h: int, m: int, s: int)
    requires |a| == 2 && |b| == 2 && |c| == 2
    requires ParseInt(a) == Some(h) && ParseInt(b) == Some(m) && ParseInt(c) == Some(s)
    ensures ReadClock(a + ":" + b + ":" + c) == Some(h * 3600 + m * 60 + s)
  {
    ClockFields(a, b, c);
  }

  lemma ClockFields(a: string, b: string, c: string)
    requires |a| == 2 && |b| == 2 && |c| == 2
    ensures var t := a + ":" + b + ":" + c;
      |t| == 8 && t[2] == ':' && t[5] == ':' && t[..2] == a && t[3..5] == b && t[6..] == c
  {
    var t := a + ":" + b + ":" + c;
    assert t[..2] == a && t[3..5] == b && t[6..] == c;
  }
}
