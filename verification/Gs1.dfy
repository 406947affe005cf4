/**
 GS1 identifiers: the check digit of section 7.9 of the GS1 General Specifications, GLNs,
 SSCCs and the two forms of lot code.
 */
module Gs1 {

  type Digit = d: int | 0 <= d <= 9

  /** The weight of the digit that has `right` digits to its right, in a number that already
      ends with its check digit: 1, 3, 1, 3, ... from the right. */
  function Weight(right: nat): int {
    if right % 2 == 0 then 1 else 3
  }

  /** The weighted sum of the last `n` digits. */
  function SumLast(s: seq<Digit>, n: nat): int
    requires n <= |s|
  {
    if n == 0 then 0 else SumLast(s, n - 1) + s[|s| - n] * Weight(n - 1)
  }

  /** A number with its check digit at the end is valid when this is a multiple of ten. */
  predicate Checks(s: seq<Digit>) {
    SumLast(s, |s|) % 10 == 0
  }

  /** The sum the check digit is computed from: the last `n` digits before it, weights 3, 1, 3, ... */
  function BodySum(body: seq<Digit>, n: nat): int
    requires n <= |body|
  {
    if n == 0 then 0 else BodySum(body, n - 1) + body[|body| - n] * Weight(n)
  }

  function CheckDigit(body: seq<Digit>): Digit {
    (10 - BodySum(body, |body|) % 10) % 10
  }

  /** `_gs1_check_digit`: positions counted from 1, from the right. */
  method EngineCheckDigit(digits: seq<Digit>) returns (check: Digit)
    ensures check == CheckDigit(digits)
  {
    var total: int := 0;
    for index := 1 to |digits| + 1
      invariant total == BodySum(digits, index - 1)
    {
      var weight: int := if index % 2 != 0 then 3 else 1;
      total := total + weight * digits[|digits| - index];
    }
    check := (10 - total % 10) % 10;
  }

  /** The check digit inside `_gln`: positions counted from 0, and the weights the other way round. */
  method GlnCheckDigit(body: seq<Digit>) returns (check: Digit)
    ensures check == CheckDigit(body)
  {
    var total: int := 0;
    for index := 0 to |body|
      invariant total == BodySum(body, index)
    {
      var weight: int := if index % 2 != 0 then 1 else 3;
      total := total + weight * body[|body| - 1 - index];
    }
    check := (10 - total % 10) % 10;
  }

  // ------------------------------------------------------------ what it catches

  lemma {:induction false} BodyIsTail(body: seq<Digit>, c: Digit, n: nat)
    requires n <= |body|
    ensures SumLast(body + [c], n + 1) == BodySum(body, n) + c
  {
    if n > 0 {
      BodyIsTail(body, c, n - 1);
    } else {
      assert SumLast(body + [c], 1) == SumLast(body + [c], 0) + c * Weight(0);
    }
  }

  /** The check digit is the one digit that makes the number valid. */
  lemma CheckDigitIsTheOne(body: seq<Digit>, c: Digit)
    ensures Checks(body + [c]) <==> c == CheckDigit(body)
  {
    BodyIsTail(body, c, |body|);
  }

  lemma {:induction false} SumChanges(s: seq<Digit>, i: nat, d: Digit, n: nat)
    requires i < |s| && n <= |s|
    ensures SumLast(s[i := d], n)
      == SumLast(s, n) + if |s| - n <= i then (d - s[i]) * Weight(|s| - 1 - i) else 0
  {
    if n == 0 {
    } else {
      SumChanges(s, i, d, n - 1);
    }
  }

  /** Any single wrong digit is caught. */
  lemma SingleErrorIsCaught(s: seq<Digit>, i: nat, d: Digit)
    requires Checks(s) && i < |s| && d != s[i]
    ensures !Checks(s[i := d])
  {
    SumChanges(s, i, d, |s|);
  }

  lemma SwapChange(sum: int, a: Digit, b: Digit, right: nat)
    requires sum % 10 == 0 && right >= 1
    ensures (sum + (b as int - a as int) * Weight(right) + (a as int - b as int) * Weight(right - 1)) % 10 == 0
      <==> a == b || a as int - b as int == 5 || b as int - a as int == 5
  {
    var d := a as int - b as int;
    assert (b as int - a as int) * Weight(right) + (a as int - b as int) * Weight(right - 1)
      == if right % 2 == 0 then 2 * d else -2 * d;
  }

  /** Two neighbours swapped go unnoticed exactly when they are equal or differ by five. */
  lemma SwapIsCaughtIff(s: seq<Digit>, i: nat)
    requires Checks(s) && i + 1 < |s|
    ensures Checks(s[i := s[i + 1]][i + 1 := s[i]])
      <==> s[i] == s[i + 1] || s[i] as int - s[i + 1] as int == 5 || s[i + 1] as int - s[i] as int == 5
  {
    hide Weight, SumLast;
    var t := s[i := s[i + 1]];
    SumChanges(s, i, s[i + 1], |s|);
    SumChanges(t, i + 1, s[i], |s|);
    SwapChange(SumLast(s, |s|), s[i], s[i + 1], |s| - 1 - i);
  }

  // ------------------------------------------------------------------ decimals

  /** The last `width` decimal digits of a number. */
  function LastDigits(n: nat, width: nat): (s: seq<Digit>)
    ensures |s| == width
  {
    if width == 0 then [] else LastDigits(n / 10, width - 1) + [n % 10]
  }

  function Power10(k: nat): (p: nat)
    ensures p >= 1
  {
    if k == 0 then 1 else 10 * Power10(k - 1)
  }

  function Value(s: seq<Digit>): nat {
    if s == [] then 0 else 10 * Value(s[..|s| - 1]) + s[|s| - 1]
  }

  lemma {:induction false} LastDigitsValue(n: nat, width: nat)
    requires n < Power10(width)
    ensures Value(LastDigits(n, width)) == n
  {
    if width == 0 {
    } else {
      LastDigitsValue(n / 10, width - 1);
      assert LastDigits(n, width)[..width - 1] == LastDigits(n / 10, width - 1);
    }
  }

  /** How many digits a number is written with, at least `least`: Python's `:0Nd`. */
  function Width(n: nat, least: nat): (w: nat)
    ensures w >= least && n < Power10(w)
    decreases if n < Power10(least) then 0 else n + 1 - Power10(least)
  {
    if n < Power10(least) then least else Width(n, least + 1)
  }

  function Padded(n: nat, least: nat): (s: seq<Digit>)
    ensures |s| >= least
  {
    LastDigits(n, Width(n, least))
  }

  /** Different numbers are written differently. */
  lemma PaddedIsInjective(m: nat, n: nat, least: nat)
    requires Padded(m, least) == Padded(n, least)
    ensures m == n
  {
    LastDigitsValue(m, Width(m, least));
    LastDigitsValue(n, Width(n, least));
  }

  // ------------------------------------------------------------------ SSCC

  const COMPANY_PREFIX: seq<Digit> := [8, 5, 0, 0, 0, 0, 0]

  /** Extension digit, company prefix, day of the year and wrapped serial, then the check digit. */
  function SsccBase(day: nat, serial: nat): (s: seq<Digit>) {
    [0] + COMPANY_PREFIX + LastDigits(day, 3) + LastDigits(serial % 1000000, 6)
  }

  method MakeSscc(day: nat, serial: nat) returns (s: seq<Digit>)
    requires 1 <= day <= 366
    ensures |s| == 18 && Checks(s) && s[..17] == SsccBase(day, serial)
  {
    var base := SsccBase(day, serial);
    var check := EngineCheckDigit(base);
    s := base + [check];
    CheckDigitIsTheOne(base, check);
  }

  lemma SmallPowers()
    ensures Power10(6) == 1000000
  {
    assert Power10(3) == 1000;
  }

  lemma WrappedApart(m: nat, n: nat)
    requires m != n && -1000000 < m - n < 1000000
    ensures m % 1000000 != n % 1000000
  {
    var q, r := m / 1000000, n / 1000000;
    assert m == 1000000 * q + m % 1000000 && n == 1000000 * r + n % 1000000;
  }

  /** Whatever the days, serials less than a million apart give different SSCCs; one million
      apart on one day they collide. */
  lemma SsccsDiffer(day: nat, serial: nat, day': nat, serial': nat)
    ensures serial != serial' && -1000000 < serial - serial' < 1000000 ==> SsccBase(day, serial) != SsccBase(day', serial')
    ensures SsccBase(day, serial) == SsccBase(day, serial + 1000000)
  {
    var x, y := LastDigits(serial % 1000000, 6), LastDigits(serial' % 1000000, 6);
    assert SsccBase(day, serial)[11..] == x && SsccBase(day', serial')[11..] == y;
    SmallPowers();
    LastDigitsValue(serial % 1000000, 6);
    LastDigitsValue(serial' % 1000000, 6);
    if serial != serial' && -1000000 < serial - serial' < 1000000 {
      WrappedApart(serial, serial');
    }
    assert (serial + 1000000) % 1000000 == serial % 1000000;
  }

  // ------------------------------------------------------------------ lot codes

  function Chars(s: seq<Digit>): (r: string)
    ensures |r| == |s|
    ensures forall i :: 0 <= i < |s| ==> r[i] == ((48 + s[i] as int) as char)
  {
    seq(|s|, i requires 0 <= i < |s| => (48 + s[i] as int) as char)
  }

  lemma CharsInjective(s: seq<Digit>, t: seq<Digit>)
    requires Chars(s) == Chars(t)
    ensures s == t
  {
    assert |s| == |t|;
    forall i | 0 <= i < |s| ensures s[i] == t[i] {
      assert Chars(s)[i] == Chars(t)[i];
    }
  }

  /** `TLC-<date>-<serial>`, the date always eight characters. */
  function PlainCode(date: string, serial: nat): string {
    "TLC-" + date + "-" + Chars(Padded(serial, 6))
  }

  /** An SGTIN: item reference of five digits, then six characters of date and the serial. */
  function SgtinCode(date: string, serial: nat): string {
    "urn:epc:id:sgtin:8500000." + Chars(LastDigits(10000 + serial % 89999, 5)) + "." + (date + Chars(Padded(serial, 6)))
  }

  lemma SameTail(x: string, y: string, u: string, v: string)
    requires |x| == |y| && x + u == y + v
    ensures u == v
  {
    assert (x + u)[|x|..] == u && (y + v)[|y|..] == v;
  }

  /** Two lots with different serials never share a code, on whatever days they were made. */
  lemma PlainCodesDiffer(d: string, m: nat, e: string, n: nat)
    requires |d| == |e| == 8 && PlainCode(d, m) == PlainCode(e, n)
    ensures m == n
  {
    SameTail("TLC-" + d + "-", "TLC-" + e + "-", Chars(Padded(m, 6)), Chars(Padded(n, 6)));
    CharsInjective(Padded(m, 6), Padded(n, 6));
    PaddedIsInjective(m, n, 6);
  }

  lemma SgtinCodesDiffer(d: string, m: nat, e: string, n: nat)
    requires |d| == |e| == 6 && SgtinCode(d, m) == SgtinCode(e, n)
    ensures m == n
  {
    var head := "urn:epc:id:sgtin:8500000.";
    var x, y := Chars(LastDigits(10000 + m % 89999, 5)), Chars(LastDigits(10000 + n % 89999, 5));
    SameTail(head + x + ".", head + y + ".", d + Chars(Padded(m, 6)), e + Chars(Padded(n, 6)));
    SameTail(d, e, Chars(Padded(m, 6)), Chars(Padded(n, 6)));
    CharsInjective(Padded(m, 6), Padded(n, 6));
    PaddedIsInjective(m, n, 6);
  }
}
