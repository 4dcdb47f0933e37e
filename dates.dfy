/**
 * Timestamps and their text form. Instants are milliseconds (dayjs values);
 * a stored date string is modelled by the decimal digits of its millisecond
 * count in place of ISO-8601. Text that is not a date parses to nothing, as
 * dayjs yields an invalid date, and every comparison with an invalid date is
 * false.
 */
module Dates {
  import opened Wrappers

  predicate IsDigit(c: char) {
    '0' <= c <= '9'
  }

  function DigitChar(d: nat): (c: char)
    requires d < 10
    ensures IsDigit(c) && c as int - '0' as int == d
  {
    ('0' as int + d) as char
  }

  /** The text form of an instant (serialising a dayjs value). */
  function FormatDate(t: nat): (s: string)
    ensures |s| > 0
    ensures forall i :: 0 <= i < |s| ==> IsDigit(s[i])
    decreases t
  {
    if t < 10 then [DigitChar(t)] else FormatDate(t / 10) + [DigitChar(t % 10)]
  }

  function DigitsValue(s: string): nat
    requires forall i :: 0 <= i < |s| ==> IsDigit(s[i])
    decreases |s|
  {
    if |s| == 0 then 0
    else
      assert IsDigit(s[|s| - 1]);
      DigitsValue(s[..|s| - 1]) * 10 + (s[|s| - 1] as int - '0' as int)
  }

  /** `dayjs(text)`: the instant a date string denotes, or `None` for an invalid date. */
  function ParseDate(s: string): (r: Option<nat>)
    ensures r.Some? <==> |s| > 0 && forall i :: 0 <= i < |s| ==> IsDigit(s[i])
  {
    if |s| > 0 && forall i :: 0 <= i < |s| ==> IsDigit(s[i]) then Some(DigitsValue(s)) else None
  }

  /** Reading back a written instant gives the same instant. */
  lemma {:induction false} ParseFormat(t: nat)
    ensures ParseDate(FormatDate(t)) == Some(t)
    decreases t
  {
    var s := FormatDate(t);
    if t >= 10 {
      ParseFormat(t / 10);
      var p := FormatDate(t / 10);
      assert s == p + [DigitChar(t % 10)];
      assert s[..|s| - 1] == p;
      assert DigitsValue(s) == DigitsValue(p) * 10 + t % 10;
    }
  }
}
