/** Months and calendar dates as the dashboard handles them. A month is a year and a
    month number 1-12; a date is what a JavaScript `Date` holds in its calendar fields.
    The timezone conversion that yields them from instants is outside the model. */
module Calendar {

  type MonthNumber = m: nat | 1 <= m <= 12 witness 1

  datatype YearMonth = YearMonth(year: nat, month: MonthNumber)

  /** Months counted from year 0, so that consecutive months differ by one. */
  function MonthIndex(ym: YearMonth): nat
  {
    ym.year * 12 + ym.month - 1
  }

  /** Equal indices mean equal months. */
  lemma IndexInjective(a: YearMonth, b: YearMonth)
    requires MonthIndex(a) == MonthIndex(b)
    ensures a == b
  {
  }

  function DigitChar(d: nat): (c: char)
    requires d < 10
  {
    "0123456789"[d]
  }

  /** `String(n)` for a natural number. */
  function Digits(n: nat): (s: string)
    ensures |s| >= 1
    ensures forall i :: 0 <= i < |s| ==> '0' <= s[i] <= '9'
  {
    if n < 10 then [DigitChar(n)] else Digits(n / 10) + [DigitChar(n % 10)]
  }

  /** `String(n).padStart(2, "0")` for a month number. */
  function Pad2(n: MonthNumber): (s: string)
    ensures s == [DigitChar(n / 10), DigitChar(n % 10)]
  {
    if n < 10 then "0" + Digits(n)
    else
      assert Digits(n / 10) == [DigitChar(n / 10)];
      Digits(n)
  }

  /** The `_id` of a month: "YYYY-MM". */
  function MonthId(ym: YearMonth): string
  {
    Digits(ym.year) + "-" + Pad2(ym.month)
  }

  /** The `name` of a month: "MM/YYYY". */
  function MonthName(ym: YearMonth): string
  {
    Pad2(ym.month) + "/" + Digits(ym.year)
  }

  lemma DigitCharInjective(x: nat, y: nat)
    requires x < 10 && y < 10 && DigitChar(x) == DigitChar(y)
    ensures x == y
  {
  }

  lemma {:induction false} DigitsInjective(a: nat, b: nat)
    requires Digits(a) == Digits(b)
    ensures a == b
  {
    if a < 10 && b < 10 {
      DigitCharInjective(a, b);
    } else if a >= 10 && b >= 10 {
      var da, db := Digits(a), Digits(b);
      assert da[..|da| - 1] == Digits(a / 10);
      assert db[..|db| - 1] == Digits(b / 10);
      DigitsInjective(a / 10, b / 10);
      assert da[|da| - 1] == DigitChar(a % 10) && db[|db| - 1] == DigitChar(b % 10);
      DigitCharInjective(a % 10, b % 10);
    }
  }

  /** Different months get different `_id`s, so looking a month up by its `_id` finds
      that month and no other. */
  lemma MonthIdInjective(a: YearMonth, b: YearMonth)
    requires MonthId(a) == MonthId(b)
    ensures a == b
  {
    MonthIdParts(a);
    MonthIdParts(b);
    Pad2Injective(a.month, b.month);
    DigitsInjective(a.year, b.year);
  }

  /** "YYYY-MM" ends in the two month digits, after the year's digits and a dash. */
  lemma MonthIdParts(ym: YearMonth)
    ensures var s := MonthId(ym);
            |s| >= 4 && s[|s| - 2..] == Pad2(ym.month) && s[..|s| - 3] == Digits(ym.year)
  {
  }

  lemma Pad2Injective(m: MonthNumber, n: MonthNumber)
    requires Pad2(m) == Pad2(n)
    ensures m == n
  {
    DigitCharInjective(m / 10, n / 10);
    DigitCharInjective(m % 10, n % 10);
  }

  /** The labels of a month: "YYYY-MM" and "MM/YYYY", the month always two digits. */
  lemma MonthLabels(ym: YearMonth)
    ensures |Pad2(ym.month)| == 2
    ensures MonthId(ym) == Digits(ym.year) + "-" + Pad2(ym.month)
    ensures MonthName(ym) == Pad2(ym.month) + "/" + Digits(ym.year)
    ensures ym.month < 10 ==> Pad2(ym.month)[0] == '0'
  {
  }

  predicate LeapYear(year: nat)
  {
    year % 4 == 0 && (year % 100 != 0 || year % 400 == 0)
  }

  /** The length of a month in the Gregorian calendar. */
  function DaysIn(ym: YearMonth): (n: nat)
    ensures 28 <= n <= 31
    ensures n == 29 <==> ym.month == 2 && LeapYear(ym.year)
  {
    if ym.month == 2 then (if LeapYear(ym.year) then 29 else 28)
    else if ym.month == 4 || ym.month == 6 || ym.month == 9 || ym.month == 11 then 30
    else 31
  }

  /** The calendar fields of a JavaScript `Date`. */
  datatype LocalDate = LocalDate(year: nat, month: MonthNumber, day: nat)

  function MonthOf(d: LocalDate): YearMonth
  {
    YearMonth(d.year, d.month)
  }

  ghost predicate ValidDate(d: LocalDate)
  {
    1 <= d.day <= DaysIn(MonthOf(d))
  }

  function NextMonth(ym: YearMonth): (r: YearMonth)
    ensures MonthIndex(r) == MonthIndex(ym) + 1
  {
    if ym.month == 12 then YearMonth(ym.year + 1, 1) else YearMonth(ym.year, ym.month + 1)
  }

  /** The `n` consecutive months from `first`. */
  function MonthsStarting(first: YearMonth, n: nat): (r: seq<YearMonth>)
    ensures |r| == n
    ensures forall i :: 0 <= i < n ==> MonthIndex(r[i]) == MonthIndex(first) + i
    decreases n
  {
    if n == 0 then [] else [first] + MonthsStarting(NextMonth(first), n - 1)
  }

  /** The month `k` months away, for the distances the dashboard moves by (less than a
      year either way). */
  function ShiftMonth(ym: YearMonth, k: int): (r: YearMonth)
    requires -12 < k < 12 && MonthIndex(ym) + k >= 0
    ensures MonthIndex(r) == MonthIndex(ym) + k
  {
    var t := ym.month - 1 + k;
    if t < 0 then YearMonth(ym.year - 1, t + 13)
    else if t >= 12 then YearMonth(ym.year + 1, t - 11)
    else YearMonth(ym.year, t + 1)
  }

  /** `d.setMonth(d.getMonth() + k)`: the month moves by `k` and the day of the month is
      kept, so a day the target month does not have rolls over into the month after. */
  function AddMonths(d: LocalDate, k: int): (r: LocalDate)
    requires ValidDate(d) && -12 < k < 12 && MonthIndex(MonthOf(d)) + k >= 0
    ensures ValidDate(r)
    ensures var target := ShiftMonth(MonthOf(d), k);
            if d.day <= DaysIn(target)
            then MonthOf(r) == target && r.day == d.day
            else MonthOf(r) == NextMonth(target) && r.day == d.day - DaysIn(target)
  {
    var target := ShiftMonth(MonthOf(d), k);
    if d.day <= DaysIn(target) then LocalDate(target.year, target.month, d.day)
    else
      var next := NextMonth(target);
      LocalDate(next.year, next.month, d.day - DaysIn(target))
  }

  /** `a <= b` on two `Date`s with the same time of day. */
  predicate NotAfter(a: LocalDate, b: LocalDate)
  {
    a.year < b.year || (a.year == b.year && (a.month < b.month || (a.month == b.month && a.day <= b.day)))
  }

  lemma NotAfterMonths(a: LocalDate, b: LocalDate)
    requires NotAfter(a, b)
    ensures MonthIndex(MonthOf(a)) <= MonthIndex(MonthOf(b))
  {
  }
}
