/**
  Monthly partitions of the time-series tables and their retention
  (node_monitor/database/maintenance.py).  Times are microseconds since 1970 in UTC.
 */
module Partitions {
  import opened Upsert

  const DAY: int := 86_400_000_000

  /** Days from 0001-01-01, the origin of the proleptic calendar, to 1970-01-01. */
  const EPOCH_DAYS: int := 719_162

  datatype Month = Month(year: int, month: int)

  predicate IsMonth(m: Month) { 1 <= m.month <= 12 }

  predicate Leap(year: int) {
    year % 4 == 0 && (year % 100 != 0 || year % 400 == 0)
  }

  function DaysIn(m: Month): (d: int)
    ensures 28 <= d <= 31
  {
    if m.month == 2 then (if Leap(m.year) then 29 else 28)
    else if m.month in {4, 6, 9, 11} then 30 else 31
  }

  function DaysBeforeYear(year: int): int {
    var y := year - 1;
    y * 365 + y / 4 - y / 100 + y / 400
  }

  /** Days of `m`'s year before `m`. */
  function DaysBefore(m: Month): int
    requires IsMonth(m)
    decreases m.month
  {
    if m.month == 1 then 0
    else var p := Month(m.year, m.month - 1); DaysBefore(p) + DaysIn(p)
  }

  /** First instant of `m`. */
  function Start(m: Month): int
    requires IsMonth(m)
  {
    (DaysBeforeYear(m.year) + DaysBefore(m) - EPOCH_DAYS) * DAY
  }

  function Next(m: Month): (n: Month)
    requires IsMonth(m)
    ensures IsMonth(n) && Index(n) == Index(m) + 1
  {
    if m.month == 12 then Month(m.year + 1, 1) else Month(m.year, m.month + 1)
  }

  function Index(m: Month): int { 12 * m.year + m.month - 1 }

  lemma {:induction false} Fours(y: int)
    ensures (y + 1) / 4 == y / 4 + (if (y + 1) % 4 == 0 then 1 else 0)
  {
  }

  lemma {:induction false} Centuries(y: int)
    ensures (y + 1) / 100 == y / 100 + (if (y + 1) % 100 == 0 then 1 else 0) && (y % 100 == 0 ==> y % 4 == 0)
  {
  }

  lemma {:induction false} FourCenturies(y: int)
    ensures (y + 1) / 400 == y / 400 + (if (y + 1) % 400 == 0 then 1 else 0) && (y % 400 == 0 ==> y % 100 == 0)
  {
  }

  lemma {:induction false} YearLength(year: int)
    ensures DaysBeforeYear(year + 1) == DaysBeforeYear(year) + (if Leap(year) then 366 else 365)
  {
    Fours(year - 1);
    Centuries(year - 1);
    Centuries(year);
    FourCenturies(year - 1);
    FourCenturies(year);
  }

  lemma {:induction false} DecemberEnds(year: int)
    ensures DaysBefore(Month(year, 12)) + 31 == if Leap(year) then 366 else 365
  {
    var f := m => Month(year, m);
    assert DaysBefore(f(2)) == 31;
    assert DaysBefore(f(3)) == DaysBefore(f(2)) + DaysIn(f(2));
    assert DaysBefore(f(4)) == DaysBefore(f(3)) + 31;
    assert DaysBefore(f(5)) == DaysBefore(f(4)) + 30;
    assert DaysBefore(f(6)) == DaysBefore(f(5)) + 31;
    assert DaysBefore(f(7)) == DaysBefore(f(6)) + 30;
    assert DaysBefore(f(8)) == DaysBefore(f(7)) + 31;
    assert DaysBefore(f(9)) == DaysBefore(f(8)) + 31;
    assert DaysBefore(f(10)) == DaysBefore(f(9)) + 30;
    assert DaysBefore(f(11)) == DaysBefore(f(10)) + 31;
    assert DaysBefore(f(12)) == DaysBefore(f(11)) + 30;
  }

  /** Consecutive months abut: one ends on the instant the next begins. */
  lemma {:induction false} MonthsAbut(m: Month)
    requires IsMonth(m)
    ensures Start(Next(m)) == Start(m) + DaysIn(m) * DAY
  {
    if m.month == 12 {
      YearLength(m.year);
      DecemberEnds(m.year);
    }
  }

  /** When each month begins. */
  function Calendar(): Month -> int { (m: Month) => if IsMonth(m) then Start(m) else 0 }

  ghost predicate Increasing(begins: Month -> int) {
    forall m :: IsMonth(m) ==> begins(m) < begins(Next(m))
  }

  lemma {:induction false} CalendarIncreases()
    ensures Increasing(Calendar())
  {
    forall m | IsMonth(m) ensures Calendar()(m) < Calendar()(Next(m)) {
      MonthsAbut(m);
    }
  }

  function Previous(m: Month): (p: Month)
    requires IsMonth(m)
    ensures IsMonth(p) && Next(p) == m && Index(p) == Index(m) - 1
  {
    if m.month == 1 then Month(m.year - 1, 12) else Month(m.year, m.month - 1)
  }

  lemma {:induction false} LaterBegins(begins: Month -> int, a: Month, b: Month)
    requires IsMonth(a) && IsMonth(b) && Index(a) < Index(b) && Increasing(begins)
    ensures begins(a) < begins(b)
    decreases Index(b) - Index(a)
  {
    var p := Previous(b);
    if Index(a) < Index(p) {
      LaterBegins(begins, a, p);
    } else {
      assert a == p;
    }
  }

  lemma {:induction false} StartsIncrease(a: Month, b: Month)
    requires IsMonth(a) && IsMonth(b) && Index(a) < Index(b)
    ensures Start(a) < Start(b)
  {
    CalendarIncreases();
    LaterBegins(Calendar(), a, b);
  }

  predicate Contains(m: Month, us: int)
    requires IsMonth(m)
  {
    Start(m) <= us < Start(Next(m))
  }

  /** The month containing `us`: walk from `from` until it holds the instant. */
  function Walk(begins: Month -> int, us: int, from: Month): (m: Month)
    requires IsMonth(from) && Increasing(begins)
    ensures IsMonth(m) && begins(m) <= us < begins(Next(m))
    decreases if us < begins(from) then begins(from) - us else if us < begins(Next(from)) then 0 else us - begins(from)
  {
    if us < begins(from) then Walk(begins, us, Previous(from))
    else if begins(Next(from)) <= us then Walk(begins, us, Next(from))
    else from
  }

  /** The UTC month containing `us`. */
  function MonthOf(us: int): (m: Month)
    ensures IsMonth(m) && Contains(m, us)
  {
    CalendarIncreases();
    Walk(Calendar(), us, Month(1970, 1))
  }

  lemma {:induction false} BegunIn(begins: Month -> int, a: Month, n: Month, us: int)
    requires IsMonth(a) && IsMonth(n) && Increasing(begins) && begins(n) <= us < begins(Next(n))
    ensures begins(a) <= us <==> Index(a) <= Index(n)
  {
    var after := Next(n);
    if Index(a) < Index(n) {
      LaterBegins(begins, a, n);
    } else if Index(after) < Index(a) {
      LaterBegins(begins, after, a);
    } else if Index(a) == Index(n) {
      SameIndex(a, n);
    } else {
      SameIndex(a, after);
    }
  }

  lemma {:induction false} SameIndex(a: Month, b: Month)
    requires IsMonth(a) && IsMonth(b) && Index(a) == Index(b)
    ensures a == b
  {
  }

  /** A month has begun by an instant exactly when it is not later than the instant's month. */
  lemma {:induction false} BegunBy(a: Month, n: Month, us: int)
    requires IsMonth(a) && IsMonth(n) && Contains(n, us)
    ensures Start(a) <= us <==> Index(a) <= Index(n)
  {
    CalendarIncreases();
    BegunIn(Calendar(), a, n, us);
  }

  /** The months tile time: every instant lies in exactly one of them. */
  lemma {:induction false} MonthsTile(us: int, m: Month)
    requires IsMonth(m)
    ensures Contains(m, us) <==> m == MonthOf(us)
  {
    var n := MonthOf(us);
    BegunBy(m, n, us);
    BegunBy(Next(m), n, us);
  }

  // --- names --------------------------------------------------------------------------

  function Digit(d: int): char
    requires 0 <= d < 10
  {
    '0' + d as char
  }

  function Number(n: int, width: nat): (s: string)
    requires 0 <= n
    ensures |s| == width
  {
    if width == 0 then "" else Number(n / 10, width - 1) + [Digit(n % 10)]
  }

  predicate IsDigits(s: string) {
    forall i :: 0 <= i < |s| ==> '0' <= s[i] <= '9'
  }

  function Parse(s: string): (n: int)
    requires IsDigits(s)
    ensures 0 <= n
  {
    if s == "" then 0 else 10 * Parse(s[..|s| - 1]) + (s[|s| - 1] as int - '0' as int)
  }

  function Power10(n: nat): (p: int)
    ensures p > 0
  {
    if n == 0 then 1 else 10 * Power10(n - 1)
  }

  lemma {:induction false} ParseNumber(n: int, width: nat)
    requires 0 <= n < Power10(width)
    ensures IsDigits(Number(n, width)) && Parse(Number(n, width)) == n
  {
    if width > 0 {
      ParseNumber(n / 10, width - 1);
      var s := Number(n, width);
      assert s[..|s| - 1] == Number(n / 10, width - 1);
    }
  }

  /** `<table>_yYYYYmMM` */
  function Name(table: string, m: Month): string
    requires IsMonth(m) && 0 <= m.year <= 9999
  {
    table + "_y" + Number(m.year, 4) + "m" + Number(m.month, 2)
  }

  /** What the pattern `_y(\d{4})m(\d{2})` finds after the table's name; None for no match. */
  function ParseName(table: string, name: string): Option<Month> {
    if |name| == |table| + 9 && table <= name then
      var s := name[|table|..];
      if s[..2] == "_y" && IsDigits(s[2..6]) && s[6] == 'm' && IsDigits(s[7..9])
      then Some(Month(Parse(s[2..6]), Parse(s[7..9])))
      else None
    else None
  }

  lemma {:induction false} NameSplits(table: string, year: string, month: string)
    requires |year| == 4 && |month| == 2
    ensures var n := table + "_y" + year + "m" + month;
            && |n| == |table| + 9 && table <= n
            && n[|table|..][..2] == "_y" && n[|table|..][2..6] == year
            && n[|table|..][6] == 'm' && n[|table|..][7..9] == month
  {
    var n, s := table + "_y" + year + "m" + month, "_y" + year + "m" + month;
    assert n == table + s;
    assert n[|table|..] == s;
  }

  /** Retention reads back exactly the month a partition was created for, so names are
      injective and no partition is mistaken for another month's. */
  lemma {:induction false} ParseNameOfName(table: string, m: Month)
    requires IsMonth(m) && 0 <= m.year <= 9999
    ensures ParseName(table, Name(table, m)) == Some(m)
  {
    ParseNumber(m.year, 4);
    ParseNumber(m.month, 2);
    NameSplits(table, Number(m.year, 4), Number(m.month, 2));
  }

  lemma {:induction false} NamesInjective(table: string, a: Month, b: Month)
    requires IsMonth(a) && IsMonth(b) && 0 <= a.year <= 9999 && 0 <= b.year <= 9999
    requires Name(table, a) == Name(table, b)
    ensures a == b
  {
    ParseNameOfName(table, a);
    ParseNameOfName(table, b);
  }

  // --- retention ----------------------------------------------------------------------

  function Cutoff(now: int, days: int): int { now - days * DAY }

  /** The test `apply_retention` makes before it drops a month. */
  predicate Due(m: Month, now: int, days: int)
    requires IsMonth(m)
  {
    Start(m) < Start(MonthOf(now)) && Start(Next(m)) <= Cutoff(now, days)
  }

  /** A month is due exactly when the writer would refuse every row it can hold. */
  lemma {:induction false} DueMeansRefused(m: Month, now: int, days: nat)
    requires IsMonth(m)
    ensures Due(m, now, days) <==> forall us :: Contains(m, us) ==> us < Cutoff(now, days)
  {
    MonthsAbut(m);
    var last := Start(Next(m)) - 1;
    assert Contains(m, last);
    if Start(Next(m)) <= Cutoff(now, days) {
      var c := MonthOf(now);
      BegunBy(Next(m), c, now);
      StartsIncrease(m, c);
    }
  }

  /** Rows refused now stay refused: retention never drops a month a retry could still fill. */
  lemma {:induction false} RefusedForever(m: Month, us: int, now: int, later: int, days: nat)
    requires IsMonth(m) && Due(m, now, days) && Contains(m, us) && now <= later
    ensures us < Cutoff(later, days)
  {
    DueMeansRefused(m, now, days);
  }

  /** Python has a date for the month: it knows no year 0. */
  predicate HasDate(m: Month) { IsMonth(m) && m.year >= 1 }

  /** The name matches the pattern and the month in it does not exist. */
  predicate IsUndated(table: string, name: string) {
    var m := ParseName(table, name);
    m.Some? && !HasDate(m.value)
  }

  /** There are such names. */
  lemma {:induction false} UndatedNames(table: string)
    ensures IsUndated(table, table + "_y2024m13") && IsUndated(table, table + "_y0000m01")
  {
    UndatedName(table, "2024", "13");
    UndatedName(table, "0000", "01");
    ParseDigits("2024", 2, 0, 2, 4);
    ParseDigits("0000", 0, 0, 0, 0);
    ParseTwo("13", 1, 3);
    ParseTwo("01", 0, 1);
    assert table + "_y" + "2024" + "m" + "13" == table + "_y2024m13";
    assert table + "_y" + "0000" + "m" + "01" == table + "_y0000m01";
  }

  lemma {:induction false} UndatedName(table: string, year: string, month: string)
    requires |year| == 4 && |month| == 2 && IsDigits(year) && IsDigits(month)
    ensures ParseName(table, table + "_y" + year + "m" + month) == Some(Month(Parse(year), Parse(month)))
  {
    NameSplits(table, year, month);
  }

  lemma {:induction false} ParseTwo(s: string, a: int, b: int)
    requires 0 <= a < 10 && 0 <= b < 10 && s == [Digit(a), Digit(b)]
    ensures IsDigits(s) && Parse(s) == 10 * a + b
  {
    assert s[..1] == [Digit(a)] && [Digit(a)][..0] == "";
    assert Parse([Digit(a)]) == a;
  }

  lemma {:induction false} ParseDigits(s: string, a: int, b: int, c: int, d: int)
    requires 0 <= a < 10 && 0 <= b < 10 && 0 <= c < 10 && 0 <= d < 10 && s == [Digit(a), Digit(b), Digit(c), Digit(d)]
    ensures IsDigits(s) && Parse(s) == 1000 * a + 100 * b + 10 * c + d
  {
    ParseTwo(s[..2], a, b);
    assert s[..3][..2] == s[..2];
  }

  /** One partitioned parent: the names of the partitions attached to it. */
  class Parent {
    const table: string
    var attached: set<string>

    constructor (table: string)
      ensures this.table == table && attached == {}
    {
      this.table, attached := table, {};
    }

    /** Creates the partition for the month containing `us`; true if it was missing. */
    method EnsurePartition(us: int) returns (created: bool)
      requires 0 <= MonthOf(us).year <= 9999
      modifies this
      ensures attached == old(attached) + {Name(table, MonthOf(us))}
      ensures created <==> Name(table, MonthOf(us)) !in old(attached)
    {
      var name := Name(table, MonthOf(us));
      created := name !in attached;
      if created {
        attached := attached + {name};
      }
    }

    /** Drops the due months it can lock; `blocked` are the partitions whose parent stays
        locked by a reader.  Names that are not `<table>_yYYYYmMM` are left alone; one with a month
        that does not exist makes the whole run raise. */
    method ApplyRetention(now: int, days: nat, blocked: set<string>)
          returns (raised: bool, dropped: set<string>, skipped: set<string>)
      modifies this
      ensures raised <==> exists n :: n in old(attached) && IsUndated(table, n)
      ensures attached == old(attached) - dropped
      ensures forall n :: n in dropped ==> n in old(attached) && IsDue(n, now, days) && n !in blocked
      ensures !raised ==> forall n :: n in old(attached) && IsDue(n, now, days) ==>
              n in (if n in blocked then skipped else dropped)
      ensures skipped <= old(attached) * blocked
    {
      raised, dropped, skipped := false, {}, {};
      var todo := attached;
      while todo != {}
        invariant todo <= old(attached) && attached == old(attached) - dropped
        invariant dropped !! todo && skipped !! todo
        invariant forall n :: n in old(attached) && n !in todo ==> !IsUndated(table, n)
        invariant forall n :: n in dropped ==> n in old(attached) && IsDue(n, now, days) && n !in blocked
        invariant forall n :: n in old(attached) && n !in todo && IsDue(n, now, days)
                    ==> n in (if n in blocked then skipped else dropped)
        invariant skipped <= old(attached) * blocked
        decreases todo
      {
        var name :| name in todo;
        todo := todo - {name};
        var m := ParseName(table, name);
        if m.Some? {
          if !HasDate(m.value) {
            raised := true;
            return;
          }
          if Due(m.value, now, days) {
            if name in blocked {
              skipped := skipped + {name};
            } else {
              attached := attached - {name};
              dropped := dropped + {name};
            }
          }
        }
      }
    }

    predicate IsDue(name: string, now: int, days: nat) {
      var m := ParseName(table, name);
      m.Some? && HasDate(m.value) && Due(m.value, now, days)
    }
  }
}
