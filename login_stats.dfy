/** The statistics handlers (server/controller/loginStats.controller.js): a start date chosen by
    the `range` query, then a match, a group by calendar day with a count (and, for orders, a
    sum of `totalPrice`), and a sort by day. The start of the current day, week and month come
    from the clock and are parameters. Times are milliseconds since the epoch, in UTC. */
module LoginStats {
  import opened Js
  import opened OrderModel

  const MsPerDay := 86400000

  /** `moment().startOf('day' | 'week' | 'month')` at the time of the request. */
  datatype Calendar = Calendar(dayStart: nat, weekStart: nat, monthStart: nat)

  /** `req.query.range || "month"`. */
  function RangeOf(query: Field<string>): (r: string)
    ensures TruthyString(query) ==> r == query.value
    ensures !TruthyString(query) ==> r == "month"
    ensures r != ""
  {
    if TruthyString(query) then query.value else "month"
  }

  /** The start date: the current day, week or month; any other range (`quarter` included)
      starts at the epoch. */
  function StartDate(range: string, cal: Calendar): (r: nat)
    ensures range == "day" ==> r == cal.dayStart
    ensures range == "week" ==> r == cal.weekStart
    ensures range == "month" ==> r == cal.monthStart
    ensures range != "day" && range != "week" && range != "month" ==> r == 0
  {
    if range == "day" then cal.dayStart
    else if range == "week" then cal.weekStart
    else if range == "month" then cal.monthStart
    else 0
  }

  /** A matched record: its day number and the amount it adds to the day's sum. */
  datatype Entry = Entry(day: nat, amount: int)

  /** One group of the pipeline: a day, how many records fell on it, and their sum. */
  datatype Bucket = Bucket(day: nat, count: nat, total: int)

  predicate Ascending(b: seq<Bucket>) {
    forall i, j :: 0 <= i < j < |b| ==> b[i].day < b[j].day
  }

  function Days(b: seq<Bucket>): set<nat> {
    set i | 0 <= i < |b| :: b[i].day
  }

  /** The count of the bucket for day `d`, 0 if there is none. */
  function CountOn(b: seq<Bucket>, d: nat): nat {
    if b == [] then 0 else (if b[0].day == d then b[0].count else 0) + CountOn(b[1..], d)
  }

  function TotalOn(b: seq<Bucket>, d: nat): int {
    if b == [] then 0 else (if b[0].day == d then b[0].total else 0) + TotalOn(b[1..], d)
  }

  function CountSum(b: seq<Bucket>): nat {
    if b == [] then 0 else b[0].count + CountSum(b[1..])
  }

  function TotalSum(b: seq<Bucket>): int {
    if b == [] then 0 else b[0].total + TotalSum(b[1..])
  }

  /** How many entries fall on day `d`, and their sum. */
  function Occurrences(es: seq<Entry>, d: nat): nat {
    if es == [] then 0 else Occurrences(es[..|es| - 1], d) + (if es[|es| - 1].day == d then 1 else 0)
  }

  function AmountOn(es: seq<Entry>, d: nat): int {
    if es == [] then 0 else AmountOn(es[..|es| - 1], d) + (if es[|es| - 1].day == d then es[|es| - 1].amount else 0)
  }

  function Amounts(es: seq<Entry>): int {
    if es == [] then 0 else Amounts(es[..|es| - 1]) + es[|es| - 1].amount
  }

  function EntryDays(es: seq<Entry>): set<nat> {
    set i | 0 <= i < |es| :: es[i].day
  }

  /** Adding one record to the sorted groups: its day's group grows by one, or a new group is
      placed where the order asks. */
  function Insert(b: seq<Bucket>, e: Entry): (r: seq<Bucket>)
    ensures forall d :: CountOn(r, d) == CountOn(b, d) + (if d == e.day then 1 else 0)
    ensures forall d :: TotalOn(r, d) == TotalOn(b, d) + (if d == e.day then e.amount else 0)
    ensures CountSum(r) == CountSum(b) + 1 && TotalSum(r) == TotalSum(b) + e.amount
  {
    if b == [] then [Bucket(e.day, 1, e.amount)]
    else if b[0].day == e.day then
      var r := [b[0].(count := b[0].count + 1, total := b[0].total + e.amount)] + b[1..];
      assert r[1..] == b[1..];
      r
    else if e.day < b[0].day then
      var r := [Bucket(e.day, 1, e.amount)] + b;
      assert r[1..] == b;
      r
    else
      var r := [b[0]] + Insert(b[1..], e);
      assert r[1..] == Insert(b[1..], e);
      r
  }

  lemma DaysCons(x: Bucket, b: seq<Bucket>)
    ensures Days([x] + b) == {x.day} + Days(b)
  {
    var r := [x] + b;
    forall y | y in Days(r) ensures y in {x.day} + Days(b) {
      var i :| 0 <= i < |r| && r[i].day == y;
      if i > 0 { assert b[i - 1].day == y; }
    }
    forall y | y in Days(b) ensures y in Days(r) {
      var i :| 0 <= i < |b| && b[i].day == y;
      assert r[i + 1].day == y;
    }
    assert r[0].day == x.day;
  }

  /** Inserting adds exactly the record's day to the days present. */
  lemma {:induction false} InsertDays(b: seq<Bucket>, e: Entry)
    ensures Days(Insert(b, e)) == Days(b) + {e.day}
  {
    if b == [] {
      assert Insert(b, e)[0].day == e.day;
    } else {
      assert b == [b[0]] + b[1..];
      DaysCons(b[0], b[1..]);
      if b[0].day == e.day {
        DaysCons(Insert(b, e)[0], b[1..]);
      } else if e.day < b[0].day {
        DaysCons(Bucket(e.day, 1, e.amount), b);
      } else {
        InsertDays(b[1..], e);
        DaysCons(b[0], Insert(b[1..], e));
      }
    }
  }

  /** Inserting keeps the groups in strictly ascending day order, each with a positive count. */
  lemma {:induction false} InsertAscending(b: seq<Bucket>, e: Entry)
    requires Ascending(b) && forall i :: 0 <= i < |b| ==> b[i].count > 0
    ensures Ascending(Insert(b, e)) && forall i :: 0 <= i < |Insert(b, e)| ==> Insert(b, e)[i].count > 0
  {
    if b != [] && b[0].day != e.day && e.day >= b[0].day {
      var rest := Insert(b[1..], e);
      InsertAscending(b[1..], e);
      InsertAbove(b[1..], e, b[0].day);
      assert Insert(b, e) == [b[0]] + rest;
    }
  }

  /** Inserting a record later than a bound into groups later than it keeps every group later. */
  lemma {:induction false} InsertAbove(b: seq<Bucket>, e: Entry, bound: int)
    requires forall i :: 0 <= i < |b| ==> b[i].day > bound
    requires e.day > bound
    ensures forall i :: 0 <= i < |Insert(b, e)| ==> Insert(b, e)[i].day > bound
  {
    if b != [] && b[0].day != e.day && e.day >= b[0].day {
      InsertAbove(b[1..], e, bound);
      assert Insert(b, e) == [b[0]] + Insert(b[1..], e);
    }
  }

  /** The `$group` and `$sort` stages over the matched records, taken in order. */
  function Group(es: seq<Entry>): (r: seq<Bucket>)
    ensures Ascending(r)
    ensures Days(r) == EntryDays(es)
    ensures forall i :: 0 <= i < |r| ==> r[i].count > 0
    ensures forall d :: CountOn(r, d) == Occurrences(es, d) && TotalOn(r, d) == AmountOn(es, d)
    ensures CountSum(r) == |es| && TotalSum(r) == Amounts(es)
  {
    if es == [] then []
    else
      var init := es[..|es| - 1];
      var r := Insert(Group(init), es[|es| - 1]);
      InsertDays(Group(init), es[|es| - 1]);
      InsertAscending(Group(init), es[|es| - 1]);
      assert EntryDays(es) == EntryDays(init) + {es[|es| - 1].day} by {
        forall x | x in EntryDays(es) ensures x in EntryDays(init) + {es[|es| - 1].day} {
          var i :| 0 <= i < |es| && es[i].day == x;
          if i < |es| - 1 { assert init[i].day == x; }
        }
        forall x | x in EntryDays(init) ensures x in EntryDays(es) {
          var i :| 0 <= i < |init| && init[i].day == x;
          assert es[i].day == x;
        }
      }
      r
  }

  /** In sorted groups a day has one group at most, so the day's count is that group's count. */
  lemma {:induction false} CountOnAscending(b: seq<Bucket>, i: int)
    requires Ascending(b) && 0 <= i < |b|
    ensures CountOn(b, b[i].day) == b[i].count && TotalOn(b, b[i].day) == b[i].total
  {
    if i == 0 {
      NoLaterDay(b[1..], b[0].day);
    } else {
      assert b[0].day < b[i].day;
      CountOnAscending(b[1..], i - 1);
    }
  }

  lemma {:induction false} NoLaterDay(b: seq<Bucket>, d: nat)
    requires forall i :: 0 <= i < |b| ==> d < b[i].day
    ensures CountOn(b, d) == 0 && TotalOn(b, d) == 0
  {
    if b != [] {
      NoLaterDay(b[1..], d);
    }
  }

  /** `$dateToString` with `%Y-%m-%d` on day `day` after the epoch: the proleptic Gregorian
      date (year, month, day of month). */
  function CivilDate(day: nat): (r: (int, int, int))
    ensures 1 <= r.1 <= 12 && 1 <= r.2 <= 31 && r.0 >= 1970
  {
    DateFrom(day, 1970)
  }

  predicate IsLeap(y: int) {
    y % 4 == 0 && (y % 100 != 0 || y % 400 == 0)
  }

  function YearLength(y: int): nat {
    if IsLeap(y) then 366 else 365
  }

  function MonthLength(y: int, m: int): nat {
    if m == 2 then (if IsLeap(y) then 29 else 28)
    else if m == 4 || m == 6 || m == 9 || m == 11 then 30
    else 31
  }

  /** The days from the first of month `m` to the end of the year. */
  function DaysFrom(y: int, m: int): nat
    requires 1 <= m <= 12
    decreases 12 - m
  {
    if m == 12 then 31 else MonthLength(y, m) + DaysFrom(y, m + 1)
  }

  lemma DaysFromJanuary(y: int)
    ensures DaysFrom(y, 1) == YearLength(y)
  {
  }

  /** The date `day` days after 1 January of year `y`. */
  function DateFrom(day: nat, y: int): (r: (int, int, int))
    ensures 1 <= r.1 <= 12 && 1 <= r.2 <= 31 && r.0 >= y
    decreases day
  {
    if day < YearLength(y) then
      DaysFromJanuary(y);
      DateInYear(y, day, 1)
    else DateFrom(day - YearLength(y), y + 1)
  }

  /** The date `doy` days after the first of month `m` of year `y`. */
  function DateInYear(y: int, doy: nat, m: int): (r: (int, int, int))
    requires 1 <= m <= 12 && doy < DaysFrom(y, m)
    ensures r.0 == y && m <= r.1 <= 12 && 1 <= r.2 <= MonthLength(y, r.1) && r.2 <= 31
    decreases 12 - m
  {
    if m == 12 || doy < MonthLength(y, m) then (y, m, doy + 1)
    else DateInYear(y, doy - MonthLength(y, m), m + 1)
  }

  /** The order of dates: by year, then month, then day of month. */
  predicate DateLess(a: (int, int, int), b: (int, int, int)) {
    a.0 < b.0 || (a.0 == b.0 && (a.1 < b.1 || (a.1 == b.1 && a.2 < b.2)))
  }

  /** Within a year, a later day has a later date. */
  lemma {:induction false} DateInYearMonotone(y: int, d1: nat, d2: nat, m: int)
    requires 1 <= m <= 12 && d1 < d2 < DaysFrom(y, m)
    ensures DateLess(DateInYear(y, d1, m), DateInYear(y, d2, m))
    decreases 12 - m
  {
    if m < 12 && d1 >= MonthLength(y, m) {
      DateInYearMonotone(y, d1 - MonthLength(y, m), d2 - MonthLength(y, m), m + 1);
    }
  }

  /** Counting from one year, a later day has a later date. */
  lemma {:induction false} DateFromMonotone(d1: nat, d2: nat, y: int)
    requires d1 < d2
    ensures DateLess(DateFrom(d1, y), DateFrom(d2, y))
    decreases d2
  {
    if d2 < YearLength(y) {
      DaysFromJanuary(y);
      DateInYearMonotone(y, d1, d2, 1);
    } else if d1 >= YearLength(y) {
      DateFromMonotone(d1 - YearLength(y), d2 - YearLength(y), y + 1);
    }
  }

  /** `n` in decimal, left-padded with zeros to `width` digits. */
  function Padded(n: nat, width: nat): (r: string)
    ensures |r| >= width && AllDigits(r)
  {
    var s := Decimal(n);
    if |s| >= width then s else Zeros(width - |s|) + s
  }

  function Zeros(k: nat): (r: string)
    ensures |r| == k && AllDigits(r)
  {
    if k == 0 then "" else Zeros(k - 1) + "0"
  }

  function Pow10(k: nat): nat {
    if k == 0 then 1 else 10 * Pow10(k - 1)
  }

  lemma {:induction false} DecimalLength(n: nat, width: nat)
    requires 1 <= width && n < Pow10(width)
    ensures |Decimal(n)| <= width
  {
    if n >= 10 {
      assert width >= 1 && n / 10 < Pow10(width - 1);
      DecimalLength(n / 10, width - 1);
      assert Decimal(n) == Decimal(n / 10) + [DigitChar(n % 10)];
    }
  }

  lemma {:induction false} ZerosValue(k: nat, s: string)
    requires AllDigits(s)
    ensures DigitsValue(Zeros(k) + s) == DigitsValue(s)
  {
    if s == [] {
      assert Zeros(k) + s == Zeros(k);
      ZerosZero(k);
    } else {
      assert (Zeros(k) + s)[..|Zeros(k) + s| - 1] == Zeros(k) + s[..|s| - 1];
      ZerosValue(k, s[..|s| - 1]);
    }
  }

  lemma {:induction false} ZerosZero(k: nat)
    ensures DigitsValue(Zeros(k)) == 0
  {
    if k > 0 {
      assert Zeros(k)[..k - 1] == Zeros(k - 1);
      ZerosZero(k - 1);
    }
  }

  /** A number below `10^width` (width at least one) pads to exactly `width` digits that read back as the number. */
  lemma PaddedValue(n: nat, width: nat)
    requires 1 <= width && n < Pow10(width)
    ensures |Padded(n, width)| == width && DigitsValue(Padded(n, width)) == n
  {
    DecimalLength(n, width);
    DecimalValue(n);
    if |Decimal(n)| < width {
      ZerosValue(width - |Decimal(n)|, Decimal(n));
    }
  }

  /** Padded to one width, smaller numbers give strings that sort first. */
  lemma PaddedOrder(m: nat, n: nat, width: nat)
    requires 1 <= width && m < n < Pow10(width)
    ensures |Padded(m, width)| == |Padded(n, width)| == width
    ensures LexLess(Padded(m, width), Padded(n, width))
  {
    PaddedValue(m, width);
    PaddedValue(n, width);
    DigitsOrder(Padded(m, width), Padded(n, width));
  }

  /** The `%Y-%m-%d` label of a day: the key the pipeline groups and sorts by. */
  function DayKey(day: nat): (r: string)
    ensures |r| >= 10
  {
    var (y, m, d) := CivilDate(day);
    Padded(y, 4) + "-" + Padded(m, 2) + "-" + Padded(d, 2)
  }

  /** `y-m-d` labels with fields of fixed widths sort by year, then month, then day. */
  lemma LabelOrder(ys1: string, ms1: string, ds1: string, ys2: string, ms2: string, ds2: string)
    requires |ys1| == |ys2| && |ms1| == |ms2|
    requires LexLess(ys1, ys2) || (ys1 == ys2 && (LexLess(ms1, ms2) || (ms1 == ms2 && LexLess(ds1, ds2))))
    ensures LexLess(ys1 + "-" + ms1 + "-" + ds1, ys2 + "-" + ms2 + "-" + ds2)
  {
    var k1, k2 := ys1 + "-" + ms1 + "-" + ds1, ys2 + "-" + ms2 + "-" + ds2;
    if LexLess(ys1, ys2) {
      assert k1 == ys1 + ("-" + ms1 + "-" + ds1) && k2 == ys2 + ("-" + ms2 + "-" + ds2);
      LexLessExtend(ys1, ys2, "-" + ms1 + "-" + ds1, "-" + ms2 + "-" + ds2);
    } else if LexLess(ms1, ms2) {
      assert k1 == (ys1 + "-") + (ms1 + ("-" + ds1)) && k2 == (ys1 + "-") + (ms2 + ("-" + ds2));
      LexLessExtend(ms1, ms2, "-" + ds1, "-" + ds2);
      LexLessPrefix(ys1 + "-", ms1 + ("-" + ds1), ms2 + ("-" + ds2));
    } else {
      LexLessPrefix(ys1 + "-" + ms1 + "-", ds1, ds2);
    }
  }

  /** Up to the year 9999 the labels sort as the days do: a later day has a label that
      JavaScript's and MongoDB's string order put after. */
  lemma DayKeyAscending(d1: nat, d2: nat)
    requires d1 < d2 && CivilDate(d2).0 <= 9999
    ensures LexLess(DayKey(d1), DayKey(d2))
  {
    DateFromMonotone(d1, d2, 1970);
    var (y1, m1, a1) := CivilDate(d1);
    var (y2, m2, a2) := CivilDate(d2);
    assert Pow10(2) == 100 && Pow10(4) == 10000;
    PaddedValue(y1, 4);
    PaddedValue(m1, 2);
    if y1 < y2 {
      PaddedOrder(y1, y2, 4);
    } else if m1 < m2 {
      PaddedOrder(m1, m2, 2);
    } else {
      PaddedOrder(a1, a2, 2);
    }
    LabelOrder(Padded(y1, 4), Padded(m1, 2), Padded(a1, 2), Padded(y2, 4), Padded(m2, 2), Padded(a2, 2));
  }

  /** Up to the year 9999 two days never share a label, so grouping by label groups by day. */
  lemma DayKeyInjective(d1: nat, d2: nat)
    requires CivilDate(d1).0 <= 9999 && CivilDate(d2).0 <= 9999
    ensures DayKey(d1) == DayKey(d2) <==> d1 == d2
  {
    if d1 < d2 {
      DayKeyAscending(d1, d2);
      LexLessIrreflexive(DayKey(d1));
    } else if d2 < d1 {
      DayKeyAscending(d2, d1);
      LexLessIrreflexive(DayKey(d2));
    }
  }

  /** Day 0 is the epoch's date. */
  lemma EpochDate()
    ensures CivilDate(0) == (1970, 1, 1)
  {
  }

  /** Day 789 is the leap day of 1972. */
  lemma LeapDay()
    ensures CivilDate(789) == (1972, 2, 29)
  {
  }

  /** The century rule: 2000, divisible by 400, has a 29 February; 1900 does not. */
  lemma CenturyRule()
    ensures DateFrom(59, 2000) == (2000, 2, 29)
    ensures DateFrom(59, 1900) == (1900, 3, 1)
  {
  }

  lemma EpochKey()
    ensures DayKey(0) == "1970-01-01"
  {
    EpochDate();
    assert Decimal(1) == "1";
    assert Decimal(19) == "19";
    assert Decimal(197) == "197";
    assert Decimal(1970) == "1970";
    assert Padded(1970, 4) == "1970";
    assert Padded(1, 2) == "01";
  }

  /** The three arrays the handlers send, aligned by position with the sorted groups. */
  datatype Series = Series(labels: seq<string>, counts: seq<nat>, sales: seq<int>)

  function SeriesOf(b: seq<Bucket>): (s: Series)
    ensures |s.labels| == |b| && |s.counts| == |b| && |s.sales| == |b|
    ensures forall i :: 0 <= i < |b| ==>
      s.labels[i] == DayKey(b[i].day) && s.counts[i] == b[i].count && s.sales[i] == b[i].total
  {
    if b == [] then Series([], [], [])
    else
      var rest := SeriesOf(b[1..]);
      Series([DayKey(b[0].day)] + rest.labels, [b[0].count] + rest.counts, [b[0].total] + rest.sales)
  }

  /** `$match: { lastLogin: { $gte: startDate, $ne: null } }`. */
  function LoginMatch(start: nat): Option<int> -> bool {
    (o: Option<int>) => o.Some? && o.value >= start
  }

  /** `$match: { createdAt: { $gte: startDate } }`. */
  function OrderMatch(start: nat): Order -> bool {
    (o: Order) => o.createdAt >= start
  }

  /** The matched logins in their stored order, each on its day; a login adds nothing to a sum. */
  function LoginEntries(lastLogins: seq<Option<int>>, start: nat): (r: seq<Entry>)
    ensures var kept := Filter(lastLogins, LoginMatch(start));
      && |r| == |kept|
      && forall i :: 0 <= i < |r| ==>
        kept[i].Some? && kept[i].value >= start && r[i] == Entry(kept[i].value / MsPerDay, 0)
  {
    if lastLogins == [] then []
    else
      var last := lastLogins[|lastLogins| - 1];
      LoginEntries(lastLogins[..|lastLogins| - 1], start)
      + (if last.Some? && last.value >= start then [Entry(last.value / MsPerDay, 0)] else [])
  }

  /** The matched orders in their stored order, each on its day with its `totalPrice`. */
  function OrderEntries(orders: seq<Order>, start: nat): (r: seq<Entry>)
    ensures var kept := Filter(orders, OrderMatch(start));
      && |r| == |kept|
      && (forall i :: 0 <= i < |r| ==>
        kept[i].createdAt >= start && r[i] == Entry(kept[i].createdAt / MsPerDay, kept[i].totalPrice))
      && Amounts(r) == PriceTotal(kept)
  {
    if orders == [] then []
    else
      var last := orders[|orders| - 1];
      var front := orders[..|orders| - 1];
      var init := OrderEntries(front, start);
      if last.createdAt >= start then
        var r := init + [Entry(last.createdAt / MsPerDay, last.totalPrice)];
        var kept := Filter(orders, OrderMatch(start));
        assert kept == Filter(front, OrderMatch(start)) + [last];
        assert kept[..|kept| - 1] == Filter(front, OrderMatch(start));
        assert r[..|r| - 1] == init;
        r
      else
        assert Filter(orders, OrderMatch(start)) == Filter(front, OrderMatch(start));
        init
  }

  /** The `totalPrice` of the orders, added up. */
  function PriceTotal(orders: seq<Order>): int {
    if orders == [] then 0 else PriceTotal(orders[..|orders| - 1]) + orders[|orders| - 1].totalPrice
  }

  /** The two arrays `getLoginStats` sends. */
  datatype LoginSeries = LoginSeries(labels: seq<string>, counts: seq<nat>)

  /** `getLoginStats`: `{ labels, counts }`, one position per day with logins since the start
      date; the counts add up to those logins. */
  function GetLoginStats(lastLogins: seq<Option<int>>, range: Field<string>, cal: Calendar): (s: LoginSeries)
    ensures var start := StartDate(RangeOf(range), cal);
      var b := Group(LoginEntries(lastLogins, start));
      && s.labels == SeriesOf(b).labels && s.counts == SeriesOf(b).counts
      && (forall i :: 0 <= i < |s.counts| ==> s.counts[i] > 0)
      && Sum(s.counts) == |Filter(lastLogins, LoginMatch(start))|
  {
    var b := Group(LoginEntries(lastLogins, StartDate(RangeOf(range), cal)));
    SeriesSums(b);
    LoginSeries(SeriesOf(b).labels, SeriesOf(b).counts)
  }

  /** `getOrderStats`: `{ labels, counts, sales }`, aligned, one position per day with orders
      since the start date; the counts add up to those orders and the sales to their total
      prices. */
  function GetOrderStats(orders: seq<Order>, range: Field<string>, cal: Calendar): (s: Series)
    ensures var start := StartDate(RangeOf(range), cal);
      && s == SeriesOf(Group(OrderEntries(orders, start)))
      && (forall i :: 0 <= i < |s.counts| ==> s.counts[i] > 0)
      && Sum(s.counts) == |Filter(orders, OrderMatch(start))|
      && IntSum(s.sales) == PriceTotal(Filter(orders, OrderMatch(start)))
  {
    var b := Group(OrderEntries(orders, StartDate(RangeOf(range), cal)));
    SeriesSums(b);
    SeriesOf(b)
  }

  /** The handlers sort on the label string and the model on the day number: up to the year
      9999 the two orders agree, so strictly ascending days give strictly ascending labels. */
  lemma LabelsAscend(b: seq<Bucket>, i: int, j: int)
    requires Ascending(b) && 0 <= i < j < |b| && CivilDate(b[j].day).0 <= 9999
    ensures LexLess(SeriesOf(b).labels[i], SeriesOf(b).labels[j])
  {
    DayKeyAscending(b[i].day, b[j].day);
  }

  /** The counts add up to the matched records and the sales to their amounts; each position
      holds exactly its day's count and sum; the days strictly ascend. */
  lemma StatsAccount(es: seq<Entry>, i: int)
    requires 0 <= i < |Group(es)|
    ensures Sum(SeriesOf(Group(es)).counts) == |es| && IntSum(SeriesOf(Group(es)).sales) == Amounts(es)
    ensures SeriesOf(Group(es)).counts[i] == Occurrences(es, Group(es)[i].day)
    ensures SeriesOf(Group(es)).sales[i] == AmountOn(es, Group(es)[i].day)
    ensures forall j :: i < j < |Group(es)| ==> Group(es)[i].day < Group(es)[j].day
  {
    var b := Group(es);
    CountOnAscending(b, i);
    SeriesSums(b);
  }

  function Sum(s: seq<nat>): nat {
    if s == [] then 0 else s[0] + Sum(s[1..])
  }

  function IntSum(s: seq<int>): int {
    if s == [] then 0 else s[0] + IntSum(s[1..])
  }

  lemma {:induction false} SeriesSums(b: seq<Bucket>)
    ensures Sum(SeriesOf(b).counts) == CountSum(b) && IntSum(SeriesOf(b).sales) == TotalSum(b)
  {
    if b != [] {
      SeriesSums(b[1..]);
      var s := SeriesOf(b);
      assert s.counts[1..] == SeriesOf(b[1..]).counts;
      assert s.sales[1..] == SeriesOf(b[1..]).sales;
    }
  }
}
