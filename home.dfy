/**
 * The home screen (src/screens/HomeScreen.tsx): today's and the last seven
 * days' revenue over the user's transactions, and the newest-first list the
 * subscription stores. Calendar dates depend on the device's time zone, so
 * the conversion from a timestamp to a local date is an argument, `dateOf`.
 */
module Home {
  import opened Records
  import Ordering

  /** A local calendar date: what `getDate()`, `getMonth()` and `getFullYear()` return. */
  datatype CalendarDate = CalendarDate(day: int, month: int, year: int)

  const DayMillis: int := 24 * 60 * 60 * 1000

  predicate SameDay(a: CalendarDate, b: CalendarDate)
  {
    a.day == b.day && a.month == b.month && a.year == b.year
  }

  function IsToday(now: int, dateOf: int -> CalendarDate): Transaction -> bool
  {
    (t: Transaction) => SameDay(dateOf(t.createdAt), dateOf(now))
  }

  /** `new Date()` moved back seven days with `setDate(getDate() - 7)`. */
  function WeekAgo(now: int): int
  {
    now - 7 * DayMillis
  }

  function InLastWeek(now: int): Transaction -> bool
  {
    (t: Transaction) => t.createdAt >= WeekAgo(now)
  }

  /** `dailyRevenue`: the amounts of the transactions created on today's local date. */
  function DailyRevenue(ts: seq<Transaction>, now: int, dateOf: int -> CalendarDate): (r: int)
    ensures ts == [] ==> r == 0
  {
    SumAmounts(Where(ts, IsToday(now, dateOf)))
  }

  /** `weeklyRevenue`: the amounts of the transactions created at or after this moment a week ago. */
  function WeeklyRevenue(ts: seq<Transaction>, now: int): (r: int)
    ensures ts == [] ==> r == 0
  {
    SumAmounts(Where(ts, InLastWeek(now)))
  }

  /** One more transaction changes today's revenue by its amount exactly when it is from today. */
  lemma DailyRevenueAppend(ts: seq<Transaction>, t: Transaction, now: int, dateOf: int -> CalendarDate)
    ensures DailyRevenue(ts + [t], now, dateOf)
            == DailyRevenue(ts, now, dateOf) + (if SameDay(dateOf(t.createdAt), dateOf(now)) then Amount(t) else 0)
  {
    SumWhereIsSumOfWhere(ts + [t], IsToday(now, dateOf));
    SumWhereIsSumOfWhere(ts, IsToday(now, dateOf));
    assert (ts + [t])[..|ts + [t]| - 1] == ts;
  }

  /** One more transaction changes the week's revenue by its amount exactly when it is at most seven days old. */
  lemma WeeklyRevenueAppend(ts: seq<Transaction>, t: Transaction, now: int)
    ensures WeeklyRevenue(ts + [t], now)
            == WeeklyRevenue(ts, now) + (if t.createdAt >= WeekAgo(now) then Amount(t) else 0)
  {
    SumWhereIsSumOfWhere(ts + [t], InLastWeek(now));
    SumWhereIsSumOfWhere(ts, InLastWeek(now));
    assert (ts + [t])[..|ts + [t]| - 1] == ts;
  }

  /** The list the subscription stores: a sorted copy, `[...data].sort(newest first)`. */
  function Arrange(data: seq<Transaction>): (stored: seq<Transaction>)
    ensures Ordering.NewestFirst(stored, CreatedAt)
    ensures multiset(stored) == multiset(data)
  {
    Ordering.SortNewestFirst(data, CreatedAt)
  }

  /** Data that arrives already newest first, as the service delivers it, is stored as it came. */
  lemma ArrangeDelivered(data: seq<Transaction>)
    requires Ordering.NewestFirst(data, CreatedAt)
    ensures Arrange(data) == data
  {
    Ordering.SortSorted(data, CreatedAt);
  }

  /** Sorting does not change either revenue: they are the same over the stored list as over the delivered data. */
  lemma RevenueOfArranged(data: seq<Transaction>, now: int, dateOf: int -> CalendarDate)
    ensures DailyRevenue(Arrange(data), now, dateOf) == DailyRevenue(data, now, dateOf)
    ensures WeeklyRevenue(Arrange(data), now) == WeeklyRevenue(data, now)
  {
    var stored := Arrange(data);
    SumWhereIsSumOfWhere(stored, IsToday(now, dateOf));
    SumWhereIsSumOfWhere(data, IsToday(now, dateOf));
    SumWherePermutation(stored, data, IsToday(now, dateOf));
    SumWhereIsSumOfWhere(stored, InLastWeek(now));
    SumWhereIsSumOfWhere(data, InLastWeek(now));
    SumWherePermutation(stored, data, InLastWeek(now));
  }
}
