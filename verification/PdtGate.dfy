/**
 * The Pattern Day Trader gate (internal/engine/pdt.go) and the prefetch of the
 * rows it reads (internal/db/day_trades.go).
 */
module PdtGate {
  import opened Wrappers
  import opened Calendar
  import opened Models
  import opened Seqs

  const PDT_EQUITY_THRESHOLD := 25000.0
  const PDT_DAY_TRADE_LIMIT := 3
  const WINDOW_DAYS := 5
  const PREFETCH_DAYS := 14

  const PDT_REASON := "account equity is below $25,000 and has reached the FINRA day-trade limit for the rolling "
                      + "5-business-day window; one more day trade will trigger a Pattern Day Trader restriction"

  datatype PdtCheck = PdtCheck(restricted: bool, dayTradesInWindow: nat, reason: string)

  // ---- What the code counts ----

  /** The rows that the counting loop counts. */
  predicate Counts(t: DayTrade, user: UserId, broker: Broker, asOf: Instant) {
    && t.userId == user
    && t.broker == broker
    && !t.tradeDate.Before(WindowStart(asOf, WINDOW_DAYS))
    && !t.tradeDate.After(asOf)
  }

  function Counted(user: UserId, broker: Broker, asOf: Instant): DayTrade -> bool {
    (t: DayTrade) => Counts(t, user, broker, asOf)
  }

  function DayTradeCount(trades: seq<DayTrade>, user: UserId, broker: Broker, asOf: Instant): nat {
    |Filter(trades, Counted(user, broker, asOf))|
  }

  method CountDayTradesInWindow(trades: seq<DayTrade>, user: UserId, broker: Broker, asOf: Instant)
    returns (count: nat)
    ensures count == DayTradeCount(trades, user, broker, asOf)
  {
    var windowStart := BusinessDaysBack(asOf, WINDOW_DAYS);
    count := 0;
    for i := 0 to |trades|
      invariant count == DayTradeCount(trades[..i], user, broker, asOf)
    {
      var t := trades[i];
      assert trades[..i + 1] == trades[..i] + [t];
      FilterAppend(trades[..i], t, Counted(user, broker, asOf));
      if t.userId != user || t.broker != broker {
        continue;
      }
      if !t.tradeDate.Before(windowStart) && !t.tradeDate.After(asOf) {
        count := count + 1;
      }
    }
    assert trades[..|trades|] == trades;
  }

  function Decision(account: Account, user: UserId, broker: Broker, trades: seq<DayTrade>, asOf: Instant): PdtCheck {
    if account.equity >= PDT_EQUITY_THRESHOLD then PdtCheck(false, 0, "")
    else
      var count := DayTradeCount(trades, user, broker, asOf);
      if count >= PDT_DAY_TRADE_LIMIT then PdtCheck(true, count, PDT_REASON) else PdtCheck(false, count, "")
  }

  method CheckPDT(account: Account, user: UserId, broker: Broker, trades: seq<DayTrade>, asOf: Instant)
    returns (check: PdtCheck)
    ensures check == Decision(account, user, broker, trades, asOf)
    ensures check.restricted <==> account.equity < 25000.0 && DayTradeCount(trades, user, broker, asOf) >= 3
    ensures account.equity < 25000.0 ==> check.dayTradesInWindow == DayTradeCount(trades, user, broker, asOf)
    ensures account.equity >= 25000.0 ==> check.dayTradesInWindow == 0
    ensures check.reason ==
      if check.restricted
      then "account equity is below $25,000 and has reached the FINRA day-trade limit for the rolling "
           + "5-business-day window; one more day trade will trigger a Pattern Day Trader restriction"
      else ""
  {
    if account.equity >= PDT_EQUITY_THRESHOLD {
      return PdtCheck(false, 0, "");
    }
    var count := CountDayTradesInWindow(trades, user, broker, asOf);
    if count >= PDT_DAY_TRADE_LIMIT {
      return PdtCheck(true, count, PDT_REASON);
    }
    return PdtCheck(false, count, "");
  }

  // ---- The prefetch ----

  /** The rows a prefetch of `lookback` calendar days selects. The column is a DATE, so the comparison is between dates. */
  predicate Fetches(t: DayTrade, user: UserId, broker: Broker, now: Instant, lookback: int) {
    t.userId == user && t.broker == broker && t.tradeDate.day >= now.AddDays(-lookback).day
  }

  function Fetched(user: UserId, broker: Broker, now: Instant, lookback: int): DayTrade -> bool {
    (t: DayTrade) => Fetches(t, user, broker, now, lookback)
  }

  function RecentTrades(table: seq<DayTrade>, user: UserId, broker: Broker, now: Instant): seq<DayTrade> {
    Filter(table, Fetched(user, broker, now, PREFETCH_DAYS))
  }

  /** The rows of that user and broker dated on that day or later, as often as they are in the table, and no others. */
  ghost predicate IsSelection(table: seq<DayTrade>, rows: seq<DayTrade>, user: UserId, broker: Broker, since: int) {
    forall t: DayTrade ::
      multiset(rows)[t] == if t.userId == user && t.broker == broker && since <= t.tradeDate.day then multiset(table)[t] else 0
  }

  lemma RecentTradesAre(table: seq<DayTrade>, user: UserId, broker: Broker, now: Instant)
    ensures IsSelection(table, RecentTrades(table, user, broker, now), user, broker, now.day - 14)
  {
    forall t: DayTrade
      ensures multiset(RecentTrades(table, user, broker, now))[t] ==
        if t.userId == user && t.broker == broker && now.day - 14 <= t.tradeDate.day then multiset(table)[t] else 0
    {
      FilterCounts(table, Fetched(user, broker, now, PREFETCH_DAYS), t);
    }
  }

  class DayTradeStore {
    var table: seq<DayTrade>

    method ListRecent(user: UserId, broker: Broker, now: Instant, queryOk: bool)
      returns (r: Result<seq<DayTrade>, string>)
      ensures r == if queryOk then Success(RecentTrades(table, user, broker, now)) else Failure("db: list day trades")
      ensures queryOk ==> IsSelection(table, r.value, user, broker, now.day - 14)
    {
      if !queryOk {
        return Failure("db: list day trades");
      }
      var trades := [];
      for i := 0 to |table|
        invariant trades == RecentTrades(table[..i], user, broker, now)
      {
        var t := table[i];
        assert table[..i + 1] == table[..i] + [t];
        FilterAppend(table[..i], t, Fetched(user, broker, now, PREFETCH_DAYS));
        if t.userId == user && t.broker == broker && t.tradeDate.day >= now.AddDays(-14).day {
          trades := trades + [t];
        }
      }
      assert table[..|table|] == table;
      RecentTradesAre(table, user, broker, now);
      return Success(trades);
    }
  }

  // ---- The gate's answer does not depend on row order or on the prefetch ----

  lemma RowOrderIrrelevant(account: Account, user: UserId, broker: Broker,
                           rows: seq<DayTrade>, reordered: seq<DayTrade>, asOf: Instant)
    requires multiset(rows) == multiset(reordered)
    ensures Decision(account, user, broker, rows, asOf) == Decision(account, user, broker, reordered, asOf)
  {
    FilterPermutation(rows, reordered, Counted(user, broker, asOf));
  }

  /** The window never reaches back more than seven calendar days. */
  lemma CountedRowsAreFetched(t: DayTrade, user: UserId, broker: Broker, now: Instant, asOf: Instant, lookback: int)
    requires Counts(t, user, broker, asOf) && !now.After(asOf) && 7 <= lookback
    ensures Fetches(t, user, broker, now, lookback)
  {
    FiveBusinessDaysReach(asOf.day);
  }

  lemma PrefetchLosesNothing(table: seq<DayTrade>, user: UserId, broker: Broker,
                             now: Instant, asOf: Instant, lookback: int)
    requires !now.After(asOf) && 7 <= lookback
    ensures Filter(Filter(table, Fetched(user, broker, now, lookback)), Counted(user, broker, asOf))
         == Filter(table, Counted(user, broker, asOf))
  {
    forall i | 0 <= i < |table| && Counted(user, broker, asOf)(table[i])
      ensures Fetched(user, broker, now, lookback)(table[i])
    {
      CountedRowsAreFetched(table[i], user, broker, now, asOf, lookback);
    }
    FilterAfterCoarser(table, Fetched(user, broker, now, lookback), Counted(user, broker, asOf));
  }

  /** The gate answers the same on the fetched rows, in any order the query returns them, as on the whole table. */
  lemma GateSeesTheWholeTable(account: Account, user: UserId, broker: Broker, table: seq<DayTrade>,
                              rows: seq<DayTrade>, now: Instant, asOf: Instant)
    requires !now.After(asOf)
    requires multiset(rows) == multiset(RecentTrades(table, user, broker, now))
    ensures Decision(account, user, broker, rows, asOf) == Decision(account, user, broker, table, asOf)
  {
    RowOrderIrrelevant(account, user, broker, rows, RecentTrades(table, user, broker, now), asOf);
    PrefetchLosesNothing(table, user, broker, now, asOf, PREFETCH_DAYS);
  }

  /** A prefetch answers like the whole table for every account, table and pair of clock readings. */
  ghost predicate LookbackSuffices(lookback: int) {
    forall account: Account, user: UserId, broker: Broker, table: seq<DayTrade>, now: Instant, asOf: Instant ::
      !now.After(asOf) ==>
        SameDecision(account, user, broker, Filter(table, Fetched(user, broker, now, lookback)), table, asOf)
  }

  predicate SameDecision(account: Account, user: UserId, broker: Broker,
                         rows: seq<DayTrade>, table: seq<DayTrade>, asOf: Instant) {
    Decision(account, user, broker, rows, asOf) == Decision(account, user, broker, table, asOf)
  }

  /** Seven days is exactly what a prefetch needs; the code's fourteen leave a week to spare. */
  lemma LookbackSufficesIff(lookback: int)
    ensures LookbackSuffices(lookback) <==> 7 <= lookback
  {
    if 7 <= lookback {
      forall account: Account, user: UserId, broker: Broker, table: seq<DayTrade>, now: Instant, asOf: Instant
        | !now.After(asOf)
        ensures SameDecision(account, user, broker, Filter(table, Fetched(user, broker, now, lookback)), table, asOf)
      {
        PrefetchLosesNothing(table, user, broker, now, asOf, lookback);
      }
    } else {
      ShortLookbackMisses(lookback);
    }
  }

  lemma ThreeKept(t: DayTrade, keep: DayTrade -> bool)
    ensures |Filter([t, t, t], keep)| == if keep(t) then 3 else 0
  {
    FilterAppend([], t, keep);
    FilterAppend([t], t, keep);
    FilterAppend([t, t], t, keep);
    assert [] + [t] == [t] && [t] + [t] == [t, t] && [t, t] + [t] == [t, t, t];
  }

  /** Three trades made a week ago on the dot restrict an account at midnight, and a shorter prefetch misses them. */
  lemma ShortLookbackMisses(lookback: int)
    requires lookback < 7
    ensures !LookbackSuffices(lookback)
  {
    var account := Account("a", Alpaca, "USD", 0.0, 0.0, 0.0);
    var t := DayTrade("t", "u", Alpaca, "SPY", DateOf(0));
    var table, asOf := [t, t, t], DateOf(7);
    var counted, fetched := Counted("u", Alpaca, asOf), Fetched("u", Alpaca, asOf, lookback);
    FiveBusinessDaysReach(7);
    assert counted(t) && !fetched(t);
    ThreeKept(t, counted);
    ThreeKept(t, fetched);
    assert !Decision(account, "u", Alpaca, Filter(table, fetched), asOf).restricted;
    assert Decision(account, "u", Alpaca, table, asOf).restricted;
    assert !SameDecision(account, "u", Alpaca, Filter(table, fetched), table, asOf);
  }

  // ---- What the rule means: trades on the five business dates ending with today ----

  /** Trade dates are DATEs, and day trades happen on weekdays. */
  ghost predicate DatedOnWeekdays(trades: seq<DayTrade>) {
    forall i :: 0 <= i < |trades| ==> trades[i].tradeDate.IsMidnight() && IsWeekday(trades[i].tradeDate.day)
  }

  /** One of the last five business dates, today included: at most five weekdays from it through today. */
  predicate AmongLastFive(date: int, today: int) {
    IsWeekday(date) && date <= today && WeekdaysBetween(date, today + 1) <= WINDOW_DAYS
  }

  function Meant(user: UserId, broker: Broker, today: int): DayTrade -> bool {
    (t: DayTrade) => t.userId == user && t.broker == broker && AmongLastFive(t.tradeDate.day, today)
  }

  /** The last five business dates are the weekdays of the last seven days. */
  lemma LastFiveReach(date: int, today: int)
    requires IsWeekday(date)
    ensures AmongLastFive(date, today) <==> today - 6 <= date <= today
  {
    if today - 6 <= date <= today {
      WeekHoldsFive(date, today + 1);
    } else if date < today - 6 {
      MoreThanAWeekHoldsSix(date, today + 1);
    }
  }

  /** On which dates the window and the rule agree. */
  lemma WindowMeetsRule(date: int, asOf: Instant)
    requires IsWeekday(date)
    ensures (IsWeekday(asOf.day) <==> !asOf.IsMidnight())
        ==> (DateInWindow(date, asOf, WINDOW_DAYS) <==> AmongLastFive(date, asOf.day))
    ensures IsWeekday(asOf.day) && asOf.IsMidnight()
        ==> (DateInWindow(date, asOf, WINDOW_DAYS) <==> AmongLastFive(date, asOf.day) || date == asOf.day - 7)
    ensures !IsWeekday(asOf.day) && !asOf.IsMidnight()
        ==> (DateInWindow(date, asOf, WINDOW_DAYS)
             <==> AmongLastFive(date, asOf.day) && date != StartDay(asOf.day, WINDOW_DAYS))
  {
    LastFiveReach(date, asOf.day);
    FiveBusinessDaysReach(asOf.day);
  }

  ghost predicate CountMeetsRule(asOf: Instant) {
    forall trades: seq<DayTrade>, user: UserId, broker: Broker ::
      DatedOnWeekdays(trades) ==>
        DayTradeCount(trades, user, broker, asOf) == |Filter(trades, Meant(user, broker, asOf.day))|
  }

  lemma CountMeetsRuleOn(trades: seq<DayTrade>, user: UserId, broker: Broker, asOf: Instant)
    requires DatedOnWeekdays(trades) && (IsWeekday(asOf.day) <==> !asOf.IsMidnight())
    ensures DayTradeCount(trades, user, broker, asOf) == |Filter(trades, Meant(user, broker, asOf.day))|
  {
    forall i | 0 <= i < |trades|
      ensures Counted(user, broker, asOf)(trades[i]) == Meant(user, broker, asOf.day)(trades[i])
    {
      WindowMeetsRule(trades[i].tradeDate.day, asOf);
      assert trades[i].tradeDate == DateOf(trades[i].tradeDate.day);
    }
    FilterAgree(trades, Counted(user, broker, asOf), Meant(user, broker, asOf.day));
  }

  /** Otherwise the window and the rule disagree about the oldest date of the window. */
  lemma OldestDateMisplaced(asOf: Instant)
    requires !(IsWeekday(asOf.day) <==> !asOf.IsMidnight())
    ensures var date := StartDay(asOf.day, WINDOW_DAYS);
            IsWeekday(date) && (DateInWindow(date, asOf, WINDOW_DAYS) <==> !AmongLastFive(date, asOf.day))
  {
    var date := StartDay(asOf.day, WINDOW_DAYS);
    StartDayIsLatest(asOf.day, WINDOW_DAYS);
    FiveBusinessDaysReach(asOf.day);
    assert WeekdaysBetween(date, asOf.day + 1) == 5 + if IsWeekday(asOf.day) then 1 else 0;
    WindowMeetsRule(date, asOf);
  }

  lemma SingleTrade(t: DayTrade, keep: DayTrade -> bool)
    ensures Filter([t], keep) == if keep(t) then [t] else []
  {
    FilterAppend([], t, keep);
    assert [] + [t] == [t];
  }

  /** So a single trade on that date is counted wrongly. */
  lemma OldestDateMiscounted(asOf: Instant) returns (t: DayTrade)
    requires !(IsWeekday(asOf.day) <==> !asOf.IsMidnight())
    ensures DatedOnWeekdays([t])
    ensures DayTradeCount([t], t.userId, t.broker, asOf) != |Filter([t], Meant(t.userId, t.broker, asOf.day))|
  {
    OldestDateMisplaced(asOf);
    t := DayTrade("t", "u", Alpaca, "SPY", DateOf(StartDay(asOf.day, WINDOW_DAYS)));
    SingleTrade(t, Counted("u", Alpaca, asOf));
    SingleTrade(t, Meant("u", Alpaca, asOf.day));
  }

  /**
   * The loop counts exactly that user's and broker's trades on the five
   * business dates ending with today precisely when the clock reads a weekday
   * after midnight, or midnight on a weekend. At a weekday midnight it counts
   * a sixth date, and on the rest of a weekend only four.
   */
  lemma CountMeetsRuleIff(asOf: Instant)
    ensures CountMeetsRule(asOf) <==> (IsWeekday(asOf.day) <==> !asOf.IsMidnight())
  {
    if IsWeekday(asOf.day) <==> !asOf.IsMidnight() {
      forall trades: seq<DayTrade>, user: UserId, broker: Broker | DatedOnWeekdays(trades)
        ensures DayTradeCount(trades, user, broker, asOf) == |Filter(trades, Meant(user, broker, asOf.day))|
      {
        CountMeetsRuleOn(trades, user, broker, asOf);
      }
    } else {
      var t := OldestDateMiscounted(asOf);
      assert DatedOnWeekdays([t]);
    }
  }

  /**
   * End to end: whenever the count meets the rule, on a weekday after midnight
   * or at a weekend midnight, the gate refuses exactly the accounts under the
   * threshold whose owner has made three or more day trades at the broker,
   * anywhere in the table, on the last five business dates.
   */
  lemma GateRule(account: Account, user: UserId, broker: Broker, table: seq<DayTrade>, now: Instant, asOf: Instant)
    requires DatedOnWeekdays(table) && !now.After(asOf)
    requires IsWeekday(asOf.day) <==> !asOf.IsMidnight()
    ensures Decision(account, user, broker, RecentTrades(table, user, broker, now), asOf).restricted
       <==> account.equity < 25000.0 && |Filter(table, Meant(user, broker, asOf.day))| >= 3
    ensures account.equity < 25000.0 ==>
      Decision(account, user, broker, RecentTrades(table, user, broker, now), asOf).dayTradesInWindow
      == |Filter(table, Meant(user, broker, asOf.day))|
  {
    GateSeesTheWholeTable(account, user, broker, table, RecentTrades(table, user, broker, now), now, asOf);
    CountMeetsRuleOn(table, user, broker, asOf);
  }

  // ---- How a restriction ends ----

  ghost predicate NoTradesAfter(trades: seq<DayTrade>, t: Instant) {
    forall i :: 0 <= i < |trades| ==> trades[i].tradeDate.IsMidnight() && !trades[i].tradeDate.After(t)
  }

  ghost predicate CountNeverRises(t1: Instant, t2: Instant) {
    forall trades: seq<DayTrade>, user: UserId, broker: Broker ::
      NoTradesAfter(trades, t1) ==> DayTradeCount(trades, user, broker, t2) <= DayTradeCount(trades, user, broker, t1)
  }

  /**
   * With no new day trades the count does not rise as the clock advances, with
   * one exception: from a moment past midnight to a later midnight across
   * nothing but weekend days.
   */
  lemma CountNeverRisesIff(t1: Instant, t2: Instant)
    requires !t2.Before(t1)
    ensures CountNeverRises(t1, t2) <==> (!t2.IsMidnight() || t1.IsMidnight() || WeekdaysBetween(t1.day, t2.day) > 0)
  {
    StartDayMonotone(t1.day, t2.day, WINDOW_DAYS);
    if !t2.IsMidnight() || t1.IsMidnight() || WeekdaysBetween(t1.day, t2.day) > 0 {
      forall trades: seq<DayTrade>, user: UserId, broker: Broker | NoTradesAfter(trades, t1)
        ensures DayTradeCount(trades, user, broker, t2) <= DayTradeCount(trades, user, broker, t1)
      {
        FilterMonotone(trades, Counted(user, broker, t2), Counted(user, broker, t1));
      }
    } else {
      var t := DayTrade("t", "u", Alpaca, "SPY", DateOf(StartDay(t1.day, WINDOW_DAYS)));
      StartDayIsLatest(t1.day, WINDOW_DAYS);
      SingleTrade(t, Counted("u", Alpaca, t1));
      SingleTrade(t, Counted("u", Alpaca, t2));
      assert NoTradesAfter([t], t1);
      assert DayTradeCount([t], "u", Alpaca, t2) > DayTradeCount([t], "u", Alpaca, t1);
    }
  }

  function Never(): DayTrade -> bool {
    (t: DayTrade) => false
  }

  lemma FilterNothing(trades: seq<DayTrade>)
    ensures Filter(trades, Never()) == []
  {
  }

  /** How many calendar days after its latest trade every account is clear. */
  function DaysToClear(asOf: Instant): nat {
    (if IsWeekday(asOf.day) then 7 else if Weekday(asOf.day) == SATURDAY then 5 else 6) + if asOf.IsMidnight() then 1 else 0
  }

  lemma NothingCounted(user: UserId, broker: Broker, trades: seq<DayTrade>, latest: int, asOf: Instant)
    requires NoTradesAfter(trades, DateOf(latest)) && latest + DaysToClear(asOf) <= asOf.day
    ensures DayTradeCount(trades, user, broker, asOf) == 0
  {
    FiveBusinessDaysReach(asOf.day);
    forall i | 0 <= i < |trades|
      ensures Counted(user, broker, asOf)(trades[i]) == Never()(trades[i])
    {
      assert !trades[i].tradeDate.After(DateOf(latest));
    }
    FilterAgree(trades, Counted(user, broker, asOf), Never());
    FilterNothing(trades);
  }

  /**
   * From the seventh calendar day after the latest trade no account is
   * restricted (at midnight, from the eighth).
   */
  lemma ClearFromSeventhDay(account: Account, user: UserId, broker: Broker, trades: seq<DayTrade>,
                            latest: int, asOf: Instant)
    requires NoTradesAfter(trades, DateOf(latest))
    requires latest + 7 <= asOf.day && (asOf.IsMidnight() ==> latest + 8 <= asOf.day)
    ensures DayTradeCount(trades, user, broker, asOf) == 0
    ensures !Decision(account, user, broker, trades, asOf).restricted
  {
    NothingCounted(user, broker, trades, latest, asOf);
  }

  /** No account without a trade after that day is restricted. */
  ghost predicate AllClear(latest: int, asOf: Instant) {
    forall account: Account, user: UserId, broker: Broker, trades: seq<DayTrade> ::
      NoTradesAfter(trades, DateOf(latest)) ==> !Decision(account, user, broker, trades, asOf).restricted
  }

  /**
   * Sharp for every clock reading: all accounts are clear a week after the
   * latest trade on a weekday, five days after it on a Saturday, six on a
   * Sunday, each time one day later at midnight, and never before.
   */
  lemma ClearIff(latest: int, asOf: Instant)
    ensures AllClear(latest, asOf) <==> latest + DaysToClear(asOf) <= asOf.day
  {
    if latest + DaysToClear(asOf) <= asOf.day {
      forall account: Account, user: UserId, broker: Broker, trades: seq<DayTrade>
        | NoTradesAfter(trades, DateOf(latest))
        ensures !Decision(account, user, broker, trades, asOf).restricted
      {
        NothingCounted(user, broker, trades, latest, asOf);
      }
    } else {
      var t := DayTrade("t", "u", Alpaca, "SPY", DateOf(if latest < asOf.day then latest else asOf.day));
      FiveBusinessDaysReach(asOf.day);
      ThreeTradesRestrict(t, asOf);
      assert NoTradesAfter([t, t, t], DateOf(latest));
    }
  }

  lemma ThreeTradesRestrict(t: DayTrade, asOf: Instant)
    requires Counts(t, t.userId, t.broker, asOf)
    ensures Decision(Account("a", t.broker, "USD", 0.0, 0.0, 0.0), t.userId, t.broker, [t, t, t], asOf).restricted
  {
    ThreeKept(t, Counted(t.userId, t.broker, asOf));
  }
}
