/**
  Trading-day arithmetic over the exchange calendars. Dates are day numbers. What the calendar
  library holds for a calendar name is the function `library`.
 */
module TradingCalendar {
  import opened Common

  type Library = (string, int) -> bool

  const MAPPED := {"ASX", "NYSE", "NASDAQ"}
  const HORIZON := 14

  predicate IsCrypto(key: string) {
    "CRYPTO_" <= key || key == "CRYPTO"
  }

  /** Crypto never closes; an exchange without a calendar of its own is judged by the ASX one. */
  predicate TradingDay(library: Library, key: string, day: int) {
    IsCrypto(key) || library(if key in MAPPED then key else "ASX", day)
  }

  /** Which calendar is asked. */
  lemma TradingDayIs(library: Library, key: string, day: int)
    ensures "CRYPTO_" <= key || key == "CRYPTO" ==> TradingDay(library, key, day)
    ensures key in {"ASX", "NYSE", "NASDAQ"} ==> (TradingDay(library, key, day) <==> library(key, day))
    ensures !("CRYPTO_" <= key) && key !in {"CRYPTO", "ASX", "NYSE", "NASDAQ"} ==>
      (TradingDay(library, key, day) <==> library("ASX", day))
  {
  }

  /** The first trading day at or after `day` within `left` steps. */
  function FirstFrom(library: Library, key: string, day: int, left: nat): Option<int>
    decreases left
  {
    if left == 0 then None
    else if TradingDay(library, key, day) then Some(day)
    else FirstFrom(library, key, day + 1, left - 1)
  }

  /** The last trading day at or before `day` within `left` steps. */
  function LastFrom(library: Library, key: string, day: int, left: nat): Option<int>
    decreases left
  {
    if left == 0 then None
    else if TradingDay(library, key, day) then Some(day)
    else LastFrom(library, key, day - 1, left - 1)
  }

  /** None is the source's ValueError. */
  function Next(library: Library, key: string, day: int): Option<int> {
    FirstFrom(library, key, day + 1, HORIZON)
  }

  function Previous(library: Library, key: string, day: int): Option<int> {
    LastFrom(library, key, day - 1, HORIZON)
  }

  lemma {:induction false} FirstFromIsLeast(library: Library, key: string, day: int, left: nat)
    ensures var r := FirstFrom(library, key, day, left);
      && (r.Some? ==> day <= r.value < day + left && TradingDay(library, key, r.value))
      && forall d | day <= d < (if r.Some? then r.value else day + left) :: !TradingDay(library, key, d)
    decreases left
  {
    if left != 0 {
      FirstFromIsLeast(library, key, day + 1, left - 1);
    }
  }

  lemma {:induction false} LastFromIsGreatest(library: Library, key: string, day: int, left: nat)
    ensures var r := LastFrom(library, key, day, left);
      && (r.Some? ==> day - left < r.value <= day && TradingDay(library, key, r.value))
      && forall d | (if r.Some? then r.value else day - left) < d <= day :: !TradingDay(library, key, d)
    decreases left
  {
    if left != 0 {
      LastFromIsGreatest(library, key, day - 1, left - 1);
    }
  }

  /** The answer is the least trading day after `day`, found whenever one lies within the fortnight. */
  lemma NextIsLeast(library: Library, key: string, day: int)
    ensures var r := Next(library, key, day);
      && (r.Some? ==> day < r.value <= day + 14 && TradingDay(library, key, r.value))
      && (forall d | day < d <= day + 14 && TradingDay(library, key, d) :: r.Some? && r.value <= d)
  {
    FirstFromIsLeast(library, key, day + 1, HORIZON);
  }

  lemma PreviousIsGreatest(library: Library, key: string, day: int)
    ensures var r := Previous(library, key, day);
      && (r.Some? ==> day - 14 <= r.value < day && TradingDay(library, key, r.value))
      && (forall d | day - 14 <= d < day && TradingDay(library, key, d) :: r.Some? && d <= r.value)
  {
    LastFromIsGreatest(library, key, day - 1, HORIZON);
  }

  /** Trading days between two dates, both included. */
  function DaysBetween(library: Library, key: string, start: int, end: int): seq<int>
    decreases end - start
  {
    if end < start then []
    else (if TradingDay(library, key, start) then [start] else []) + DaysBetween(library, key, start + 1, end)
  }

  lemma {:induction false} DaysBetweenListsAll(library: Library, key: string, start: int, end: int)
    ensures var days := DaysBetween(library, key, start, end);
      && (forall d :: d in days <==> start <= d <= end && TradingDay(library, key, d))
      && (forall i, j | 0 <= i < j < |days| :: days[i] < days[j])
    decreases end - start
  {
    hide TradingDay;
    if start <= end {
      DaysBetweenListsAll(library, key, start + 1, end);
      var rest := DaysBetween(library, key, start + 1, end);
      assert forall i | 0 <= i < |rest| :: rest[i] in rest;
      if TradingDay(library, key, start) {
        assert DaysBetween(library, key, start, end) == [start] + rest;
      } else {
        assert DaysBetween(library, key, start, end) == rest;
      }
    }
  }

  lemma CryptoTradesDaily(library: Library, key: string, day: int)
    requires IsCrypto(key)
    ensures TradingDay(library, key, day)
  {
  }

  lemma NoneLeft(library: Library, key: string, day: int)
    ensures FirstFrom(library, key, day, 0) == None && LastFrom(library, key, day, 0) == None
  {
  }

  /** One step of each recursion. */
  lemma Unfold(library: Library, key: string, day: int, left: nat)
    requires left != 0
    ensures FirstFrom(library, key, day, left) ==
      if TradingDay(library, key, day) then Some(day) else FirstFrom(library, key, day + 1, left - 1)
    ensures LastFrom(library, key, day, left) ==
      if TradingDay(library, key, day) then Some(day) else LastFrom(library, key, day - 1, left - 1)
  {
  }

  /** What get_trading_days answers: nothing at all for an exchange it has no calendar for. */
  function TradingDays(library: Library, key: string, start: int, end: int): seq<int> {
    if IsCrypto(key) || key in MAPPED then DaysBetween(library, key, start, end) else []
  }

  lemma NextMonotone(library: Library, key: string, d: int, e: int)
    requires d <= e && Next(library, key, d).Some? && Next(library, key, e).Some?
    ensures Next(library, key, d).value <= Next(library, key, e).value
    ensures e < Next(library, key, d).value ==> Next(library, key, e) == Next(library, key, d)
  {
    hide Next;
    NextIsLeast(library, key, d);
    NextIsLeast(library, key, e);
  }

  /** On trading days, stepping forward and back returns to the start, in either order. */
  lemma NextAndPreviousUndo(library: Library, key: string, day: int)
    requires TradingDay(library, key, day)
    ensures var n := Next(library, key, day); n.Some? ==> Previous(library, key, n.value) == Some(day)
    ensures var p := Previous(library, key, day); p.Some? ==> Next(library, key, p.value) == Some(day)
  {
    hide Next, Previous;
    NextIsLeast(library, key, day);
    PreviousIsGreatest(library, key, day);
    var n, p := Next(library, key, day), Previous(library, key, day);
    if n.Some? {
      PreviousIsGreatest(library, key, n.value);
    }
    if p.Some? {
      NextIsLeast(library, key, p.value);
    }
  }

  /**
    The next trading day is the first of the following fortnight's listing exactly when the exchange has
    a calendar or nothing trades in that fortnight; an unmapped exchange borrows the ASX calendar in the
    one call and gets an empty listing in the other.
   */
  lemma NextIsHeadOfListing(library: Library, key: string, day: int)
    ensures var days, next := TradingDays(library, key, day + 1, day + HORIZON), Next(library, key, day);
      next == (if days == [] then None else Some(days[0])) <==>
        IsCrypto(key) || key in MAPPED || forall d | day < d <= day + HORIZON :: !TradingDay(library, key, d)
  {
    hide Next;
    NextIsLeast(library, key, day);
    var next := Next(library, key, day);
    var days := DaysBetween(library, key, day + 1, day + HORIZON);
    DaysBetweenListsAll(library, key, day + 1, day + HORIZON);
    if next.Some? {
      assert next.value in days;
    }
    if days != [] {
      assert days[0] in days;
      assert TradingDay(library, key, days[0]);
    }
  }

  /** An exchange without a calendar has a next trading day and, for the fortnight it falls in, an empty listing. */
  lemma UnmappedIsNotListed() returns (library: Library, key: string)
    ensures Next(library, key, 0) == Some(1) && TradingDays(library, key, 1, HORIZON) == []
  {
    library, key := (_, _) => true, "LSE";
    Unfold(library, key, 1, HORIZON);
  }

  class MarketCalendar {
    const library: Library
    /** Calendar names already looked up in the library, with what it returned. */
    var calendars: map<string, int -> bool>

    ghost predicate Valid()
      reads this
    {
      forall key | key in calendars :: key in MAPPED && forall d: int :: calendars[key](d) == library(key, d)
    }

    constructor (library: Library)
      ensures Valid() && this.library == library
    {
      this.library := library;
      calendars := map[];
    }

    method GetCalendar(key: string) returns (cal: Option<int -> bool>)
      requires Valid()
      modifies this
      ensures Valid()
      ensures cal.Some? <==> key in {"ASX", "NYSE", "NASDAQ"}
      ensures cal.Some? ==> forall d: int :: cal.value(d) == library(key, d)
    {
      if key !in calendars && key in MAPPED {
        var f := this.library;
        calendars := calendars[key := d => f(key, d)];
      }
      cal := if key in calendars then Some(calendars[key]) else None;
    }

    method IsTradingDay(key: string, day: int) returns (trading: bool)
      requires Valid()
      modifies this
      ensures Valid() && trading == TradingDay(library, key, day)
      ensures trading <==>
        "CRYPTO_" <= key || key == "CRYPTO"
        || library(if key in {"ASX", "NYSE", "NASDAQ"} then key else "ASX", day)
    {
      if IsCrypto(key) {
        return true;
      }
      var cal := GetCalendar(key);
      if cal == None {
        cal := GetCalendar("ASX");
      }
      trading := cal.value(day);
    }

    method NextTradingDay(key: string, day: int) returns (r: Option<int>)
      requires Valid()
      modifies this
      ensures Valid() && r == Next(library, key, day)
    {
      hide Valid, IsCrypto, TradingDay, FirstFrom;
      Unfold(library, key, day + 1, HORIZON);
      if IsCrypto(key) {
        CryptoTradesDaily(library, key, day + 1);
        return Some(day + 1);
      }
      var candidate := day + 1;
      for step := 0 to HORIZON
        invariant Valid() && candidate == day + 1 + step
        invariant FirstFrom(library, key, candidate, HORIZON - step) == Next(library, key, day)
      {
        Unfold(library, key, candidate, HORIZON - step);
        var trading := IsTradingDay(key, candidate);
        if trading {
          return Some(candidate);
        }
        candidate := candidate + 1;
      }
      NoneLeft(library, key, candidate);
      r := None;
    }

    method PreviousTradingDay(key: string, day: int) returns (r: Option<int>)
      requires Valid()
      modifies this
      ensures Valid() && r == Previous(library, key, day)
    {
      hide Valid, IsCrypto, TradingDay, LastFrom;
      Unfold(library, key, day - 1, HORIZON);
      if IsCrypto(key) {
        CryptoTradesDaily(library, key, day - 1);
        return Some(day - 1);
      }
      var candidate := day - 1;
      for step := 0 to HORIZON
        invariant Valid() && candidate == day - 1 - step
        invariant LastFrom(library, key, candidate, HORIZON - step) == Previous(library, key, day)
      {
        Unfold(library, key, candidate, HORIZON - step);
        var trading := IsTradingDay(key, candidate);
        if trading {
          return Some(candidate);
        }
        candidate := candidate - 1;
      }
      NoneLeft(library, key, candidate);
      r := None;
    }

    method EveryDay(key: string, start: int, end: int) returns (days: seq<int>)
      requires IsCrypto(key)
      ensures days == DaysBetween(library, key, start, end)
    {
      hide IsCrypto;
      days := [];
      var current := start;
      while current <= end
        invariant start <= current
        invariant days + DaysBetween(library, key, current, end) == DaysBetween(library, key, start, end)
      {
        assert TradingDay(library, key, current);
        assert DaysBetween(library, key, current, end) == [current] + DaysBetween(library, key, current + 1, end);
        days := days + [current];
        current := current + 1;
      }
    }

    /** The listing of a mapped exchange comes from the library in date order. */
    method GetTradingDays(key: string, start: int, end: int) returns (days: seq<int>)
      requires Valid()
      modifies this
      ensures Valid() && days == TradingDays(library, key, start, end)
      ensures forall d :: d in days <==>
        && start <= d <= end
        && ("CRYPTO_" <= key || key == "CRYPTO" || (key in {"ASX", "NYSE", "NASDAQ"} && library(key, d)))
    {
      DaysBetweenListsAll(library, key, start, end);
      if IsCrypto(key) {
        days := EveryDay(key, start, end);
        return;
      }
      var cal := GetCalendar(key);
      if cal == None {
        return [];
      }
      days := DaysBetween(library, key, start, end);
    }
  }
}
