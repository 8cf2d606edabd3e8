/**
  The two searches behind the trading terminal's countdowns: the next intraday entry check and the
  next screener run. Time is local wall-clock time counted from midnight on some Monday; daylight
  saving changes are not modelled.
 */
module NextRun {

  /** "CRYPTO", "NYSE", and the branch every other key takes. */
  datatype Desk = CRYPTO | NYSE | ASX

  const MINUTES_IN_WEEK := 10080

  function Weekday(minute: nat): nat { minute / 1440 % 7 }  // 0 is Monday

  function Hour(minute: nat): nat { minute / 60 % 24 }

  /** The entry-check schedule, in Sydney time. */
  predicate EntryCheckAt(x: Desk, minute: nat) {
    && minute % 60 % 5 == 0
    && match x
       case CRYPTO => true
       case NYSE => (Hour(minute) == 23 && Weekday(minute) in {0, 1, 2, 3, 4})
                    || (Hour(minute) in {0, 1, 2, 3, 4, 5, 6} && Weekday(minute) in {1, 2, 3, 4, 5})
       case ASX => 10 <= Hour(minute) < 17 && Weekday(minute) in {0, 1, 2, 3, 4}
  }

  /** The longest wait for an entry check, in minutes. */
  function LongestWait(x: Desk): nat {
    match x
    case CRYPTO => 5
    case NYSE => 3845
    case ASX => 3905
  }

  /** The schedule read at minute `m` of day `day`. */
  lemma AtDayAndMinute(x: Desk, day: nat, m: nat)
    requires m < 1440
    ensures Weekday(day * 1440 + m) == day % 7 && Hour(day * 1440 + m) == m / 60
    ensures (day * 1440 + m) % 60 % 5 == m % 5
  {
    assert (day * 1440 + m) / 1440 == day;
    assert (day * 1440 + m) / 60 == day * 24 + m / 60;
  }

  /** From any minute a check falls due within the longest wait. */
  lemma EntryCheckWithin(x: Desk, minute: nat) returns (at: nat)
    ensures minute < at <= minute + LongestWait(x) && EntryCheckAt(x, at)
  {
    var day, m := minute / 1440, minute % 1440;
    var (d, n) := NextSlot(x, day, m);
    AtDayAndMinute(x, d, n);
    at := d * 1440 + n;
  }

  /** Day and minute of the next five-minute mark inside the window, or of the next window's opening. */
  ghost function NextSlot(x: Desk, day: nat, m: nat): (slot: (nat, nat))
    requires m < 1440
    ensures slot.1 < 1440 && slot.1 % 5 == 0
    ensures 0 < (slot.0 - day) * 1440 + slot.1 - m <= LongestWait(x)
    ensures x == NYSE ==> var w := slot.0 % 7; (w < 5 && 1380 <= slot.1) || (1 <= w <= 5 && slot.1 < 420)
    ensures x == ASX ==> slot.0 % 7 < 5 && 600 <= slot.1 < 1020
  {
    var mark := (m / 5 + 1) * 5;
    var next := if mark < 1440 then (day, mark) else (day + 1, 0);
    var w := day % 7;
    match x
    case CRYPTO => next
    case NYSE =>
      if w < 5 && m < 1380 && !(1 <= w && m < 415) then (day, 1380)
      else if w < 5 || (w == 5 && m < 415) then next
      else (day + (7 - w), 1380)
    case ASX =>
      if w < 5 && m < 600 then (day, 600)
      else if w < 5 && m < 1015 then next
      else (day + if w < 4 then 1 else 7 - w, 600)
  }

  /** A minute from which nothing falls due before the longest wait is up. */
  lemma LongestWaitIsReached(x: Desk) returns (minute: nat)
    ensures forall t: nat | minute < t < minute + LongestWait(x) :: !EntryCheckAt(x, t)
  {
    match x
    case CRYPTO => minute := 0;
    case NYSE => minute := 5 * 1440 + 6 * 60 + 55;
    case ASX => minute := 4 * 1440 + 16 * 60 + 55;
  }

  /** `now` is in seconds; the search steps whole minutes, so its answer is a minute on the schedule. */
  method NextEntryCheck(x: Desk, now: nat) returns (found: bool, at: nat)
    ensures found
    ensures now < 60 * at && EntryCheckAt(x, at)
    ensures forall t: nat | now < 60 * t && t < at :: !EntryCheckAt(x, t)
    ensures at <= now / 60 + LongestWait(x)
  {
    ghost var due := EntryCheckWithin(x, now / 60);
    var candidate: nat := now / 60;
    for step := 0 to MINUTES_IN_WEEK
      invariant candidate == now / 60 + step
      invariant forall t: nat | now < 60 * t && t <= candidate :: !EntryCheckAt(x, t)
    {
      candidate := candidate + 1;
      if candidate % 60 % 5 != 0 {
        continue;
      }
      var day, hour := Weekday(candidate), Hour(candidate);
      if x == CRYPTO {
        return true, candidate;
      } else if x == NYSE {
        if (hour == 23 && day in {0, 1, 2, 3, 4}) || (hour in {0, 1, 2, 3, 4, 5, 6} && day in {1, 2, 3, 4, 5}) {
          return true, candidate;
        }
      } else {
        if 10 <= hour < 17 && day in {0, 1, 2, 3, 4} {
          return true, candidate;
        }
      }
    }
    found, at := false, candidate;
  }

  lemma SlotIs(at: nat, weekday: nat, hour: nat, minute: nat)
    requires Weekday(at) == weekday && Hour(at) == hour && at % 60 % 5 == minute % 5
    ensures EntryCheckAt(CRYPTO, at) <==> minute % 5 == 0
    ensures EntryCheckAt(ASX, at) <==> minute % 5 == 0 && weekday <= 4 && 10 <= hour <= 16
    ensures EntryCheckAt(NYSE, at) <==>
      minute % 5 == 0 && ((weekday <= 4 && hour == 23) || (1 <= weekday <= 5 && hour <= 6))
  {
    hide Weekday, Hour;
  }

  /**
    The schedule in words: every five minutes, for crypto always, for the ASX from ten to five on weekdays, for
    New York from eleven at night to seven in the morning over the nights that begin on a weekday.
   */
  lemma ChecksAre(week: nat, weekday: nat, hour: nat, minute: nat)
    requires weekday < 7 && hour < 24 && minute < 60
    ensures var at, five := ((week * 7 + weekday) * 24 + hour) * 60 + minute, minute % 5 == 0;
      && (EntryCheckAt(CRYPTO, at) <==> five)
      && (EntryCheckAt(ASX, at) <==> five && weekday <= 4 && 10 <= hour <= 16)
      && (EntryCheckAt(NYSE, at) <==> five && ((weekday <= 4 && hour == 23) || (1 <= weekday <= 5 && hour <= 6)))
  {
    var day, m := week * 7 + weekday, hour * 60 + minute;
    assert ((week * 7 + weekday) * 24 + hour) * 60 + minute == day * 1440 + m;
    AtDayAndMinute(CRYPTO, day, m);
    assert day % 7 == weekday && m / 60 == hour && m % 5 == minute % 5;
    hide Weekday, Hour;
    SlotIs(((week * 7 + weekday) * 24 + hour) * 60 + minute, weekday, hour, minute);
    hide EntryCheckAt;
  }

  // ---------------------------------------------------------------- screener runs

  const SECONDS_IN_DAY := 86400

  /** Crypto runs start at five to the hour, four hours apart. */
  const CRYPTO_HOURS := [0, 4, 8, 12, 16, 20]

  predicate RunDay(x: Desk, day: nat) {
    match x
    case CRYPTO => true
    case NYSE => day % 7 in {1, 2, 3, 4, 5}
    case ASX => day % 7 in {0, 1, 2, 3, 4}
  }

  /** Seconds after midnight at which the screener starts. */
  predicate RunTime(x: Desk, second: nat) {
    match x
    case CRYPTO => exists i | 0 <= i < |CRYPTO_HOURS| :: second == CRYPTO_HOURS[i] * 3600 + 3300
    case NYSE => second == 27000
    case ASX => second == 63000
  }

  predicate RunAt(x: Desk, second: nat) {
    RunDay(x, second / SECONDS_IN_DAY) && RunTime(x, second % SECONDS_IN_DAY)
  }

  /**
    The runs in words: crypto's at five to one, five, nine, and so on round the clock every day, New York's at half
    past seven from Tuesday to Saturday, the ASX's at half past five in the afternoon on weekdays.
   */
  lemma RunsAre(week: nat, weekday: nat, hour: nat, minute: nat, second: nat)
    requires weekday < 7 && hour < 24 && minute < 60 && second < 60
    ensures var at := (((week * 7 + weekday) * 24 + hour) * 60 + minute) * 60 + second;
      && (RunAt(CRYPTO, at) <==> hour % 4 == 0 && minute == 55 && second == 0)
      && (RunAt(NYSE, at) <==> 1 <= weekday <= 5 && hour == 7 && minute == 30 && second == 0)
      && (RunAt(ASX, at) <==> weekday <= 4 && hour == 17 && minute == 30 && second == 0)
  {
    var at := (((week * 7 + weekday) * 24 + hour) * 60 + minute) * 60 + second;
    var day, rest := week * 7 + weekday, (hour * 60 + minute) * 60 + second;
    assert at == day * 86400 + rest && rest < 86400;
    assert at / SECONDS_IN_DAY == day && at % SECONDS_IN_DAY == rest;
    assert day % 7 == weekday;
    if hour % 4 == 0 {
      assert CRYPTO_HOURS[hour / 4] == hour;
    }
  }

  /** With the first `i` of today's crypto runs over, none falls between now and the next one. */
  lemma NoEarlierCryptoRun(now: nat, i: nat, at: nat)
    requires i <= |CRYPTO_HOURS|
    requires forall j | 0 <= j < i :: now / SECONDS_IN_DAY * SECONDS_IN_DAY + CRYPTO_HOURS[j] * 3600 + 3300 <= now
    requires at == now / SECONDS_IN_DAY * SECONDS_IN_DAY
                   + if i < |CRYPTO_HOURS| then CRYPTO_HOURS[i] * 3600 + 3300 else SECONDS_IN_DAY + 3300
    ensures forall t: nat | now < t < at :: !RunAt(CRYPTO, t)
  {
    forall t: nat | now < t < at && t / SECONDS_IN_DAY == now / SECONDS_IN_DAY ensures !RunAt(CRYPTO, t) {
      assert t == now / SECONDS_IN_DAY * SECONDS_IN_DAY + t % SECONDS_IN_DAY;
    }
  }

  method NextCryptoRun(now: nat) returns (at: nat)
    ensures now < at && RunAt(CRYPTO, at) && at / SECONDS_IN_DAY <= now / SECONDS_IN_DAY + 3
    ensures forall t: nat | now < t < at :: !RunAt(CRYPTO, t)
  {
    var today := now / SECONDS_IN_DAY;
    for i := 0 to |CRYPTO_HOURS|
      invariant forall j | 0 <= j < i :: today * SECONDS_IN_DAY + CRYPTO_HOURS[j] * 3600 + 3300 <= now
    {
      at := today * SECONDS_IN_DAY + CRYPTO_HOURS[i] * 3600 + 3300;
      if now < at {
        NoEarlierCryptoRun(now, i, at);
        return at;
      }
    }
    at := (today + 1) * SECONDS_IN_DAY + 3300;
    NoEarlierCryptoRun(now, |CRYPTO_HOURS|, at);
    assert at % SECONDS_IN_DAY == CRYPTO_HOURS[0] * 3600 + 3300;
  }

  /** An equity run day holds one run. */
  lemma OneRunADay(x: Desk, day: nat, t: nat)
    requires x != CRYPTO
    ensures day * SECONDS_IN_DAY <= t < (day + 1) * SECONDS_IN_DAY ==>
      (RunAt(x, t) <==> RunDay(x, day) && t == day * SECONDS_IN_DAY + if x == NYSE then 27000 else 63000)
  {
    if day * SECONDS_IN_DAY <= t < (day + 1) * SECONDS_IN_DAY {
      assert t / SECONDS_IN_DAY == day;
    }
  }

  /** Nothing is "TBD": the search answers, within three days of today, with the first run after now. */
  method NextScheduledRun(x: Desk, now: nat) returns (found: bool, at: nat)
    ensures found
    ensures now < at && RunAt(x, at)
    ensures forall t: nat | now < t < at :: !RunAt(x, t)
    ensures at / SECONDS_IN_DAY <= now / SECONDS_IN_DAY + 3
  {
    if x == CRYPTO {
      at := NextCryptoRun(now);
      return true, at;
    }
    hide RunAt;
    var today := now / SECONDS_IN_DAY;
    var second := if x == NYSE then 27000 else 63000;
    for offset := 0 to 8
      invariant forall t: nat | now < t && t < (today + offset) * SECONDS_IN_DAY :: !RunAt(x, t)
      invariant offset <= 3
      invariant forall d | today < d < today + offset :: !RunDay(x, d)
    {
      assert RunDay(x, today + 1) || RunDay(x, today + 2) || RunDay(x, today + 3);
      forall t: nat {
        OneRunADay(x, today + offset, t);
      }
      if RunDay(x, today + offset) {
        at := (today + offset) * SECONDS_IN_DAY + second;
        OneRunADay(x, today + offset, at);
        if now < at {
          return true, at;
        }
      }
    }
    found, at := false, now;
  }
}
