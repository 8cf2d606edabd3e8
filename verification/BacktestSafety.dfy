/**
  What holds of every replay: one phase at a time, trades in order with a day between them, signals that
  go stale once, fills inside the bar they happen on, and losses within the risk budget.
 */
module BacktestSafety {
  import opened Common
  import opened Rounding
  import opened Backtest
  import BacktestCausality

  // ---------------------------------------------------------------- today's bar

  /** In a table in date order, the bars up to a bar's date end with that bar. */
  lemma {:induction false} EndsWithToday(bars: seq<Bar>, bar: Bar)
    requires Ascending(bars) && bar in bars
    ensures var history := UpTo(bars, bar.date); history != [] && history[|history| - 1] == bar
  {
    var n := |bars| - 1;
    if bar != bars[n] {
      assert bar in bars[..n];
      EndsWithToday(bars[..n], bar);
    }
  }

  /** The bars before a bar's date are those up to it without the bar itself. */
  lemma BeforeToday(bars: seq<Bar>, bar: Bar)
    requires Ascending(bars) && bar in bars
    ensures UpTo(bars, bar.date) <= bars && UpTo(bars, bar.date) == UpTo(bars, bar.date - 1) + [bar]
  {
    hide UpTo;
    var history, earlier := UpTo(bars, bar.date), UpTo(bars, bar.date - 1);
    EndsWithToday(bars, bar);
    BacktestCausality.UpToIsPrefix(bars, bar.date);
    BacktestCausality.UpToIsPrefix(bars, bar.date - 1);
    var h, e := |history| - 1, |earlier|;
    forall i | 0 <= i < e ensures bars[i].date < bar.date {
      UpToHas(bars, bar.date - 1, earlier[i]);
    }
    assert e == |bars| || bar.date <= bars[e].date;
    assert h == e;
  }

  /** Day `k` of the window as a step from the state before it: it is bar `n`, and sees the bars up to it. */
  lemma OnDay(strat: Strategy, full: seq<Bar>, start: int, k: nat)
    returns (n: nat, history: seq<Bar>, earlier: seq<Bar>)
    requires Ascending(full) && k < |Since(full, start)|
    ensures n < |full| && full[n] == Since(full, start)[k] && full[n] in full
    ensures history == full[..n + 1] && earlier == full[..n] && history[|history| - 1] == full[n]
    ensures StateAfter(strat, full, start, k + 1) == Step(strat, history, earlier, StateAfter(strat, full, start, k))
  {
    hide Step, Since, UpTo;
    var bar := Since(full, start)[k];
    SinceHas(full, start, bar);
    BeforeToday(full, bar);
    history, earlier := UpTo(full, bar.date), UpTo(full, bar.date - 1);
    n := |earlier|;
    assert history[n] == bar;
  }

  /** What day `k` of a run does is called for by the bars up to it, and before the sixty-first bar it does nothing. */
  lemma EachDay(strat: Strategy, full: seq<Bar>, start: int, k: nat) returns (n: nat)
    requires Ascending(full) && k < |Since(full, start)|
    ensures n < |full| && full[n] == Since(full, start)[k]
    ensures var st, next := StateAfter(strat, full, start, k), StateAfter(strat, full, start, k + 1);
      if n < 60 then next == st else Warranted(strat, full[..n + 1], full[..n], st, next)
  {
    hide Step, Since, StateAfter, Warranted;
    var history, earlier;
    n, history, earlier := OnDay(strat, full, start, k);
    if n < 60 {
      IdleInWarmup(strat, history, earlier, StateAfter(strat, full, start, k));
    } else {
      StepChanges(strat, history, earlier, StateAfter(strat, full, start, k));
    }
  }

  /** A day's average volume is the indicator's, unless that is missing or zero: then the day's own volume. */
  lemma AverageVolumeIs(bar: Bar)
    ensures bar.avgVol.Some? && bar.avgVol.value != 0.0 ==> AverageVolume(bar) == bar.avgVol.value
    ensures bar.avgVol == None || bar.avgVol == Some(0.0) ==> AverageVolume(bar) == bar.volume
  {
  }

  /** A query loads the bars from a year before the start date up to the end date. */
  lemma LoadHolds(table: seq<Bar>, start: int, end: int, bar: Bar)
    requires Ascending(table)
    ensures bar in Load(table, start, end) <==> bar in table && start - 365 <= bar.date <= end
    ensures Ascending(Load(table, start, end))
  {
    hide UpTo, Since;
    SinceHas(table, start - PREP_DAYS, bar);
    UpToHas(Since(table, start - PREP_DAYS), end, bar);
    SinceAscends(table, start - PREP_DAYS);
    BacktestCausality.UpToIsPrefix(Since(table, start - PREP_DAYS), end);
  }

  /**
    A breakout: with the extension rule on, the close is no lower than the pivot and no more than that many
    percent above it; with the volume rule on, the projected volume is at least that percentage of the
    average, and without an average only a threshold of zero or less is met.
   */
  lemma BreakoutMeans(rules: BreakoutRules, history: seq<Bar>, pivot: real, avgVol: real)
    requires history != [] && 0.0 < pivot
    ensures var close := history[|history| - 1].close;
      BreaksOut(rules, history, pivot, avgVol) <==>
      && (rules.maxExtension.Some? ==>
            pivot <= close && 100.0 * close <= (100.0 + rules.maxExtension.value) * pivot)
      && (rules.minVolumePct.Some? ==>
            if 0.0 < avgVol then rules.minVolumePct.value * avgVol <= 100.0 * rules.projected(history)
            else rules.minVolumePct.value <= 0.0)
  {
    var close := history[|history| - 1].close;
    var above := (close - pivot) / pivot;
    assert above * pivot == close - pivot;
    if rules.maxExtension.Some? {
      Scale(0.0, above * 100.0, pivot);
      Scale(above * 100.0, rules.maxExtension.value, pivot);
    }
    if rules.minVolumePct.Some? && 0.0 < avgVol {
      var ratio := rules.projected(history) / avgVol;
      assert ratio * avgVol == rules.projected(history);
      Scale(rules.minVolumePct.value, ratio * 100.0, avgVol);
    }
  }

  /** The entry: filled at the pivot, or at the open when the day opens above it, with the signal's stop. */
  lemma EntryFill(signal: Pending, bar: Bar)
    ensures var p := Enter(signal, bar);
      && p.entryDate == bar.date && p.stop == signal.setup.stop
      && p.entryPrice == (if signal.setup.pivot <= bar.open then bar.open else signal.setup.pivot)
      && MaximalQty(p.entryPrice, p.stop, p.qty)
  {
    SizeIsMaximal(Enter(signal, bar).entryPrice, signal.setup.stop);
  }

  // ---------------------------------------------------------------- phases and order

  /** Some day of the window lies strictly between the two dates. */
  ghost predicate DayBetween(window: seq<Bar>, a: int, b: int) {
    exists j :: 0 <= j < |window| && a < window[j].date < b
  }

  /** `date` is one of the first `k` days. */
  ghost predicate Seen(window: seq<Bar>, k: nat, date: int)
    requires k <= |window|
  {
    exists j :: 0 <= j < k && window[j].date == date
  }

  ghost predicate InOrder(window: seq<Bar>, trades: seq<Trade>) {
    && (forall t | t in trades :: t.entryDate < t.exitDate)
    && (forall i | 0 <= i < |trades| - 1 :: DayBetween(window, trades[i].exitDate, trades[i + 1].entryDate))
  }

  /** What every day leaves true; `k` days are done. */
  ghost predicate Safe(st: State, window: seq<Bar>, k: nat)
    requires k <= |window|
  {
    && !(st.pending.Some? && st.position.Some?)
    && (st.pending.Some? ==>
          && Seen(window, k, st.pending.value.date)
          && window[k - 1].date - st.pending.value.date <= EXPIRY_DAYS)
    && (st.position.Some? ==> Seen(window, k, st.position.value.entryDate))
    && InOrder(window, st.trades)
    && (forall t | t in st.trades :: Seen(window, k, t.exitDate))
    && (st.trades != [] && st.pending.Some? ==> st.trades[|st.trades| - 1].exitDate < st.pending.value.date)
    && (st.trades != [] && st.position.Some? ==>
          DayBetween(window, st.trades[|st.trades| - 1].exitDate, st.position.value.entryDate))
  }

  lemma SeenLater(window: seq<Bar>, k: nat, date: int)
    requires Ascending(window) && k < |window| && Seen(window, k, date)
    ensures Seen(window, k + 1, date) && date < window[k].date
  {
  }

  lemma StepChanges(strat: Strategy, history: seq<Bar>, earlier: seq<Bar>, st: State)
    requires history != [] && WARMUP <= |earlier|
    ensures Change(st, history[|history| - 1], Step(strat, history, earlier, st))
    ensures Warranted(strat, history, earlier, st, Step(strat, history, earlier, st))
  {
    hide BreaksOut, Size, RoundAt, Settles;
    if st.position.Some? {
      var bar, p := history[|history| - 1], st.position.value;
      CloseSettles(p, bar.date, Min(p.stop, bar.open), StopLoss);
      var exit := strat.exits(p.entryPrice, p.stop, p.entryDate, history, AverageVolume(bar));
      if exit.Some? {
        CloseSettles(p, bar.date, bar.close, ExitRule(exit.value));
      }
    }
  }

  lemma SafeDay(st: State, window: seq<Bar>, k: nat, next: State)
    requires Ascending(window) && k < |window| && Safe(st, window, k) && Change(st, window[k], next)
    ensures Safe(next, window, k + 1)
  {
    hide DayBetween, Seen;
    var today := window[k].date;
    SeenToday(window, k);
    forall t | t in st.trades ensures Seen(window, k + 1, t.exitDate) && t.exitDate < today {
      SeenLater(window, k, t.exitDate);
    }
    if st.position.Some? {
      SeenLater(window, k, st.position.value.entryDate);
    }
    if st.pending.Some? {
      SeenLater(window, k, st.pending.value.date);
      SignalSeparates(window, k, st);
    }
    if |next.trades| == |st.trades| + 1 {
      assert next.trades == st.trades + [next.trades[|st.trades|]];
    }
  }

  lemma SeenToday(window: seq<Bar>, k: nat)
    requires k < |window|
    ensures Seen(window, k + 1, window[k].date)
  {
  }

  /** The day a signal appeared lies between the last exit and any later day. */
  lemma SignalSeparates(window: seq<Bar>, k: nat, st: State)
    requires Ascending(window) && k < |window| && Safe(st, window, k) && st.pending.Some?
    ensures st.trades != [] ==> DayBetween(window, st.trades[|st.trades| - 1].exitDate, window[k].date)
  {
    var j :| 0 <= j < k && window[j].date == st.pending.value.date;
  }

  lemma {:induction false} UpToGrows(bars: seq<Bar>, day: int, later: int)
    requires day <= later
    ensures |UpTo(bars, day)| <= |UpTo(bars, later)|
  {
    if bars != [] {
      UpToGrows(bars[..|bars| - 1], day, later);
    }
  }

  /** Every day keeps the phases apart, the log in order, and the pending signal at most a week old. */
  lemma {:induction false} AlwaysSafe(strat: Strategy, full: seq<Bar>, start: int, k: nat)
    requires Ascending(full) && k <= |Since(full, start)|
    ensures Safe(StateAfter(strat, full, start, k), Since(full, start), k)
    ensures 0 < k && |UpTo(full, Since(full, start)[k - 1].date - 1)| < WARMUP ==>
      StateAfter(strat, full, start, k) == START
  {
    hide Since, UpTo, Step, Safe;
    var window := Since(full, start);
    SinceAscends(full, start);
    if k == 0 {
      SafeAtStart(window);
    } else {
      AlwaysSafe(strat, full, start, k - 1);
      var st := StateAfter(strat, full, start, k - 1);
      var bar := window[k - 1];
      SinceHas(full, start, bar);
      EndsWithToday(full, bar);
      var history, earlier := UpTo(full, bar.date), UpTo(full, bar.date - 1);
      if |earlier| < WARMUP {
        if 1 < k {
          UpToGrows(full, window[k - 2].date - 1, bar.date - 1);
        }
        IdleInWarmup(strat, history, earlier, st);
      } else {
        StepChanges(strat, history, earlier, st);
      }
      SafeDay(st, window, k - 1, Step(strat, history, earlier, st));
    }
  }

  lemma SafeAtStart(window: seq<Bar>)
    ensures Safe(START, window, 0)
  {
  }

  lemma IdleInWarmup(strat: Strategy, history: seq<Bar>, earlier: seq<Bar>, st: State)
    requires history != [] && |earlier| < WARMUP
    ensures Step(strat, history, earlier, st) == st
  {
  }

  /**
    A whole run: trades come in date order and pairwise apart with a traded day between one's exit and the
    next one's entry, and each is held over at least a day except that the forced close may fall on its
    own entry day.
   */
  lemma TradesInOrder(strat: Strategy, full: seq<Bar>, start: int)
    requires Ascending(full)
    ensures var trades, window := Run(strat, full, start), Since(full, start);
      && (forall t | t in trades ::
            if t.reason == EndOfBacktest then t.entryDate <= t.exitDate else t.entryDate < t.exitDate)
      && (forall i | 0 <= i < |trades| - 1 ::
            DayBetween(window, trades[i].exitDate, trades[i + 1].entryDate) && trades[i].reason != EndOfBacktest)
  {
    hide Since, StateAfter;
    var n := |Since(full, start)|;
    AlwaysSafe(strat, full, start, n);
    SinceAscends(full, start);
    BacktestCausality.LogOnlyGrows(strat, full, start, n, n);
    FinishInOrder(StateAfter(strat, full, start, n), Since(full, start));
  }

  lemma FinishInOrder(st: State, window: seq<Bar>)
    requires Ascending(window) && Safe(st, window, |window|)
    requires forall t | t in st.trades :: t.reason != EndOfBacktest
    ensures var trades := Finish(st, window);
      && (forall t | t in trades ::
            if t.reason == EndOfBacktest then t.entryDate <= t.exitDate else t.entryDate < t.exitDate)
      && (forall i | 0 <= i < |trades| - 1 ::
            DayBetween(window, trades[i].exitDate, trades[i + 1].entryDate) && trades[i].reason != EndOfBacktest)
  {
    hide RoundAt, DayBetween;
    if st.position.Some? {
      var n := |window|;
      var j :| 0 <= j < n && window[j].date == st.position.value.entryDate;
      assert window[j].date <= window[n - 1].date;
    }
  }

  /** A day with a signal or a position pending from before it is past the warm-up. */
  lemma PastWarmup(strat: Strategy, full: seq<Bar>, start: int, k: nat)
    requires Ascending(full) && k < |Since(full, start)| && StateAfter(strat, full, start, k) != START
    ensures WARMUP <= |UpTo(full, Since(full, start)[k].date - 1)|
  {
    hide Since, UpTo, Step, Safe;
    AlwaysSafe(strat, full, start, k);
    SinceAscends(full, start);
    var window := Since(full, start);
    assert k != 0 by {
      NothingBeforeTheFirstDay(strat, full, start);
    }
    UpToGrows(full, window[k - 1].date - 1, window[k].date - 1);
  }

  /**
    A signal still pending on a day more than a week after it appeared gets one breakout check that day: the
    day ends in the position it calls for or in nothing, and on no later day is the signal pending.
   */
  lemma StaleSignalCheckedOnce(strat: Strategy, full: seq<Bar>, start: int, k: nat, m: nat)
    requires Ascending(full) && k < m <= |Since(full, start)|
    requires StateAfter(strat, full, start, k).pending.Some?
    requires EXPIRY_DAYS < Since(full, start)[k].date - StateAfter(strat, full, start, k).pending.value.date
    ensures var bar, history := Since(full, start)[k], UpTo(full, Since(full, start)[k].date);
      var signal, next := StateAfter(strat, full, start, k).pending.value, StateAfter(strat, full, start, k + 1);
      && history != [] && next.pending == None
      && next.position == (if BreaksOut(strat.breakout, history, signal.setup.pivot, AverageVolume(bar))
                           then Some(Enter(signal, bar)) else None)
    ensures StateAfter(strat, full, start, m).pending != StateAfter(strat, full, start, k).pending
  {
    hide Since, UpTo, BreaksOut, Size;
    var window := Since(full, start);
    SinceAscends(full, start);
    AlwaysSafe(strat, full, start, k);
    AlwaysSafe(strat, full, start, m);
    PastWarmup(strat, full, start, k);
    CheckedDay(strat, full, start, k);
    assert window[k].date <= window[m - 1].date;
  }

  /** One breakout check, on a stale signal. */
  lemma CheckedDay(strat: Strategy, full: seq<Bar>, start: int, k: nat)
    requires Ascending(full) && k < |Since(full, start)|
    requires var st := StateAfter(strat, full, start, k);
      st.pending.Some? && st.position.None? && EXPIRY_DAYS < Since(full, start)[k].date - st.pending.value.date
    requires WARMUP <= |UpTo(full, Since(full, start)[k].date - 1)|
    ensures var bar, history := Since(full, start)[k], UpTo(full, Since(full, start)[k].date);
      var signal, next := StateAfter(strat, full, start, k).pending.value, StateAfter(strat, full, start, k + 1);
      && history != [] && next.pending == None
      && next.position == (if BreaksOut(strat.breakout, history, signal.setup.pivot, AverageVolume(bar))
                           then Some(Enter(signal, bar)) else None)
  {
    hide Since, UpTo, BreaksOut, Size;
    SinceHas(full, start, Since(full, start)[k]);
    EndsWithToday(full, Since(full, start)[k]);
  }

  // ---------------------------------------------------------------- sizing

  /** The largest whole quantity within a risk of 200, or one share when a single share exceeds it. */
  ghost predicate MaximalQty(entry: real, stop: real, qty: int) {
    var perShare := entry - stop;
    if perShare <= 200.0 then
      1 <= qty && qty as real * perShare <= 200.0 < (qty + 1) as real * perShare
    else qty == 1
  }

  /** A stop below the entry is sized to the budget; the hundred-share fallback is for any other. */
  lemma SizeIsMaximal(entry: real, stop: real)
    ensures if stop < entry then MaximalQty(entry, stop, Size(entry, stop)) else Size(entry, stop) == 100
  {
    if stop < entry {
      BudgetBuys(RISK_BUDGET, entry - stop);
    }
  }

  lemma BudgetBuys(budget: real, perShare: real)
    requires 0.0 < perShare
    ensures var bought := (budget / perShare).Floor;
      && bought as real * perShare <= budget < (bought + 1) as real * perShare
      && (1 <= bought <==> perShare <= budget)
  {
    var ratio := budget / perShare;
    var bought := ratio.Floor;
    assert ratio * perShare == budget;
    Buys(bought as real, ratio, (bought + 1) as real, perShare, budget);
    Scale(1.0, ratio, perShare);
  }

  lemma Buys(low: real, ratio: real, high: real, perShare: real, budget: real)
    requires 0.0 < perShare && low <= ratio < high && ratio * perShare == budget
    ensures low * perShare <= budget < high * perShare
  {
    assert 0.0 <= (ratio - low) * perShare;
    assert 0.0 < (high - ratio) * perShare;
  }

  lemma Scale(a: real, b: real, factor: real)
    requires 0.0 < factor
    ensures a <= b <==> a * factor <= b * factor
  {
    if a * factor <= b * factor {
      assert (a - b) * factor <= 0.0;
    }
  }

  // ---------------------------------------------------------------- where trades come from

  /** Day `k` opens a position. */
  predicate Opens(strat: Strategy, full: seq<Bar>, start: int, k: nat) {
    k < |Since(full, start)|
    && StateAfter(strat, full, start, k).position.None? && StateAfter(strat, full, start, k + 1).position.Some?
  }

  /** A held position was opened from the pending signal of some earlier day, on that day's breakout. */
  lemma {:induction false} PositionOrigin(strat: Strategy, full: seq<Bar>, start: int, k: nat)
    returns (j: nat, signal: Pending, history: seq<Bar>)
    requires Ascending(full) && k <= |Since(full, start)|
    requires StateAfter(strat, full, start, k).position.Some?
    ensures j < k && StateAfter(strat, full, start, j).pending == Some(signal) && Opens(strat, full, start, j)
    ensures history != [] && history[|history| - 1] == Since(full, start)[j] && Since(full, start)[j] in full
    ensures BreaksOut(strat.breakout, history, signal.setup.pivot, AverageVolume(Since(full, start)[j]))
    ensures StateAfter(strat, full, start, k).position == Some(Enter(signal, Since(full, start)[j]))
  {
    hide Since, UpTo, BreaksOut, StateAfter;
    assert k != 0 by {
      NothingBeforeTheFirstDay(strat, full, start);
    }
    var before := StateAfter(strat, full, start, k - 1);
    var n, earlier;
    n, history, earlier := OnDay(strat, full, start, k - 1);
    if before.position.Some? {
      j, signal, history := PositionOrigin(strat, full, start, k - 1);
    } else {
      j, signal := k - 1, before.pending.value;
    }
  }

  /** A run begins with neither signal nor position, and with an empty log. */
  lemma NothingBeforeTheFirstDay(strat: Strategy, full: seq<Bar>, start: int)
    ensures StateAfter(strat, full, start, 0) == START == State(None, None, [])
  {
  }

  /** What the exit rules answer for a position at the close of bar `n`, seeing the bars up to it. */
  function ExitAnswer(strat: Strategy, full: seq<Bar>, n: nat, p: Position): Option<string>
    requires n < |full|
  {
    strat.exits(p.entryPrice, p.stop, p.entryDate, full[..n + 1], AverageVolume(full[n]))
  }

  /** Every logged trade closed the position held on its exit day, by the stop or by the rule that fired that day. */
  lemma {:induction false} TradeOrigin(strat: Strategy, full: seq<Bar>, start: int, k: nat, i: nat)
    returns (j: nat, n: nat, p: Position)
    requires Ascending(full) && k <= |Since(full, start)| && i < |StateAfter(strat, full, start, k).trades|
    ensures j < k && StateAfter(strat, full, start, j).position == Some(p)
    ensures 60 <= n < |full| && full[n] == Since(full, start)[j] && full[n] in full
    ensures ClosedOn(full[n], p, StateAfter(strat, full, start, k).trades[i])
    ensures match StateAfter(strat, full, start, k).trades[i].reason
      case StopLoss => full[n].low <= p.stop
      case ExitRule(name) => p.stop < full[n].low && ExitAnswer(strat, full, n, p) == Some(name)
      case EndOfBacktest => false
  {
    hide Since, UpTo, BreaksOut, StateAfter, RoundAt;
    assert k != 0 by {
      NothingBeforeTheFirstDay(strat, full, start);
    }
    var before := StateAfter(strat, full, start, k - 1);
    if i < |before.trades| {
      n := EachDay(strat, full, start, k - 1);
      BacktestCausality.LogOnlyGrows(strat, full, start, k - 1, k);
      j, n, p := TradeOrigin(strat, full, start, k - 1, i);
    } else {
      n := EachDay(strat, full, start, k - 1);
      j, p := k - 1, before.position.value;
      ReasonForClose(strat, full, n, p, before, StateAfter(strat, full, start, k));
    }
  }

  lemma ReasonForClose(strat: Strategy, full: seq<Bar>, n: nat, p: Position, st: State, next: State)
    requires n < |full| && HeldDay(strat, full[..n + 1], p, st, next) && next.position == None
    ensures |next.trades| == |st.trades| + 1 && ClosedOn(full[n], p, next.trades[|st.trades|])
    ensures match next.trades[|st.trades|].reason
      case StopLoss => full[n].low <= p.stop
      case ExitRule(name) => p.stop < full[n].low && ExitAnswer(strat, full, n, p) == Some(name)
      case EndOfBacktest => false
  {
    hide RoundAt;
  }

  /**
    The same for the trades of a whole run. An exit rule named by a trade answered so at the close of the exit
    day, on the bars up to it, and the forced close is the last trade, at the last bar's close.
   */
  lemma RunTradeOrigin(strat: Strategy, full: seq<Bar>, start: int, i: nat)
    returns (j: nat, k: nat, n: nat, p: Position)
    requires Ascending(full) && i < |Run(strat, full, start)|
    ensures j < |Since(full, start)| && k <= |Since(full, start)|
    ensures StateAfter(strat, full, start, k).position == Some(p)
    ensures n < |full| && full[n] == Since(full, start)[j] && full[n] in full
    ensures ClosedOn(full[n], p, Run(strat, full, start)[i])
    ensures match Run(strat, full, start)[i].reason
      case StopLoss => k == j && 60 <= n && full[n].low <= p.stop
      case ExitRule(name) => k == j && 60 <= n && p.stop < full[n].low && ExitAnswer(strat, full, n, p) == Some(name)
      case EndOfBacktest => i == |Run(strat, full, start)| - 1 && j == |Since(full, start)| - 1 && k == j + 1
  {
    hide Since, StateAfter, RoundAt, Settles, Close;
    var days := |Since(full, start)|;
    var st := StateAfter(strat, full, start, days);
    if i < |st.trades| {
      j, n, p := TradeOrigin(strat, full, start, days, i);
      k := j;
    } else {
      j, k, p := days - 1, days, st.position.value;
      SinceHas(full, start, Since(full, start)[j]);
      CloseSettles(p, Since(full, start)[j].date, Since(full, start)[j].close, EndOfBacktest);
      n :| 0 <= n < |full| && full[n] == Since(full, start)[j];
    }
  }

  // ---------------------------------------------------------------- fills

  ghost predicate WellFormed(bar: Bar) {
    bar.low <= bar.open <= bar.high && bar.low <= bar.close <= bar.high
  }

  /** A bar of that date traded at that price. */
  ghost predicate TradedAt(full: seq<Bar>, date: int, price: real) {
    exists bar :: bar in full && bar.date == date && bar.low <= price <= bar.high
  }

  /** The entry fill lies inside its bar exactly when the bar reached the pivot. */
  lemma EntryInsideBar(signal: Pending, bar: Bar)
    requires WellFormed(bar)
    ensures bar.low <= Enter(signal, bar).entryPrice
    ensures Enter(signal, bar).entryPrice <= bar.high <==> signal.setup.pivot <= bar.high
  {
  }

  /** With the extension rule enabled a breakout's close is at or above the pivot. */
  lemma BreakoutReachesPivot(rules: BreakoutRules, history: seq<Bar>, pivot: real, avgVol: real)
    requires history != [] && 0.0 < pivot && rules.maxExtension.Some?
    requires BreaksOut(rules, history, pivot, avgVol)
    ensures pivot <= history[|history| - 1].close
  {
    var close := history[|history| - 1].close;
    if close < pivot {
      assert (close - pivot) / pivot * pivot == close - pivot;
      Scale(0.0, (close - pivot) / pivot, pivot);
    }
  }

  /** With the extension rule disabled a breakout can be filled at a pivot the bar never reached. */
  lemma EntryOutsideBar() returns (rules: BreakoutRules, history: seq<Bar>, signal: Pending)
    ensures rules.maxExtension.None? && history != [] && WellFormed(history[0])
    ensures BreaksOut(rules, history, signal.setup.pivot, AverageVolume(history[0]))
    ensures history == [history[0]] && history[0].high < Enter(signal, history[0]).entryPrice
  {
    rules := BreakoutRules(None, None, _ => 0.0);
    history := [Bar(7, 9.0, 9.5, 8.5, 9.0, 100.0, None)];
    signal := Pending(6, Prices(10.0, 8.0));
  }

  /** Over well-formed bars, with the extension rule enabled, every fill is a price its own bar traded at. */
  lemma FillsInsideBars(strat: Strategy, full: seq<Bar>, start: int)
    requires Ascending(full) && (forall bar | bar in full :: WellFormed(bar)) && strat.breakout.maxExtension.Some?
    ensures forall t | t in Run(strat, full, start) ::
      TradedAt(full, t.entryDate, t.entryPrice) && TradedAt(full, t.exitDate, t.exitPrice)
  {
    hide Run, Since, StateAfter, BreaksOut, TradedAt, Enter;
    var trades := Run(strat, full, start);
    forall i | 0 <= i < |trades|
      ensures TradedAt(full, trades[i].entryDate, trades[i].entryPrice)
      ensures TradedAt(full, trades[i].exitDate, trades[i].exitPrice)
    {
      var j, k, n, p := RunTradeOrigin(strat, full, start, i);
      ExitInside(full, Since(full, start)[j], p, trades[i]);
      var m, signal, history := PositionOrigin(strat, full, start, k);
      BreakoutReachesPivot(strat.breakout, history, signal.setup.pivot, AverageVolume(Since(full, start)[m]));
      EntryInside(full, signal, Since(full, start)[m]);
    }
  }

  /** A day that opens a position does so from the signal pending, at its own bar. */
  lemma OpenedFrom(strat: Strategy, full: seq<Bar>, start: int, k: nat)
    requires Ascending(full) && Opens(strat, full, start, k)
    ensures Since(full, start)[k] in full && StateAfter(strat, full, start, k).pending.Some?
    ensures StateAfter(strat, full, start, k + 1).position ==
      Some(Enter(StateAfter(strat, full, start, k).pending.value, Since(full, start)[k]))
  {
    hide Since, UpTo, BreaksOut, StateAfter, Enter;
    var n, history, earlier := OnDay(strat, full, start, k);
  }

  /** A trade with the entry of the position. */
  ghost predicate LoggedIn(trades: seq<Trade>, p: Position) {
    exists t :: t in trades && t.entryDate == p.entryDate && t.entryPrice == p.entryPrice
  }

  /** A position is held until it is logged. */
  lemma {:induction false} HeldOrLogged(strat: Strategy, full: seq<Bar>, start: int, k: nat, m: nat)
    requires Ascending(full) && k <= m <= |Since(full, start)| && StateAfter(strat, full, start, k).position.Some?
    ensures var p := StateAfter(strat, full, start, k).position.value;
      StateAfter(strat, full, start, m).position == Some(p) || LoggedIn(StateAfter(strat, full, start, m).trades, p)
    decreases m
  {
    hide Since, UpTo, BreaksOut, StateAfter, RoundAt, LoggedIn;
    if k < m {
      HeldOrLogged(strat, full, start, k, m - 1);
      var before, after := StateAfter(strat, full, start, m - 1), StateAfter(strat, full, start, m);
      var p := StateAfter(strat, full, start, k).position.value;
      var n, history, earlier := OnDay(strat, full, start, m - 1);
      if before.position == Some(p) {
        if after.position != Some(p) {
          assert after.trades[|after.trades| - 1].entryDate == p.entryDate;
          LastIsLogged(after.trades, p);
        }
      } else {
        BacktestCausality.LogOnlyGrows(strat, full, start, m - 1, m);
        StaysLogged(before.trades, after.trades, p);
      }
    }
  }

  lemma LastIsLogged(trades: seq<Trade>, p: Position)
    requires trades != []
    requires trades[|trades| - 1].entryDate == p.entryDate && trades[|trades| - 1].entryPrice == p.entryPrice
    ensures LoggedIn(trades, p)
  {
  }

  lemma StaysLogged(before: seq<Trade>, after: seq<Trade>, p: Position)
    requires LoggedIn(before, p) && before <= after
    ensures LoggedIn(after, p)
  {
    var t :| t in before && t.entryDate == p.entryDate && t.entryPrice == p.entryPrice;
    assert t in after;
  }

  /** Every position a run opens is one of its trades. */
  lemma EntryIsLogged(strat: Strategy, full: seq<Bar>, start: int, k: nat)
    requires Ascending(full) && k <= |Since(full, start)| && StateAfter(strat, full, start, k).position.Some?
    ensures LoggedIn(Run(strat, full, start), StateAfter(strat, full, start, k).position.value)
  {
    hide Since, StateAfter, LoggedIn, RoundAt;
    var n := |Since(full, start)|;
    var p := StateAfter(strat, full, start, k).position.value;
    var st := StateAfter(strat, full, start, n);
    HeldOrLogged(strat, full, start, k, n);
    if st.position == Some(p) {
      assert n != 0 by {
        NothingBeforeTheFirstDay(strat, full, start);
      }
      LastIsLogged(Run(strat, full, start), p);
    } else {
      StaysLogged(st.trades, Run(strat, full, start), p);
    }
  }

  /** A table has one bar a date. */
  lemma TradedAtBar(full: seq<Bar>, bar: Bar, price: real)
    requires Ascending(full) && bar in full
    ensures TradedAt(full, bar.date, price) <==> bar.low <= price <= bar.high
  {
    if TradedAt(full, bar.date, price) {
      var other :| other in full && other.date == bar.date && other.low <= price <= other.high;
      var i, j :| 0 <= i < |full| && 0 <= j < |full| && full[i] == bar && full[j] == other;
    }
  }

  /**
    Over well-formed bars every exit is a price its bar traded at, whatever the rules; and every entry is,
    exactly when each day that opens a position reaches its signal's pivot.
   */
  lemma EntriesInsideExactly(strat: Strategy, full: seq<Bar>, start: int)
    requires Ascending(full) && forall bar | bar in full :: WellFormed(bar)
    ensures forall t | t in Run(strat, full, start) :: TradedAt(full, t.exitDate, t.exitPrice)
    ensures (forall t | t in Run(strat, full, start) :: TradedAt(full, t.entryDate, t.entryPrice)) <==>
      forall k: nat | Opens(strat, full, start, k) :: Reaches(strat, full, start, k)
  {
    hide Run, Since, StateAfter, BreaksOut, TradedAt, Enter, Opens, Reaches, LoggedIn;
    var trades := Run(strat, full, start);
    forall i | 0 <= i < |trades|
      ensures TradedAt(full, trades[i].exitDate, trades[i].exitPrice)
      ensures exists k: nat ::
        Opens(strat, full, start, k)
        && (Reaches(strat, full, start, k) <==> TradedAt(full, trades[i].entryDate, trades[i].entryPrice))
    {
      var j, k, n, p := RunTradeOrigin(strat, full, start, i);
      ExitInside(full, Since(full, start)[j], p, trades[i]);
      var m, signal, history := PositionOrigin(strat, full, start, k);
      OpenedReaches(strat, full, start, m, p);
    }
    forall k: nat | Opens(strat, full, start, k)
      ensures exists t :: t in trades && (Reaches(strat, full, start, k) <==> TradedAt(full, t.entryDate, t.entryPrice))
    {
      var t := OpenedTrade(strat, full, start, k);
    }
  }

  /** The bar of a day that opens a position reaches the pivot. */
  predicate Reaches(strat: Strategy, full: seq<Bar>, start: int, k: nat) {
    k < |Since(full, start)| && StateAfter(strat, full, start, k).pending.Some?
    && StateAfter(strat, full, start, k).pending.value.setup.pivot <= Since(full, start)[k].high
  }

  lemma OpenedReaches(strat: Strategy, full: seq<Bar>, start: int, k: nat, p: Position)
    requires Ascending(full) && (forall bar | bar in full :: WellFormed(bar)) && Opens(strat, full, start, k)
    requires StateAfter(strat, full, start, k).pending.Some?
      && p == Enter(StateAfter(strat, full, start, k).pending.value, Since(full, start)[k])
    ensures Reaches(strat, full, start, k) <==> TradedAt(full, p.entryDate, p.entryPrice)
  {
    hide Since, StateAfter, TradedAt, Size;
    OpenedFrom(strat, full, start, k);
    EntryInsideBar(StateAfter(strat, full, start, k).pending.value, Since(full, start)[k]);
    TradedAtBar(full, Since(full, start)[k], p.entryPrice);
  }

  lemma OpenedTrade(strat: Strategy, full: seq<Bar>, start: int, k: nat) returns (t: Trade)
    requires Ascending(full) && (forall bar | bar in full :: WellFormed(bar)) && Opens(strat, full, start, k)
    ensures t in Run(strat, full, start)
    ensures Reaches(strat, full, start, k) <==> TradedAt(full, t.entryDate, t.entryPrice)
  {
    hide Run, Since, StateAfter, TradedAt, Enter, Reaches;
    OpenedFrom(strat, full, start, k);
    EntryIsLogged(strat, full, start, k + 1);
    var p := StateAfter(strat, full, start, k + 1).position.value;
    OpenedReaches(strat, full, start, k, p);
    t :| t in Run(strat, full, start) && t.entryDate == p.entryDate && t.entryPrice == p.entryPrice;
  }

  lemma EntryInside(full: seq<Bar>, signal: Pending, bar: Bar)
    requires bar in full && WellFormed(bar) && signal.setup.pivot <= bar.close
    ensures var p := Enter(signal, bar); TradedAt(full, p.entryDate, p.entryPrice)
  {
    EntryInsideBar(signal, bar);
  }

  lemma ExitInside(full: seq<Bar>, bar: Bar, p: Position, t: Trade)
    requires bar in full && WellFormed(bar) && ClosedOn(bar, p, t)
    ensures t.entryDate == p.entryDate && t.entryPrice == p.entryPrice
    ensures TradedAt(full, t.exitDate, t.exitPrice)
  {
  }

  // ---------------------------------------------------------------- losses

  /**
    A stop-loss trade never wins. It fills at the stop unless the bar opened below it, and filled at the
    stop it loses no more than the risk budget, unless one share alone risks more.
   */
  lemma StopLossBounded(strat: Strategy, full: seq<Bar>, start: int, i: nat) returns (stop: real, open: real)
    requires Ascending(full) && i < |Run(strat, full, start)| && Run(strat, full, start)[i].reason == StopLoss
    ensures var t := Run(strat, full, start)[i];
      && stop < t.entryPrice && MaximalQty(t.entryPrice, stop, t.qty)
      && t.exitPrice == (if open < stop then open else stop)
      && (exists bar :: bar in full && bar.date == t.exitDate && bar.open == open)
      && t.pnl <= 0.0
      && (stop <= open && t.entryPrice - stop <= 200.0 ==> -200.0 <= t.pnl)
  {
    hide Run, Since, StateAfter, BreaksOut, MaximalQty, Size;
    var j, k, n, p := RunTradeOrigin(strat, full, start, i);
    var m, signal, history := PositionOrigin(strat, full, start, k);
    SizeIsMaximal(p.entryPrice, p.stop);
    stop, open := p.stop, full[n].open;
    LossOf(full[n], p, Run(strat, full, start)[i]);
  }

  /** The percentage logged with a trade is the profit's share of what the position cost, each rounded to two places. */
  lemma PercentOfOutlay(p: Position, date: int, price: real, reason: Reason)
    ensures var t := Close(p, date, price, reason);
      && t.entryDate == p.entryDate && t.entryPrice == p.entryPrice && t.qty == p.qty
      && t.exitDate == date && t.exitPrice == price && t.reason == reason
      && t.pnl == RoundAt((price - p.entryPrice) * p.qty as real, 100)
      && t.pnlPct == RoundAt((price - p.entryPrice) * p.qty as real / (p.entryPrice * p.qty as real) * 100.0, 100)
  {
    hide RoundAt;
    CloseSettles(p, date, price, reason);
    assert Pnl(p, price) == (price - p.entryPrice) * p.qty as real;
    var gain, outlay := price - p.entryPrice, p.entryPrice * p.qty as real;
    var ratio := gain / p.entryPrice;
    assert ratio * p.entryPrice == gain;
    assert Pnl(p, price) == ratio * outlay;
    assert ratio * outlay / outlay == ratio;
  }

  lemma LossOf(bar: Bar, p: Position, t: Trade)
    requires ClosedOn(bar, p, t) && t.exitPrice <= p.stop
    requires MaximalQty(p.entryPrice, p.stop, p.qty)
    ensures t.pnl <= 0.0
    ensures t.exitPrice == p.stop && p.entryPrice - p.stop <= 200.0 ==> -200.0 <= t.pnl
  {
    hide RoundAt, Pnl;
    PnlBounds(p, t.exitPrice);
    CentsKeepBounds(Pnl(p, t.exitPrice));
  }

  lemma PnlBounds(p: Position, price: real)
    requires price <= p.stop && MaximalQty(p.entryPrice, p.stop, p.qty)
    ensures Pnl(p, price) <= 0.0
    ensures price == p.stop && p.entryPrice - p.stop <= 200.0 ==> -200.0 <= Pnl(p, price)
  {
    var loss := p.entryPrice - price;
    assert 0.0 <= p.qty as real * loss;
    assert Pnl(p, price) == -(p.qty as real * loss);
  }

  /** Rounding to cents does not carry a loss past zero or past the risk budget. */
  lemma CentsKeepBounds(raw: real)
    ensures raw <= 0.0 ==> RoundAt(raw, 100) <= 0.0
    ensures -200.0 <= raw ==> -200.0 <= RoundAt(raw, 100)
  {
    RoundAtFixed(0.0, 100);
    RoundAtFixed(-200.0, 100);
    if raw <= 0.0 {
      RoundAtMonotone(raw, 0.0, 100);
    }
    if -200.0 <= raw {
      RoundAtMonotone(-200.0, raw, 100);
    }
  }
}
