/**
  The backtester's day loop: it waits for a pattern, waits for the breakout, holds a position, and
  logs a trade at each exit. Dates are day numbers and prices exact reals.
 */
module Backtest {
  import opened Common
  import opened Rounding

  const WARMUP := 60         // bars that must precede a day before it is looked at
  const PREP_DAYS := 365     // calendar days of history loaded before the start date
  const EXPIRY_DAYS := 7
  const RISK_BUDGET := 200.0 // 2% of 10,000

  datatype Bar = Bar(date: int, open: real, high: real, low: real, close: real, volume: real, avgVol: Option<real>)

  ghost predicate Ascending(bars: seq<Bar>) {
    forall i, j | 0 <= i < j < |bars| :: bars[i].date < bars[j].date
  }

  function UpTo(bars: seq<Bar>, day: int): seq<Bar> {
    if bars == [] then []
    else UpTo(bars[..|bars| - 1], day) + if bars[|bars| - 1].date <= day then [bars[|bars| - 1]] else []
  }

  function Since(bars: seq<Bar>, day: int): seq<Bar> {
    if bars == [] then []
    else Since(bars[..|bars| - 1], day) + if day <= bars[|bars| - 1].date then [bars[|bars| - 1]] else []
  }

  lemma {:induction false} UpToHas(bars: seq<Bar>, day: int, bar: Bar)
    ensures bar in UpTo(bars, day) <==> bar in bars && bar.date <= day
  {
    if bars != [] {
      UpToHas(bars[..|bars| - 1], day, bar);
      assert bars == bars[..|bars| - 1] + [bars[|bars| - 1]];
    }
  }

  lemma {:induction false} SinceHas(bars: seq<Bar>, day: int, bar: Bar)
    ensures bar in Since(bars, day) <==> bar in bars && day <= bar.date
  {
    if bars != [] {
      SinceHas(bars[..|bars| - 1], day, bar);
      assert bars == bars[..|bars| - 1] + [bars[|bars| - 1]];
    }
  }

  lemma {:induction false} SinceAscends(bars: seq<Bar>, day: int)
    requires Ascending(bars)
    ensures Ascending(Since(bars, day))
  {
    if bars != [] {
      var n := |bars| - 1;
      SinceAscends(bars[..n], day);
      var rest := Since(bars[..n], day);
      forall i | 0 <= i < |rest| ensures rest[i].date < bars[n].date {
        SinceHas(bars[..n], day, rest[i]);
      }
    }
  }

  /** The bars the database query returns. */
  function Load(table: seq<Bar>, start: int, end: int): seq<Bar> {
    UpTo(Since(table, start - PREP_DAYS), end)
  }

  // ---------------------------------------------------------------- strategy

  datatype Prices = Prices(pivot: real, stop: real)

  /** What a detected pattern offers: a positive pivot above its stop. */
  type Setup = p: Prices | p.stop < p.pivot && 0.0 < p.pivot witness Prices(2.0, 1.0)

  /** Breakout thresholds of the rules that are enabled; `projected` stands for the clock-based volume projection. */
  datatype BreakoutRules = BreakoutRules(maxExtension: Option<real>, minVolumePct: Option<real>,
    projected: seq<Bar> -> real)

  /** `detect` sees the bars before today but today's average volume; `exits` names the first exit rule that fires. */
  datatype Strategy = Strategy(
    detect: (seq<Bar>, real) -> Option<Setup>,
    breakout: BreakoutRules,
    exits: (real, real, int, seq<Bar>, real) -> Option<string>)

  predicate BreaksOut(rules: BreakoutRules, history: seq<Bar>, pivot: real, avgVol: real)
    requires history != [] && 0.0 < pivot
  {
    var close := history[|history| - 1].close;
    && (rules.maxExtension.Some? ==> 0.0 <= (close - pivot) / pivot * 100.0 <= rules.maxExtension.value)
    && (rules.minVolumePct.Some? ==>
          rules.minVolumePct.value <= if 0.0 < avgVol then rules.projected(history) / avgVol * 100.0 else 0.0)
  }

  function AverageVolume(bar: Bar): real {
    if bar.avgVol.Some? && bar.avgVol.value != 0.0 then bar.avgVol.value else bar.volume
  }

  // ---------------------------------------------------------------- state

  datatype Pending = Pending(date: int, setup: Setup)

  datatype Holding = Holding(entryDate: int, entryPrice: real, stop: real, qty: int)
  type Position = h: Holding | h.stop < h.entryPrice && 0.0 < h.entryPrice && 1 <= h.qty witness Holding(0, 2.0, 1.0, 1)

  datatype Reason = StopLoss | ExitRule(name: string) | EndOfBacktest
  datatype Trade = Trade(entryDate: int, entryPrice: real, exitDate: int, exitPrice: real, qty: int,
                         pnl: real, pnlPct: real, reason: Reason)

  datatype State = State(pending: Option<Pending>, position: Option<Position>, trades: seq<Trade>)

  const START := State(None, None, [])

  function Pnl(p: Position, price: real): real { (price - p.entryPrice) * p.qty as real }

  function Close(p: Position, date: int, price: real, reason: Reason): Trade {
    Trade(p.entryDate, p.entryPrice, date, price, p.qty,
          RoundAt(Pnl(p, price), 100),
          RoundAt((price - p.entryPrice) / p.entryPrice * 100.0, 100), reason)
  }

  function Min(a: real, b: real): real { if b < a then b else a }

  /** Whole shares the risk budget buys, at least one; a hundred when the stop is not below the entry. */
  function Size(entry: real, stop: real): int {
    var perShare := entry - stop;
    var qty := if 0.0 < perShare then (RISK_BUDGET / perShare).Floor else 100;
    if qty < 1 then 1 else qty
  }

  function Enter(p: Pending, bar: Bar): Position {
    var entry := Max(p.setup.pivot, bar.open);
    Holding(bar.date, entry, p.setup.stop, Size(entry, p.setup.stop))
  }

  /** One day of the loop. `history` ends with today's bar, `earlier` holds the bars before today. */
  function Step(strat: Strategy, history: seq<Bar>, earlier: seq<Bar>, st: State): State
    requires history != []
  {
    var bar := history[|history| - 1];
    var avgVol := AverageVolume(bar);
    if |earlier| < WARMUP then st
    else if st.position.Some? then
      var p := st.position.value;
      if bar.low <= p.stop then
        State(None, None, st.trades + [Close(p, bar.date, Min(p.stop, bar.open), StopLoss)])
      else
        var exit := strat.exits(p.entryPrice, p.stop, p.entryDate, history, avgVol);
        if exit.Some? then State(None, None, st.trades + [Close(p, bar.date, bar.close, ExitRule(exit.value))])
        else st
    else if st.pending.Some? then
      var p := st.pending.value;
      if BreaksOut(strat.breakout, history, p.setup.pivot, avgVol) then State(None, Some(Enter(p, bar)), st.trades)
      else if EXPIRY_DAYS < bar.date - p.date then st.(pending := None)
      else st
    else
      var found := strat.detect(earlier, avgVol);
      if found.Some? then st.(pending := Some(Pending(bar.date, found.value))) else st
  }

  /** The state after the first `k` days of the window. */
  function StateAfter(strat: Strategy, full: seq<Bar>, start: int, k: nat): State
    requires k <= |Since(full, start)|
  {
    if k == 0 then START
    else
      var bar := Since(full, start)[k - 1];
      SinceHas(full, start, bar);
      UpToHas(full, bar.date, bar);
      Step(strat, UpTo(full, bar.date), UpTo(full, bar.date - 1), StateAfter(strat, full, start, k - 1))
  }

  /** The trade log of a whole run: an open position is closed at the last bar's close. */
  function Finish(st: State, window: seq<Bar>): seq<Trade> {
    if st.position.Some? && window != [] then
      var last := window[|window| - 1];
      st.trades + [Close(st.position.value, last.date, last.close, EndOfBacktest)]
    else st.trades
  }

  function Run(strat: Strategy, full: seq<Bar>, start: int): seq<Trade> {
    var window := Since(full, start);
    Finish(StateAfter(strat, full, start, |window|), window)
  }

  // ---------------------------------------------------------------- statistics

  /** None for the profit factor is Python's infinity: nothing was lost. */
  datatype Summary = Summary(total: nat, winRate: real, profitFactor: Option<real>, net: real, avgHoldDays: real)

  function Wins(trades: seq<Trade>): seq<Trade> {
    if trades == [] then []
    else Wins(trades[..|trades| - 1]) + if 0.0 < trades[|trades| - 1].pnl then [trades[|trades| - 1]] else []
  }

  function Losses(trades: seq<Trade>): seq<Trade> {
    if trades == [] then []
    else Losses(trades[..|trades| - 1]) + if trades[|trades| - 1].pnl <= 0.0 then [trades[|trades| - 1]] else []
  }

  function TotalPnl(trades: seq<Trade>): real {
    if trades == [] then 0.0 else TotalPnl(trades[..|trades| - 1]) + trades[|trades| - 1].pnl
  }

  function TotalHoldDays(trades: seq<Trade>): int {
    if trades == [] then 0
    else TotalHoldDays(trades[..|trades| - 1]) + trades[|trades| - 1].exitDate - trades[|trades| - 1].entryDate
  }

  function Abs(x: real): real { if x < 0.0 then -x else x }

  function WinRate(trades: seq<Trade>): real
    requires trades != []
  {
    |Wins(trades)| as real / |trades| as real * 100.0
  }

  function Summarise(trades: seq<Trade>): Summary {
    if trades == [] then Summary(0, 0.0, Some(0.0), 0.0, 0.0)
    else
      var profits, losses := TotalPnl(Wins(trades)), Abs(TotalPnl(Losses(trades)));
      Summary(|trades|, RoundAt(WinRate(trades), 100),
              if 0.0 < losses then Some(RoundAt(profits / losses, 100)) else None,
              RoundAt(TotalPnl(trades), 100), RoundAt(TotalHoldDays(trades) as real / |trades| as real, 10))
  }

  // ---------------------------------------------------------------- the run itself

  /** What one day can do to the state. */
  ghost predicate Change(st: State, bar: Bar, next: State) {
    || (next == st && (st.pending.Some? ==> bar.date - st.pending.value.date <= EXPIRY_DAYS || st.position.Some?))
    || next == st.(pending := None)
    || (st.pending == None && st.position == None && next.position == None && next.trades == st.trades
        && next.pending.Some? && next.pending.value.date == bar.date)
    || (st.pending.Some? && next.pending == None && next.trades == st.trades
        && next.position.Some? && next.position.value.entryDate == bar.date)
    || (st.position.Some? && next.pending == None && next.position == None && |next.trades| == |st.trades| + 1
        && next.trades[..|st.trades|] == st.trades
        && next.trades[|st.trades|].entryDate == st.position.value.entryDate
        && next.trades[|st.trades|].exitDate == bar.date)
  }

  /** The trade carries the position's details and what it earned. */
  ghost predicate Settles(p: Position, date: int, t: Trade) {
    && t == Close(p, date, t.exitPrice, t.reason)
    && t.entryDate == p.entryDate && t.entryPrice == p.entryPrice && t.qty == p.qty && t.exitDate == date
    && t.pnl == RoundAt((t.exitPrice - p.entryPrice) * p.qty as real, 100)
    && t.pnlPct == RoundAt((t.exitPrice - p.entryPrice) / p.entryPrice * 100.0, 100)
  }

  lemma CloseSettles(p: Position, date: int, price: real, reason: Reason)
    ensures var t := Close(p, date, price, reason);
      Settles(p, date, t) && t.exitPrice == price && t.reason == reason
  {
    hide RoundAt;
    assert Pnl(p, price) == (price - p.entryPrice) * p.qty as real;
  }

  /** The trade a position closes in, at the day's price for the reason it closes. */
  ghost predicate ClosedOn(bar: Bar, p: Position, t: Trade) {
    && Settles(p, bar.date, t)
    && match t.reason
       case StopLoss => bar.low <= p.stop && t.exitPrice == if bar.open < p.stop then bar.open else p.stop
       case ExitRule(_) => p.stop < bar.low && t.exitPrice == bar.close
       case EndOfBacktest => t.exitPrice == bar.close
  }

  /** A held position closes exactly when its stop is hit or an exit rule fires, by the stop first. */
  ghost predicate HeldDay(strat: Strategy, history: seq<Bar>, p: Position, st: State, next: State)
    requires history != []
  {
    var bar := history[|history| - 1];
    var exit := strat.exits(p.entryPrice, p.stop, p.entryDate, history, AverageVolume(bar));
    && (next.position == None <==> bar.low <= p.stop || exit.Some?)
    && (next.position.Some? ==> next == st)
    && (next.position == None ==>
          && next.pending == None && |next.trades| == |st.trades| + 1 && next.trades[..|st.trades|] == st.trades
          && var t := next.trades[|st.trades|];
             && ClosedOn(bar, p, t)
             && (t.reason == StopLoss <==> bar.low <= p.stop)
             && (forall name :: t.reason == ExitRule(name) <==> p.stop < bar.low && exit == Some(name)))
  }

  /** A signal turns into a position exactly on a breakout, and is dropped without one exactly after a week. */
  ghost predicate SignalDay(strat: Strategy, history: seq<Bar>, s: Pending, st: State, next: State)
    requires history != []
  {
    var bar := history[|history| - 1];
    var breaks := BreaksOut(strat.breakout, history, s.setup.pivot, AverageVolume(bar));
    && next.trades == st.trades
    && (next.position.Some? <==> breaks)
    && (breaks ==> next.position == Some(Enter(s, bar)))
    && (next.pending == None <==> breaks || 7 < bar.date - s.date)
    && (next.pending.Some? ==> next == st)
  }

  /** With neither, the bars before today are screened, and a pattern found is today's signal. */
  ghost predicate IdleDay(strat: Strategy, bar: Bar, earlier: seq<Bar>, st: State, next: State) {
    && next.trades == st.trades && next.position == None
    && (forall setup ::
          next.pending == Some(Pending(bar.date, setup)) <==> strat.detect(earlier, AverageVolume(bar)) == Some(setup))
    && (next.pending == None <==> strat.detect(earlier, AverageVolume(bar)) == None)
    && (next.pending.Some? ==> next.pending.value.date == bar.date)
  }

  /** What a day does, from what it finds, is called for by the bars it sees, and nothing it leaves undone is. */
  ghost predicate Warranted(strat: Strategy, history: seq<Bar>, earlier: seq<Bar>, st: State, next: State)
    requires history != []
  {
    if st.position.Some? then HeldDay(strat, history, st.position.value, st, next)
    else if st.pending.Some? then SignalDay(strat, history, st.pending.value, st, next)
    else IdleDay(strat, history[|history| - 1], earlier, st, next)
  }

  /**
    The loop body. Before the warm-up it does nothing; after it, the day changes the state in one of a few
    ways, each called for by today's bar, and never leaves both a signal and a position.
   */
  method TradeDay(strat: Strategy, history: seq<Bar>, earlier: seq<Bar>, st: State)
    returns (pending: Option<Pending>, position: Option<Position>, trades: seq<Trade>)
    requires history != []
    ensures State(pending, position, trades) == Step(strat, history, earlier, st)
    ensures |earlier| < 60 ==> State(pending, position, trades) == st
    ensures 60 <= |earlier| ==>
      && Change(st, history[|history| - 1], State(pending, position, trades))
      && Warranted(strat, history, earlier, st, State(pending, position, trades))
    ensures st.pending.None? || st.position.None? ==> pending.None? || position.None?
  {
    hide BreaksOut, Size, RoundAt, Settles;
    pending, position, trades := st.pending, st.position, st.trades;
    if |earlier| < WARMUP {
      return;
    }
    var bar := history[|history| - 1];
    var avgVol := AverageVolume(bar);
    if position.Some? {
      var p := position.value;
      if bar.low <= p.stop {
        CloseSettles(p, bar.date, Min(p.stop, bar.open), StopLoss);
        trades := trades + [Close(p, bar.date, Min(p.stop, bar.open), StopLoss)];
        position, pending := None, None;
        return;
      }
      var exit := strat.exits(p.entryPrice, p.stop, p.entryDate, history, avgVol);
      if exit.Some? {
        CloseSettles(p, bar.date, bar.close, ExitRule(exit.value));
        trades := trades + [Close(p, bar.date, bar.close, ExitRule(exit.value))];
        position, pending := None, None;
        return;
      }
    } else if pending.Some? {
      var p := pending.value;
      if BreaksOut(strat.breakout, history, p.setup.pivot, avgVol) {
        position, pending := Some(Enter(p, bar)), None;
        return;
      }
      if EXPIRY_DAYS < bar.date - p.date {
        pending := None;
      }
    } else {
      var found := strat.detect(earlier, avgVol);
      if found.Some? {
        pending := Some(Pending(bar.date, found.value));
      }
    }
  }

  method Replay(strat: Strategy, full: seq<Bar>, start: int) returns (trades: seq<Trade>)
    ensures trades == Run(strat, full, start)
  {
    hide UpTo, Since;
    var window := Since(full, start);
    var st := START;
    for k := 0 to |window|
      invariant st == StateAfter(strat, full, start, k)
    {
      var today := window[k].date;
      var history := UpTo(full, today);
      SinceHas(full, start, window[k]);
      UpToHas(full, today, window[k]);
      var pending, position, log := TradeDay(strat, history, UpTo(full, today - 1), st);
      st := State(pending, position, log);
    }
    trades := st.trades;
    if st.position.Some? {
      var last := window[|window| - 1];
      trades := trades + [Close(st.position.value, last.date, last.close, EndOfBacktest)];
    }
  }

  method RunBacktest(strat: Strategy, table: seq<Bar>, start: int, end: int)
    returns (result: Option<(seq<Trade>, Summary)>)
    ensures result.None? <==> Load(table, start, end) == []
    ensures result.Some? ==>
      && result.value.0 == Run(strat, Load(table, start, end), start)
      && result.value.1 == Summarise(result.value.0)
  {
    var full := Load(table, start, end);
    if full == [] {
      return None;
    }
    var trades := Replay(strat, full, start);
    result := Some((trades, Summarise(trades)));
  }
}
