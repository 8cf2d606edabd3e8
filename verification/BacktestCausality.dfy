/**
  The replay never looks ahead: running to a later end date repeats every decision of the shorter run.
 */
module BacktestCausality {
  import opened Common
  import opened Backtest

  /** A query by date reads a prefix of a table in date order, and later bars lie past the date. */
  lemma {:induction false} UpToIsPrefix(bars: seq<Bar>, day: int)
    requires Ascending(bars)
    ensures UpTo(bars, day) <= bars
    ensures forall i | |UpTo(bars, day)| <= i < |bars| :: day < bars[i].date
  {
    hide UpTo;
    UpToLast(bars, day);
    if bars != [] {
      var n := |bars| - 1;
      UpToIsPrefix(bars[..n], day);
      var read := UpTo(bars[..n], day);
      if bars[n].date <= day {
        assert |read| == n by {
          assert bars[|read|].date <= bars[n].date;
        }
        assert UpTo(bars, day) == bars;
      } else {
        assert UpTo(bars, day) == read;
      }
    }
  }

  lemma UpToLast(bars: seq<Bar>, day: int)
    ensures UpTo(bars, day) ==
      if bars == [] then []
      else UpTo(bars[..|bars| - 1], day) + if bars[|bars| - 1].date <= day then [bars[|bars| - 1]] else []
  {
  }

  /** The two loads of a run to `end` and of a longer run: one is the start of the other. */
  lemma LoadExtends(table: seq<Bar>, start: int, end: int, later: int) returns (tail: seq<Bar>)
    requires Ascending(table) && end <= later
    ensures Load(table, start, later) == Load(table, start, end) + tail
    ensures forall b | b in tail :: end < b.date
    ensures forall b | b in Load(table, start, end) :: b.date <= end
    ensures Ascending(Load(table, start, later))
  {
    hide UpTo, Since;
    var loaded := Since(table, start - PREP_DAYS);
    SinceAscends(table, start - PREP_DAYS);
    UpToIsPrefix(loaded, end);
    UpToIsPrefix(loaded, later);
    var short, long := UpTo(loaded, end), UpTo(loaded, later);
    if |long| < |short| {
      assert later < loaded[|short| - 1].date;
      UpToHas(loaded, end, short[|short| - 1]);
    }
    tail := long[|short|..];
    forall b | b in short ensures b.date <= end {
      UpToHas(loaded, end, b);
    }
  }

  lemma {:induction false} UpToAppend(bars: seq<Bar>, tail: seq<Bar>, day: int)
    requires forall b | b in tail :: day < b.date
    ensures UpTo(bars + tail, day) == UpTo(bars, day)
  {
    if tail == [] {
      assert bars + tail == bars;
    } else {
      var n := |tail| - 1;
      UpToAppend(bars, tail[..n], day);
      assert (bars + tail)[..|bars| + n] == bars + tail[..n];
    }
  }

  lemma {:induction false} SinceAppend(bars: seq<Bar>, tail: seq<Bar>, day: int)
    ensures Since(bars + tail, day) == Since(bars, day) + Since(tail, day)
  {
    if tail == [] {
      assert bars + tail == bars;
    } else {
      var n := |tail| - 1;
      SinceAppend(bars, tail[..n], day);
      assert (bars + tail)[..|bars| + n] == bars + tail[..n];
    }
  }

  /** Bars appended past `last` leave every state up to `last` as it was. */
  lemma {:induction false} SameDecisions(strat: Strategy, full: seq<Bar>, tail: seq<Bar>, last: int, start: int, k: nat)
    requires forall b | b in full :: b.date <= last
    requires forall b | b in tail :: last < b.date
    requires k <= |Since(full, start)|
    ensures Since(full, start) <= Since(full + tail, start)
    ensures StateAfter(strat, full + tail, start, k) == StateAfter(strat, full, start, k)
  {
    hide UpTo, Since, Step;
    SinceAppend(full, tail, start);
    if k != 0 {
      SameDecisions(strat, full, tail, last, start, k - 1);
      var bar := Since(full, start)[k - 1];
      SinceHas(full, start, bar);
      UpToAppend(full, tail, bar.date);
      UpToAppend(full, tail, bar.date - 1);
      assert Since(full + tail, start)[k - 1] == bar;
    }
  }

  lemma {:induction false} LogOnlyGrows(strat: Strategy, full: seq<Bar>, start: int, k: nat, m: nat)
    requires k <= m <= |Since(full, start)|
    ensures StateAfter(strat, full, start, k).trades <= StateAfter(strat, full, start, m).trades
    ensures forall t | t in StateAfter(strat, full, start, k).trades :: t.reason != EndOfBacktest
    decreases m
  {
    hide UpTo, Since;
    if k < m {
      LogOnlyGrows(strat, full, start, k, m - 1);
    } else if 0 < k {
      LogOnlyGrows(strat, full, start, k - 1, k - 1);
    }
  }

  /** The trades a run decided on, without the forced close of its last day. */
  function Decided(trades: seq<Trade>): seq<Trade> {
    if trades == [] then []
    else
      var last := trades[|trades| - 1];
      Decided(trades[..|trades| - 1]) + if last.reason == EndOfBacktest then [] else [last]
  }

  lemma {:induction false} DecidedKeepsAll(trades: seq<Trade>)
    requires forall t | t in trades :: t.reason != EndOfBacktest
    ensures Decided(trades) == trades
  {
    if trades != [] {
      var rest := trades[..|trades| - 1];
      assert trades == rest + [trades[|trades| - 1]];
      assert forall t | t in rest :: t in trades;
      DecidedKeepsAll(rest);
    }
  }

  lemma DecidedIsTheLog(strat: Strategy, full: seq<Bar>, start: int)
    ensures Decided(Run(strat, full, start)) == StateAfter(strat, full, start, |Since(full, start)|).trades
  {
    hide UpTo, Since, Step, StateAfter, Close;
    var window := Since(full, start);
    var st := StateAfter(strat, full, start, |window|);
    LogOnlyGrows(strat, full, start, |window|, |window|);
    DecidedKeepsAll(st.trades);
    var trades := Finish(st, window);
    if trades != st.trades {
      assert trades[..|trades| - 1] == st.trades;
      EndReason(st.position.value, window[|window| - 1]);
    }
  }

  lemma EndReason(p: Position, bar: Bar)
    ensures Close(p, bar.date, bar.close, EndOfBacktest).reason == EndOfBacktest
  {
  }

  /**
    Causality. Over one price table, a run to `end` and a run to a later date agree on the pending
    signal, the position and the log after every day the shorter one saw, and everything the shorter one
    decided opens the longer one's log.
   */
  lemma Causality(strat: Strategy, table: seq<Bar>, start: int, end: int, later: int)
    requires Ascending(table) && end <= later
    ensures var short, long := Load(table, start, end), Load(table, start, later);
      && Since(short, start) <= Since(long, start)
      && (forall k | 0 <= k <= |Since(short, start)| ::
            StateAfter(strat, long, start, k) == StateAfter(strat, short, start, k))
      && Decided(Run(strat, short, start)) <= Run(strat, long, start)
  {
    hide UpTo, Since, StateAfter;
    var short, long := Load(table, start, end), Load(table, start, later);
    var tail := LoadExtends(table, start, end, later);
    var n, m := |Since(short, start)|, |Since(long, start)|;
    SameDecisions(strat, short, tail, end, start, 0);
    forall k | 0 <= k <= n ensures StateAfter(strat, long, start, k) == StateAfter(strat, short, start, k) {
      SameDecisions(strat, short, tail, end, start, k);
    }
    DecidedIsTheLog(strat, short, start);
    LogOnlyGrows(strat, long, start, n, m);
  }
}
