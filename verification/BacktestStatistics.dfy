/** What the summary of a run says about its trades. */
module BacktestStatistics {
  import opened Common
  import opened Rounding
  import opened Backtest
  import opened BacktestSafety

  /** Winning and losing trades share the log out between them, trade by trade and in money. */
  lemma WinsAndLossesPartition(trades: seq<Trade>)
    ensures multiset(trades) == multiset(Wins(trades)) + multiset(Losses(trades))
    ensures |trades| == |Wins(trades)| + |Losses(trades)|
    ensures TotalPnl(trades) == TotalPnl(Wins(trades)) + TotalPnl(Losses(trades))
  {
    hide Wins, Losses, TotalPnl;
    EachTradeCounted(trades);
    MoneyPartition(trades);
  }

  lemma {:induction false} EachTradeCounted(trades: seq<Trade>)
    ensures multiset(trades) == multiset(Wins(trades)) + multiset(Losses(trades))
    ensures |trades| == |Wins(trades)| + |Losses(trades)|
  {
    if trades != [] {
      var rest, last := trades[..|trades| - 1], trades[|trades| - 1];
      EachTradeCounted(rest);
      assert trades == rest + [last];
      if 0.0 < last.pnl {
        assert Wins(trades) == Wins(rest) + [last] && Losses(trades) == Losses(rest);
      } else {
        assert Wins(trades) == Wins(rest) && Losses(trades) == Losses(rest) + [last];
      }
    }
  }

  lemma {:induction false} MoneyPartition(trades: seq<Trade>)
    ensures TotalPnl(trades) == TotalPnl(Wins(trades)) + TotalPnl(Losses(trades))
  {
    if trades != [] {
      var rest, last := trades[..|trades| - 1], trades[|trades| - 1];
      MoneyPartition(rest);
      if 0.0 < last.pnl {
        AddPnl(Wins(rest), last);
        assert Losses(trades) == Losses(rest);
      } else {
        AddPnl(Losses(rest), last);
        assert Wins(trades) == Wins(rest);
      }
    }
  }

  /** The two totals, of no trades and of one more. */
  lemma AddPnl(trades: seq<Trade>, t: Trade)
    ensures TotalPnl([]) == 0.0 && TotalPnl(trades + [t]) == TotalPnl(trades) + t.pnl
    ensures TotalHoldDays([]) == 0
    ensures TotalHoldDays(trades + [t]) == TotalHoldDays(trades) + (t.exitDate - t.entryDate)
  {
    assert (trades + [t])[..|trades|] == trades;
  }

  /** Which trades count as won and lost. */
  lemma {:induction false} WinsWin(trades: seq<Trade>)
    ensures forall t :: t in Wins(trades) <==> t in trades && 0.0 < t.pnl
    ensures forall t :: t in Losses(trades) <==> t in trades && t.pnl <= 0.0
  {
    if trades != [] {
      var rest := trades[..|trades| - 1];
      WinsWin(rest);
      assert trades == rest + [trades[|trades| - 1]];
    }
  }

  lemma {:induction false} NoGains(trades: seq<Trade>)
    requires forall t | t in trades :: t.pnl <= 0.0
    ensures TotalPnl(trades) <= 0.0
    ensures TotalPnl(trades) == 0.0 <==> forall t | t in trades :: t.pnl == 0.0
  {
    if trades != [] {
      var rest := trades[..|trades| - 1];
      NoGains(rest);
      assert trades == rest + [trades[|trades| - 1]];
    }
  }

  lemma {:induction false} NoLosses(trades: seq<Trade>)
    requires forall t | t in trades :: 0.0 <= t.pnl
    ensures 0.0 <= TotalPnl(trades)
  {
    if trades != [] {
      NoLosses(trades[..|trades| - 1]);
    }
  }

  /** `shown` is `exact` to the nearest of `k` steps per unit. */
  ghost predicate Rounded(shown: real, exact: real, k: int)
    requires k > 0
  {
    OnGrid(shown, k) && exact - 0.5 / k as real <= shown <= exact + 0.5 / k as real
  }

  /**
    The summary's figures are those of the partition: the net is profits less losses, the win rate the
    percentage of trades won, the profit factor profits over losses, infinite exactly when no trade lost
    money, and the days held the average over all trades.
   */
  lemma SummaryAddsUp(trades: seq<Trade>)
    requires trades != []
    ensures var s, profits, losses := Summarise(trades), TotalPnl(Wins(trades)), -TotalPnl(Losses(trades));
      var n := |trades| as real;
      && s.total == |trades| && 0.0 <= s.winRate <= 100.0
      && Rounded(s.winRate, 100.0 * |Wins(trades)| as real / n, 100)
      && 0.0 <= profits && 0.0 <= losses && Rounded(s.net, profits - losses, 100)
      && (s.profitFactor.None? <==> forall t | t in trades :: 0.0 <= t.pnl)
      && (s.profitFactor.Some? ==> 0.0 < losses && Rounded(s.profitFactor.value, profits / losses, 100))
      && Rounded(s.avgHoldDays, TotalHoldDays(trades) as real / n, 10)
    ensures Summarise([]) == Summary(0, 0.0, Some(0.0), 0.0, 0.0)
  {
    hide Summarise, RoundAt, Wins, Losses, TotalPnl, TotalHoldDays, Rounded, WinRate;
    WinsAndLossesPartition(trades);
    WinsWin(trades);
    NoGains(Losses(trades));
    NoLosses(Wins(trades));
    assert TotalPnl(Losses(trades)) == 0.0 <==> forall t | t in trades :: 0.0 <= t.pnl;
    SummaryRounds(trades);
    RateInRange(trades);
    RateKeepsRange(WinRate(trades));
  }

  lemma SummaryRounds(trades: seq<Trade>)
    requires trades != []
    ensures var s, losses := Summarise(trades), Abs(TotalPnl(Losses(trades)));
      && s.total == |trades| && s.winRate == RoundAt(WinRate(trades), 100)
      && Rounded(s.winRate, WinRate(trades), 100) && Rounded(s.net, TotalPnl(trades), 100)
      && (s.profitFactor.Some? <==> 0.0 < losses)
      && (0.0 < losses ==> Rounded(s.profitFactor.value, TotalPnl(Wins(trades)) / losses, 100))
      && Rounded(s.avgHoldDays, TotalHoldDays(trades) as real / |trades| as real, 10)
    ensures Summarise([]) == Summary(0, 0.0, Some(0.0), 0.0, 0.0)
  {
    hide RoundAt, Wins, Losses, TotalPnl, TotalHoldDays, WinRate, Abs, Rounded;
    var losses := Abs(TotalPnl(Losses(trades)));
    Rounds(WinRate(trades), 100);
    Rounds(TotalPnl(trades), 100);
    if 0.0 < losses {
      Rounds(TotalPnl(Wins(trades)) / losses, 100);
    }
    Rounds(TotalHoldDays(trades) as real / |trades| as real, 10);
  }

  lemma Rounds(x: real, k: int)
    requires 0 < k
    ensures Rounded(RoundAt(x, k), x, k)
  {
    RoundAtNear(x, k);
  }

  lemma RateInRange(trades: seq<Trade>)
    requires trades != [] && |Wins(trades)| <= |trades|
    ensures WinRate(trades) == 100.0 * |Wins(trades)| as real / |trades| as real && 0.0 <= WinRate(trades) <= 100.0
  {
    hide Wins;
    var part, whole := |Wins(trades)| as real, |trades| as real;
    var ratio := part / whole;
    assert ratio * whole == part;
    assert 100.0 * part / whole == ratio * 100.0;
    Scale(ratio, 1.0, whole);
    Scale(0.0, ratio, whole);
  }

  lemma RateKeepsRange(rate: real)
    requires 0.0 <= rate <= 100.0
    ensures 0.0 <= RoundAt(rate, 100) <= 100.0
  {
    RoundAtFixed(0.0, 100);
    RoundAtFixed(100.0, 100);
    RoundAtMonotone(0.0, rate, 100);
    RoundAtMonotone(rate, 100.0, 100);
  }

  // ---------------------------------------------------------------- days held

  ghost predicate HeldApart(trades: seq<Trade>) {
    && (forall i | 0 <= i < |trades| :: trades[i].entryDate <= trades[i].exitDate)
    && (forall i | 0 <= i < |trades| - 1 :: trades[i].exitDate < trades[i + 1].entryDate)
  }

  lemma {:induction false} HoldDaysFit(trades: seq<Trade>)
    requires HeldApart(trades) && trades != []
    ensures 0 <= TotalHoldDays(trades) <= trades[|trades| - 1].exitDate - trades[0].entryDate
  {
    var n := |trades| - 1;
    if n != 0 {
      HoldDaysFit(trades[..n]);
      assert trades[n - 1].exitDate < trades[n].entryDate;
    } else {
      assert TotalHoldDays(trades[..n]) == 0;
    }
  }

  /** Holdings never overlap, so together they last no longer than from the first entry to the last exit. */
  lemma RunHoldDaysFit(strat: Strategy, full: seq<Bar>, start: int)
    requires Ascending(full) && Run(strat, full, start) != []
    ensures var trades := Run(strat, full, start);
      && 0 <= TotalHoldDays(trades) <= trades[|trades| - 1].exitDate - trades[0].entryDate
      && 0.0 <= Summarise(trades).avgHoldDays
  {
    hide Run;
    var trades := Run(strat, full, start);
    TradesInOrder(strat, full, start);
    forall i | 0 <= i < |trades| ensures trades[i].entryDate <= trades[i].exitDate {
      assert trades[i] in trades;
    }
    HoldDaysFit(trades);
    AverageNotNegative(TotalHoldDays(trades), |trades|);
  }

  lemma AverageNotNegative(days: int, count: nat)
    requires 0 <= days && count != 0
    ensures 0.0 <= RoundAt(days as real / count as real, 10)
  {
    var average := days as real / count as real;
    assert average * count as real == days as real;
    Scale(0.0, average, count as real);
    RoundAtFixed(0.0, 10);
    RoundAtMonotone(0.0, average, 10);
  }
}
