/**
  Detection of a volatility contraction pattern: swing highs are paired with the swing lows that follow
  them, and a run of ever tighter contractions gives the buy pivot and the stop.
 */
module VcpDetection {
  import opened Common
  import opened Backtest

  const MIN_BARS := 15

  /** Enabled rules carry their thresholds. */
  datatype Rules = Rules(minContractions: int, maxWeeks: int, baseWeeks: Option<(int, int)>, dryUpPct: Option<real>)

  datatype Contraction = Contraction(highIdx: nat, lowIdx: nat, high: real, low: real, pct: real)

  ghost predicate Increasing(s: seq<nat>) {
    forall i, j | 0 <= i < j < |s| :: s[i] < s[j]
  }

  /** No value within `half` positions of `i` beats it. */
  ghost predicate Swing(values: seq<real>, half: nat, high: bool, i: nat) {
    && half <= i < |values| - half
    && forall j | i - half <= j <= i + half :: if high then values[j] <= values[i] else values[i] <= values[j]
  }

  method FindPivots(values: seq<real>, half: nat, high: bool) returns (pivots: seq<nat>)
    ensures Increasing(pivots)
    ensures forall i: nat :: i in pivots <==> Swing(values, half, high, i)
  {
    pivots := [];
    var i: nat := half;
    while i < |values| - half
      invariant half <= i
      invariant Increasing(pivots)
      invariant forall p: nat :: p in pivots <==> p < i && Swing(values, half, high, p)
    {
      if forall j | i - half <= j <= i + half :: if high then values[j] <= values[i] else values[i] <= values[j] {
        assert Swing(values, half, high, i);
        assert forall k | 0 <= k < |pivots| :: pivots[k] in pivots;
        pivots := pivots + [i];
      }
      i := i + 1;
    }
  }

  /** The earliest swing low after `h`. */
  ghost predicate NextLow(lows: seq<nat>, h: nat, l: nat) {
    l in lows && h < l && forall i | 0 <= i < |lows| && h < lows[i] :: l <= lows[i]
  }

  method LowAfter(lows: seq<nat>, h: nat) returns (low: Option<nat>)
    ensures low.Some? ==> NextLow(lows, h, low.value)
    ensures low.None? ==> forall i | 0 <= i < |lows| :: lows[i] <= h
  {
    low := None;
    for i := 0 to |lows|
      invariant low.Some? ==> low.value in lows && h < low.value
      invariant forall j | 0 <= j < i && h < lows[j] :: low.Some? && low.value <= lows[j]
    {
      if h < lows[i] && (low.None? || lows[i] < low.value) {
        low := Some(lows[i]);
      }
    }
  }

  /** The size of a drop in percent of the high. */
  function Drop(high: real, low: real): real { if 0.0 < high then (high - low) / high * 100.0 else 0.0 }

  /** A drop from a swing high to the next swing low in time. */
  ghost predicate Drops(c: Contraction, highs: seq<real>, lows: seq<real>, lowAt: seq<nat>) {
    && NextLow(lowAt, c.highIdx, c.lowIdx)
    && c.highIdx < |highs| && c.high == highs[c.highIdx]
    && c.lowIdx < |lows| && c.low == lows[c.lowIdx]
    && c.low < c.high && c.pct == Drop(c.high, c.low)
  }

  /** The swing highs that got a contraction. */
  ghost function Peaks(cs: seq<Contraction>): seq<nat> {
    seq(|cs|, i requires 0 <= i < |cs| => cs[i].highIdx)
  }

  ghost predicate StartsDrop(highs: seq<real>, lows: seq<real>, lowAt: seq<nat>, h: nat) {
    h < |highs| && exists i ::
      0 <= i < |lowAt| && NextLow(lowAt, h, lowAt[i]) && lowAt[i] < |lows| && lows[lowAt[i]] < highs[h]
  }

  /** One contraction for every swing high whose next low lies below it, in time order. */
  method PairContractions(highs: seq<real>, lows: seq<real>, highAt: seq<nat>, lowAt: seq<nat>)
    returns (found: seq<Contraction>)
    requires forall i | 0 <= i < |highAt| :: highAt[i] < |highs|
    requires forall i | 0 <= i < |lowAt| :: lowAt[i] < |lows|
    requires Increasing(highAt)
    ensures forall i | 0 <= i < |found| :: Drops(found[i], highs, lows, lowAt)
    ensures Increasing(Peaks(found))
    ensures forall h: nat :: h in Peaks(found) <==> h in highAt && StartsDrop(highs, lows, lowAt, h)
  {
    found := [];
    for i := 0 to |highAt|
      invariant forall k | 0 <= k < |found| :: Drops(found[k], highs, lows, lowAt)
      invariant Increasing(Peaks(found))
      invariant forall h: nat :: h in Peaks(found) <==> h in highAt[..i] && StartsDrop(highs, lows, lowAt, h)
    {
      var h := highAt[i];
      var low := LowAfter(lowAt, h);
      OnlyNextLow(highs, lows, lowAt, h, low);
      assert highAt[..i + 1] == highAt[..i] + [h];
      forall k | 0 <= k < |found| ensures Peaks(found)[k] < h {
        assert Peaks(found)[k] in highAt[..i];
      }
      if low.Some? && lows[low.value] < highs[h] {
        var c := Contraction(h, low.value, highs[h], lows[low.value], Drop(highs[h], lows[low.value]));
        assert Peaks(found + [c]) == Peaks(found) + [h];
        found := found + [c];
      }
    }
    assert highAt[..|highAt|] == highAt;
  }

  lemma OnlyNextLow(highs: seq<real>, lows: seq<real>, lowAt: seq<nat>, h: nat, low: Option<nat>)
    requires h < |highs| && forall i | 0 <= i < |lowAt| :: lowAt[i] < |lows|
    requires low.Some? ==> NextLow(lowAt, h, low.value)
    requires low.None? ==> forall i | 0 <= i < |lowAt| :: lowAt[i] <= h
    ensures low.Some? ==> low.value < |lows|
    ensures StartsDrop(highs, lows, lowAt, h) <==> low.Some? && lows[low.value] < highs[h]
  {
    if low.Some? {
      var k :| 0 <= k < |lowAt| && lowAt[k] == low.value;
    }
  }

  ghost predicate Tightening(cs: seq<Contraction>) {
    forall i | 0 < i < |cs| :: cs[i].pct < cs[i - 1].pct
  }

  /**
    `valid` is the run of tightening contractions the scan of `cs` ends with: consecutive ones from `first`,
    maximal to the left, and stopped only at the end or where too few contractions remain to start over.
   */
  ghost predicate FinalRun(cs: seq<Contraction>, minContractions: int, valid: seq<Contraction>, first: nat) {
    var end := first + |valid|;
    && end <= |cs| && valid == cs[first..end] && Tightening(valid) && (cs != [] ==> valid != [])
    && (first != 0 && valid != [] ==> cs[first - 1].pct <= cs[first].pct && minContractions <= |cs| - first)
    && (0 < end < |cs| ==> |cs| - end < minContractions && cs[end - 1].pct <= cs[end].pct)
  }

  method Tighten(cs: seq<Contraction>, minContractions: int) returns (valid: seq<Contraction>, first: nat)
    ensures FinalRun(cs, minContractions, valid, first)
  {
    if cs == [] {
      return [], 0;
    }
    valid, first := [cs[0]], 0;
    for i := 1 to |cs|
      invariant first < i && valid == cs[first..i] && Tightening(valid)
      invariant first != 0 ==> cs[first - 1].pct <= cs[first].pct && minContractions <= |cs| - first
    {
      if cs[i].pct < valid[|valid| - 1].pct {
        valid := valid + [cs[i]];
      } else if minContractions <= |cs| - i {
        valid, first := [cs[i]], i;
      } else {
        return;
      }
    }
  }

  function TotalVolume(bars: seq<Bar>): real {
    if bars == [] then 0.0 else TotalVolume(bars[..|bars| - 1]) + bars[|bars| - 1].volume
  }

  /** Volume of the up to five bars from the final low, as a percentage of the average. */
  function DryUpRatio(window: seq<Bar>, low: nat, avgVol: real): real
    requires low < |window|
  {
    var area := window[low..if low + 5 <= |window| then low + 5 else |window|];
    if 0.0 < avgVol then TotalVolume(area) / |area| as real / avgVol * 100.0 else 100.0
  }

  /**
    The dry-up: the average volume of the up to five bars from the low on is that percentage of the average
    volume; without an average volume it counts as the whole of it.
   */
  lemma DryUpIs(window: seq<Bar>, low: nat, avgVol: real)
    requires low < |window|
    ensures var days := if low + 5 <= |window| then 5 else |window| - low;
      if avgVol <= 0.0 then DryUpRatio(window, low, avgVol) == 100.0
      else DryUpRatio(window, low, avgVol) * avgVol * days as real == 100.0 * TotalVolume(window[low..low + days])
  {
    var days := if low + 5 <= |window| then 5 else |window| - low;
    var total := TotalVolume(window[low..low + days]);
    if 0.0 < avgVol {
      assert window[low..if low + 5 <= |window| then low + 5 else |window|] == window[low..low + days];
      Percentage(total / days as real, avgVol);
      assert total / days as real * days as real == total;
    }
  }

  lemma Percentage(part: real, whole: real)
    requires 0.0 < whole
    ensures part / whole * 100.0 * whole == 100.0 * part
  {
    assert part / whole * whole == part;
  }

  lemma VolumeAdds(bars: seq<Bar>, bar: Bar)
    ensures TotalVolume([]) == 0.0 && TotalVolume(bars + [bar]) == TotalVolume(bars) + bar.volume
  {
    assert (bars + [bar])[..|bars|] == bars;
  }

  /** A drop in percent of its high. */
  lemma DropIs(high: real, low: real)
    ensures if 0.0 < high then Drop(high, low) * high == 100.0 * (high - low) else Drop(high, low) == 0.0
  {
    if 0.0 < high {
      Percentage(high - low, high);
    }
  }

  /** The last `maxWeeks` trading weeks. */
  function Lookback(bars: seq<Bar>, maxWeeks: int): seq<Bar>
    requires 1 <= maxWeeks
  {
    if maxWeeks * 5 < |bars| then bars[|bars| - maxWeeks * 5..] else bars
  }

  /** What is looked at: the last `maxWeeks` weeks of five bars, and swings of one or two bars each side. */
  lemma WindowIs(bars: seq<Bar>, maxWeeks: int)
    requires 1 <= maxWeeks
    ensures Lookback(bars, maxWeeks) == if |bars| <= 5 * maxWeeks then bars else bars[|bars| - 5 * maxWeeks..]
    ensures HalfWindow(bars) == if |bars| < 60 then 1 else 2
  {
  }

  /** The rules a run of contractions over `window` has to pass. */
  predicate Passes(window: seq<Bar>, valid: seq<Contraction>, rules: Rules, avgVol: real)
    requires forall i | 0 <= i < |valid| :: valid[i].lowIdx < |window|
  {
    && rules.minContractions <= |valid| && valid != []
    && var first, last := valid[0], valid[|valid| - 1];
       && (rules.baseWeeks.Some? ==>
             rules.baseWeeks.value.0 <= (last.highIdx - first.highIdx) / 5 <= rules.baseWeeks.value.1)
       && (rules.dryUpPct.Some? ==> DryUpRatio(window, last.lowIdx, avgVol) <= rules.dryUpPct.value)
  }

  /**
    What the rules ask: enough contractions; a base, from the first swing high to the last, of as many whole weeks
    as allowed; and a dry-up no weaker than allowed.
   */
  lemma PassesMeans(window: seq<Bar>, valid: seq<Contraction>, rules: Rules, avgVol: real)
    requires valid != [] && forall i | 0 <= i < |valid| :: valid[i].lowIdx < |window|
    ensures var last := valid[|valid| - 1]; var days := last.highIdx - valid[0].highIdx;
      Passes(window, valid, rules, avgVol) <==>
        && rules.minContractions <= |valid|
        && (rules.baseWeeks.Some? ==> 5 * rules.baseWeeks.value.0 <= days < 5 * (rules.baseWeeks.value.1 + 1))
        && (rules.dryUpPct.Some? ==> DryUpRatio(window, last.lowIdx, avgVol) <= rules.dryUpPct.value)
  {
    hide DryUpRatio;
  }

  function Highs(window: seq<Bar>): (highs: seq<real>)
    ensures |highs| == |window|
  {
    seq(|window|, i requires 0 <= i < |window| => window[i].high)
  }

  function Lows(window: seq<Bar>): (lows: seq<real>)
    ensures |lows| == |window|
  {
    seq(|window|, i requires 0 <= i < |window| => window[i].low)
  }

  /** At least two swing points: without them no contraction is looked for. */
  ghost predicate TwoSwings(values: seq<real>, half: nat, high: bool) {
    exists i: nat, j: nat :: i < j && Swing(values, half, high, i) && Swing(values, half, high, j)
  }

  /** The earliest swing low after `h` is at `l`. */
  ghost predicate FirstLow(window: seq<Bar>, half: nat, h: nat, l: nat) {
    && h < l && Swing(Lows(window), half, false, l)
    && forall k: nat | h < k && Swing(Lows(window), half, false, k) :: l <= k
  }

  /** A contraction read off the bars: from a swing high down to the first swing low after it. */
  ghost predicate Over(window: seq<Bar>, half: nat, c: Contraction) {
    && Swing(Highs(window), half, true, c.highIdx) && FirstLow(window, half, c.highIdx, c.lowIdx)
    && c.highIdx < c.lowIdx < |window| && c.low < c.high
    && c.high == window[c.highIdx].high && c.low == window[c.lowIdx].low && c.pct == Drop(c.high, c.low)
  }

  /** Swing high `h` starts a contraction. */
  ghost predicate Starts(window: seq<Bar>, half: nat, h: nat) {
    && TwoSwings(Highs(window), half, true) && TwoSwings(Lows(window), half, false)
    && h < |window| && Swing(Highs(window), half, true, h)
    && exists l: nat :: l < |window| && FirstLow(window, half, h, l) && window[l].low < window[h].high
  }

  /** `cs` are the contractions of the window: one for every swing high that starts one, in time order. */
  ghost predicate AllContractions(window: seq<Bar>, half: nat, cs: seq<Contraction>) {
    && (forall i | 0 <= i < |cs| :: Over(window, half, cs[i]))
    && Increasing(Peaks(cs))
    && forall h: nat :: h in Peaks(cs) <==> Starts(window, half, h)
  }

  lemma OnlyEmptyHasNone(s: seq<nat>)
    ensures s == [] <==> forall x: nat :: x !in s
  {
    assert s == [] || s[0] in s;
  }

  lemma {:induction false} IncreasingUnique(a: seq<nat>, b: seq<nat>)
    requires Increasing(a) && Increasing(b) && forall x: nat :: x in a <==> x in b
    ensures a == b
  {
    if a == [] {
      OnlyEmptyHasNone(b);
    } else if b == [] {
      OnlyEmptyHasNone(a);
    } else {
      var m, n := |a| - 1, |b| - 1;
      assert a[m] in b && b[n] in a;
      assert a[m] == b[n];
      forall x: nat ensures x in a[..m] <==> x in b[..n] {
        assert x in a <==> x in a[..m] || x == a[m];
        assert x in b <==> x in b[..n] || x == b[n];
        assert a[m] !in a[..m] && b[n] !in b[..n];
      }
      IncreasingUnique(a[..m], b[..n]);
      assert a == a[..m] + [a[m]] && b == b[..n] + [b[n]];
    }
  }

  /** The bars determine their contractions. */
  lemma ContractionsUnique(window: seq<Bar>, half: nat, a: seq<Contraction>, b: seq<Contraction>)
    requires AllContractions(window, half, a) && AllContractions(window, half, b)
    ensures a == b
  {
    hide Swing;
    IncreasingUnique(Peaks(a), Peaks(b));
    forall i | 0 <= i < |a| ensures a[i] == b[i] {
      assert Peaks(a)[i] == Peaks(b)[i];
      assert Over(window, half, a[i]) && Over(window, half, b[i]);
    }
  }

  /** And the contractions determine the run the scan ends with. */
  lemma FinalRunUnique(cs: seq<Contraction>, minContractions: int, v: seq<Contraction>, f: nat, w: seq<Contraction>,
    g: nat)
    requires FinalRun(cs, minContractions, v, f) && FinalRun(cs, minContractions, w, g)
    ensures v == w && (cs != [] ==> f == g)
  {
    if cs != [] {
      RunsMeet(cs, minContractions, v, f, w, g);
      RunsMeet(cs, minContractions, w, g, v, f);
    }
  }

  /** A final run that starts no later than another ends no earlier. */
  lemma RunsMeet(cs: seq<Contraction>, minContractions: int, v: seq<Contraction>, f: nat, w: seq<Contraction>, g: nat)
    requires cs != [] && FinalRun(cs, minContractions, v, f) && FinalRun(cs, minContractions, w, g)
    ensures f <= g ==> f == g && |w| <= |v|
  {
    hide Tightening;
    var end := f + |v|;
    if f < g < end {
      RunTightens(cs, v, f, g);
    } else if f == g && |v| < |w| {
      RunTightens(cs, w, g, end);
    }
  }

  lemma RunTightens(cs: seq<Contraction>, v: seq<Contraction>, f: nat, i: nat)
    requires f < i < f + |v| <= |cs| && v == cs[f..f + |v|] && Tightening(v)
    ensures cs[i].pct < cs[i - 1].pct
  {
    assert v[i - f] == cs[i] && v[i - f - 1] == cs[i - 1];
  }

  /** The contractions of a window of bars. */
  method Contractions(window: seq<Bar>, half: nat) returns (found: seq<Contraction>)
    ensures AllContractions(window, half, found)
  {
    var highs, lows := Highs(window), Lows(window);
    var highAt := FindPivots(highs, half, true);
    var lowAt := FindPivots(lows, half, false);
    EnoughPivots(highs, half, true, highAt);
    EnoughPivots(lows, half, false, lowAt);
    if |highAt| < 2 || |lowAt| < 2 {
      return [];
    }
    forall i | 0 <= i < |highAt| ensures highAt[i] < |highs| {
      assert Swing(highs, half, true, highAt[i]);
    }
    forall i | 0 <= i < |lowAt| ensures lowAt[i] < |lows| {
      assert Swing(lows, half, false, lowAt[i]);
    }
    found := PairContractions(highs, lows, highAt, lowAt);
    PairsAreAll(window, half, highAt, lowAt, found);
  }

  lemma EnoughPivots(values: seq<real>, half: nat, high: bool, pivots: seq<nat>)
    requires Increasing(pivots) && forall i: nat :: i in pivots <==> Swing(values, half, high, i)
    ensures 2 <= |pivots| <==> TwoSwings(values, half, high)
  {
    hide Swing;
    if 2 <= |pivots| {
      assert pivots[0] in pivots && pivots[1] in pivots;
    }
    if TwoSwings(values, half, high) {
      var i: nat, j: nat :| i < j && Swing(values, half, high, i) && Swing(values, half, high, j);
      assert i in pivots && j in pivots;
    }
  }

  lemma PairsAreAll(window: seq<Bar>, half: nat, highAt: seq<nat>, lowAt: seq<nat>, found: seq<Contraction>)
    requires TwoSwings(Highs(window), half, true) && TwoSwings(Lows(window), half, false)
    requires forall i: nat :: i in highAt <==> Swing(Highs(window), half, true, i)
    requires forall i: nat :: i in lowAt <==> Swing(Lows(window), half, false, i)
    requires forall i | 0 <= i < |found| :: Drops(found[i], Highs(window), Lows(window), lowAt)
    requires Increasing(Peaks(found))
    requires forall h: nat :: h in Peaks(found) <==> h in highAt && StartsDrop(Highs(window), Lows(window), lowAt, h)
    ensures AllContractions(window, half, found)
  {
    hide Swing, TwoSwings;
    forall h: nat, l: nat ensures NextLow(lowAt, h, l) <==> FirstLow(window, half, h, l) {
      NextIsFirst(window, half, lowAt, h, l);
    }
    forall i | 0 <= i < |found| ensures Over(window, half, found[i]) {
      assert Peaks(found)[i] in Peaks(found);
    }
    forall h: nat ensures h in Peaks(found) <==> Starts(window, half, h) {
      DropStarts(window, half, lowAt, h);
    }
  }

  lemma NextIsFirst(window: seq<Bar>, half: nat, lowAt: seq<nat>, h: nat, l: nat)
    requires forall i: nat :: i in lowAt <==> Swing(Lows(window), half, false, i)
    ensures NextLow(lowAt, h, l) <==> FirstLow(window, half, h, l)
  {
    hide Swing;
    if NextLow(lowAt, h, l) {
      forall k: nat | h < k && Swing(Lows(window), half, false, k) ensures l <= k {
        assert k in lowAt;
      }
    }
    if FirstLow(window, half, h, l) {
      forall i | 0 <= i < |lowAt| && h < lowAt[i] ensures l <= lowAt[i] {
        assert lowAt[i] in lowAt;
      }
    }
  }

  lemma DropStarts(window: seq<Bar>, half: nat, lowAt: seq<nat>, h: nat)
    requires TwoSwings(Highs(window), half, true) && TwoSwings(Lows(window), half, false)
    requires forall l: nat :: NextLow(lowAt, h, l) <==> FirstLow(window, half, h, l)
    ensures Swing(Highs(window), half, true, h) && StartsDrop(Highs(window), Lows(window), lowAt, h) <==>
      Starts(window, half, h)
  {
    hide Swing, TwoSwings;
    if Starts(window, half, h) {
      var l: nat :| l < |window| && FirstLow(window, half, h, l) && window[l].low < window[h].high;
      assert NextLow(lowAt, h, l);
      var i :| 0 <= i < |lowAt| && lowAt[i] == l;
    }
  }

  /** How many bars each side a swing point has to beat. */
  function HalfWindow(bars: seq<Bar>): nat { if |bars| < 60 then 1 else 2 }

  /**
    A pattern is detected exactly when the final run of tightening contractions of the bars passes the enabled
    rules. Its pivot is the high of the last contraction and its stop the low that followed that high, so the
    stop lies below the pivot: the promise the replay relies on.
   */
  method DetectVcp(bars: seq<Bar>, rules: Rules, avgVol: real)
    returns (setup: Option<Setup>, found: seq<Contraction>, valid: seq<Contraction>, first: nat)
    requires 1 <= rules.minContractions && 1 <= rules.maxWeeks
    requires forall i | 0 <= i < |bars| :: 0.0 <= bars[i].low
    ensures |bars| < 15 ==> setup.None?
    ensures 15 <= |bars| ==> Detection(bars, rules, avgVol, setup, found, valid, first)
  {
    setup, found, valid, first := None, [], [], 0;
    if |bars| < MIN_BARS {
      return;
    }
    var window := Lookback(bars, rules.maxWeeks);
    found := Contractions(window, HalfWindow(bars));
    valid, first := Tighten(found, rules.minContractions);
    hide Swing, TwoSwings, Starts, FirstLow;
    assert forall i | 0 <= i < |found| :: Over(window, HalfWindow(bars), found[i]);
    if |valid| < rules.minContractions {
      return;
    }
    var oldest, last := valid[0], valid[|valid| - 1];
    assert last == found[first + |valid| - 1];
    var weeks := (last.highIdx - oldest.highIdx) / 5;
    if rules.baseWeeks.Some? && !(rules.baseWeeks.value.0 <= weeks <= rules.baseWeeks.value.1) {
      return;
    }
    if rules.dryUpPct.Some? && rules.dryUpPct.value < DryUpRatio(window, last.lowIdx, avgVol) {
      return;
    }
    setup := Some(Prices(last.high, last.low));
  }

  /** What the detection of enough bars comes to, with the contractions it rests on. */
  ghost predicate Detection(bars: seq<Bar>, rules: Rules, avgVol: real, setup: Option<Setup>,
                            found: seq<Contraction>, valid: seq<Contraction>, first: nat)
    requires 1 <= rules.maxWeeks
  {
    var window := Lookback(bars, rules.maxWeeks);
    && AllContractions(window, HalfWindow(bars), found)
    && FinalRun(found, rules.minContractions, valid, first)
    && (setup.Some? <==> Passes(window, valid, rules, avgVol))
    && (setup.Some? ==> setup.value == Prices(valid[|valid| - 1].high, valid[|valid| - 1].low))
  }

  /** The bars and the rules leave the detection no choice: whether there is a pattern, and its prices. */
  lemma DetectionUnique(bars: seq<Bar>, rules: Rules, avgVol: real,
                        s: Option<Setup>, found: seq<Contraction>, valid: seq<Contraction>, first: nat,
                        t: Option<Setup>, found': seq<Contraction>, valid': seq<Contraction>, first': nat)
    requires 1 <= rules.maxWeeks
    ensures
      Detection(bars, rules, avgVol, s, found, valid, first) &&
        Detection(bars, rules, avgVol, t, found', valid', first') ==>
        s == t && found == found' && valid == valid'
  {
    hide AllContractions, FinalRun, Passes;
    if Detection(bars, rules, avgVol, s, found, valid, first) &&
      Detection(bars, rules, avgVol, t, found', valid', first') {
      ContractionsUnique(Lookback(bars, rules.maxWeeks), HalfWindow(bars), found, found');
      FinalRunUnique(found, rules.minContractions, valid, first, valid', first');
    }
  }
}
