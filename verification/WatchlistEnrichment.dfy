/**
  Filling watchlist rows with their pattern geometry and position size. A row's geometry comes from its
  own columns when they are fresh, else from a cache shared by all organisations, else from running the
  detection, whose result goes to both. Dates are day numbers.
 */
module WatchlistEnrichment {
  import opened Common

  datatype Geometry = Geometry(pivot: Option<real>, stop: Option<real>, target: Option<real>,
                               contractions: Option<int>, weeks: Option<int>)

  /** The geometry columns of a row and the date of the last bar they were computed from. */
  datatype Columns = Columns(geometry: Geometry, computed: Option<int>)

  /** `latest` is the date of the ticker's newest price bar, `columns` what the row held when it was read. */
  datatype Item = Item(rowId: int, ticker: string, assetType: string, currency: string,
                       columns: Columns, latest: Option<int>)

  datatype Shown = Shown(pivot: Option<real>, stop: Option<real>, target: Option<real>, contractions: Option<int>,
                         weeks: Option<int>, size: Option<int>, risk: Option<real>)

  /** `detect` gives the geometry of a ticker's bars up to a date; `size` is None when sizing fails. */
  datatype World = World(detect: (string, int) -> Geometry,
                         size: (string, string, real, real) -> Option<(int, real)>,
                         floor: int)

  type Cache = map<(string, int), Geometry>
  type Table = map<int, Columns>

  // ---------------------------------------------------------------- the columns' precision

  /** A price as a column with four decimals keeps it. */
  function FourDecimals(x: real): real { (x * 10000.0 + 0.5).Floor as real / 10000.0 }

  function Keep(x: Option<real>): Option<real> { if x.Some? then Some(FourDecimals(x.value)) else None }

  function Stored(g: Geometry): Geometry {
    g.(pivot := Keep(g.pivot), stop := Keep(g.stop), target := Keep(g.target))
  }

  // ---------------------------------------------------------------- the three passes

  predicate Fresh(w: Item) {
    w.columns.geometry.pivot.Some? && w.columns.computed.Some? && (w.latest.None? || w.columns.computed == w.latest)
  }

  /** Pass 1: geometry on hand. */
  function OnHand(w: Item, cache: Cache): Option<Geometry> {
    if Fresh(w) then Some(w.columns.geometry)
    else if w.latest.Some? && (w.ticker, w.latest.value) in cache then Some(cache[(w.ticker, w.latest.value)])
    else None
  }

  /** Bars older than the floor are not loaded, and without bars nothing is computed. */
  predicate HasBars(world: World, w: Item) {
    w.latest.Some? && world.floor <= w.latest.value
  }

  predicate Computes(world: World, w: Item, cache: Cache) {
    OnHand(w, cache).None? && HasBars(world, w)
  }

  /** Pass 2: detection where nothing is on hand. */
  function Resolve(world: World, w: Item, cache: Cache): Option<Geometry> {
    if OnHand(w, cache).Some? then OnHand(w, cache)
    else if HasBars(world, w) then Some(world.detect(w.ticker, w.latest.value))
    else None
  }

  /** Pass 3: what the row shows. A pivot of zero counts as none, and only a positive risk is sized. */
  function Show(world: World, w: Item, geometry: Option<Geometry>): Shown {
    if geometry.None? || geometry.value.pivot.None? || geometry.value.pivot.value == 0.0
    then Shown(None, None, None, None, None, None, None)
    else
      var g := geometry.value;
      var sizing := if g.stop.Some? && g.stop.value != 0.0 && g.stop.value < g.pivot.value
        then world.size(w.assetType, w.currency, g.pivot.value, g.stop.value) else None;
      Shown(g.pivot, g.stop, g.target, g.contractions, g.weeks,
            if sizing.Some? then Some(sizing.value.0) else None, if sizing.Some? then Some(sizing.value.1) else None)
  }

  /**
    Where a row's geometry comes from: its own columns when they hold a pivot and were computed from the newest
    bar, or there is no bar at all; else the cached one of the ticker and that bar's date; else the detection,
    when the bar lies within reach; else nowhere.
   */
  ghost predicate Resolves(world: World, w: Item, cache: Cache, g: Option<Geometry>) {
    if w.columns.geometry.pivot.Some? && w.columns.computed.Some? && w.latest in {None, w.columns.computed}
    then g == Some(w.columns.geometry)
    else if w.latest.None? then g == None
    else if (w.ticker, w.latest.value) in cache then g == Some(cache[(w.ticker, w.latest.value)])
    else g == if world.floor <= w.latest.value then Some(world.detect(w.ticker, w.latest.value)) else None
  }

  /**
    What a row shows of its geometry: with a pivot other than zero every field as it is, and the size and the
    risk of a position entered at the pivot, where there is a stop other than zero below it; otherwise nothing.
   */
  ghost predicate Shows(world: World, w: Item, geometry: Option<Geometry>, row: Shown) {
    if geometry.Some? && geometry.value.pivot.Some? && geometry.value.pivot != Some(0.0) then
      var g := geometry.value;
      && row.pivot == g.pivot && row.stop == g.stop && row.target == g.target
      && row.contractions == g.contractions && row.weeks == g.weeks
      && if g.stop.Some? && 0.0 != g.stop.value < g.pivot.value then
           match world.size(w.assetType, w.currency, g.pivot.value, g.stop.value)
           case Some((size, risk)) => row.size == Some(size) && row.risk == Some(risk)
           case None => row.size == None && row.risk == None
         else row.size == None && row.risk == None
    else row == Shown(None, None, None, None, None, None, None)
  }

  /** The row shows the geometry it resolves to. */
  ghost predicate ShowsOwn(world: World, w: Item, cache: Cache, row: Shown) {
    exists g :: Resolves(world, w, cache, g) && Shows(world, w, g, row)
  }

  lemma RowShows(world: World, w: Item, cache: Cache, g: Option<Geometry>)
    ensures Resolves(world, w, cache, Resolve(world, w, cache))
    ensures Shows(world, w, g, Show(world, w, g))
  {
  }

  /** A row shows one thing only, and has one geometry. */
  lemma ShownUnique(world: World, w: Item, cache: Cache, g: Option<Geometry>, row: Shown)
    ensures Resolves(world, w, cache, g) <==> g == Resolve(world, w, cache)
    ensures Shows(world, w, g, row) <==> row == Show(world, w, g)
    ensures row == Naive(world, w) <==>
      Shows(world, w,
        if w.latest.Some? && world.floor <= w.latest.value then Some(world.detect(w.ticker, w.latest.value)) else None,
        row)
  {
  }

  /** Detection runs for a row that is not fresh, has its newest bar in reach, and is not in the cache. */
  lemma ComputesWhen(world: World, w: Item, cache: Cache)
    ensures Computes(world, w, cache) <==>
      && w.latest.Some? && world.floor <= w.latest.value && (w.ticker, w.latest.value) !in cache
      && (w.columns.geometry.pivot.None? || w.columns.computed != w.latest)
  {
  }

  /** A column keeps the nearest ten-thousandth of a price, upwards on a tie, and the other fields as they are. */
  lemma StoredKeeps(g: Geometry)
    ensures var s := Stored(g);
      && s.contractions == g.contractions && s.weeks == g.weeks
      && NearestTenThousandth(g.pivot, s.pivot) && NearestTenThousandth(g.stop, s.stop)
      && NearestTenThousandth(g.target, s.target)
  {
    hide FourDecimals, NearestTenThousandth;
    KeptNearest(g.pivot);
    KeptNearest(g.stop);
    KeptNearest(g.target);
  }

  lemma KeptNearest(x: Option<real>)
    ensures NearestTenThousandth(x, Keep(x))
  {
    if x.Some? {
      var n := (x.value * 10000.0 + 0.5).Floor;
      assert FourDecimals(x.value) * 10000.0 == n as real;
    }
  }

  ghost predicate NearestTenThousandth(exact: Option<real>, kept: Option<real>) {
    match (exact, kept)
    case (None, None) => true
    case (Some(x), Some(y)) =>
      y * 10000.0 == (y * 10000.0).Floor as real && y - 0.00005 <= x < y + 0.00005
    case _ => false
  }

  /** The row without columns or cache: always recomputed. */
  function Naive(world: World, w: Item): Shown {
    Show(world, w, if HasBars(world, w) then Some(world.detect(w.ticker, w.latest.value)) else None)
  }

  /** Cache and table after the rows that needed it were computed; `start` is the cache pass 1 looked at. */
  function CacheAfter(world: World, items: seq<Item>, start: Cache): Cache {
    if items == [] then start
    else
      var w := items[|items| - 1];
      var before := CacheAfter(world, items[..|items| - 1], start);
      if Computes(world, w, start) then before[(w.ticker, w.latest.value) := world.detect(w.ticker, w.latest.value)]
      else before
  }

  function TableAfter(world: World, items: seq<Item>, start: Cache, table: Table): Table {
    if items == [] then table
    else
      var w := items[|items| - 1];
      var before := TableAfter(world, items[..|items| - 1], start, table);
      if Computes(world, w, start) && w.rowId in before
      then before[w.rowId := Columns(Stored(world.detect(w.ticker, w.latest.value)), w.latest)] else before
  }

  function Computed(world: World, items: seq<Item>, start: Cache): nat {
    if items == [] then 0
    else Computed(world, items[..|items| - 1], start) + if Computes(world, items[|items| - 1], start) then 1 else 0
  }

  // ---------------------------------------------------------------- transparency

  ghost predicate CacheHonest(world: World, cache: Cache) {
    forall key | key in cache :: cache[key] == world.detect(key.0, key.1)
  }

  /** Columns hold the stored form of a detection of their ticker at their date. */
  ghost predicate ColumnsHonest(world: World, ticker: string, c: Columns) {
    c.computed.Some? ==> c.geometry == Stored(world.detect(ticker, c.computed.value))
  }

  /** Every column of the table is honest for the ticker of its row. */
  ghost predicate TableHonest(world: World, tickers: map<int, string>, table: Table) {
    forall id | id in table && id in tickers :: ColumnsHonest(world, tickers[id], table[id])
  }

  /** The item as read from the table. */
  ghost predicate ReadFrom(tickers: map<int, string>, table: Table, w: Item) {
    w.rowId in table && w.rowId in tickers && w.columns == table[w.rowId] && w.ticker == tickers[w.rowId]
  }

  /** A geometry without a pivot, or with a pivot of zero, shows as none. */
  predicate Blank(g: Geometry) { g.pivot.None? || g.pivot.value == 0.0 }

  /** Rows with a pivot show their whole geometry, so two geometries look alike only if they are alike. */
  lemma ShownTells(world: World, w: Item, g: Geometry, h: Geometry)
    ensures Show(world, w, Some(g)) == Show(world, w, Some(h)) <==> g == h || (Blank(g) && Blank(h))
  {
    if Show(world, w, Some(g)) == Show(world, w, Some(h)) && !(Blank(g) && Blank(h)) {
      assert g == Geometry(g.pivot, g.stop, g.target, g.contractions, g.weeks);
    }
  }

  /**
    With bars to recompute from, a row shows what recomputation would if and only if its columns are not
    fresh, every price of its geometry is a whole number of ten-thousandths, or its pivot is zero.
   */
  lemma RowIsTransparent(world: World, w: Item, cache: Cache)
    requires CacheHonest(world, cache) && ColumnsHonest(world, w.ticker, w.columns) && HasBars(world, w)
    ensures var g := world.detect(w.ticker, w.latest.value);
      && Resolve(world, w, cache) == Some(if Fresh(w) then Stored(g) else g)
      && (Show(world, w, Resolve(world, w, cache)) == Naive(world, w) <==>
            !Fresh(w) || Stored(g) == g || g.pivot == Some(0.0))
  {
    var g := world.detect(w.ticker, w.latest.value);
    ShownTells(world, w, Stored(g), g);
    hide Show;
  }

  /** A fresh row whose pivot lies between two ten-thousandths shows another pivot than recomputation. */
  lemma FreshRowRounds() returns (world: World, w: Item, cache: Cache)
    ensures CacheHonest(world, cache) && ColumnsHonest(world, w.ticker, w.columns) && HasBars(world, w) && Fresh(w)
    ensures Show(world, w, Resolve(world, w, cache)).pivot == Some(1.0) && Naive(world, w).pivot == Some(1.00001)
  {
    var g := Geometry(Some(1.00001), None, None, Some(3), Some(5));
    world := World((_, _) => g, (_, _, _, _) => None, 0);
    w := Item(1, "BHP.AX", "EQUITY", "AUD", Columns(Stored(g), Some(7)), Some(7));
    cache := map[];
    assert FourDecimals(1.00001) == 1.0 by {
      assert (1.00001 * 10000.0 + 0.5).Floor == 10000;
    }
  }

  /** Without bars in reach the row shows what is on hand, where recomputation would show nothing. */
  lemma RowWithoutBars(world: World, w: Item, cache: Cache)
    requires !HasBars(world, w)
    ensures Naive(world, w) == Shown(None, None, None, None, None, None, None)
    ensures Show(world, w, Resolve(world, w, cache)) == Naive(world, w) <==>
      OnHand(w, cache).None? || Blank(OnHand(w, cache).value)
  {
  }

  /** A row whose newest bar lies before the floor keeps showing its columns. */
  lemma OldRowStillShows() returns (world: World, w: Item)
    ensures CacheHonest(world, map[]) && ColumnsHonest(world, w.ticker, w.columns) && !HasBars(world, w)
    ensures Show(world, w, Resolve(world, w, map[])).pivot == Some(2.0) && Naive(world, w).pivot == None
  {
    var g := Geometry(Some(2.0), None, None, None, None);
    world := World((_, _) => g, (_, _, _, _) => None, 420);
    w := Item(1, "BHP.AX", "EQUITY", "AUD", Columns(Stored(g), Some(7)), Some(7));
    assert FourDecimals(2.0) == 2.0 by {
      assert (2.0 * 10000.0 + 0.5).Floor == 20000;
    }
  }

  lemma {:induction false} CacheStaysHonest(world: World, items: seq<Item>, start: Cache)
    requires CacheHonest(world, start)
    ensures CacheHonest(world, CacheAfter(world, items, start))
    ensures forall key | key in start :: key in CacheAfter(world, items, start)
  {
    if items != [] {
      CacheStaysHonest(world, items[..|items| - 1], start);
    }
  }

  lemma {:induction false} TableStaysHonest(world: World, tickers: map<int, string>, items: seq<Item>, start: Cache,
    table: Table)
    requires TableHonest(world, tickers, table)
    requires forall i | 0 <= i < |items| :: ReadFrom(tickers, table, items[i])
    ensures TableHonest(world, tickers, TableAfter(world, items, start, table))
    ensures TableAfter(world, items, start, table).Keys == table.Keys
  {
    hide Stored, Computes;
    if items != [] {
      TableStaysHonest(world, tickers, items[..|items| - 1], start, table);
    }
  }

  lemma {:induction false} ComputedIsCached(world: World, items: seq<Item>, start: Cache, i: nat)
    requires CacheHonest(world, start) && i < |items| && Computes(world, items[i], start)
    ensures (items[i].ticker, items[i].latest.value) in CacheAfter(world, items, start)
  {
    hide Computes;
    if i < |items| - 1 {
      ComputedIsCached(world, items[..|items| - 1], start, i);
    }
  }

  /** The cache afterwards: what was there, and the detection of every row computed. */
  lemma {:induction false} CacheHolds(world: World, items: seq<Item>, start: Cache, ticker: string, date: int)
    ensures var cache := CacheAfter(world, items, start);
      if exists i :: 0 <= i < |items| && ComputesAt(world, items[i], start, ticker, date)
      then (ticker, date) in cache && cache[(ticker, date)] == world.detect(ticker, date)
      else if (ticker, date) in start then (ticker, date) in cache && cache[(ticker, date)] == start[(ticker, date)]
      else (ticker, date) !in cache
  {
    hide Computes;
    if items != [] {
      var n := |items| - 1;
      CacheHolds(world, items[..n], start, ticker, date);
      assert forall i | 0 <= i < n :: items[..n][i] == items[i];
      ComputesWhen(world, items[n], start);
      var before, after := CacheAfter(world, items[..n], start), CacheAfter(world, items, start);
      if ComputesAt(world, items[n], start, ticker, date) {
        assert after[(ticker, date)] == world.detect(ticker, date);
      } else {
        assert (ticker, date) in after <==> (ticker, date) in before;
        assert (ticker, date) in after ==> after[(ticker, date)] == before[(ticker, date)];
        assert (exists i :: 0 <= i < |items| && ComputesAt(world, items[i], start, ticker, date)) <==>
          exists i :: 0 <= i < n && ComputesAt(world, items[..n][i], start, ticker, date);
      }
    }
  }

  ghost predicate ComputesAt(world: World, w: Item, start: Cache, ticker: string, date: int) {
    Computes(world, w, start) && w.ticker == ticker && w.latest == Some(date)
  }

  /** How many detections there are: one for each row computed. */
  lemma {:induction false} ComputedCounts(world: World, items: seq<Item>, start: Cache)
    ensures Computed(world, items, start) == |set i | 0 <= i < |items| && Computes(world, items[i], start)|
  {
    hide Computes;
    var rows := set i | 0 <= i < |items| && Computes(world, items[i], start);
    if items != [] {
      var n := |items| - 1;
      ComputedCounts(world, items[..n], start);
      var before := set i | 0 <= i < n && Computes(world, items[..n][i], start);
      assert rows == if Computes(world, items[n], start) then before + {n} else before;
    }
  }

  /** The same row read again later: the bars have not moved and its columns are the table's. */
  ghost predicate ReadAgain(w: Item, again: Item, table: Table) {
    w.rowId in table && again == w.(columns := table[w.rowId])
  }

  lemma {:induction false} NothingComputed(world: World, items: seq<Item>, cache: Cache)
    requires forall i | 0 <= i < |items| :: !Computes(world, items[i], cache)
    ensures Computed(world, items, cache) == 0 && CacheAfter(world, items, cache) == cache
    ensures forall table: Table :: TableAfter(world, items, cache, table) == table
  {
    hide Computes;
    if items != [] {
      NothingComputed(world, items[..|items| - 1], cache);
    }
  }

  /** `c` is what computing row `w` wrote. */
  ghost predicate Written(world: World, w: Item, start: Cache, id: int, c: Columns) {
    w.rowId == id && Computes(world, w, start) && c == Columns(Stored(world.detect(w.ticker, w.latest.value)), w.latest)
  }

  lemma {:induction false} TableRowAfter(world: World, items: seq<Item>, start: Cache, table: Table, id: int)
    requires id in table
    ensures id in TableAfter(world, items, start, table)
    ensures var c := TableAfter(world, items, start, table)[id];
      if exists i :: 0 <= i < |items| && items[i].rowId == id && Computes(world, items[i], start)
      then exists i :: 0 <= i < |items| && Written(world, items[i], start, id, c)
      else c == table[id]
  {
    hide Stored;
    if items != [] {
      var n := |items| - 1;
      TableRowAfter(world, items[..n], start, table, id);
      var before, after := TableAfter(world, items[..n], start, table), TableAfter(world, items, start, table);
      assert forall i | 0 <= i < n :: items[i] == items[..n][i];
      if items[n].rowId == id && Computes(world, items[n], start) {
        assert Written(world, items[n], start, id, after[id]);
      } else {
        assert after[id] == before[id];
      }
    }
  }

  /**
    A second call over the same rows, read again while no bar has moved, runs no detection and leaves cache
    and table as they are.
   */
  lemma SecondCallComputesNothing(world: World, items: seq<Item>, start: Cache, table: Table, again: seq<Item>)
    requires CacheHonest(world, start) && |again| == |items|
    requires forall i | 0 <= i < |items| :: items[i].rowId in table && items[i].columns == table[items[i].rowId]
    requires forall i, j | 0 <= i < |items| && 0 <= j < |items| && items[i].rowId == items[j].rowId ::
      items[i] == items[j]
    requires forall i | 0 <= i < |items| :: ReadAgain(items[i], again[i], TableAfter(world, items, start, table))
    ensures var cache := CacheAfter(world, items, start);
      && Computed(world, again, cache) == 0 && CacheAfter(world, again, cache) == cache
      && TableAfter(world, again, cache, TableAfter(world, items, start, table)) ==
        TableAfter(world, items, start, table)
  {
    hide Computed, CacheAfter, TableAfter, Stored;
    var cache := CacheAfter(world, items, start);
    forall i | 0 <= i < |again| ensures !Computes(world, again[i], cache) {
      NotComputedAgain(world, items, start, table, again[i], i);
    }
    NothingComputed(world, again, cache);
  }

  lemma NotComputedAgain(world: World, items: seq<Item>, start: Cache, table: Table, w: Item, i: nat)
    requires CacheHonest(world, start) && i < |items|
    requires items[i].rowId in table && items[i].columns == table[items[i].rowId]
    requires forall j, k | 0 <= j < |items| && 0 <= k < |items| && items[j].rowId == items[k].rowId ::
      items[j] == items[k]
    requires ReadAgain(items[i], w, TableAfter(world, items, start, table))
    ensures !Computes(world, w, CacheAfter(world, items, start))
  {
    hide CacheAfter, TableAfter, Stored;
    CacheStaysHonest(world, items, start);
    TableRowAfter(world, items, start, table, items[i].rowId);
    if Computes(world, items[i], start) {
      ComputedIsCached(world, items, start, i);
    } else {
      assert forall j | 0 <= j < |items| :: !Written(world, items[j], start, items[i].rowId, w.columns);
    }
  }

  /**
    The cache key names no organisation. A row answered from an entry made under another organisation's
    rules shows its own geometry if and only if both detections agree, or neither finds a pivot.
   */
  lemma SharedCacheNeedsSameRules(mine: World, theirs: World, w: Item, cache: Cache)
    requires CacheHonest(theirs, cache) && HasBars(mine, w) && !Fresh(w) && (w.ticker, w.latest.value) in cache
    ensures var g, h := mine.detect(w.ticker, w.latest.value), theirs.detect(w.ticker, w.latest.value);
      Show(mine, w, Resolve(mine, w, cache)) == Naive(mine, w) <==> g == h || (Blank(g) && Blank(h))
  {
    ShownTells(mine, w, theirs.detect(w.ticker, w.latest.value), mine.detect(w.ticker, w.latest.value));
    hide Show;
  }

  /** One organisation's row shows a pivot only the other's rules find, and keeps it: nothing is computed for it. */
  lemma SharedCacheShowsTheirs() returns (mine: World, theirs: World, w: Item, cache: Cache)
    ensures CacheHonest(theirs, cache) && HasBars(mine, w) && !Computes(mine, w, cache)
    ensures Show(mine, w, Resolve(mine, w, cache)).pivot == Some(2.0) && Naive(mine, w).pivot == None
  {
    var none, some := Geometry(None, None, None, None, None), Geometry(Some(2.0), None, None, None, None);
    mine := World((_, _) => none, (_, _, _, _) => None, 0);
    theirs := World((_, _) => some, (_, _, _, _) => None, 0);
    w := Item(1, "BHP.AX", "EQUITY", "AUD", Columns(none, None), Some(7));
    cache := map[("BHP.AX", 7) := some];
  }

  // ---------------------------------------------------------------- the routine

  class Watchlist {
    const world: World
    var cache: Cache
    var table: Table
    var detections: nat

    constructor (world: World, cache: Cache, table: Table)
      ensures this.world == world && this.cache == cache && this.table == table && detections == 0
    {
      this.world, this.cache, this.table, detections := world, cache, table, 0;
    }

    /** Pass 2: detects, caches and writes back for every row without geometry whose bars can be loaded. */
    method ComputeMissing(items: seq<Item>, onHand: seq<Option<Geometry>>) returns (geometry: seq<Option<Geometry>>)
      requires |onHand| == |items| && forall i | 0 <= i < |items| :: onHand[i] == OnHand(items[i], cache)
      modifies this
      ensures |geometry| == |items|
      ensures forall i | 0 <= i < |items| :: geometry[i] == Resolve(world, items[i], old(cache))
      ensures forall i | 0 <= i < |items| :: Resolves(world, items[i], old(cache), geometry[i])
      ensures cache == CacheAfter(world, items, old(cache))
      ensures table == TableAfter(world, items, old(cache), old(table))
      ensures detections == old(detections) + Computed(world, items, old(cache))
    {
      hide Stored, OnHand, Resolves;
      ghost var start, rows, count := cache, table, detections;
      geometry := [];
      for i := 0 to |items|
        invariant |geometry| == i && forall j | 0 <= j < i :: geometry[j] == Resolve(world, items[j], start)
        invariant cache == CacheAfter(world, items[..i], start)
        invariant table == TableAfter(world, items[..i], start, rows)
        invariant detections == count + Computed(world, items[..i], start)
      {
        var w := items[i];
        assert items[..i + 1][..i] == items[..i];
        if onHand[i].None? && HasBars(world, w) {
          var g := world.detect(w.ticker, w.latest.value);
          detections := detections + 1;
          geometry := geometry + [Some(g)];
          cache := cache[(w.ticker, w.latest.value) := g];
          if w.rowId in table {
            table := table[w.rowId := Columns(Stored(g), w.latest)];
          }
        } else {
          geometry := geometry + [onHand[i]];
        }
      }
      assert items[..|items|] == items;
      forall i | 0 <= i < |items| ensures Resolves(world, items[i], start, geometry[i]) {
        RowShows(world, items[i], start, geometry[i]);
      }
    }

    method Enrich(items: seq<Item>) returns (shown: seq<Shown>)
      modifies this
      ensures |shown| == |items|
      ensures forall i | 0 <= i < |items| :: shown[i] == Show(world, items[i], Resolve(world, items[i], old(cache)))
      ensures forall i | 0 <= i < |items| :: ShowsOwn(world, items[i], old(cache), shown[i])
      ensures cache == CacheAfter(world, items, old(cache))
      ensures table == TableAfter(world, items, old(cache), old(table))
      ensures detections == old(detections) + Computed(world, items, old(cache))
    {
      hide Show, OnHand, Resolve, Resolves, Shows;
      ghost var start := cache;
      var onHand: seq<Option<Geometry>> := [];
      for i := 0 to |items|
        invariant |onHand| == i && forall j | 0 <= j < i :: onHand[j] == OnHand(items[j], start)
      {
        onHand := onHand + [OnHand(items[i], cache)];
      }
      var geometry := ComputeMissing(items, onHand);
      shown := [];
      for i := 0 to |items|
        invariant |shown| == i
        invariant forall j | 0 <= j < i :: shown[j] == Show(world, items[j], Resolve(world, items[j], start))
      {
        shown := shown + [Show(world, items[i], geometry[i])];
      }
      forall i | 0 <= i < |items| ensures ShowsOwn(world, items[i], start, shown[i]) {
        RowShows(world, items[i], start, Resolve(world, items[i], start));
      }
    }
  }
}
