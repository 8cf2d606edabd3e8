/**
  The lists the watchlist shows, row by row: which rows of the newest-first feed each view holds and in which
  order, said without ranks or sort keys.
 */
module WatchlistOrder {
  import opened Common
  import opened WatchlistPaging

  /** The rows that satisfy `keep`, in the order they have. */
  function Where(rows: seq<Row>, keep: Row -> bool): (kept: seq<Row>)
    ensures forall row :: row in kept <==> row in rows && keep(row)
  {
    if rows == [] then []
    else
      var last := rows[|rows| - 1];
      assert rows == rows[..|rows| - 1] + [last];
      Where(rows[..|rows| - 1], keep) + if keep(last) then [last] else []
  }

  function First(rows: seq<Row>, n: nat): (first: seq<Row>)
    ensures first == if |rows| <= n then rows else rows[..n]
  {
    Take(rows, n)
  }

  /** The term stands at place `k` of the ticker. */
  predicate StandsAt(ticker: string, term: string, k: nat) {
    k + |term| <= |ticker| && ticker[k..k + |term|] == term
  }

  predicate Holds(ticker: string, term: string) {
    exists k: nat | k <= |ticker| :: StandsAt(ticker, term, k)
  }

  lemma {:induction false} ContainsMeans(ticker: string, term: string)
    ensures Contains(ticker, term) <==> Holds(ticker, term)
  {
    if term <= ticker {
      assert StandsAt(ticker, term, 0);
    } else if ticker != [] {
      var rest := ticker[1..];
      ContainsMeans(rest, term);
      forall k: nat | k <= |rest| ensures StandsAt(rest, term, k) <==> StandsAt(ticker, term, k + 1) {
        assert k + |term| <= |rest| ==> rest[k..k + |term|] == ticker[k + 1..k + 1 + |term|];
      }
      assert !StandsAt(ticker, term, 0);
      if Holds(ticker, term) {
        var k: nat :| k <= |ticker| && StandsAt(ticker, term, k);
        assert StandsAt(rest, term, k - 1);
      }
    }
  }

  // ---------------------------------------------------------------- groups of one key

  lemma {:induction false} SplitsByKey(mode: Mode, rows: seq<Row>)
    requires InOrder(mode, rows) && forall i | 0 <= i < |rows| :: KeyOf(mode, rows[i]) < 4
    ensures rows == WithKey(mode, rows, 0) + WithKey(mode, rows, 1) + WithKey(mode, rows, 2) + WithKey(mode, rows, 3)
  {
    hide KeyOf, WithKey;
    NoneOfKey(mode, [], 0);
    NoneOfKey(mode, [], 1);
    NoneOfKey(mode, [], 2);
    NoneOfKey(mode, [], 3);
    if rows != [] {
      var rest, last := rows[..|rows| - 1], rows[|rows| - 1];
      SplitsByKey(mode, rest);
      var g0 := GroupGrows(mode, rest, last, 0);
      var g1 := GroupGrows(mode, rest, last, 1);
      var g2 := GroupGrows(mode, rest, last, 2);
      var g3 := GroupGrows(mode, rest, last, 3);
      assert rows == rest + [last];
      LastGoesIn(g0, g1, g2, g3, last, KeyOf(mode, last));
    }
  }

  lemma GroupGrows(mode: Mode, rest: seq<Row>, last: Row, key: nat) returns (group: seq<Row>)
    requires forall i | 0 <= i < |rest| :: KeyOf(mode, rest[i]) <= KeyOf(mode, last)
    ensures group == WithKey(mode, rest, key) && (KeyOf(mode, last) < key ==> group == [])
    ensures WithKey(mode, rest + [last], key) == if KeyOf(mode, last) == key then group + [last] else group
  {
    hide KeyOf, WithKey;
    WithKeyOfOneMore(mode, rest, last, key);
    group := WithKey(mode, rest, key);
    if KeyOf(mode, last) < key {
      NoneOfKey(mode, rest, key);
    }
  }

  lemma LastGoesIn(g0: seq<Row>, g1: seq<Row>, g2: seq<Row>, g3: seq<Row>, last: Row, key: nat)
    requires key < 4 && (key < 1 ==> g1 == []) && (key < 2 ==> g2 == []) && (key < 3 ==> g3 == [])
    ensures g0 + g1 + g2 + g3 + [last] ==
      (if key == 0 then g0 + [last] else g0) + (if key == 1 then g1 + [last] else g1)
      + (if key == 2 then g2 + [last] else g2) + (if key == 3 then g3 + [last] else g3)
  {
  }

  lemma {:induction false} NoneOfKey(mode: Mode, rows: seq<Row>, key: nat)
    requires forall i | 0 <= i < |rows| :: KeyOf(mode, rows[i]) != key
    ensures WithKey(mode, rows, key) == []
  {
    hide KeyOf;
    if rows != [] {
      NoneOfKey(mode, rows[..|rows| - 1], key);
    }
  }

  /** A sorted list is its groups one after the other, each in order of arrival. */
  lemma SortedIsGroups(mode: Mode, rows: seq<Row>)
    requires forall row :: KeyOf(mode, row) < 4
    ensures Sorted(mode, rows) ==
      WithKey(mode, rows, 0) + WithKey(mode, rows, 1) + WithKey(mode, rows, 2) + WithKey(mode, rows, 3)
  {
    hide KeyOf, Sorted, WithKey;
    SortIsStable(mode, rows);
    SplitsByKey(mode, Sorted(mode, rows));
  }

  lemma {:induction false} GroupIs(mode: Mode, rows: seq<Row>, key: nat, keep: Row -> bool)
    requires forall row :: KeyOf(mode, row) == key <==> keep(row)
    ensures WithKey(mode, rows, key) == Where(rows, keep)
  {
    hide KeyOf;
    if rows != [] {
      GroupIs(mode, rows[..|rows| - 1], key, keep);
    }
  }

  lemma {:induction false} FilteredIs(mode: Mode, rows: seq<Row>, keep: Row -> bool)
    requires forall row :: Keeps(mode, row) <==> keep(row)
    ensures Filtered(mode, rows) == Where(rows, keep)
  {
    hide Keeps;
    if rows != [] {
      FilteredIs(mode, rows[..|rows| - 1], keep);
    }
  }

  lemma {:induction false} WhereTwice(rows: seq<Row>, keep: Row -> bool, also: Row -> bool, both: Row -> bool)
    requires forall row :: both(row) <==> keep(row) && also(row)
    ensures Where(Where(rows, keep), also) == Where(rows, both)
  {
    if rows != [] {
      var rest, last := rows[..|rows| - 1], rows[|rows| - 1];
      WhereTwice(rest, keep, also, both);
      if keep(last) {
        WhereOneMore(Where(rest, keep), last, also);
      } else {
        assert Where(rows, keep) == Where(rest, keep) && Where(rows, both) == Where(rest, both);
      }
    }
  }

  lemma WhereOneMore(rows: seq<Row>, row: Row, keep: Row -> bool)
    ensures Where(rows + [row], keep) == Where(rows, keep) + if keep(row) then [row] else []
  {
    assert (rows + [row])[..|rows|] == rows;
  }

  // ---------------------------------------------------------------- the views

  /** The focus view: of the newest thousand rows those of tier A, then the favourites of other tiers, newest first. */
  lemma FocusListing(req: Request, feed: seq<Row>)
    requires req.term == "" && req.tier == None && req.focus
    ensures var newest := First(feed, 1000);
      Listing(req, feed) ==
      Where(newest, (row: Row) => row.tier == A) + Where(newest, (row: Row) => row.tier != A && row.favourite)
  {
    hide Sorted, Filtered, WithKey;
    var newest := First(feed, 1000);
    var top, rest := (row: Row) => row.tier == A, (row: Row) => row.tier != A;
    var shown := (row: Row) => row.tier == A || row.favourite;
    FilteredIs(Focus, newest, shown);
    var kept := Where(newest, shown);
    SortedIsGroups(Focus, kept);
    GroupIs(Focus, kept, 0, top);
    GroupIs(Focus, kept, 1, rest);
    NoneOfKey(Focus, kept, 2);
    NoneOfKey(Focus, kept, 3);
    WhereTwice(newest, shown, top, (row: Row) => row.tier == A);
    WhereTwice(newest, shown, rest, (row: Row) => row.tier != A && row.favourite);
    hide Listing;
  }

  /**
    A search: of the newest five hundred matches, or those of the tier asked for among them, first the exact
    ticker, then the tickers that begin with the term, then those that hold it elsewhere, then the rest; within
    each group newest first.
   */
  lemma SearchListing(req: Request, feed: seq<Row>) returns (rows: seq<Row>)
    requires req.term != ""
    ensures rows ==
      if req.tier.None? then First(feed, 500) else Where(First(feed, 500), (row: Row) => row.tier == req.tier.value)
    ensures Listing(req, feed) == BestFirst(rows, req.term)
  {
    hide Sorted, Filtered, WithKey, Rank;
    rows := First(feed, 500);
    if req.tier.Some? {
      FilteredIs(OneTier(req.tier.value), rows, (row: Row) => row.tier == req.tier.value);
      rows := Where(rows, (row: Row) => row.tier == req.tier.value);
    }
    RankedIs(rows, req.term);
  }

  lemma RankedIs(rows: seq<Row>, term: string)
    ensures Sorted(Search(term), rows) == BestFirst(rows, term)
  {
    hide Sorted, WithKey;
    forall row: Row ensures Contains(row.ticker, term) <==> Holds(row.ticker, term) {
      ContainsMeans(row.ticker, term);
    }
    forall row: Row | term <= row.ticker ensures Holds(row.ticker, term) {
      assert StandsAt(row.ticker, term, 0);
    }
    hide Contains, Holds;
    SortedIsGroups(Search(term), rows);
    GroupIs(Search(term), rows, 0, (row: Row) => row.ticker == term);
    GroupIs(Search(term), rows, 1, (row: Row) => row.ticker != term && term <= row.ticker);
    GroupIs(Search(term), rows, 2, (row: Row) => !(term <= row.ticker) && Holds(row.ticker, term));
    GroupIs(Search(term), rows, 3, (row: Row) => !Holds(row.ticker, term));
  }

  ghost function BestFirst(rows: seq<Row>, term: string): seq<Row> {
    Where(rows, (row: Row) => row.ticker == term)
    + Where(rows, (row: Row) => row.ticker != term && term <= row.ticker)
    + Where(rows, (row: Row) => !(term <= row.ticker) && Holds(row.ticker, term))
    + Where(rows, (row: Row) => !Holds(row.ticker, term))
  }

  /** Without a search, a tier's view holds its rows among the newest thousand; the plain list holds all. */
  lemma UnrankedListing(req: Request, feed: seq<Row>)
    requires req.term == "" && (req.tier.Some? || !req.focus)
    ensures Listing(req, feed) ==
      if req.tier.Some? then Where(First(feed, 1000), (row: Row) => row.tier == req.tier.value) else feed
  {
    hide Sorted, Filtered;
    if req.tier.Some? {
      FilteredIs(OneTier(req.tier.value), First(feed, 1000), (row: Row) => row.tier == req.tier.value);
    }
    OneKeySortsNothing(ModeOf(req), Kept(req, feed));
  }

  /** Page `n` of a list in twenties: its rows, the length of the whole list, and whether there are rows past it. */
  ghost predicate IsPage(page: Page, list: seq<Row>, n: nat)
    requires 1 <= n
  {
    && page.total == |list| && (page.hasMore <==> 20 * n < |list|)
    && page.rows ==
       if 20 * n <= |list| then list[20 * (n - 1)..20 * n]
       else if 20 * (n - 1) < |list| then list[20 * (n - 1)..]
       else []
  }

  /**
    What page `n` holds: page `n` of the listing; but in a search within a tier, page `n` of those rows of that
    tier that stand on page `n` of the search without it.
   */
  lemma PagesAre(req: Request, feed: seq<Row>, n: nat)
    requires 1 <= n
    ensures req.term == "" || req.tier == None ==> IsPage(PageOf(req, feed, n), Listing(req, feed), n)
    ensures req.term != "" && req.tier.Some? ==>
      exists whole :: IsPage(whole, Listing(req.(tier := None), feed), n)
        && IsPage(PageOf(req, feed, n), Where(whole.rows, (row: Row) => row.tier == req.tier.value), n)
  {
    hide Sorted, Filtered, Listing;
    PageIsAStretch(req, feed, n);
    PageIsAStretch(req.(tier := None), feed, n);
    PagedIs(Listing(req, feed), n);
    PagedIs(Listing(req.(tier := None), feed), n);
    if req.term != "" && req.tier.Some? {
      var whole := PageOf(req.(tier := None), feed, n);
      FilteredIs(OneTier(req.tier.value), whole.rows, (row: Row) => row.tier == req.tier.value);
      PagedIs(Filtered(OneTier(req.tier.value), whole.rows), n);
    }
  }

  lemma PagedIs(list: seq<Row>, n: nat)
    requires 1 <= n
    ensures IsPage(Paged(list, n), list, n)
  {
  }

  /** Scrolling through the focus view, or through a search of all tiers, shows the rows in the order of the view. */
  lemma ScrolledInOrder(req: Request, feed: seq<Row>)
    requires req.tier == None && (req.term != "" || req.focus)
    ensures Scroll(req, feed, 1) ==
      if req.term != "" then BestFirst(First(feed, 500), req.term)
      else
        (Where(First(feed, 1000), (row: Row) => row.tier == A)
         + Where(First(feed, 1000), (row: Row) => row.tier != A && row.favourite))
  {
    hide Scroll, Listing;
    ScrollingShowsTheListing(req, feed);
    if req.term != "" {
      var rows := SearchListing(req, feed);
    } else {
      FocusListing(req, feed);
    }
  }
}
