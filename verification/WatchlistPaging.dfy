/**
  How the watchlist fragment orders, filters and pages a feed of rows that arrives newest first: search
  results by rank, a single setup tier, both of them, the focus view, or the plain list.
 */
module WatchlistPaging {
  import opened Common

  const PER_PAGE := 20
  const SEARCH_CAP := 500
  const DERIVED_CAP := 1000

  datatype Tier = A | B | C

  /** `ticker` is in lower case, as the ranking compares it. */
  datatype Row = Row(id: int, ticker: string, tier: Tier, favourite: bool)

  /** What the page asks for; an empty term is no search, and `focus` is the focus view without a label. */
  datatype Request = Request(term: string, tier: Option<Tier>, focus: bool)

  /** A way to keep and to order rows. */
  datatype Mode = Search(term: string) | OneTier(tier: Tier) | Focus | Plain

  /** The order a request asks for. */
  function ModeOf(req: Request): Mode {
    if req.term != "" then Search(req.term)
    else if req.tier.Some? then OneTier(req.tier.value)
    else if req.focus then Focus
    else Plain
  }

  /** A search within one tier. */
  predicate TierSearch(req: Request) { req.term != "" && req.tier.Some? }

  predicate Contains(text: string, part: string) {
    part <= text || (text != [] && Contains(text[1..], part))
  }

  /** Exact, prefix, substring, or a match by company name only. */
  function Rank(ticker: string, term: string): nat {
    if ticker == term then 0 else if term <= ticker then 1 else if Contains(ticker, term) then 2 else 3
  }

  /** The sort key of a mode; lower comes first. */
  function KeyOf(mode: Mode, row: Row): nat {
    match mode
    case Search(term) => Rank(row.ticker, term)
    case Focus => if row.tier == A then 0 else 1
    case _ => 0
  }

  predicate Keeps(mode: Mode, row: Row) {
    match mode
    case OneTier(tier) => row.tier == tier
    case Focus => row.tier == A || row.favourite
    case _ => true
  }

  function Take(rows: seq<Row>, n: nat): seq<Row> {
    if n < |rows| then rows[..n] else rows
  }

  function Filtered(mode: Mode, rows: seq<Row>): (kept: seq<Row>)
    ensures |kept| <= |rows|
  {
    if rows == [] then []
    else Filtered(mode, rows[..|rows| - 1]) + if Keeps(mode, rows[|rows| - 1]) then [rows[|rows| - 1]] else []
  }

  /** `row` goes in after everything whose key is not greater. */
  function Insert(mode: Mode, sorted: seq<Row>, row: Row): (after: seq<Row>)
    ensures |after| == |sorted| + 1
  {
    if sorted == [] || KeyOf(mode, sorted[|sorted| - 1]) <= KeyOf(mode, row) then sorted + [row]
    else Insert(mode, sorted[..|sorted| - 1], row) + [sorted[|sorted| - 1]]
  }

  function Sorted(mode: Mode, rows: seq<Row>): (sorted: seq<Row>)
    ensures |sorted| == |rows|
  {
    if rows == [] then [] else Insert(mode, Sorted(mode, rows[..|rows| - 1]), rows[|rows| - 1])
  }

  function Slice(rows: seq<Row>, from: nat, to: nat): (part: seq<Row>)
    requires from <= to
    ensures |part| <= |rows| && |part| <= to - from
  {
    if |rows| <= from then [] else if to < |rows| then rows[from..to] else rows[from..]
  }

  datatype Page = Page(rows: seq<Row>, total: nat, hasMore: bool)

  /** Page `n`, counted from 1, of a list in hand. */
  function Paged(rows: seq<Row>, n: nat): Page
    requires 1 <= n
  {
    Page(Slice(rows, (n - 1) * PER_PAGE, n * PER_PAGE), |rows|, n * PER_PAGE < |rows|)
  }

  /** The matches of a search, best first, of the newest that are looked at. */
  function Ranked(term: string, feed: seq<Row>): seq<Row> { Sorted(Search(term), Take(feed, SEARCH_CAP)) }

  /** What the handler has before it looks at tiers: already one page, save for a tier alone and the focus view. */
  function Fetched(req: Request, feed: seq<Row>, n: nat): (page: Page)
    requires 1 <= n
    ensures page.total <= |feed| && |page.rows| <= |feed| && page.hasMore == (n * PER_PAGE < page.total)
  {
    match ModeOf(req)
    case Search(term) => Paged(Ranked(term, feed), n)
    case Plain => Paged(feed, n)
    case _ => Page(Take(feed, DERIVED_CAP), 0, false)
  }

  /** Page `n` as the handler builds it: a tier filters and pages whatever was fetched, then the focus view does. */
  function PageOf(req: Request, feed: seq<Row>, n: nat): (page: Page)
    requires 1 <= n
    ensures page.total <= |feed| && page.hasMore == (n * PER_PAGE < page.total)
  {
    var fetched := Fetched(req, feed, n);
    var tiered := if req.tier.Some? then Paged(Filtered(OneTier(req.tier.value), fetched.rows), n) else fetched;
    if ModeOf(req).Focus? then Paged(Sorted(Focus, Filtered(Focus, tiered.rows)), n) else tiered
  }

  /** Scrolling from page `n` on, until a page says there is no more. */
  function Scroll(req: Request, feed: seq<Row>, n: nat): seq<Row>
    requires 1 <= n
    decreases |feed| - n * PER_PAGE
  {
    var page := PageOf(req, feed, n);
    if page.hasMore then page.rows + Scroll(req, feed, n + 1) else page.rows
  }

  // ---------------------------------------------------------------- sorting is stable

  function WithKey(mode: Mode, rows: seq<Row>, key: nat): seq<Row> {
    if rows == [] then []
    else
      WithKey(mode, rows[..|rows| - 1], key) + if KeyOf(mode, rows[|rows| - 1]) == key then [rows[|rows| - 1]] else []
  }

  ghost predicate InOrder(mode: Mode, rows: seq<Row>) {
    forall i, j | 0 <= i < j < |rows| :: KeyOf(mode, rows[i]) <= KeyOf(mode, rows[j])
  }

  lemma {:induction false} InsertAddsRow(mode: Mode, sorted: seq<Row>, row: Row)
    ensures multiset(Insert(mode, sorted, row)) == multiset(sorted) + multiset{row}
    decreases |sorted|
  {
    hide KeyOf;
    if sorted == [] || KeyOf(mode, sorted[|sorted| - 1]) <= KeyOf(mode, row) {
    } else {
      var rest, last := sorted[..|sorted| - 1], sorted[|sorted| - 1];
      InsertAddsRow(mode, rest, row);
      assert sorted == rest + [last];
    }
  }

  lemma {:induction false} InsertKeepsOrder(mode: Mode, sorted: seq<Row>, row: Row)
    requires InOrder(mode, sorted)
    ensures InOrder(mode, Insert(mode, sorted, row))
    decreases |sorted|
  {
    hide KeyOf;
    if sorted == [] || KeyOf(mode, sorted[|sorted| - 1]) <= KeyOf(mode, row) {
    } else {
      var rest, last := sorted[..|sorted| - 1], sorted[|sorted| - 1];
      InsertKeepsOrder(mode, rest, row);
      InsertAddsRow(mode, rest, row);
      LastIsGreatest(mode, Insert(mode, rest, row), rest, row, last);
      assert Insert(mode, sorted, row) == Insert(mode, rest, row) + [last];
    }
  }

  lemma LastIsGreatest(mode: Mode, placed: seq<Row>, rest: seq<Row>, row: Row, last: Row)
    requires multiset(placed) == multiset(rest) + multiset{row}
    requires KeyOf(mode, row) <= KeyOf(mode, last) && forall i | 0 <= i < |rest| ::
      KeyOf(mode, rest[i]) <= KeyOf(mode, last)
    ensures forall i | 0 <= i < |placed| :: KeyOf(mode, placed[i]) <= KeyOf(mode, last)
  {
    hide KeyOf;
    forall i | 0 <= i < |placed| ensures KeyOf(mode, placed[i]) <= KeyOf(mode, last) {
      assert placed[i] in multiset(placed);
      assert placed[i] in multiset(rest) || placed[i] == row;
    }
  }

  /** Among rows of one key, the inserted row comes last. */
  lemma {:induction false} InsertIsStable(mode: Mode, sorted: seq<Row>, row: Row, key: nat)
    requires InOrder(mode, sorted)
    ensures WithKey(mode, Insert(mode, sorted, row), key) ==
      WithKey(mode, sorted, key) + if KeyOf(mode, row) == key then [row] else []
    decreases |sorted|
  {
    hide KeyOf, WithKey;
    if sorted == [] || KeyOf(mode, sorted[|sorted| - 1]) <= KeyOf(mode, row) {
      WithKeyOfOneMore(mode, sorted, row, key);
    } else {
      var rest, last := sorted[..|sorted| - 1], sorted[|sorted| - 1];
      InsertIsStable(mode, rest, row, key);
      WithKeyOfOneMore(mode, Insert(mode, rest, row), last, key);
      WithKeyOfOneMore(mode, rest, last, key);
      assert sorted == rest + [last];
    }
  }

  lemma WithKeyOfOneMore(mode: Mode, rows: seq<Row>, row: Row, key: nat)
    ensures WithKey(mode, rows + [row], key) == WithKey(mode, rows, key) + if KeyOf(mode, row) == key then [row] else []
  {
    assert (rows + [row])[..|rows|] == rows;
  }

  lemma {:induction false} SortOrders(mode: Mode, rows: seq<Row>)
    ensures InOrder(mode, Sorted(mode, rows)) && multiset(Sorted(mode, rows)) == multiset(rows)
  {
    hide KeyOf, Insert, InOrder;
    if rows == [] {
      EmptyInOrder(mode);
    } else {
      var rest, last := rows[..|rows| - 1], rows[|rows| - 1];
      SortOrders(mode, rest);
      InsertKeepsOrder(mode, Sorted(mode, rest), last);
      InsertAddsRow(mode, Sorted(mode, rest), last);
      assert rows == rest + [last];
    }
  }

  lemma EmptyInOrder(mode: Mode)
    ensures InOrder(mode, [])
  {
  }

  lemma {:induction false} SortKeepsArrival(mode: Mode, rows: seq<Row>, key: nat)
    ensures WithKey(mode, Sorted(mode, rows), key) == WithKey(mode, rows, key)
  {
    hide KeyOf, Insert, InOrder;
    if rows != [] {
      var rest, last := rows[..|rows| - 1], rows[|rows| - 1];
      SortKeepsArrival(mode, rest, key);
      SortOrders(mode, rest);
      InsertIsStable(mode, Sorted(mode, rest), last, key);
    }
  }

  /** The sort orders by key, keeps every row once, and leaves rows of equal key in their order of arrival. */
  lemma SortIsStable(mode: Mode, rows: seq<Row>)
    ensures InOrder(mode, Sorted(mode, rows)) && multiset(Sorted(mode, rows)) == multiset(rows)
    ensures forall key: nat :: WithKey(mode, Sorted(mode, rows), key) == WithKey(mode, rows, key)
    ensures |Sorted(mode, rows)| == |rows|
  {
    hide Sorted, WithKey, InOrder;
    SortOrders(mode, rows);
    assert |multiset(Sorted(mode, rows))| == |multiset(rows)|;
    forall key: nat ensures WithKey(mode, Sorted(mode, rows), key) == WithKey(mode, rows, key) {
      SortKeepsArrival(mode, rows, key);
    }
  }

  lemma {:induction false} FilterKeepsOrder(mode: Mode, rows: seq<Row>)
    ensures |Filtered(mode, rows)| <= |rows|
    ensures forall row :: row in Filtered(mode, rows) <==> row in rows && Keeps(mode, row)
    ensures mode.Search? || mode.Plain? ==> Filtered(mode, rows) == rows
  {
    if rows != [] {
      FilterKeepsOrder(mode, rows[..|rows| - 1]);
      assert rows == rows[..|rows| - 1] + [rows[|rows| - 1]];
    }
  }

  // ---------------------------------------------------------------- filtering and sorting

  lemma FilterOneMore(mode: Mode, rows: seq<Row>, row: Row)
    ensures Filtered(mode, rows + [row]) == if Keeps(mode, row) then Filtered(mode, rows) + [row]
      else Filtered(mode, rows)
  {
    assert (rows + [row])[..|rows|] == rows;
  }

  lemma InsertLast(mode: Mode, sorted: seq<Row>, row: Row)
    requires sorted == [] || KeyOf(mode, sorted[|sorted| - 1]) <= KeyOf(mode, row)
    ensures Insert(mode, sorted, row) == sorted + [row]
  {
  }

  lemma InsertBefore(mode: Mode, sorted: seq<Row>, last: Row, row: Row)
    requires KeyOf(mode, row) < KeyOf(mode, last)
    ensures Insert(mode, sorted + [last], row) == Insert(mode, sorted, row) + [last]
  {
    assert (sorted + [last])[..|sorted|] == sorted;
  }

  /** Filtering a list with a row put in is putting the row, if kept, into the filtered list. */
  lemma {:induction false} FilterInsert(mode: Mode, keep: Mode, sorted: seq<Row>, row: Row)
    requires InOrder(mode, sorted)
    ensures Filtered(keep, Insert(mode, sorted, row)) ==
      if Keeps(keep, row) then Insert(mode, Filtered(keep, sorted), row) else Filtered(keep, sorted)
    decreases |sorted|
  {
    hide KeyOf, Keeps, Filtered, Insert;
    if sorted == [] || KeyOf(mode, sorted[|sorted| - 1]) <= KeyOf(mode, row) {
      InsertLast(mode, sorted, row);
      FilterOneMore(keep, sorted, row);
      FilterKeepsOrder(keep, sorted);
      var kept := Filtered(keep, sorted);
      assert kept != [] ==> kept[|kept| - 1] in sorted;
      InsertLast(mode, kept, row);
    } else {
      var rest, last := sorted[..|sorted| - 1], sorted[|sorted| - 1];
      assert sorted == rest + [last];
      FilterInsert(mode, keep, rest, row);
      InsertBefore(mode, rest, last, row);
      FilterOneMore(keep, Insert(mode, rest, row), last);
      FilterOneMore(keep, rest, last);
      InsertBefore(mode, Filtered(keep, rest), last, row);
    }
  }

  /** It makes no difference whether rows are filtered before or after they are sorted. */
  lemma {:induction false} FilterThenSort(mode: Mode, keep: Mode, rows: seq<Row>)
    ensures Filtered(keep, Sorted(mode, rows)) == Sorted(mode, Filtered(keep, rows))
  {
    hide KeyOf, Keeps, Insert, InOrder, Sorted, Filtered;
    NoRows(mode, keep);
    if rows != [] {
      var rest, last := rows[..|rows| - 1], rows[|rows| - 1];
      assert rows == rest + [last];
      FilterThenSort(mode, keep, rest);
      SortOrders(mode, rest);
      SortOneMore(mode, rest, last);
      FilterInsert(mode, keep, Sorted(mode, rest), last);
      FilterOneMore(keep, rest, last);
      SortOneMore(mode, Filtered(keep, rest), last);
    }
  }

  lemma NoRows(mode: Mode, keep: Mode)
    ensures Sorted(mode, []) == [] && Filtered(keep, []) == []
  {
  }

  lemma SortOneMore(mode: Mode, rows: seq<Row>, row: Row)
    ensures Sorted(mode, rows + [row]) == Insert(mode, Sorted(mode, rows), row)
  {
    hide Insert;
    assert (rows + [row])[..|rows|] == rows;
  }

  lemma {:induction false} FilterConcat(mode: Mode, a: seq<Row>, b: seq<Row>)
    ensures Filtered(mode, a + b) == Filtered(mode, a) + Filtered(mode, b)
  {
    if b == [] {
      assert a + b == a;
    } else {
      var rest, last := b[..|b| - 1], b[|b| - 1];
      assert a + b == a + rest + [last];
      FilterConcat(mode, a, rest);
      FilterOneMore(mode, a + rest, last);
    }
  }

  lemma {:induction false} FilteredOut(mode: Mode, rows: seq<Row>)
    ensures Filtered(mode, rows) == [] <==> forall i | 0 <= i < |rows| :: !Keeps(mode, rows[i])
  {
    hide Keeps, Filtered;
    NoRows(mode, mode);
    if rows != [] {
      var rest, last := rows[..|rows| - 1], rows[|rows| - 1];
      assert rows == rest + [last];
      FilteredOut(mode, rest);
      FilterOneMore(mode, rest, last);
    }
  }

  lemma SortUnfold(mode: Mode, rows: seq<Row>)
    requires mode.OneTier? || mode.Plain?
    ensures Sorted(mode, rows) ==
      if rows == [] then [] else Sorted(mode, rows[..|rows| - 1]) + [rows[|rows| - 1]]
  {
  }

  lemma {:induction false} OneKeySortsNothing(mode: Mode, rows: seq<Row>)
    requires mode.OneTier? || mode.Plain?
    ensures Sorted(mode, rows) == rows
  {
    hide Sorted, Insert;
    SortUnfold(mode, rows);
    if rows != [] {
      OneKeySortsNothing(mode, rows[..|rows| - 1]);
    }
  }

  // ---------------------------------------------------------------- scrolling

  /** The rows a request is about, newest first: those of the capped feed that it keeps. */
  function Kept(req: Request, feed: seq<Row>): seq<Row> {
    match ModeOf(req)
    case Search(_) =>
      var newest := Take(feed, SEARCH_CAP);
      if req.tier.Some? then Filtered(OneTier(req.tier.value), newest) else newest
    case Plain => feed
    case mode => Filtered(mode, Take(feed, DERIVED_CAP))
  }

  /** The list a request stands for: the rows it is about, in its order. */
  function Listing(req: Request, feed: seq<Row>): seq<Row> {
    Sorted(ModeOf(req), Kept(req, feed))
  }

  /** The listing holds exactly the rows the request is about, ordered by key, equal keys newest first. */
  lemma ListingIsOrdered(req: Request, feed: seq<Row>)
    ensures var listing, kept := Listing(req, feed), Kept(req, feed);
      && multiset(listing) == multiset(kept)
      && InOrder(ModeOf(req), listing)
      && (forall key: nat :: WithKey(ModeOf(req), listing, key) == WithKey(ModeOf(req), kept, key))
  {
    hide Sorted, Kept, KeyOf, WithKey;
    SortIsStable(ModeOf(req), Kept(req, feed));
  }

  /** Save for a search within a tier, each page is its stretch of the listing, and its total the listing's length. */
  lemma PageIsAStretch(req: Request, feed: seq<Row>, n: nat)
    requires 1 <= n
    ensures !TierSearch(req) ==> PageOf(req, feed, n) == Paged(Listing(req, feed), n)
  {
    hide Sorted, Filtered, Slice;
    if ModeOf(req).OneTier? || ModeOf(req).Plain? {
      OneKeySortsNothing(ModeOf(req), Kept(req, feed));
    }
  }

  /** In a search within a tier, the tier is looked for on the page the search has cut already, and that cut again. */
  lemma TierSearchPage(req: Request, feed: seq<Row>, n: nat)
    requires 1 <= n
    ensures TierSearch(req) ==> var page := PageOf(req, feed, n);
      && !page.hasMore
      && page.rows == if n == 1 then Filtered(OneTier(req.tier.value), Take(Ranked(req.term, feed), PER_PAGE)) else []
  {
    hide Sorted, Filtered;
  }

  /** The listing of a search within a tier: its first page's rows, then those of that tier ranked further down. */
  lemma TierSearchListing(req: Request, feed: seq<Row>)
    ensures TierSearch(req) ==> var ranked, tier := Ranked(req.term, feed), OneTier(req.tier.value);
      Listing(req, feed) == Filtered(tier, Take(ranked, PER_PAGE)) + Filtered(tier, Rest(ranked, PER_PAGE))
  {
    hide Sorted, Filtered;
    if TierSearch(req) {
      var ranked, tier := Ranked(req.term, feed), OneTier(req.tier.value);
      FilterThenSort(Search(req.term), tier, Take(feed, SEARCH_CAP));
      FilterConcat(tier, Take(ranked, PER_PAGE), Rest(ranked, PER_PAGE));
      assert ranked == Take(ranked, PER_PAGE) + Rest(ranked, PER_PAGE);
    }
  }

  function Rest(rows: seq<Row>, n: nat): seq<Row> {
    if n < |rows| then rows[n..] else []
  }

  lemma {:induction false} ScrollGivesTheRest(req: Request, feed: seq<Row>, n: nat)
    requires 1 <= n && !TierSearch(req) && (n == 1 || (n - 1) * PER_PAGE < |Listing(req, feed)|)
    ensures Scroll(req, feed, n) == Listing(req, feed)[(n - 1) * PER_PAGE..]
    decreases |feed| - n * PER_PAGE
  {
    hide Listing, PageOf;
    PageIsAStretch(req, feed, n);
    if PageOf(req, feed, n).hasMore {
      ScrollGivesTheRest(req, feed, n + 1);
    }
  }

  /** A row past the first page of a search is of the tier searched in, and is lost. */
  predicate Loses(req: Request, feed: seq<Row>) {
    TierSearch(req)
    && exists i | PER_PAGE <= i < |Ranked(req.term, feed)| :: Ranked(req.term, feed)[i].tier == req.tier.value
  }

  /**
    Pages 1, 2, ... up to the first that says there is no more put together the listing exactly, nothing lost
    or shown twice, if and only if the request is not a search within a tier, or no match of that tier is
    ranked twenty-first or later. In any case they show the listing from its start, each row once.
   */
  lemma ScrollingShowsTheListing(req: Request, feed: seq<Row>)
    ensures Scroll(req, feed, 1) == Listing(req, feed) <==> !Loses(req, feed)
    ensures Scroll(req, feed, 1) <= Listing(req, feed)
  {
    hide Listing, Ranked, Filtered;
    if TierSearch(req) {
      TierSearchScroll(req, feed);
      TierSearchListing(req, feed);
      var ranked, tier := Ranked(req.term, feed), OneTier(req.tier.value);
      FilteredOut(tier, Rest(ranked, PER_PAGE));
      RestKeeps(req.tier.value, ranked);
    } else {
      hide Scroll;
      ScrollGivesTheRest(req, feed, 1);
    }
  }

  lemma RestKeeps(tier: Tier, rows: seq<Row>)
    ensures (forall i | 0 <= i < |Rest(rows, PER_PAGE)| :: !Keeps(OneTier(tier), Rest(rows, PER_PAGE)[i])) <==>
      forall i | PER_PAGE <= i < |rows| :: rows[i].tier != tier
  {
    forall i | PER_PAGE <= i < |rows| ensures Rest(rows, PER_PAGE)[i - PER_PAGE] == rows[i] {
    }
  }

  lemma TierSearchScroll(req: Request, feed: seq<Row>)
    requires TierSearch(req)
    ensures Scroll(req, feed, 1) == Filtered(OneTier(req.tier.value), Take(Ranked(req.term, feed), PER_PAGE))
  {
    hide PageOf;
    TierSearchPage(req, feed, 1);
  }

  /**
    What a search shows: of the newest five hundred matches all, however they rank; within a tier, those of
    the twenty best of them that are of the tier. A match beyond the five hundred is never shown.
   */
  lemma SearchSeesOnlyTheNewest(req: Request, feed: seq<Row>, row: Row)
    requires req.term != ""
    ensures row in Scroll(req, feed, 1) <==>
      if req.tier.None? then exists i :: 0 <= i < |feed| && i < SEARCH_CAP && feed[i] == row
      else row.tier == req.tier.value && row in Take(Ranked(req.term, feed), PER_PAGE)
    ensures row in Scroll(req, feed, 1) ==> row in Take(feed, SEARCH_CAP)
  {
    hide Scroll, Sorted;
    var newest := Take(feed, SEARCH_CAP);
    if req.tier.None? {
      ScrollingShowsTheListing(req, feed);
      ListingIsOrdered(req, feed);
      assert row in multiset(Listing(req, feed)) <==> row in multiset(newest);
      if row in newest {
        var i :| 0 <= i < |newest| && newest[i] == row;
        assert feed[i] == row;
      }
    } else {
      TierSearchScroll(req, feed);
      FilterKeepsOrder(OneTier(req.tier.value), Take(Ranked(req.term, feed), PER_PAGE));
      SortIsStable(Search(req.term), newest);
      assert row in multiset(Ranked(req.term, feed)) <==> row in multiset(newest);
    }
  }

  /** An exact match that is the oldest of 501 is not shown, and five hundred others are. */
  lemma ExactMatchNotShown() returns (req: Request, feed: seq<Row>)
    ensures req == Request("bhp", None, false) && |feed| == 501 && Rank(feed[500].ticker, "bhp") == 0
    ensures forall i | 0 <= i < 500 :: Rank(feed[i].ticker, "bhp") != 0 && feed[i] in Scroll(req, feed, 1)
    ensures feed[500] !in Scroll(req, feed, 1)
  {
    hide Scroll, Rank;
    req := Request("bhp", None, false);
    feed := seq(501, i => Row(i, if i == 500 then "bhp" else "bhpx", A, false));
    RankOfExact();
    SearchSeesOnlyTheNewest(req, feed, feed[500]);
    forall i | 0 <= i < 500 ensures feed[i] in Scroll(req, feed, 1) {
      SearchSeesOnlyTheNewest(req, feed, feed[i]);
    }
  }

  /** Twenty-one matches that rank alike, the oldest the only one of tier A: a search within tier A shows nothing. */
  lemma TierMatchNotShown() returns (req: Request, feed: seq<Row>)
    ensures req == Request("bhp", Some(A), false) && |feed| == 21 && feed[20].tier == A
    ensures feed[20] in Listing(req, feed) && PageOf(req, feed, 1) == Page([], 0, false)
  {
    hide Rank, Sorted, Filtered, Scroll;
    req := Request("bhp", Some(A), false);
    feed := seq(21, i => Row(i, "bhpx", if i == 20 then A else B, false));
    AlikeStay(Search("bhp"), feed, Rank("bhpx", "bhp"));
    assert Ranked("bhp", feed) == feed;
    TierSearchPage(req, feed, 1);
    FilteredOut(OneTier(A), Take(feed, PER_PAGE));
    FilterKeepsOrder(OneTier(A), feed);
    hide PageOf;
    ListingIsOrdered(req, feed);
    assert Kept(req, feed) == Filtered(OneTier(A), feed);
    assert feed[20] in feed && feed[20] in multiset(Kept(req, feed));
    assert feed[20] in multiset(Listing(req, feed));
  }

  lemma {:induction false} AlikeStay(mode: Mode, rows: seq<Row>, key: nat)
    requires forall i | 0 <= i < |rows| :: KeyOf(mode, rows[i]) == key
    ensures Sorted(mode, rows) == rows
  {
    hide KeyOf, Insert;
    if rows != [] {
      var rest, last := rows[..|rows| - 1], rows[|rows| - 1];
      AlikeStay(mode, rest, key);
      InsertLast(mode, rest, last);
    }
  }

  lemma RankOfExact()
    ensures Rank("bhp", "bhp") == 0 && Rank("bhpx", "bhp") == 1
  {
    assert "bhp" != "bhpx" by {
      assert |"bhp"| != |"bhpx"|;
    }
  }
}
