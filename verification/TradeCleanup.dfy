/**
  Removal of duplicate rows from the trades table: rows are grouped by key, the lowest id of each
  group stays, and the rest are deleted a hundred at a time.
 */
module TradeCleanup {
  import opened Common

  datatype Key = Key(ticker: string, account: int, org: Option<int>, entry: int, exit: int)
  datatype Row = Row(id: int, key: Key)

  const BATCH := 100

  /** The table as the script reads it: by ascending id. */
  ghost predicate ById(rows: seq<Row>) {
    forall i, j | 0 <= i < j < |rows| :: rows[i].id < rows[j].id
  }

  function Keys(rows: seq<Row>): set<Key> {
    if rows == [] then {} else Keys(rows[..|rows| - 1]) + {rows[|rows| - 1].key}
  }

  function IdsOf(rows: seq<Row>, k: Key): seq<int> {
    if rows == [] then []
    else IdsOf(rows[..|rows| - 1], k) + if rows[|rows| - 1].key == k then [rows[|rows| - 1].id] else []
  }

  /** The groups of more than one row. */
  function Duplicates(rows: seq<Row>): map<Key, seq<int>> {
    map k | k in Keys(rows) && |IdsOf(rows, k)| > 1 :: IdsOf(rows, k)
  }

  /** DELETE ... WHERE id = ANY(ids). */
  function Without(rows: seq<Row>, ids: seq<int>): seq<Row> {
    if rows == [] then []
    else Without(rows[..|rows| - 1], ids) + if rows[|rows| - 1].id in ids then [] else [rows[|rows| - 1]]
  }

  /** The rows that come first for their key. */
  function KeepLowest(rows: seq<Row>): seq<Row> {
    if rows == [] then []
    else
      var rest := rows[..|rows| - 1];
      KeepLowest(rest) + if rows[|rows| - 1].key in Keys(rest) then [] else [rows[|rows| - 1]]
  }

  // ---------------------------------------------------------------- what keeping the lowest means

  lemma {:induction false} KeysMember(rows: seq<Row>)
    ensures forall i | 0 <= i < |rows| :: rows[i].key in Keys(rows)
    ensures forall k | k in Keys(rows) :: exists i :: 0 <= i < |rows| && rows[i].key == k
  {
    if rows != [] {
      var rest := rows[..|rows| - 1];
      KeysMember(rest);
      forall k | k in Keys(rows) ensures exists i :: 0 <= i < |rows| && rows[i].key == k {
        if k in Keys(rest) {
          var i :| 0 <= i < |rest| && rest[i].key == k;
          assert rows[i].key == k;
        } else {
          assert rows[|rows| - 1].key == k;
        }
      }
    }
  }

  lemma {:induction false} KeepLowestSize(rows: seq<Row>)
    ensures Keys(KeepLowest(rows)) == Keys(rows)
    ensures |KeepLowest(rows)| == |Keys(rows)|
  {
    if rows != [] {
      var rest := rows[..|rows| - 1];
      KeepLowestSize(rest);
      var kept := KeepLowest(rest);
      assert (kept + [rows[|rows| - 1]])[..|kept|] == kept;
      if rows[|rows| - 1].key in Keys(rest) {
        assert Keys(rows) == Keys(rest);
        assert KeepLowest(rows) == kept;
      }
    }
  }

  lemma {:induction false} KeptRows(rows: seq<Row>)
    requires ById(rows)
    ensures ById(KeepLowest(rows))
    ensures forall i | 0 <= i < |KeepLowest(rows)| :: KeepLowest(rows)[i] in rows
  {
    if rows != [] {
      var rest, last := rows[..|rows| - 1], rows[|rows| - 1];
      KeptRows(rest);
      assert forall row | row in rest :: row.id < last.id;
    }
  }

  /** No row of its group has a lower id than the one kept. */
  lemma {:induction false} KeptIsLowest(rows: seq<Row>, row: Row, other: Row)
    requires ById(rows) && row in KeepLowest(rows) && other in rows && row.key == other.key
    ensures row.id <= other.id
  {
    var rest, last := rows[..|rows| - 1], rows[|rows| - 1];
    KeptRows(rest);
    KeysMember(rest);
    if row in KeepLowest(rest) {
      if other in rest {
        KeptIsLowest(rest, row, other);
      }
    }
  }

  lemma {:induction false} OneRowPerKey(rows: seq<Row>, k: Key)
    requires |rows| == |Keys(rows)|
    ensures |IdsOf(rows, k)| == if k in Keys(rows) then 1 else 0
  {
    if rows != [] {
      var rest := rows[..|rows| - 1];
      KeysNoMoreThanRows(rest);
      assert Keys(rows) - {rows[|rows| - 1].key} <= Keys(rest);
      assert |Keys(rows)| <= |Keys(rest)| + 1;
      assert rows[|rows| - 1].key in Keys(rest) ==> Keys(rows) == Keys(rest);
      OneRowPerKey(rest, k);
    }
  }

  lemma {:induction false} KeysNoMoreThanRows(rows: seq<Row>)
    ensures |Keys(rows)| <= |rows|
  {
    if rows != [] {
      KeysNoMoreThanRows(rows[..|rows| - 1]);
    }
  }

  /**
    The outcome of a cleanup: the keys are the same, each survives on exactly one row, that row has the
    lowest id of its group, and a second cleanup would find nothing.
   */
  lemma KeepLowestIsClean(rows: seq<Row>)
    requires ById(rows)
    ensures var kept := KeepLowest(rows);
      && Keys(kept) == Keys(rows) && |kept| == |Keys(rows)|
      && (forall row | row in kept :: row in rows)
      && (forall row, other | row in kept && other in rows && row.key == other.key :: row.id <= other.id)
      && ById(kept) && Duplicates(kept) == map[]
  {
    KeepLowestSize(rows);
    KeptRows(rows);
    forall row, other | row in KeepLowest(rows) && other in rows && row.key == other.key ensures row.id <= other.id {
      KeptIsLowest(rows, row, other);
    }
    forall k ensures |IdsOf(KeepLowest(rows), k)| <= 1 {
      OneRowPerKey(KeepLowest(rows), k);
    }
  }

  // ---------------------------------------------------------------- the ids picked for deletion

  /** An earlier row has the key of row `i`. */
  predicate Repeats(rows: seq<Row>, i: nat)
    requires i < |rows|
  {
    rows[i].key in Keys(rows[..i])
  }

  lemma {:induction false} GroupIds(rows: seq<Row>, k: Key)
    requires ById(rows)
    ensures IdsOf(rows, k) != [] <==> k in Keys(rows)
    ensures forall i, j | 0 <= i < j < |IdsOf(rows, k)| :: IdsOf(rows, k)[i] < IdsOf(rows, k)[j]
    ensures forall id | id in IdsOf(rows, k) :: exists i :: 0 <= i < |rows| && rows[i].id == id && rows[i].key == k
  {
    if rows != [] {
      var n := |rows| - 1;
      GroupIds(rows[..n], k);
      var before := IdsOf(rows[..n], k);
      forall id | id in before
        ensures id < rows[n].id && exists i :: 0 <= i < |rows| && rows[i].id == id && rows[i].key == k
      {
        var i :| 0 <= i < n && rows[..n][i].id == id && rows[..n][i].key == k;
        assert rows[i].id == id && rows[i].key == k;
      }
      assert forall i | 0 <= i < |before| :: before[i] in before;
      if rows[n].key == k {
        assert rows[n].id in IdsOf(rows, k);
      }
    }
  }

  /** The groups found: the keys on more than one row, each with the ids of its rows, ascending. */
  lemma DuplicatesMean(rows: seq<Row>, k: Key)
    requires ById(rows)
    ensures k in Duplicates(rows) <==>
      exists i, j :: 0 <= i < j < |rows| && rows[i].key == k && rows[j].key == k
    ensures k in Duplicates(rows) ==> var ids := Duplicates(rows)[k];
      && (forall i, j | 0 <= i < j < |ids| :: ids[i] < ids[j])
      && (forall id :: id in ids <==> exists i :: 0 <= i < |rows| && rows[i].id == id && rows[i].key == k)
  {
    GroupIsWhole(rows, k);
    GroupRepeats(rows, k);
    hide IdsOf, Keys, ById;
  }

  lemma GroupIsWhole(rows: seq<Row>, k: Key)
    requires ById(rows)
    ensures forall i, j | 0 <= i < j < |IdsOf(rows, k)| :: IdsOf(rows, k)[i] < IdsOf(rows, k)[j]
    ensures forall id :: id in IdsOf(rows, k) <==> exists i :: 0 <= i < |rows| && rows[i].id == id && rows[i].key == k
  {
    hide IdsOf, Keys;
    GroupIds(rows, k);
    forall i | 0 <= i < |rows| && rows[i].key == k ensures rows[i].id in IdsOf(rows, k) {
      GroupHas(rows, k, i);
    }
  }

  lemma GroupRepeats(rows: seq<Row>, k: Key)
    requires ById(rows)
    ensures k in Keys(rows) && 1 < |IdsOf(rows, k)| <==>
      exists i, j :: 0 <= i < j < |rows| && rows[i].key == k && rows[j].key == k
  {
    hide IdsOf, Keys;
    var ids := IdsOf(rows, k);
    GroupIsWhole(rows, k);
    if 1 < |ids| {
      assert ids[0] in ids && ids[1] in ids;
      var i :| 0 <= i < |rows| && rows[i].id == ids[0] && rows[i].key == k;
      var j :| 0 <= j < |rows| && rows[j].id == ids[1] && rows[j].key == k;
      assert i < j;
      GroupHas(rows, k, i);
    }
    if i, j :| 0 <= i < j < |rows| && rows[i].key == k && rows[j].key == k {
      assert rows[i].id != rows[j].id && rows[i].id in ids && rows[j].id in ids;
      GroupHas(rows, k, i);
    }
  }

  lemma {:induction false} GroupHas(rows: seq<Row>, k: Key, i: nat)
    requires i < |rows| && rows[i].key == k
    ensures rows[i].id in IdsOf(rows, k) && k in Keys(rows)
  {
    if i < |rows| - 1 {
      GroupHas(rows[..|rows| - 1], k, i);
    }
  }

  /** A deletion leaves the rows not listed, in their order. */
  lemma {:induction false} WithoutHas(rows: seq<Row>, ids: seq<int>)
    requires ById(rows)
    ensures forall row :: row in Without(rows, ids) <==> row in rows && row.id !in ids
    ensures ById(Without(rows, ids))
  {
    if rows != [] {
      var rest, last := rows[..|rows| - 1], rows[|rows| - 1];
      WithoutHas(rest, ids);
      assert rows == rest + [last];
      forall i | 0 <= i < |Without(rest, ids)| ensures Without(rest, ids)[i].id < last.id {
        assert Without(rest, ids)[i] in rest;
      }
    }
  }

  /** An id is in its group's list past the head exactly when an earlier row has the same key. */
  lemma {:induction false} TailIds(rows: seq<Row>, k: Key, i: nat)
    requires ById(rows) && i < |rows| && rows[i].key == k
    ensures IdsOf(rows, k) != []
    ensures rows[i].id in IdsOf(rows, k)[1..] <==> Repeats(rows, i)
  {
    var n := |rows| - 1;
    var before, ids := IdsOf(rows[..n], k), IdsOf(rows, k);
    assert ids == before + if rows[n].key == k then [rows[n].id] else [];
    NewestId(rows, k);
    SomeIds(rows[..n], k);
    hide IdsOf, Keys;
    if i < n {
      TailIds(rows[..n], k, i);
      assert rows[..n][..i] == rows[..i];
      assert ids[1..] == before[1..] + if rows[n].key == k then [rows[n].id] else [];
      assert rows[i].id != rows[n].id;
    } else if before == [] {
      assert ids[1..] == [];
    } else {
      assert ids[1..] == before[1..] + [rows[n].id];
    }
  }

  lemma SomeIds(rows: seq<Row>, k: Key)
    requires ById(rows)
    ensures IdsOf(rows, k) != [] <==> k in Keys(rows)
  {
    GroupIds(rows, k);
  }

  lemma NewestId(rows: seq<Row>, k: Key)
    requires ById(rows) && rows != []
    ensures rows[|rows| - 1].id !in IdsOf(rows[..|rows| - 1], k)
  {
    GroupIds(rows[..|rows| - 1], k);
  }

  lemma {:induction false} DeletingLaterRows(rows: seq<Row>, ids: seq<int>)
    requires forall i | 0 <= i < |rows| :: rows[i].id in ids <==> Repeats(rows, i)
    ensures Without(rows, ids) == KeepLowest(rows)
  {
    if rows != [] {
      var rest := rows[..|rows| - 1];
      forall i | 0 <= i < |rest| ensures rest[i].id in ids <==> Repeats(rest, i) {
        assert rest[..i] == rows[..i];
      }
      DeletingLaterRows(rest, ids);
    }
  }

  lemma {:induction false} WithoutTwice(rows: seq<Row>, a: seq<int>, b: seq<int>)
    ensures Without(Without(rows, a), b) == Without(rows, a + b)
  {
    if rows != [] {
      var rest, last := rows[..|rows| - 1], rows[|rows| - 1];
      WithoutTwice(rest, a, b);
      var once := Without(rest, a);
      assert (once + [last])[..|once|] == once;
      assert last.id in a ==> Without(rows, a) == once;
    }
  }

  lemma NextBatch(rows: seq<Row>, ids: seq<int>, i: nat, end: nat, batches: seq<seq<int>>)
    requires i <= end <= |ids| && Flatten(batches) == ids[..i]
    ensures Without(Without(rows, ids[..i]), ids[i..end]) == Without(rows, ids[..end])
    ensures Flatten(batches + [ids[i..end]]) == ids[..end]
  {
    WithoutTwice(rows, ids[..i], ids[i..end]);
    assert ids[..i] + ids[i..end] == ids[..end];
    assert (batches + [ids[i..end]])[..|batches|] == batches;
  }

  lemma {:induction false} WithoutNone(rows: seq<Row>)
    ensures Without(rows, []) == rows
  {
    if rows != [] {
      WithoutNone(rows[..|rows| - 1]);
    }
  }

  /** The ids of `ids` that the table holds. */
  ghost function Hits(rows: seq<Row>, ids: seq<int>): set<int> {
    set i | 0 <= i < |rows| && rows[i].id in ids :: rows[i].id
  }

  /** One row goes for every listed id that is present. */
  lemma {:induction false} DeletedRows(rows: seq<Row>, ids: seq<int>)
    requires ById(rows)
    ensures |Without(rows, ids)| == |rows| - |Hits(rows, ids)|
  {
    if rows != [] {
      var rest, last := rows[..|rows| - 1], rows[|rows| - 1];
      DeletedRows(rest, ids);
      assert Hits(rows, ids) == Hits(rest, ids) + if last.id in ids then {last.id} else {};
    } else {
      assert Hits(rows, ids) == {};
    }
  }

  lemma HitsAreAll(rows: seq<Row>, ids: seq<int>)
    requires forall id | id in ids :: exists i :: 0 <= i < |rows| && rows[i].id == id
    ensures Hits(rows, ids) == set id | id in ids
  {
    forall id | id in ids ensures id in Hits(rows, ids) {
      var i :| 0 <= i < |rows| && rows[i].id == id;
      assert rows[i].id in ids;
    }
  }

  ghost function Flatten(batches: seq<seq<int>>): seq<int> {
    if batches == [] then [] else Flatten(batches[..|batches| - 1]) + batches[|batches| - 1]
  }

  // ---------------------------------------------------------------- the script

  /**
    Sorting the groups compares organisation ids of groups with equal ticker and account, and Python
    cannot order a missing organisation against a present one.
   */
  predicate Sortable(keys: set<Key>) {
    forall a, b | a in keys && b in keys && a.ticker == b.ticker && a.account == b.account ::
      a.org.Some? <==> b.org.Some?
  }

  /** Two groups of one ticker and account, one of an organisation and one of none. */
  ghost predicate Mixed(keys: set<Key>) {
    exists a, b :: a in keys && b in keys && a.ticker == b.ticker && a.account == b.account && a.org == None != b.org
  }

  lemma MixedDoNotSort(keys: set<Key>)
    ensures Mixed(keys) <==> !Sortable(keys)
    ensures Mixed(keys) ==> keys != {}
  {
  }

  lemma OneMoreRow(rows: seq<Row>, row: Row, k: Key)
    ensures Keys(rows + [row]) == Keys(rows) + {row.key}
    ensures IdsOf(rows + [row], k) == IdsOf(rows, k) + if row.key == k then [row.id] else []
  {
    assert (rows + [row])[..|rows|] == rows;
  }

  lemma NoRows(k: Key)
    ensures Keys([]) == {} && IdsOf([], k) == []
  {
  }

  /** Four rows for which the script fails: two groups of one ticker and account, one without an organisation. */
  lemma MixedOrganisationsFail() returns (rows: seq<Row>)
    ensures ById(rows) && Duplicates(rows) != map[] && !Sortable(Duplicates(rows).Keys)
  {
    var a, b := Key("BHP.AX", 1, None, 10, 20), Key("BHP.AX", 1, Some(1), 10, 20);
    rows := [Row(1, a), Row(2, a), Row(3, b), Row(4, b)];
    hide IdsOf, Keys;
    forall k ensures IdsOf(rows, k) == (if k == a then [1, 2] else []) + if k == b then [3, 4] else [] {
      var one: seq<Row> := [Row(1, a)];
      NoRows(k);
      OneMoreRow([], Row(1, a), k);
      OneMoreRow(one, Row(2, a), k);
      OneMoreRow(one + [Row(2, a)], Row(3, b), k);
      OneMoreRow(one + [Row(2, a)] + [Row(3, b)], Row(4, b), k);
      assert [] + [Row(1, a)] == one && one + [Row(2, a)] + [Row(3, b)] + [Row(4, b)] == rows;
    }
    GroupIds(rows, a);
    GroupIds(rows, b);
    assert a in Duplicates(rows) && b in Duplicates(rows);
  }

  datatype Outcome = NothingToDo | SortError | DryRun | Aborted | Deleted(count: nat)

  class TradesTable {
    var rows: seq<Row>

    constructor (rows: seq<Row>)
      ensures this.rows == rows
    {
      this.rows := rows;
    }

    method FindDuplicates() returns (duplicates: map<Key, seq<int>>)
      ensures duplicates == Duplicates(rows)
    {
      hide Keys, IdsOf;
      var groups: map<Key, seq<int>> := map[];
      assert Keys(rows[..0]) == {} by {
        assert rows[..0] == [];
        NoRows(Key("", 0, None, 0, 0));
      }
      for i := 0 to |rows|
        invariant groups.Keys == Keys(rows[..i])
        invariant forall k | k in groups :: groups[k] == IdsOf(rows[..i], k)
      {
        var row := rows[i];
        NewKeyHasNoIds(rows[..i], row.key);
        assert rows[..i + 1] == rows[..i] + [row];
        forall k {
          OneMoreRow(rows[..i], row, k);
        }
        groups := groups[row.key := (if row.key in groups then groups[row.key] else []) + [row.id]];
      }
      assert rows[..|rows|] == rows;
      duplicates := map k | k in groups && |groups[k]| > 1 :: groups[k];
    }

    /**
      Ids past the head of every group, in some order of the groups. The script orders the groups by key;
      nothing here depends on which order it is.
     */
    method ListDeletions(duplicates: map<Key, seq<int>>) returns (ids: seq<int>)
      requires ById(rows) && duplicates == Duplicates(rows)
      ensures forall i | 0 <= i < |rows| :: rows[i].id in ids <==> Repeats(rows, i)
      ensures |ids| == |Hits(rows, ids)|
    {
      ids := [];
      var left := duplicates.Keys;
      NoGroupsListed(rows);
      while left != {}
        invariant left <= duplicates.Keys
        invariant ListedExcept(rows, ids, left)
        decreases |left|
      {
        var k :| k in left;
        NextGroup(rows, ids, left, k);
        left := left - {k};
        ids := ids + duplicates[k][1..];
      }
      HitsAreAll(rows, ids);
    }

    method DeleteInBatches(ids: seq<int>) returns (deleted: nat, batches: seq<seq<int>>)
      modifies this
      ensures rows == Without(old(rows), ids)
      ensures deleted == |ids| && Flatten(batches) == ids
      ensures forall batch | batch in batches :: 0 < |batch| <= 100
    {
      ghost var before := rows;
      var i := 0;
      deleted, batches := 0, [];
      WithoutNone(before);
      while i < |ids|
        invariant 0 <= i <= |ids| + BATCH
        invariant deleted == if i < |ids| then i else |ids|
        invariant rows == Without(before, ids[..deleted]) && Flatten(batches) == ids[..deleted]
        invariant forall batch | batch in batches :: 0 < |batch| <= 100
      {
        var end := if i + BATCH <= |ids| then i + BATCH else |ids|;
        var batch := ids[i..end];
        NextBatch(before, ids, i, end, batches);
        rows := Without(rows, batch);
        batches := batches + [batch];
        deleted := deleted + |batch|;
        i := i + BATCH;
      }
      assert ids[..|ids|] == ids;
    }

    method Clean(execute: bool, answerIsYes: bool) returns (outcome: Outcome, batches: seq<seq<int>>)
      requires ById(rows)
      modifies this
      ensures var duplicates := Duplicates(old(rows));
        && (outcome == NothingToDo <==> duplicates == map[])
        && (outcome == SortError <==> Mixed(duplicates.Keys))
        && (outcome == DryRun <==> duplicates != map[] && !Mixed(duplicates.Keys) && !execute)
        && (outcome == Aborted <==> duplicates != map[] && !Mixed(duplicates.Keys) && execute && !answerIsYes)
        && (outcome.Deleted? <==> duplicates != map[] && !Mixed(duplicates.Keys) && execute && answerIsYes)
      ensures rows == if outcome.Deleted? then KeepLowest(old(rows)) else old(rows)
      ensures outcome.Deleted? ==> outcome.count == |old(rows)| - |Keys(old(rows))| == |Flatten(batches)|
      ensures forall batch | batch in batches :: 0 < |batch| <= 100
    {
      batches := [];
      var duplicates := FindDuplicates();
      MixedDoNotSort(duplicates.Keys);
      if duplicates == map[] {
        return NothingToDo, [];
      }
      if !Sortable(duplicates.Keys) {
        return SortError, [];
      }
      var ids := ListDeletions(duplicates);
      if !execute {
        return DryRun, [];
      }
      if !answerIsYes {
        return Aborted, [];
      }
      DeletingLaterRows(rows, ids);
      DeletedRows(rows, ids);
      KeepLowestSize(rows);
      var deleted;
      deleted, batches := DeleteInBatches(ids);
      outcome := Deleted(deleted);
    }
  }

  lemma {:induction false} NewKeyHasNoIds(rows: seq<Row>, k: Key)
    ensures k !in Keys(rows) ==> IdsOf(rows, k) == []
  {
    if rows != [] {
      NewKeyHasNoIds(rows[..|rows| - 1], k);
    }
  }

  /** `ids` holds, once each, the later rows of every group outside `left`. */
  ghost predicate ListedExcept(rows: seq<Row>, ids: seq<int>, left: set<Key>) {
    && (forall i | 0 <= i < |rows| :: rows[i].id in ids <==> rows[i].key !in left && Repeats(rows, i))
    && (forall id | id in ids :: exists i :: 0 <= i < |rows| && rows[i].id == id)
    && |set id | id in ids| == |ids|
  }

  lemma NoGroupsListed(rows: seq<Row>)
    requires ById(rows)
    ensures ListedExcept(rows, [], Duplicates(rows).Keys)
  {
    KeysMember(rows);
    forall i | 0 <= i < |rows| && rows[i].key !in Duplicates(rows) ensures !Repeats(rows, i) {
      TailIds(rows, rows[i].key, i);
    }
    var none: seq<int> := [];
    assert (set id | id in none) == {};
  }

  lemma NextGroup(rows: seq<Row>, ids: seq<int>, left: set<Key>, k: Key)
    requires ById(rows) && k in left && IdsOf(rows, k) != [] && ListedExcept(rows, ids, left)
    ensures ListedExcept(rows, ids + IdsOf(rows, k)[1..], left - {k})
  {
    hide IdsOf, Keys, Repeats;
    var tail := IdsOf(rows, k)[1..];
    TailOf(rows, k);
    forall id | id in tail ensures id !in ids {
      var i :| 0 <= i < |rows| && rows[i].id == id && rows[i].key == k;
    }
    DisjointSizes(ids, tail);
  }

  /** The ids of group `k` past its head: the later rows with that key, once each. */
  lemma TailOf(rows: seq<Row>, k: Key)
    requires ById(rows) && IdsOf(rows, k) != []
    ensures var tail := IdsOf(rows, k)[1..];
      && (forall i | 0 <= i < |rows| :: rows[i].id in tail <==> rows[i].key == k && Repeats(rows, i))
      && (forall id | id in tail :: exists i :: 0 <= i < |rows| && rows[i].id == id && rows[i].key == k)
      && |set id | id in tail| == |tail|
  {
    hide IdsOf, Keys, Repeats;
    var tail := IdsOf(rows, k)[1..];
    GroupIds(rows, k);
    assert forall id | id in tail :: id in IdsOf(rows, k);
    forall i | 0 <= i < |rows| && rows[i].key == k ensures rows[i].id in tail <==> Repeats(rows, i) {
      TailIds(rows, k, i);
    }
    IncreasingIsDistinct(tail);
  }

  lemma DisjointSizes(a: seq<int>, b: seq<int>)
    requires forall x | x in b :: x !in a
    ensures |set x | x in a + b| == |set x | x in a| + |set x | x in b|
  {
    var s, t := set x | x in a, set x | x in b;
    assert forall x | x in t :: x in b && x !in s;
    assert (set x | x in a + b) == s + t;
  }

  lemma {:induction false} IncreasingIsDistinct(s: seq<int>)
    requires forall i, j | 0 <= i < j < |s| :: s[i] < s[j]
    ensures |set x | x in s| == |s|
  {
    if s != [] {
      var rest := s[..|s| - 1];
      IncreasingIsDistinct(rest);
      assert (set x | x in s) == (set x | x in rest) + {s[|s| - 1]};
    }
  }
}
