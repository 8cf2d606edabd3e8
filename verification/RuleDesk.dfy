/** The handlers that write rule rows, updating the table in place. */
module RuleDesk {
  import opened Common
  import opened RuleLifecycle
  import opened RuleEffects

  /** Rows of organisations, for rules of `rules` that have a template. */
  function RowsOf(book: Book, rules: set<string>): set<Key> {
    set k | k in OrgRows(book) && k.rule in rules
  }

  /** Those of them an unforced sync leaves alone. */
  ghost function KeptOf(book: Book, force: bool, rules: set<string>): set<Key> {
    set k | k in RowsOf(book, rules) && !force && Edited(book[k])
  }

  function MissingOf(book: Book, orgs: set<int>, rules: set<string>): set<Key> {
    set k | k in MissingRows(book, orgs) && k.rule in rules
  }

  /** A sync that has got through `rules`. */
  function SyncRules(book: Book, orgs: set<int>, force: bool, rules: set<string>): Book {
    map k | k in book.Keys + MissingOf(book, orgs, rules) :: if k.rule in rules then SyncedRow(book, force, k)
      else book[k]
  }

  /** The rows of one rule, with those in `done` handled. */
  function Partly(book: Book, force: bool, done: set<Key>): Book
    requires forall k | k in done :: k in book || Template(k) in book
  {
    map k | k in book.Keys + done :: if k in done then SyncedRow(book, force, k) else book[k]
  }

  /** Rules already synced leave the rows of another rule as they were. */
  lemma OtherRuleUntouched(book: Book, orgs: set<int>, force: bool, done: set<string>, rule: string)
    requires rule !in done
    ensures var now := SyncRules(book, orgs, force, done);
      forall k: Key | k.rule == rule :: (k in now <==> k in book) && (k in book ==> now[k] == book[k])
  {
    hide SyncedRow, MissingRows;
  }

  lemma SameWork(book: Book, orgs: set<int>, force: bool, done: set<string>, rule: string)
    requires rule !in done
    ensures var now := SyncRules(book, orgs, force, done);
      && RowsOf(now, {rule}) == RowsOf(book, {rule}) && MissingOf(now, orgs, {rule}) == MissingOf(book, orgs, {rule})
      && KeptOf(now, force, {rule}) == KeptOf(book, force, {rule})
  {
    OtherRuleUntouched(book, orgs, force, done, rule);
    var now := SyncRules(book, orgs, force, done);
    hide SyncRules, SyncedRow;
    forall k | k in MissingOf(now, orgs, {rule}) ensures k in MissingOf(book, orgs, {rule}) {
      assert Template(k) in Templates(now) && Template(k) in Templates(book);
    }
    forall k | k in MissingOf(book, orgs, {rule}) ensures k in MissingOf(now, orgs, {rule}) {
      assert Template(k) in Templates(book) && Template(k) in Templates(now);
    }
  }

  lemma NextRule(book: Book, orgs: set<int>, force: bool, done: set<string>, rule: string)
    requires rule !in done
    ensures var now := SyncRules(book, orgs, force, done);
      && SyncRules(now, orgs, force, {rule}) == SyncRules(book, orgs, force, done + {rule})
      && RowsOf(now, {rule}) == RowsOf(book, {rule}) && MissingOf(now, orgs, {rule}) == MissingOf(book, orgs, {rule})
      && KeptOf(now, force, {rule}) == KeptOf(book, force, {rule})
  {
    hide MissingRows, RowsOf, KeptOf;
    var now := SyncRules(book, orgs, force, done);
    OtherRuleUntouched(book, orgs, force, done, rule);
    SameWork(book, orgs, force, done, rule);
    assert MissingOf(book, orgs, done + {rule}) == MissingOf(book, orgs, done) + MissingOf(book, orgs, {rule});
  }

  lemma CountNextRule(book: Book, orgs: set<int>, force: bool, done: set<string>, rule: string)
    requires rule !in done
    ensures |RowsOf(book, done + {rule})| == |RowsOf(book, done)| + |RowsOf(book, {rule})|
    ensures |KeptOf(book, force, done + {rule})| == |KeptOf(book, force, done)| + |KeptOf(book, force, {rule})|
    ensures |MissingOf(book, orgs, done + {rule})| == |MissingOf(book, orgs, done)| + |MissingOf(book, orgs, {rule})|
  {
    hide OrgRows, MissingRows, Edited;
    Disjoint(RowsOf(book, done), RowsOf(book, {rule}), RowsOf(book, done + {rule}));
    Disjoint(KeptOf(book, force, done), KeptOf(book, force, {rule}), KeptOf(book, force, done + {rule}));
    Disjoint(MissingOf(book, orgs, done), MissingOf(book, orgs, {rule}), MissingOf(book, orgs, done + {rule}));
  }

  lemma Disjoint(a: set<Key>, b: set<Key>, both: set<Key>)
    requires a !! b && forall k :: k in both <==> k in a || k in b
    ensures |both| == |a| + |b|
  {
    assert both == a + b;
  }

  lemma AllRules(book: Book, orgs: set<int>, force: bool, rules: set<string>)
    requires forall k | k in Templates(book) :: k.rule in rules
    requires forall rule | rule in rules :: Key(rule, None) in book
    ensures SyncRules(book, orgs, force, rules) == Sync(book, orgs, force)
    ensures RowsOf(book, rules) == OrgRows(book) && MissingOf(book, orgs, rules) == MissingRows(book, orgs)
    ensures KeptOf(book, force, rules) == set k | k in OrgRows(book) && !force && Edited(book[k])
  {
    assert forall k | k in OrgRows(book) :: Template(k) in Templates(book);
    assert forall k | k in MissingRows(book, orgs) :: Template(k) in Templates(book);
    assert MissingOf(book, orgs, rules) == MissingRows(book, orgs);
    assert forall k | k in book && Template(k) in book :: Template(k) in Templates(book);
  }

  class RuleTable {
    var rules: Book
    /** The ids of all organisations, each once. */
    const orgIds: seq<int>

    constructor (book: Book, orgIds: seq<int>)
      ensures rules == book && this.orgIds == orgIds
    {
      this.rules, this.orgIds := book, orgIds;
    }

    function Orgs(): set<int> { IdSet(orgIds) }

    ghost predicate Valid() {
      forall i, j | 0 <= i < j < |orgIds| :: orgIds[i] != orgIds[j]
    }

    method ToggleRule(org: int, rule: string) returns (saved: bool)
      modifies this`rules
      ensures rules == Next(old(rules), DoToggle(org, rule))
      ensures forall k :: At(rules, k) == RowAfter(old(rules), DoToggle(org, rule), k)
      ensures saved <==> Key(rule, Some(org)) in rules && !rules[Key(rule, Some(org))].mandatory
      ensures old(MandatoryOn(rules) && Agreed(rules)) ==> MandatoryOn(rules) && Agreed(rules)
    {
      hide MandatoryOn, Agreed, At, RowAfter;
      NextKeepsIf(rules, DoToggle(org, rule));
      EachRow(rules, DoToggle(org, rule));
      var k := Key(rule, Some(org));
      if k !in rules && Template(k) in rules {
        rules := rules[k := Clone(rules[Template(k)], "admin")];
      }
      saved := k in rules && !rules[k].mandatory;
      if saved {
        rules := rules[k := rules[k].(enabled := !rules[k].enabled)];
      }
    }

    method UpdateThreshold(org: int, rule: string, threshold: real) returns (saved: bool)
      modifies this`rules
      ensures rules == Next(old(rules), DoSetThreshold(org, rule, threshold))
      ensures forall k :: At(rules, k) == RowAfter(old(rules), DoSetThreshold(org, rule, threshold), k)
      ensures saved <==> var k := Key(rule, Some(org));
        k in rules && rules[k].threshold.Some? && StrictlyWithin(rules[k], threshold)
      ensures saved ==> rules[Key(rule, Some(org))].threshold == Some(threshold)
      ensures old(MandatoryOn(rules) && Agreed(rules)) ==> MandatoryOn(rules) && Agreed(rules)
    {
      hide MandatoryOn, Agreed, At, RowAfter;
      NextKeepsIf(rules, DoSetThreshold(org, rule, threshold));
      EachRow(rules, DoSetThreshold(org, rule, threshold));
      var k := Key(rule, Some(org));
      if k !in rules && Template(k) in rules {
        rules := rules[k := Clone(rules[Template(k)], "admin")];
      }
      if k !in rules || rules[k].threshold.None? {
        return false;
      }
      if rules[k].min.Some? && threshold < rules[k].min.value {
        return false;
      }
      if rules[k].max.Some? && rules[k].max.value < threshold {
        return false;
      }
      rules := rules[k := rules[k].(threshold := Some(threshold))];
      saved := true;
    }

    method ToggleGlobalRule(rule: string)
      modifies this`rules
      ensures rules == Next(old(rules), DoToggleGlobal(rule))
      ensures forall k :: At(rules, k) == RowAfter(old(rules), DoToggleGlobal(rule), k)
      ensures old(MandatoryOn(rules) && Agreed(rules)) ==> MandatoryOn(rules) && Agreed(rules)
    {
      hide MandatoryOn, Agreed, At, RowAfter;
      NextKeepsIf(rules, DoToggleGlobal(rule));
      EachRow(rules, DoToggleGlobal(rule));
      var k := Key(rule, None);
      if k in rules && !rules[k].mandatory {
        rules := rules[k := rules[k].(enabled := !rules[k].enabled, updatedBy := Some("superadmin"))];
      }
    }

    method ToggleTierRule(rule: string, tier: string)
      modifies this`rules
      ensures rules == Next(old(rules), DoToggleTier(rule, tier))
      ensures forall k :: At(rules, k) == RowAfter(old(rules), DoToggleTier(rule, tier), k)
      ensures old(MandatoryOn(rules) && Agreed(rules)) ==> MandatoryOn(rules) && Agreed(rules)
    {
      hide MandatoryOn, Agreed, At, RowAfter;
      NextKeepsIf(rules, DoToggleTier(rule, tier));
      EachRow(rules, DoToggleTier(rule, tier));
      var k := Key(rule, None);
      if k in rules && !rules[k].mandatory {
        var overrides := rules[k].overrides;
        var o := if tier in overrides then overrides[tier] else Override(None, None);
        o := o.(enabled := Some(!(if o.enabled.Some? then o.enabled.value else true)));
        rules := rules[k := rules[k].(overrides := overrides[tier := o], updatedBy := Some("superadmin"))];
      }
    }

    method CmdRule(org: int, rule: string, on: bool) returns (reply: Reply)
      modifies this`rules
      ensures rules == Next(old(rules), DoTelegramRule(org, rule, on))
      ensures forall k :: At(rules, k) == RowAfter(old(rules), DoTelegramRule(org, rule, on), k)
      ensures reply == NoSuchRule <==> Key(rule, Some(org)) !in old(rules)
      ensures reply == Mandatory <==> Key(rule, Some(org)) in rules && rules[Key(rule, Some(org))].mandatory && !on
      ensures old(MandatoryOn(rules) && Agreed(rules)) ==> MandatoryOn(rules) && Agreed(rules)
    {
      hide MandatoryOn, Agreed, At, RowAfter;
      NextKeepsIf(rules, DoTelegramRule(org, rule, on));
      EachRow(rules, DoTelegramRule(org, rule, on));
      var k := Key(rule, Some(org));
      if k !in rules {
        return NoSuchRule;
      }
      if rules[k].mandatory && !on {
        return Mandatory;
      }
      rules := rules[k := rules[k].(enabled := on, updatedBy := Some("agent"))];
      reply := Done;
    }

    method UpdateRule(org: int, rule: string, enabled: Option<bool>, threshold: Option<real>) returns (reply: Reply)
      modifies this`rules
      ensures rules == Next(old(rules), DoMcpUpdate(org, rule, enabled, threshold))
      ensures forall k :: At(rules, k) == RowAfter(old(rules), DoMcpUpdate(org, rule, enabled, threshold), k)
      ensures reply == McpReply(old(rules), org, rule, enabled, threshold)
      ensures old(MandatoryOn(rules) && Agreed(rules)) ==> MandatoryOn(rules) && Agreed(rules)
    {
      hide MandatoryOn, Agreed, At, RowAfter;
      NextKeepsIf(rules, DoMcpUpdate(org, rule, enabled, threshold));
      EachRow(rules, DoMcpUpdate(org, rule, enabled, threshold));
      if enabled.None? && threshold.None? {
        return NothingGiven;
      }
      var k := Key(rule, Some(org));
      if k !in rules {
        return NoSuchRule;
      }
      if rules[k].mandatory && enabled == Some(false) {
        return Mandatory;
      }
      if enabled.Some? {
        rules := rules[k := rules[k].(enabled := enabled.value)];
      }
      if threshold.Some? {
        if !WithinBounds(rules[k], threshold.value) {
          assert rules == McpUpdate(old(rules), org, rule, enabled, threshold);
          return OutOfBounds;
        }
        rules := rules[k := rules[k].(threshold := threshold)];
      }
      reply := Done;
      assert rules == McpUpdate(old(rules), org, rule, enabled, threshold);
    }

    /** One row: left alone when edited by hand, unless forced. */
    method SyncRow(k: Key, template: Rule, force: bool) returns (kept: bool)
      requires k in rules
      modifies this`rules
      ensures kept == (!force && Edited(old(rules)[k]))
      ensures rules == old(rules)[k := if kept then old(rules)[k] else Copied(old(rules)[k], template)]
    {
      kept := !force && Edited(rules[k]);
      if !kept {
        rules := rules[k := Copied(rules[k], template)];
      }
    }

    /** The sync's loop over the rows of one rule. */
    method SyncExisting(g: Key, force: bool) returns (synced: nat, skipped: nat)
      requires g in Templates(rules)
      modifies this`rules
      ensures rules == Partly(old(rules), force, RowsOf(old(rules), {g.rule}))
      ensures synced + skipped == |RowsOf(old(rules), {g.rule})| && skipped == |KeptOf(old(rules), force, {g.rule})|
    {
      hide SyncedRow, Partly, Edited, Copied, RowsOf, OrgRows, Templates, Template, Kept, KeptOf;
      ghost var book := rules;
      synced, skipped := 0, 0;
      RowsOfRule(book, g);
      var template := rules[g];
      var orgRows := set k | k in rules && k.rule == g.rule && k.org.Some?;
      var left := orgRows;
      ghost var done: set<Key> := {};
      NothingDone(book, force);
      while left != {}
        invariant done !! left && done + left == orgRows
        invariant rules == Partly(book, force, done)
        invariant synced + skipped == |done| && skipped == |Kept(book, force, done)|
        decreases |left|
      {
        var k :| k in left;
        OneRowOn(book, force, orgRows, done, left, k);
        left, done := left - {k}, done + {k};
        var kept := SyncRow(k, template, force);
        if kept {
          skipped := skipped + 1;
        } else {
          synced := synced + 1;
        }
      }
      assert done == orgRows;
      KeptOfRule(book, force, g.rule);
    }

    /** The sync's loop over the organisations, given the organisations' rows there were for the rule. */
    method Backfill(g: Key, orgRows: set<Key>) returns (created: nat)
      requires Valid() && g in Templates(rules)
      requires forall org | org in orgIds :: Key(g.rule, Some(org)) in orgRows <==> Key(g.rule, Some(org)) in rules
      modifies this`rules
      ensures rules == With(old(rules), Backfilled(old(rules), g, Orgs()), old(rules)[g].(updatedBy := SYNC_STAMP))
      ensures created == |Backfilled(old(rules), g, Orgs())|
    {
      ghost var book := rules;
      var template := rules[g];
      hide Backfilled, Templates, With, IdSet;
      created := 0;
      NobodyBackfilled(book, g, template.(updatedBy := SYNC_STAMP));
      assert orgIds[..0] == [];
      for i := 0 to |orgIds|
        invariant rules == With(book, Backfilled(book, g, IdSet(orgIds[..i])), template.(updatedBy := SYNC_STAMP))
        invariant created == |Backfilled(book, g, IdSet(orgIds[..i]))|
      {
        var org := orgIds[i];
        var k := Key(g.rule, Some(org));
        IdSetGrows(orgIds, i);
        BackfillNext(book, g, IdSet(orgIds[..i]), org);
        WithOneMore(book, Backfilled(book, g, IdSet(orgIds[..i])), k, template.(updatedBy := SYNC_STAMP));
        if k !in orgRows {
          rules := rules[k := template.(updatedBy := SYNC_STAMP)];
          created := created + 1;
        }
      }
      assert orgIds[..|orgIds|] == orgIds;
    }

    /** One pass of the sync's outer loop: the rows of one rule, then the organisations that lack one. */
    method SyncRule(g: Key, force: bool) returns (synced: nat, skipped: nat, created: nat)
      requires Valid() && g in Templates(rules)
      modifies this`rules
      ensures rules == SyncRules(old(rules), Orgs(), force, {g.rule})
      ensures skipped == |KeptOf(old(rules), force, {g.rule})|
      ensures synced + skipped == |RowsOf(old(rules), {g.rule})| && created == |MissingOf(old(rules), Orgs(), {g.rule})|
    {
      var orgRows := set k | k in rules && k.rule == g.rule && k.org.Some?;
      ghost var book := rules;
      synced, skipped := SyncExisting(g, force);
      assert rules.Keys == book.Keys && rules[g] == book[g];
      assert Backfilled(rules, g, Orgs()) == Backfilled(book, g, Orgs());
      created := Backfill(g, orgRows);
      RowsThenBackfill(book, Orgs(), force, g);
    }

    method SyncAll(force: bool) returns (synced: nat, skipped: nat, created: nat)
      requires Valid()
      modifies this`rules
      ensures rules == Next(old(rules), DoSync(Orgs(), force))
      ensures created == |MissingRows(old(rules), Orgs())| && synced + skipped == |OrgRows(old(rules))|
      ensures skipped == |set k | k in OrgRows(old(rules)) && !force && Edited(old(rules)[k])|
      ensures forall k :: At(rules, k) == Synced(old(rules), Orgs(), force, k)
      ensures old(MandatoryOn(rules) && Agreed(rules)) ==> MandatoryOn(rules) && Agreed(rules)
    {
      hide MandatoryOn, Agreed, SyncRules, RowsOf, KeptOf, MissingOf, Sync, OrgRows, MissingRows, At, Synced;
      NextKeepsIf(rules, DoSync(Orgs(), force));
      ghost var book, orgs := rules, Orgs();
      synced, skipped, created := 0, 0, 0;
      var globals := Templates(rules);
      var left := globals;
      ghost var done: set<string> := {};
      NothingSynced(book, orgs, force);
      while left != {}
        invariant left <= globals
        invariant done == set g | g in globals - left :: g.rule
        invariant rules == SyncRules(book, orgs, force, done)
        invariant synced + skipped == |RowsOf(book, done)| && created == |MissingOf(book, orgs, done)|
        invariant skipped == |KeptOf(book, force, done)|
        decreases |left|
      {
        var g :| g in left;
        assert g.rule !in done;
        left := left - {g};
        NextRule(book, orgs, force, done, g.rule);
        CountNextRule(book, orgs, force, done, g.rule);
        TemplateStays(book, orgs, force, done, g);
        var s, t, c := SyncRule(g, force);
        synced, skipped, created := synced + s, skipped + t, created + c;
        done := done + {g.rule};
      }
      AllRules(book, orgs, force, done);
      forall k ensures At(rules, k) == Synced(book, orgs, force, k) {
        SyncRowByRow(book, orgs, force, k);
      }
    }
  }

  lemma EachRow(book: Book, a: Action)
    ensures forall k :: At(Next(book, a), k) == RowAfter(book, a, k)
  {
    forall k ensures At(Next(book, a), k) == RowAfter(book, a, k) {
      StepRowByRow(book, a, k);
    }
  }

  lemma NextKeepsIf(book: Book, a: Action)
    ensures MandatoryOn(book) && Agreed(book) ==> MandatoryOn(Next(book, a)) && Agreed(Next(book, a))
  {
    if MandatoryOn(book) && Agreed(book) {
      NextKeeps(book, a);
    }
  }

  /** `book` with a row added for each of `keys`. */
  function With(book: Book, keys: set<Key>, row: Rule): Book {
    book + map k | k in keys :: row
  }

  lemma WithOneMore(book: Book, keys: set<Key>, k: Key, row: Rule)
    ensures With(book, keys, row)[k := row] == With(book, keys + {k}, row)
    ensures keys + {} == keys
  {
  }

  function IdSet(ids: seq<int>): set<int> {
    set id | id in ids
  }

  lemma IdSetGrows(ids: seq<int>, i: nat)
    requires i < |ids| && forall j, k | 0 <= j < k < |ids| :: ids[j] != ids[k]
    ensures IdSet(ids[..i + 1]) == IdSet(ids[..i]) + {ids[i]} && ids[i] !in IdSet(ids[..i]) && ids[i] in ids
  {
    assert ids[..i + 1] == ids[..i] + [ids[i]];
  }

  lemma NobodyBackfilled(book: Book, g: Key, row: Rule)
    ensures IdSet([]) == {} && Backfilled(book, g, {}) == {} && With(book, {}, row) == book
  {
  }

  lemma NothingDone(book: Book, force: bool)
    ensures Partly(book, force, {}) == book && Kept(book, force, {}) == {}
  {
  }

  lemma RowsOfRule(book: Book, g: Key)
    requires g in Templates(book)
    ensures g in book
    ensures (set k | k in book && k.rule == g.rule && k.org.Some?) == RowsOf(book, {g.rule})
    ensures forall k: Key | k.rule == g.rule :: Template(k) == g
  {
  }

  /** The rows among `keys` an unforced sync leaves alone. */
  ghost function Kept(book: Book, force: bool, keys: set<Key>): set<Key> {
    set k | k in keys && k in book && !force && Edited(book[k])
  }

  lemma KeptNext(book: Book, force: bool, done: set<Key>, k: Key)
    requires k in book && k !in done
    ensures |Kept(book, force, done + {k})| == |Kept(book, force, done)| + if !force && Edited(book[k]) then 1 else 0
  {
    assert Kept(book, force, done + {k}) ==
      if !force && Edited(book[k]) then Kept(book, force, done) + {k} else Kept(book, force, done);
  }

  lemma KeptOfRule(book: Book, force: bool, rule: string)
    ensures Kept(book, force, RowsOf(book, {rule})) == KeptOf(book, force, {rule})
  {
  }

  lemma OneRowOn(book: Book, force: bool, all: set<Key>, done: set<Key>, left: set<Key>, k: Key)
    requires done !! left && done + left == all && k in left
    requires forall l | l in all :: l in book && l.org.Some? && Template(l) in book
    ensures (done + {k}) !! (left - {k}) && (done + {k}) + (left - {k}) == all && |done + {k}| == |done| + 1
    ensures k in book && k in Partly(book, force, done) && Partly(book, force, done)[k] == book[k]
    ensures Partly(book, force, done + {k}) == Partly(book, force, done)[k := SyncedRow(book, force, k)]
    ensures SyncedRow(book, force, k) == if force || !Edited(book[k]) then Copied(book[k], book[Template(k)])
      else book[k]
    ensures |Kept(book, force, done + {k})| == |Kept(book, force, done)| + if !force && Edited(book[k]) then 1 else 0
  {
    hide Kept, Partly, SyncedRow;
    RowDone(book, force, done, k);
    KeptNext(book, force, done, k);
  }

  /** Handling one more row of a rule that has a template. */
  lemma RowDone(book: Book, force: bool, done: set<Key>, k: Key)
    requires (forall l | l in done :: l in book) && k in book && k !in done && k.org.Some? && Template(k) in book
    ensures k in Partly(book, force, done) && Partly(book, force, done)[k] == book[k]
    ensures Partly(book, force, done + {k}) == Partly(book, force, done)[k := SyncedRow(book, force, k)]
    ensures SyncedRow(book, force, k) == if force || !Edited(book[k]) then Copied(book[k], book[Template(k)])
      else book[k]
  {
  }

  lemma RowsThenBackfill(book: Book, orgs: set<int>, force: bool, g: Key)
    requires g in Templates(book)
    ensures Backfilled(book, g, orgs) == MissingOf(book, orgs, {g.rule})
    ensures SyncRules(book, orgs, force, {g.rule}) ==
      With(Partly(book, force, RowsOf(book, {g.rule})), MissingOf(book, orgs, {g.rule}),
        book[g].(updatedBy := SYNC_STAMP))
  {
    var whole := SyncRules(book, orgs, force, {g.rule});
    var rows := Partly(book, force, RowsOf(book, {g.rule}));
    assert forall k: Key | k.rule == g.rule :: Template(k) == g;
    forall k | k in book ensures whole[k] == rows[k] {
    }
  }

  lemma NothingSynced(book: Book, orgs: set<int>, force: bool)
    ensures SyncRules(book, orgs, force, {}) == book && RowsOf(book, {}) == {} && MissingOf(book, orgs, {}) == {}
    ensures KeptOf(book, force, {}) == {}
  {
  }

  lemma TemplateStays(book: Book, orgs: set<int>, force: bool, done: set<string>, g: Key)
    requires g in Templates(book)
    ensures g in Templates(SyncRules(book, orgs, force, done))
  {
  }

  /** The rows a rule lacks among some organisations. */
  ghost function Backfilled(book: Book, g: Key, orgs: set<int>): (keys: set<Key>)
    ensures forall k | k in keys :: k.rule == g.rule && k !in book
  {
    set org | org in orgs && Key(g.rule, Some(org)) !in book :: Key(g.rule, Some(org))
  }

  lemma BackfillNext(book: Book, g: Key, orgs: set<int>, org: int)
    requires org !in orgs
    ensures Backfilled(book, g, orgs + {org}) ==
      Backfilled(book, g, orgs) + if Key(g.rule, Some(org)) in book then {} else {Key(g.rule, Some(org))}
    ensures Key(g.rule, Some(org)) !in Backfilled(book, g, orgs)
  {
  }
}
