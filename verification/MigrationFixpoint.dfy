/**
  How many runs of the migration it takes for the tables to settle: at most two, and exactly when one will do.
 */
module MigrationFixpoint {
  import opened Common
  import opened Migration

  // ---------------------------------------------------------------- configuration rows

  /** Nothing left to adopt, delete or relabel. */
  ghost predicate Clean(c: Configs, orgs: set<int>) {
    forall k | k in c :: !Orphan(k) && (Within(k, orgs) ==> k.name !in REMOVED && Retouch(k.name, c[k]) == c[k])
  }

  /** Nothing left to seed in these organisations. */
  ghost predicate Filled(c: Configs, orgs: set<int>, names: set<Name>) {
    forall k | Within(k, orgs) && k.name in names :: k in c
  }

  ghost predicate FilledGlobally(c: Configs, names: set<Name>) {
    forall k: CfgKey | k.org == None && k.name in names :: k in c
  }

  ghost predicate SettledConfigs(c: Configs, orgs: set<int>) {
    && Clean(c, orgs)
    && Filled(c, orgs, REQUIRED) && Filled(c, orgs, MULTI_MARKET)
    && FilledGlobally(c, GLOBAL_SEEDS) && FilledGlobally(c, {mcp_base_url})
    && forall k | k in c :: !LocalUrl(k)
  }

  /** How the key lists of the steps lie to each other. */
  lemma NameLists(n: Name)
    ensures n in REQUIRED || n in MULTI_MARKET ==> n !in REMOVED && n != mcp_base_url
    ensures n in GLOBAL_SEEDS || n == mcp_base_url ==> n in GLOBAL
  {
  }

  lemma ListsApart()
    ensures REQUIRED !! REMOVED && MULTI_MARKET !! REMOVED
    ensures GLOBAL_SEEDS <= GLOBAL && mcp_base_url in GLOBAL && mcp_base_url !in REQUIRED + MULTI_MARKET
  {
    hide REQUIRED, MULTI_MARKET, REMOVED, GLOBAL, GLOBAL_SEEDS;
    forall n: Name
      ensures n in REQUIRED || n in MULTI_MARKET ==> n !in REMOVED && n != mcp_base_url
      ensures n in GLOBAL_SEEDS || n == mcp_base_url ==> n in GLOBAL
    {
      NameLists(n);
    }
  }

  lemma MarketSeedsSettled(n: Name)
    requires n in MULTI_MARKET
    ensures Retouch(n, Default(n)) == Default(n)
  {
    hide Default;
  }

  lemma RetouchTwice(n: Name, r: Cfg)
    ensures Retouch(n, Retouch(n, r)) == Retouch(n, r)
  {
  }

  lemma NotOrphan(k: CfgKey)
    ensures k.org.Some? || k.name in GLOBAL ==> !Orphan(k)
  {
  }

  lemma AdoptNothing(c: Configs, home: int)
    requires forall k | k in c :: !Orphan(k)
    ensures Adopt(c, home) == c && !Collides(c, home)
  {
    hide Orphan;
    assert Adopted(c, home) == {};
  }

  lemma SeedNothing(c: Configs, orgs: set<int>, names: set<Name>)
    requires Filled(c, orgs, names)
    ensures Seed(c, orgs, names) == c
  {
    hide Default;
    forall k | k in Needed(orgs, names) ensures k in c {
      KeyNeeded(k, orgs, names);
    }
  }

  lemma SettledConfigsStay(c: Configs, home: int, orgs: set<int>)
    requires SettledConfigs(c, orgs)
    ensures !Collides(c, home) && ConfigsForLabels(c, home, orgs) == c && ConfigsAfter(c, home, orgs) == c
  {
    hide Adopt, Seed, Default, Retouch, Collides, Filled, REQUIRED, MULTI_MARKET, REMOVED;
    AdoptNothing(c, home);
    SeedNothing(c, orgs, REQUIRED);
    assert Tidy(c, orgs) == c;
    assert SeedGlobal(c, GLOBAL_SEEDS) == c;
    SeedNothing(c, orgs, MULTI_MARKET);
    assert (map k | k in c && !LocalUrl(k) :: c[k]) == c;
    assert SeedGlobal(c, {mcp_base_url}) == c;
  }

  lemma SeedFills(c: Configs, orgs: set<int>, names: set<Name>)
    ensures Filled(Seed(c, orgs, names), orgs, names)
    ensures forall k :: k in Seed(c, orgs, names) <==> k in c || (Within(k, orgs) && k.name in names)
  {
    forall k ensures k in Needed(orgs, names) <==> Within(k, orgs) && k.name in names {
      KeyNeeded(k, orgs, names);
    }
  }

  lemma AdoptsAll(c: Configs, home: int)
    ensures forall k | k in Adopt(c, home) :: !Orphan(k)
  {
  }

  /** The rows the labels step finds. */
  lemma ReadyForLabels(c: Configs, home: int, orgs: set<int>)
    requires home in orgs
    ensures var d := ConfigsForLabels(c, home, orgs); Clean(d, orgs) && Filled(d, orgs, REQUIRED)
  {
    hide Retouch, Default, Orphan, REQUIRED, REMOVED, GLOBAL, Adopt, Seed;
    var a := Adopt(c, home);
    AdoptsAll(c, home);
    ListsApart();
    SeedFills(a, orgs, REQUIRED);
    var s := Seed(a, orgs, REQUIRED);
    forall k | k in s ensures !Orphan(k) {
      NotOrphan(k);
    }
    forall n, r ensures Retouch(n, Retouch(n, r)) == Retouch(n, r) {
      RetouchTwice(n, r);
    }
  }

  lemma SeedKeepsClean(c: Configs, orgs: set<int>, names: set<Name>)
    requires Clean(c, orgs) && names !! REMOVED && forall n | n in names :: Retouch(n, Default(n)) == Default(n)
    ensures Clean(Seed(c, orgs, names), orgs)
  {
    hide Retouch, Default, Orphan, REMOVED, Seed;
    SeedFills(c, orgs, names);
    var s := Seed(c, orgs, names);
    forall k | k in s
      ensures !Orphan(k) && (Within(k, orgs) ==> k.name !in REMOVED && Retouch(k.name, s[k]) == s[k])
    {
      NotOrphan(k);
      SeededRow(c, orgs, names, k);
    }
  }

  lemma SeededRow(c: Configs, orgs: set<int>, names: set<Name>, k: CfgKey)
    requires k in Seed(c, orgs, names)
    ensures Seed(c, orgs, names)[k] == if k in c then c[k] else Default(k.name)
  {
    hide Default;
  }

  lemma SeedGlobalKeepsClean(c: Configs, orgs: set<int>, names: set<Name>)
    requires Clean(c, orgs) && names <= GLOBAL
    ensures var s := SeedGlobal(c, names);
      Clean(s, orgs) && FilledGlobally(s, names) && c.Keys <= s.Keys && forall k | k in s && k !in c :: k.org == None
  {
    hide Retouch, Default, Orphan, REMOVED, GLOBAL;
    forall k: CfgKey ensures k.org.Some? || k.name in GLOBAL ==> !Orphan(k) {
      NotOrphan(k);
    }
  }

  /** One run settles the configuration rows. */
  lemma ConfigsSettle(c: Configs, home: int, orgs: set<int>)
    requires home in orgs
    ensures SettledConfigs(ConfigsAfter(c, home, orgs), orgs)
  {
    hide ConfigsForLabels, Retouch, Default, Orphan, REQUIRED, MULTI_MARKET, REMOVED, GLOBAL, Seed, SeedGlobal,
      GLOBAL_SEEDS, Clean;
    var d := ConfigsForLabels(c, home, orgs);
    ReadyForLabels(c, home, orgs);
    forall n | n in MULTI_MARKET ensures Retouch(n, Default(n)) == Default(n) {
      MarketSeedsSettled(n);
    }
    ListsApart();
    var e := SeedGlobal(d, GLOBAL_SEEDS);
    SeedGlobalKeepsClean(d, orgs, GLOBAL_SEEDS);
    var f := Seed(e, orgs, MULTI_MARKET);
    SeedKeepsClean(e, orgs, MULTI_MARKET);
    SeedFills(e, orgs, MULTI_MARKET);
    var g := map k | k in f && !LocalUrl(k) :: f[k];
    assert Clean(g, orgs) by { SubClean(f, g, orgs); }
    SeedGlobalKeepsClean(g, orgs, {mcp_base_url});
  }

  lemma SubClean(c: Configs, d: Configs, orgs: set<int>)
    requires Clean(c, orgs) && d.Keys <= c.Keys && forall k | k in d :: d[k] == c[k]
    ensures Clean(d, orgs)
  {
    hide Retouch, Orphan, REMOVED;
  }

  // ---------------------------------------------------------------- rule rows

  /** No update has anything left to change in the row. */
  ghost predicate Fixed(id: RuleId, r: Rule) {
    ByAssetType(id, r) == r && RaiseRsFloor(id, r) == r && RelabelTarget(id, r) == r && TightenPosition(id, r) == r
  }

  lemma UpdatesFix(id: RuleId, r: Rule)
    ensures Fixed(id, TightenPosition(id, RelabelTarget(id, RaiseRsFloor(id, ByAssetType(id, r)))))
  {
  }

  lemma NewRulesFixed(id: RuleId)
    requires id in BEAR_RULES + TUNE_UP_RULES + BREAKOUT_RULES
    ensures Fixed(id, NewRule(id))
  {
    hide NewRule;
  }

  ghost predicate AllFixed(rules: Rules) {
    forall k | k in rules :: Fixed(k.id, rules[k])
  }

  ghost predicate Seeded(rules: Rules, orgs: set<int>, ids: set<RuleId>) {
    forall k: RuleKey | Covers(k, ids, orgs) :: k in rules
  }

  ghost predicate SettledRules(rules: Rules, orgs: set<int>, active: set<int>) {
    && AllFixed(rules)
    && Seeded(rules, active, BEAR_RULES) && Seeded(rules, orgs, TUNE_UP_RULES) && Seeded(rules, orgs, BREAKOUT_RULES)
  }

  lemma SeedRulesNothing(rules: Rules, orgs: set<int>, ids: set<RuleId>)
    requires Seeded(rules, orgs, ids)
    ensures SeedRules(rules, orgs, ids) == rules
  {
    hide NewRule, RuleKeys, Covers;
    forall k | k in RuleKeys(ids, orgs) ensures k in rules {
      KeyCovered(k, ids, orgs);
    }
  }

  lemma SettledRulesStay(rules: Rules, orgs: set<int>, active: set<int>)
    requires SettledRules(rules, orgs, active)
    ensures RulesAfter(rules, orgs, active) == rules
  {
    hide NewRule, ByAssetType, RaiseRsFloor, RelabelTarget, TightenPosition, SeedRules, CloneRules;
    CloneNothing(rules, orgs);
    assert Updated(rules, ByAssetType) == rules;
    SeedRulesNothing(rules, active, BEAR_RULES);
    assert Updated(rules, RaiseRsFloor) == rules;
    SeedRulesNothing(rules, orgs, TUNE_UP_RULES);
    assert Updated(rules, RelabelTarget) == rules;
    assert Updated(rules, TightenPosition) == rules;
    SeedRulesNothing(rules, orgs, BREAKOUT_RULES);
  }

  lemma CloneNothing(rules: Rules, orgs: set<int>)
    requires Seeded(rules, orgs, TUNE_UP_RULES)
    ensures CloneRules(rules, orgs) == rules
  {
    forall org | org in orgs ensures HasRules(rules, Some(org)) {
      assert Covers(RuleKey(equity_stop_width_max_pct, Some(org)), TUNE_UP_RULES, orgs);
    }
    assert CloneKeys(rules, orgs) == {};
  }

  lemma SeedRulesRow(rules: Rules, orgs: set<int>, ids: set<RuleId>, k: RuleKey)
    ensures var s := SeedRules(rules, orgs, ids);
      (k in s <==> k in rules || Covers(k, ids, orgs)) &&
        (k in s ==> s[k] == if k in rules then rules[k] else NewRule(k.id))
  {
    hide NewRule, Covers, RuleKeys;
    KeyCovered(k, ids, orgs);
  }

  /** What one run makes of one row: an old row is updated, a new one arrives in its final form. */
  lemma RowAfter(rules: Rules, orgs: set<int>, active: set<int>, k: RuleKey)
    ensures var cloned, after := CloneRules(rules, orgs), RulesAfter(rules, orgs, active);
      && (k in cloned && k in after ==>
            after[k] == TightenPosition(k.id, RelabelTarget(k.id, RaiseRsFloor(k.id, ByAssetType(k.id, cloned[k])))))
      && (k !in cloned && k in after ==> after[k] == NewRule(k.id))
  {
    hide NewRule, ByAssetType, RaiseRsFloor, RelabelTarget, TightenPosition, SeedRules, CloneRules, Covers;
    var typed := Updated(CloneRules(rules, orgs), ByAssetType);
    var bear := SeedRules(typed, active, BEAR_RULES);
    var raised := Updated(bear, RaiseRsFloor);
    var tuned := SeedRules(raised, orgs, TUNE_UP_RULES);
    var tightened := Updated(Updated(tuned, RelabelTarget), TightenPosition);
    SeedRulesRow(typed, active, BEAR_RULES, k);
    SeedRulesRow(raised, orgs, TUNE_UP_RULES, k);
    SeedRulesRow(tightened, orgs, BREAKOUT_RULES, k);
    if k !in typed && k in RulesAfter(rules, orgs, active) {
      CoversId(k, active, BEAR_RULES);
      CoversId(k, orgs, TUNE_UP_RULES);
      CoversId(k, orgs, BREAKOUT_RULES);
      NewRulesFixed(k.id);
    }
  }

  lemma CoversId(k: RuleKey, orgs: set<int>, ids: set<RuleId>)
    ensures Covers(k, ids, orgs) ==> k.id in ids
  {
  }

  /** One run settles the rule rows. */
  lemma RulesSettle(rules: Rules, orgs: set<int>, active: set<int>)
    ensures SettledRules(RulesAfter(rules, orgs, active), orgs, active)
  {
    hide NewRule, ByAssetType, RaiseRsFloor, RelabelTarget, TightenPosition, SeedRules, CloneRules, Covers;
    var typed := Updated(CloneRules(rules, orgs), ByAssetType);
    var bear := SeedRules(typed, active, BEAR_RULES);
    var raised := Updated(bear, RaiseRsFloor);
    var tuned := SeedRules(raised, orgs, TUNE_UP_RULES);
    var tightened := Updated(Updated(tuned, RelabelTarget), TightenPosition);
    var after := RulesAfter(rules, orgs, active);
    forall k: RuleKey
      ensures Covers(k, BEAR_RULES, active) || Covers(k, TUNE_UP_RULES, orgs) || Covers(k, BREAKOUT_RULES, orgs) ==>
        k in after
      ensures k in after ==> Fixed(k.id, after[k])
    {
      SeedRulesRow(typed, active, BEAR_RULES, k);
      SeedRulesRow(raised, orgs, TUNE_UP_RULES, k);
      SeedRulesRow(tightened, orgs, BREAKOUT_RULES, k);
      RowFixed(rules, orgs, active, k);
    }
  }

  lemma RowFixed(rules: Rules, orgs: set<int>, active: set<int>, k: RuleKey)
    ensures k in RulesAfter(rules, orgs, active) ==> Fixed(k.id, RulesAfter(rules, orgs, active)[k])
  {
    hide NewRule, ByAssetType, RaiseRsFloor, RelabelTarget, TightenPosition, SeedRules, CloneRules, Covers, Fixed;
    RowAfter(rules, orgs, active, k);
    var cloned := CloneRules(rules, orgs);
    if k in cloned {
      UpdatesFix(k.id, cloned[k]);
    } else if k in RulesAfter(rules, orgs, active) {
      NewKey(rules, orgs, active, k);
      NewRulesFixed(k.id);
    }
  }

  lemma NewKey(rules: Rules, orgs: set<int>, active: set<int>, k: RuleKey)
    ensures k in RulesAfter(rules, orgs, active) && k !in CloneRules(rules, orgs) ==>
      k.id in BEAR_RULES + TUNE_UP_RULES + BREAKOUT_RULES
  {
    hide NewRule, ByAssetType, RaiseRsFloor, RelabelTarget, TightenPosition, SeedRules, CloneRules;
    var typed := Updated(CloneRules(rules, orgs), ByAssetType);
    var bear := SeedRules(typed, active, BEAR_RULES);
    var raised := Updated(bear, RaiseRsFloor);
    var tuned := SeedRules(raised, orgs, TUNE_UP_RULES);
    SeedRulesRow(typed, active, BEAR_RULES, k);
    SeedRulesRow(raised, orgs, TUNE_UP_RULES, k);
    SeedRulesRow(Updated(Updated(tuned, RelabelTarget), TightenPosition), orgs, BREAKOUT_RULES, k);
  }

  // ---------------------------------------------------------------- labels

  /** With the same configuration rows, seeding labels again adds none. */
  lemma LabelsTwice(labels: set<(int, string)>, c: Configs, orgs: set<int>)
    ensures var once := LabelsAfter(labels, c, orgs); LabelsAfter(once, c, orgs) == once
  {
    hide ActiveExchanges, TradesCrypto, ASX_LABELS, CRYPTO_LABELS;
    var once := LabelsAfter(labels, c, orgs);
    forall org, name | org in orgs && name in LabelsFor(once, c, org) ensures (org, name) in once {
      HasLabelsAfter(labels, c, orgs, org);
      assert name in LabelsFor(labels, c, org);
      assert (org, name) in NewLabels(labels, c, orgs);
    }
  }

  lemma HasLabelsAfter(labels: set<(int, string)>, c: Configs, orgs: set<int>, org: int)
    requires org in orgs
    ensures HasLabels(LabelsAfter(labels, c, orgs), org)
  {
    hide ActiveExchanges, TradesCrypto, ASX_LABELS, CRYPTO_LABELS;
    if !HasLabels(labels, org) {
      assert "Favourites" in LabelsFor(labels, c, org);
      assert (org, "Favourites") in NewLabels(labels, c, orgs);
    } else {
      var l :| l in labels && l.0 == org;
      assert l in LabelsAfter(labels, c, orgs);
    }
  }

  // ---------------------------------------------------------------- at most two runs

  /** Everything but the memberships and the labels is where another run leaves it. */
  ghost predicate Settled(db: Db) {
    && Sound(db) && HasDefaultOrg(db.orgs) && HasAdmin(db.users)
    && (forall row | row in db.owned :: db.owned[row].Some?)
    && SettledConfigs(db.configs, db.orgs.Keys)
    && SettledRules(db.rules, db.orgs.Keys, Active(db.orgs))
  }

  /** One run settles all but the memberships and the labels. */
  lemma RunSettles(db: Db)
    requires Sound(db)
    ensures Migrate(db).Completed? ==> Settled(Migrate(db).db)
  {
    hide ConfigsAfter, ConfigsForLabels, RulesAfter, LabelsAfter, SettledConfigs, SettledRules, Collides, Founded,
      Serial, Active;
    var founded := Founded(db);
    var home, orgs := DefaultOrgId(founded.orgs), founded.orgs.Keys;
    ConfigsSettle(db.configs, home, orgs);
    RulesSettle(db.rules, orgs, Active(founded.orgs));
    assert HasAdmin(WithAdmin(founded, home).users) by {
      if !HasAdmin(founded.users) {
        assert WithAdmin(founded, home).users[founded.nextUser].email == ADMIN_EMAIL;
      }
    }
  }

  lemma HandOverNothing(owned: map<int, Option<int>>, home: int)
    requires forall row | row in owned :: owned[row].Some?
    ensures HandOver(owned, home) == owned
  {
    var after := HandOver(owned, home);
    assert after.Keys == owned.Keys;
    assert forall row | row in owned :: after[row] == owned[row];
  }

  /** A further run touches only memberships and labels, and it meets no collision. */
  lemma FurtherRun(db: Db)
    requires Settled(db)
    ensures Migrate(db) == Completed(db.(
      memberships := Backfill(db.memberships, db.users),
      labels := LabelsAfter(db.labels, db.configs, db.orgs.Keys)))
  {
    hide ConfigsAfter, ConfigsForLabels, RulesAfter, LabelsAfter, SettledConfigs, SettledRules, Collides, Backfill,
      Active, Serial;
    SettledConfigsStay(db.configs, DefaultOrgId(db.orgs), db.orgs.Keys);
    SettledRulesStay(db.rules, db.orgs.Keys, Active(db.orgs));
    HandOverNothing(db.owned, DefaultOrgId(db.orgs));
  }

  lemma BackfillTwice(memberships: map<(int, int), bool>, users: map<int, User>)
    ensures Backfill(Backfill(memberships, users), users) == Backfill(memberships, users)
  {
  }

  /** A collision is not cured by running again: the run stops at the same place with the same tables. */
  lemma CollisionsStay(db: Db)
    requires Sound(db)
    ensures Migrate(db).Collided? ==> Migrate(Migrate(db).db) == Migrate(db)
  {
    hide ConfigsAfter, ConfigsForLabels, RulesAfter, LabelsAfter, Collides, Backfill, Active, Sound;
    BackfillTwice(db.memberships, db.users);
  }

  /** From any start, a third run ends as the second did. */
  lemma TwoRunsSuffice(db: Db)
    requires Sound(db)
    ensures var second := Migrate(Migrate(db).db); Migrate(second.db) == second
  {
    hide LabelsAfter, SettledConfigs, SettledRules, Backfill, Active, Migrate;
    if Migrate(db).Collided? {
      CollisionsStay(db);
    } else {
      var once := Migrate(db).db;
      RunSettles(db);
      FurtherRun(once);
      var twice := Migrate(once).db;
      assert Settled(twice);
      FurtherRun(twice);
      BackfillTwice(once.memberships, once.users);
      LabelsTwice(once.labels, once.configs, once.orgs.Keys);
    }
  }

  // ---------------------------------------------------------------- when one run will do

  /** The backfill of the second run has something to do exactly when the first one created the administrator. */
  lemma MembershipsSettle(db: Db)
    requires Sound(db)
    ensures var once := Migrate(db).db; Migrate(db).Completed? ==>
      (Backfill(once.memberships, once.users) == once.memberships <==> HasAdmin(db.users))
  {
    hide ConfigsAfter, ConfigsForLabels, RulesAfter, LabelsAfter, Collides, Active, HandOver;
    BackfillTwice(db.memberships, db.users);
    var once := Migrate(db).db;
    if Migrate(db).Completed? && !HasAdmin(db.users) {
      var home := DefaultOrgId(Founded(db).orgs);
      assert once.users[db.nextUser] == User(ADMIN_EMAIL, home);
      assert (db.nextUser, home) in HomeMemberships(once.users);
      assert (db.nextUser, home) !in once.memberships;
    }
  }

  lemma {:induction false} SplitWhole(x: string)
    requires ',' !in x
    ensures Split(x) == [x]
  {
    if x != "" {
      SplitWhole(x[1..]);
      assert [x[0]] + x[1..] == x;
    }
  }

  lemma {:induction false} SplitAtComma(x: string, y: string)
    requires ',' !in x
    ensures Split(x + [','] + y) == [x] + Split(y)
  {
    var text := x + [','] + y;
    if x == "" {
      assert text[1..] == y;
    } else {
      assert text[1..] == x[1..] + [','] + y;
      SplitAtComma(x[1..], y);
      assert [x[0]] + x[1..] == x;
      assert ([x[1..]] + Split(y))[1..] == Split(y);
    }
  }

  lemma Joined(value: string, asx: string, crypto: string)
    requires value == "ASX,CRYPTO_INDEPENDENTRESERVE" && asx == "ASX" && crypto == "CRYPTO_INDEPENDENTRESERVE"
    ensures value == asx + [','] + crypto
  {
    assert |value| == |asx + [','] + crypto|;
  }

  lemma SeededValue()
    ensures Default(active_exchanges).value == "ASX,CRYPTO_INDEPENDENTRESERVE"
  {
  }

  /** The exchanges every new organisation gets: the Australian one and one for crypto. */
  lemma SeededExchanges()
    ensures Split(Default(active_exchanges).value) == ["ASX", "CRYPTO_INDEPENDENTRESERVE"]
  {
    hide Split, Default;
    var asx, crypto := "ASX", "CRYPTO_INDEPENDENTRESERVE";
    assert ',' !in asx && ',' !in crypto;
    SplitAtComma(asx, crypto);
    SplitWhole(crypto);
    SeededValue();
    Joined(Default(active_exchanges).value, asx, crypto);
  }

  /** The labels an organisation that trades on both exchanges gets. */
  function MarketLabels(): set<string> { ASX_LABELS + CRYPTO_LABELS }

  lemma SeededLabels(labels: set<(int, string)>, c: Configs, org: int)
    requires CfgKey(active_exchanges, Some(org)) in c &&
      c[CfgKey(active_exchanges, Some(org))].value == Default(active_exchanges).value
    requires HasLabels(labels, org)
    ensures LabelsFor(labels, c, org) == MarketLabels()
  {
    hide Split, Default, ASX_LABELS, CRYPTO_LABELS, HasLabels, Strip;
    SeededExchanges();
    var active := ActiveExchanges(c, org);
    assert active[0] == "ASX" && active[1] == "CRYPTO_INDEPENDENTRESERVE";
    StripNothing(active[1]);
    assert "CRYPTO_" <= Strip(active[1]);
  }

  lemma StripNothing(x: string)
    requires x != "" && x[0] == 'C'
    ensures Strip(x) == x
  {
  }

  lemma NoExchanges(labels: set<(int, string)>, c: Configs, org: int)
    requires CfgKey(active_exchanges, Some(org)) !in c
    ensures LabelsFor(labels, c, org) <= DEFAULT_LABELS
  {
    hide ASX_LABELS, CRYPTO_LABELS, HasLabels, DEFAULT_LABELS;
    assert ActiveExchanges(c, org) == [""];
  }

  lemma LabelListsApart(name: string)
    requires name in DEFAULT_LABELS
    ensures name !in MarketLabels()
  {
  }

  /** The organisation's list of exchanges was there before the run, or came to it from no organisation. */
  predicate HadExchanges(c: Configs, home: int, org: int) {
    CfgKey(active_exchanges, Some(org)) in c || (org == home && CfgKey(active_exchanges, None) in c)
  }

  lemma ExchangesListed()
    ensures active_exchanges in MULTI_MARKET && active_exchanges !in REQUIRED + REMOVED + GLOBAL
  {
  }

  /** The labels step finds an organisation's list of exchanges only if it was there before the run. */
  lemma ExchangesForLabels(c: Configs, home: int, orgs: set<int>, k: CfgKey)
    requires home in orgs && Within(k, orgs) && k.name == active_exchanges
    ensures k in ConfigsForLabels(c, home, orgs) <==> HadExchanges(c, home, k.org.value)
  {
    hide Default, Retouch, Seed, REQUIRED, REMOVED, GLOBAL;
    ExchangesListed();
    var a := Adopt(c, home);
    SeedFills(a, orgs, REQUIRED);
    assert Orphan(CfgKey(active_exchanges, None));
    if k.org.value == home && CfgKey(active_exchanges, None) in c {
      assert k in Adopted(c, home);
    }
  }

  /** The later steps keep the list of exchanges, or make the default one. */
  lemma ExchangesAfter(c: Configs, home: int, orgs: set<int>, k: CfgKey)
    requires Within(k, orgs) && k.name == active_exchanges
    ensures var d, e := ConfigsForLabels(c, home, orgs), ConfigsAfter(c, home, orgs);
      k in e && e[k] == if k in d then d[k] else Default(active_exchanges)
  {
    hide ConfigsForLabels, Default, Seed, MULTI_MARKET;
    var d := SeedGlobal(ConfigsForLabels(c, home, orgs), GLOBAL_SEEDS);
    SeedFills(d, orgs, MULTI_MARKET);
    ExchangesListed();
    SeededRow(d, orgs, MULTI_MARKET, k);
  }

  /** An organisation's second run has labels to add exactly when it had no list of exchanges and lacks some. */
  lemma OrgLabelsSettle(l: set<(int, string)>, c: Configs, home: int, orgs: set<int>, org: int)
    requires home in orgs && org in orgs
    ensures var once := LabelsAfter(l, ConfigsForLabels(c, home, orgs), orgs);
      (forall name | name in LabelsFor(once, ConfigsAfter(c, home, orgs), org) :: (org, name) in once)
      <==> HadExchanges(c, home, org) || forall name | name in MarketLabels() :: (org, name) in l
  {
    hide ConfigsForLabels, ConfigsAfter, HadExchanges, Default, DEFAULT_LABELS, MarketLabels, LabelsFor, LabelsAfter;
    var k := CfgKey(active_exchanges, Some(org));
    var d, e := ConfigsForLabels(c, home, orgs), ConfigsAfter(c, home, orgs);
    var once := LabelsAfter(l, d, orgs);
    ExchangesForLabels(c, home, orgs, k);
    ExchangesAfter(c, home, orgs, k);
    HasLabelsAfter(l, d, orgs, org);
    if k in d {
      SameExchanges(l, d, e, orgs, org);
    } else {
      SeededLabels(once, e, org);
      forall name | name in MarketLabels() ensures (org, name) in once <==> (org, name) in l {
        NoMarketLabelsYet(l, d, orgs, org, name);
      }
    }
  }

  lemma SameExchanges(l: set<(int, string)>, d: Configs, e: Configs, orgs: set<int>, org: int)
    requires org in orgs
    requires var k := CfgKey(active_exchanges, Some(org)); k in d && k in e && d[k] == e[k]
    ensures var once := LabelsAfter(l, d, orgs); forall name | name in LabelsFor(once, e, org) :: (org, name) in once
  {
    hide Split, ASX_LABELS, CRYPTO_LABELS, DEFAULT_LABELS, HasLabels;
    var once := LabelsAfter(l, d, orgs);
    HasLabelsAfter(l, d, orgs, org);
    assert ActiveExchanges(d, org) == ActiveExchanges(e, org);
    forall name | name in LabelsFor(once, e, org) ensures (org, name) in once {
      assert name in LabelsFor(l, d, org);
      assert (org, name) in NewLabels(l, d, orgs);
    }
  }

  lemma NoMarketLabelsYet(l: set<(int, string)>, d: Configs, orgs: set<int>, org: int, name: string)
    requires CfgKey(active_exchanges, Some(org)) !in d && name in MarketLabels()
    ensures (org, name) in LabelsAfter(l, d, orgs) <==> (org, name) in l
  {
    hide MarketLabels, LabelsFor, DEFAULT_LABELS;
    NoExchanges(l, d, org);
    if name in LabelsFor(l, d, org) {
      LabelListsApart(name);
    }
  }

  /**
    One run is enough exactly when the administrator existed and every organisation had its list of
    exchanges or all the labels the seeded list asks for.
   */
  lemma OneRunSuffices(db: Db)
    requires Sound(db)
    ensures var once, founded := Migrate(db).db, Founded(db);
      Migrate(db).Completed? ==> (Migrate(once) == Completed(once) <==>
        HasAdmin(db.users) && forall org | org in founded.orgs ::
          HadExchanges(db.configs, DefaultOrgId(founded.orgs), org) || forall name | name in MarketLabels() ::
            (org, name) in db.labels)
  {
    hide ConfigsForLabels, ConfigsAfter, RulesAfter, LabelsFor, HadExchanges, MarketLabels, Collides, Backfill,
      Active, HandOver, SettledConfigs, SettledRules, HasAdmin;
    var once, founded := Migrate(db).db, Founded(db);
    var home, orgs := DefaultOrgId(founded.orgs), founded.orgs.Keys;
    if Migrate(db).Collided? {
      return;
    }
    RunSettles(db);
    FurtherRun(once);
    MembershipsSettle(db);
    forall org | org in orgs
      ensures (forall name | name in LabelsFor(once.labels, once.configs, org) :: (org, name) in once.labels)
        <==> HadExchanges(db.configs, home, org) || forall name | name in MarketLabels() :: (org, name) in db.labels
    {
      OrgLabelsSettle(db.labels, db.configs, home, orgs, org);
    }
    assert LabelsAfter(once.labels, once.configs, orgs) == once.labels <==>
      forall org | org in orgs :: forall name | name in LabelsFor(once.labels, once.configs, org) ::
        (org, name) in once.labels;
  }

  /** An empty database is a start for which one run is not enough. */
  lemma EmptyStartNeedsTwo()
    ensures var db := Db(map[], 1, map[], 1, map[], map[], map[], {}, map[]);
      Sound(db) && Migrate(db).Completed? && Migrate(Migrate(db).db) != Completed(Migrate(db).db)
  {
    hide ConfigsForLabels, ConfigsAfter, RulesAfter, LabelsAfter, Backfill, Active, HandOver, HadExchanges,
      MarketLabels;
    var db := Db(map[], 1, map[], 1, map[], map[], map[], {}, map[]);
    var home := DefaultOrgId(Founded(db).orgs);
    assert Adopted(db.configs, home) == {};
    OneRunSuffices(db);
  }
}
