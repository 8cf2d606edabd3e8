/**
  What a run of the migration leaves alone: the values tenants have set.
 */
module MigrationKeeps {
  import opened Common
  import opened Migration
  import MigrationFixpoint

  /** Neither handed over nor deleted. */
  predicate Stays(k: CfgKey, orgs: set<int>) {
    !Orphan(k) && !(Within(k, orgs) && k.name in REMOVED) && !LocalUrl(k)
  }

  lemma RetouchKeepsValue(n: Name, r: Cfg)
    ensures Retouch(n, r).value == r.value
  {
  }

  lemma TidyRow(c: Configs, orgs: set<int>, k: CfgKey)
    requires k in c
    ensures k in Tidy(c, orgs) <==> !(Within(k, orgs) && k.name in REMOVED)
    ensures k in Tidy(c, orgs) ==> Tidy(c, orgs)[k].value == c[k].value
  {
    hide REMOVED, Retouch;
    RetouchKeepsValue(k.name, c[k]);
  }

  lemma SeedRow(c: Configs, orgs: set<int>, names: set<Name>, k: CfgKey)
    ensures var s := Seed(c, orgs, names);
      (k in s <==> k in c || (Within(k, orgs) && k.name in names)) &&
        (k in s ==> s[k] == if k in c then c[k] else Default(k.name))
  {
    hide Default;
    KeyNeeded(k, orgs, names);
  }

  lemma SeedGlobalRow(c: Configs, names: set<Name>, k: CfgKey)
    ensures var s := SeedGlobal(c, names);
      (k in s <==> k in c || (k.org == None && k.name in names)) &&
        (k in s ==> s[k] == if k in c then c[k] else Default(k.name))
  {
    hide Default;
  }

  predicate Wanted(k: CfgKey, orgs: set<int>) {
    if k.org.Some? then k.org.value in orgs && k.name in REQUIRED + MULTI_MARKET
    else k.name in GLOBAL_SEEDS + {mcp_base_url}
  }

  /** A row past the hand-over stays with its value unless it is retired; any other row is a seed. */
  lemma ValueAfter(c: Configs, home: int, orgs: set<int>, k: CfgKey)
    ensures var a, d := Adopt(c, home), ConfigsAfter(c, home, orgs);
      && (k in d <==> if k in a then Stays(k, orgs) else Wanted(k, orgs))
      && (k in d ==> d[k].value == if k in a then a[k].value else Default(k.name).value)
  {
    hide Adopt, Seed, Tidy, SeedGlobal, Default, Orphan, REQUIRED, MULTI_MARKET, REMOVED, GLOBAL, GLOBAL_SEEDS;
    MigrationFixpoint.NameLists(k.name);
    MigrationFixpoint.AdoptsAll(c, home);
    var a := Adopt(c, home);
    var s := Seed(a, orgs, REQUIRED);
    SeedRow(a, orgs, REQUIRED, k);
    if k in s {
      TidyRow(s, orgs, k);
    }
    assert Tidy(s, orgs).Keys <= s.Keys by { TidyKeys(s, orgs); }
    var g := SeedGlobal(Tidy(s, orgs), GLOBAL_SEEDS);
    SeedGlobalRow(Tidy(s, orgs), GLOBAL_SEEDS, k);
    var m := Seed(g, orgs, MULTI_MARKET);
    SeedRow(g, orgs, MULTI_MARKET, k);
    SeedGlobalRow(map k | k in m && !LocalUrl(k) :: m[k], {mcp_base_url}, k);
    RetiredIsNotSeeded(k.name);
  }

  lemma RetiredIsNotSeeded(n: Name)
    ensures n in GLOBAL_SEEDS || n == mcp_base_url ==> n !in REMOVED
  {
  }

  lemma TidyKeys(c: Configs, orgs: set<int>)
    ensures Tidy(c, orgs).Keys <= c.Keys
  {
    hide REMOVED, Retouch;
  }

  /** Where a row is found after a run that meets no collision, and with what value. */
  lemma ValuesKept(c: Configs, home: int, orgs: set<int>, k: CfgKey)
    requires k in c && !Collides(c, home)
    ensures var to, d := if Orphan(k) then CfgKey(k.name, Some(home)) else k, ConfigsAfter(c, home, orgs);
      (to in d <==> Stays(to, orgs)) && (to in d ==> d[to].value == c[k].value)
  {
    hide ConfigsAfter, Stays, Wanted, Default;
    var to := if Orphan(k) then CfgKey(k.name, Some(home)) else k;
    if Orphan(k) {
      assert to in Adopted(c, home);
      assert to !in Adopted(c, home) * c.Keys;
    }
    assert !Orphan(to);
    ValueAfter(c, home, orgs, to);
  }

  lemma BackfillAdds(memberships: map<(int, int), bool>, users: map<int, User>)
    ensures var after := Backfill(memberships, users);
      && (forall m | m in memberships :: m in after && after[m] == memberships[m])
      && (forall m | m in after && m !in memberships :: after[m] && m.0 in users && m.1 == users[m.0].org)
      && (forall id | id in users :: (id, users[id].org) in after)
  {
    forall id | id in users ensures (id, users[id].org) in Backfill(memberships, users) {
      assert (id, users[id].org) in HomeMemberships(users);
    }
  }

  /** Memberships are only added, as default ones of a user's home, until every user has that one. */
  lemma MembershipsKept(db: Db)
    requires Sound(db)
    ensures var after := Migrate(db).db.memberships;
      && (forall m | m in db.memberships :: m in after && after[m] == db.memberships[m])
      && (forall m | m in after && m !in db.memberships :: after[m] && m.0 in db.users && m.1 == db.users[m.0].org)
      && (forall id | id in db.users :: (id, db.users[id].org) in after)
  {
    BackfillAdds(db.memberships, db.users);
    MembershipsAfter(db);
    hide Migrate, Backfill;
  }

  lemma MembershipsAfter(db: Db)
    requires Sound(db)
    ensures Migrate(db).db.memberships == Backfill(db.memberships, db.users)
  {
    hide ConfigsAfter, ConfigsForLabels, RulesAfter, LabelsAfter, Collides, Active, HandOver, Backfill, Sound;
  }

  /** After two runs that complete, every user belongs to its home, the administrator included. */
  lemma EveryUserBelongs(db: Db)
    requires Sound(db)
    ensures var twice := Migrate(Migrate(db).db).db; Migrate(db).Completed? ==>
      HasAdmin(twice.users) && forall id | id in twice.users :: (id, twice.users[id].org) in twice.memberships
  {
    hide Migrate, LabelsAfter, Active, Backfill;
    MembershipsKept(Migrate(db).db);
    MigrationFixpoint.RunSettles(db);
    if Migrate(db).Completed? {
      MigrationFixpoint.FurtherRun(Migrate(db).db);
    }
  }

  /** The two factory defaults a run moves; any other threshold is left as it was set. */
  function MovedThreshold(id: RuleId, t: Option<real>): Option<real> {
    if id == trend_rs_rating_min && t == Some(70.0) then Some(80.0)
    else if id == risk_max_position_pct && t == Some(30.0) then Some(25.0)
    else t
  }

  lemma UpdatesThreshold(id: RuleId, r: Rule)
    ensures TightenPosition(id, RelabelTarget(id, RaiseRsFloor(id, ByAssetType(id, r)))).threshold ==
      MovedThreshold(id, r.threshold)
  {
  }

  lemma ThresholdsKept(rules: Rules, orgs: set<int>, active: set<int>, k: RuleKey)
    requires k in rules
    ensures var after := RulesAfter(rules, orgs, active);
      k in after && after[k].threshold == MovedThreshold(k.id, rules[k].threshold)
  {
    hide NewRule, ByAssetType, RaiseRsFloor, RelabelTarget, TightenPosition, MovedThreshold, CloneKeys;
    assert k in CloneRules(rules, orgs) && CloneRules(rules, orgs)[k] == rules[k];
    StaysARow(rules, orgs, active, k);
    MigrationFixpoint.RowAfter(rules, orgs, active, k);
    UpdatesThreshold(k.id, rules[k]);
  }

  lemma StaysARow(rules: Rules, orgs: set<int>, active: set<int>, k: RuleKey)
    requires k in CloneRules(rules, orgs)
    ensures k in RulesAfter(rules, orgs, active)
  {
    hide NewRule, ByAssetType, RaiseRsFloor, RelabelTarget, TightenPosition, CloneRules, RuleKeys;
  }
}
