/**
  What one run of the migration makes of every single row, written out: configuration rows, rule rows, watchlist
  labels, organisations, users and handed-over rows.
 */
module MigrationEffects {
  import opened Common
  import opened Migration
  import opened MigrationKeeps
  import opened MigrationRun
  import MigrationFixpoint

  // ---------------------------------------------------------------- configuration rows

  /** What a run writes into a row of an organisation besides its key. */
  ghost function Relabelled(n: Name, r: Cfg): Cfg {
    Cfg(r.value,
        if n == org_timezone then "Display Timezone" else r.title,
        if n in {novnc_url, vnc_password} then "system" else r.grp)
  }

  /**
    The row a key has past the hand-over. Rows without an organisation are gone but for the global ones; a key of the
    default organisation that had no row has the one that was without an organisation; any other row is as it was.
   */
  ghost function HandedOver(c: Configs, home: int, k: CfgKey): Option<Cfg> {
    if k.org == None && k.name !in GLOBAL then None
    else if k in c then Some(c[k])
    else if k.org == Some(home) && k.name !in GLOBAL && CfgKey(k.name, None) in c then Some(c[CfgKey(k.name, None)])
    else None
  }

  /** The row a run leaves for a key. */
  ghost function CfgAfter(c: Configs, home: int, orgs: set<int>, k: CfgKey): Option<Cfg> {
    var row := HandedOver(c, home, k);
    if k.name == mcp_base_url && k.org.Some? then None
    else if k.org.Some? && k.org.value in orgs then
      if k.name in REMOVED then None
      else if row.Some? then Some(Relabelled(k.name, row.value))
      else if k.name in REQUIRED then Some(Relabelled(k.name, Default(k.name)))
      else if k.name in MULTI_MARKET then Some(Default(k.name))
      else None
    else if row.Some? then row
    else if k.org == None && k.name in GLOBAL_SEEDS + {mcp_base_url} then Some(Default(k.name))
    else None
  }

  ghost function RowAt(c: Configs, k: CfgKey): Option<Cfg> {
    if k in c then Some(c[k]) else None
  }

  lemma AdoptRow(c: Configs, home: int, k: CfgKey)
    ensures RowAt(Adopt(c, home), k) == HandedOver(c, home, k)
  {
    hide GLOBAL;
    if k.org == Some(home) && CfgKey(k.name, None) in c && k.name !in GLOBAL {
      var orphan := CfgKey(k.name, None);
      assert Orphan(orphan) && CfgKey(orphan.name, Some(home)) == k;
      assert k in Adopted(c, home);
    }
  }

  lemma RetouchIs(n: Name, r: Cfg)
    ensures Retouch(n, r) == Relabelled(n, r)
  {
  }

  /** Every configuration row after a run, and every key without one. */
  lemma ConfigRowAfter(c: Configs, home: int, orgs: set<int>, k: CfgKey)
    ensures RowAt(ConfigsAfter(c, home, orgs), k) == CfgAfter(c, home, orgs, k)
  {
    hide Adopt, Seed, Tidy, SeedGlobal, Default, Retouch, Relabelled, HandedOver, REQUIRED, MULTI_MARKET, REMOVED,
      GLOBAL_SEEDS;
    var a := Adopt(c, home);
    AdoptRow(c, home, k);
    var s := Seed(a, orgs, REQUIRED);
    SeedRow(a, orgs, REQUIRED, k);
    TidiedRow(s, orgs, k);
    var g := SeedGlobal(Tidy(s, orgs), GLOBAL_SEEDS);
    SeedGlobalRow(Tidy(s, orgs), GLOBAL_SEEDS, k);
    var m := Seed(g, orgs, MULTI_MARKET);
    SeedRow(g, orgs, MULTI_MARKET, k);
    SeedGlobalRow(map k | k in m && !LocalUrl(k) :: m[k], {mcp_base_url}, k);
    MigrationFixpoint.NameLists(k.name);
    RetiredIsNotSeeded(k.name);
  }

  lemma TidiedRow(c: Configs, orgs: set<int>, k: CfgKey)
    ensures RowAt(Tidy(c, orgs), k) ==
      if k !in c || (Within(k, orgs) && k.name in REMOVED) then None
      else if Within(k, orgs) then Some(Relabelled(k.name, c[k])) else Some(c[k])
  {
    hide REMOVED, Retouch, Relabelled;
    if k in c {
      RetouchIs(k.name, c[k]);
    }
  }

  /** The factory values: the switches, counts and regimes, and the rows seeded empty. */
  lemma DefaultFlags(n: Name)
    requires n !in {
      working_capital_aud, working_capital_currency, entry_limit_buffer_pct, entry_skip_open_minutes, org_timezone,
      asx_universe_scope, us_universe_scope, active_exchanges, crypto_exchange_key, mcp_base_url}
    ensures Default(n).value ==
      if n in {trading_paused, trading_kill_switch, crypto_testnet, mock_time_enabled, ibkr_simulate} then "false"
      else if n in {telegram_enabled, onboarding_completed} then "true"
      else if n in {weekly_injection_aud, max_daily_loss_aud} then "0"
      else if n in {last_market_regime_ASX, last_market_regime_NYSE, last_market_regime_NASDAQ} then "UNKNOWN"
      else ""
  {
  }

  /** And the settings. */
  lemma DefaultSettings(n: Name)
    requires n in {
      working_capital_aud, working_capital_currency, entry_limit_buffer_pct, entry_skip_open_minutes, org_timezone,
      asx_universe_scope, us_universe_scope, active_exchanges, crypto_exchange_key, mcp_base_url}
    ensures Default(n).value ==
      if n == working_capital_aud then "5000.0"
      else if n == working_capital_currency then "AUD"
      else if n == entry_limit_buffer_pct then "1.0"
      else if n == entry_skip_open_minutes then "10"
      else if n == org_timezone then "Australia/Sydney"
      else if n == asx_universe_scope then "ASX200"
      else if n == us_universe_scope then "SP500+NASDAQ100"
      else if n == active_exchanges then "ASX,CRYPTO_INDEPENDENTRESERVE"
      else if n == crypto_exchange_key then "CRYPTO_INDEPENDENTRESERVE"
      else "https://vcpilot.astradigital.com.au"
  {
  }

  /** The groups rows are seeded into. */
  lemma SystemRows(n: Name)
    requires n in {
      novnc_url, vnc_password, last_market_regime_ASX, last_market_regime_NYSE, last_market_regime_NASDAQ,
      mock_time_enabled, mock_current_time, ibkr_simulate}
    ensures Default(n).grp == "system"
  {
  }

  lemma TradingRows(n: Name)
    requires n in {
      entry_limit_buffer_pct, trading_kill_switch, max_daily_loss_aud, entry_skip_open_minutes, asx_universe_scope,
      active_exchanges, us_universe_scope}
    ensures Default(n).grp == "trading"
  {
  }

  lemma GeneralRows(n: Name)
    requires n in {trading_paused, working_capital_aud, working_capital_currency, org_timezone, onboarding_completed}
    ensures Default(n).grp == "general"
  {
  }

  lemma SingleRows(n: Name)
    requires n in {telegram_enabled, weekly_injection_aud, crypto_exchange_key, crypto_testnet, mcp_base_url}
    ensures Default(n).grp ==
      if n == telegram_enabled then "notifications"
      else if n == weekly_injection_aud then "risk"
      else if n == mcp_base_url then "mcp"
      else "crypto"
  {
  }

  // ---------------------------------------------------------------- rule rows

  /** What a run makes of a rule row that was there: two thresholds, a few bounds and titles, and the asset types. */
  ghost function Migrated(id: RuleId, r: Rule): Rule {
    var moved := id == trend_rs_rating_min && r.threshold == Some(70.0);
    var tightened := id == risk_max_position_pct && r.threshold == Some(30.0);
    Rule(
      if moved then "Relative Strength ≥ 80"
      else if id == exit_profit_target_2 then "Activate trailing stop at 40% profit"
      else if tightened then "Max position size: 25% of capital"
      else r.title,
      if moved then Some(80.0) else if tightened then Some(25.0) else r.threshold,
      if id == exit_profit_target_2 then Some(20.0) else r.min,
      if moved || (id == trend_rs_rating_min && (r.max.None? || r.max.value < 90.0)) then Some(99.0)
      else if id == trend_pct_below_52w_high && (r.max.None? || r.max.value < 80.0) then Some(80.0)
      else r.max,
      if r.assets == BOTH && ForEquitiesOnly(id) then EQUITY else r.assets,
      r.author)
  }

  /** The rules that say nothing about crypto assets: the fundamentals, and a few of trend, regime, entry and exit. */
  ghost predicate ForEquitiesOnly(id: RuleId) {
    || id.fundamental_eps_growth_recent? || id.fundamental_eps_growth_accel? || id.fundamental_eps_growth_annual?
    || id.fundamental_sales_growth? || id.fundamental_roe? || id.fundamental_profit_margin?
    || id.fundamental_institutional_own? || id.regime_pct_stocks_above_200ma? || id.regime_distribution_days?
    || id.entry_sector_leadership? || id.exit_earnings_avoid? || id.trend_rs_rating_min?
  }

  lemma UpdatesMigrate(id: RuleId, r: Rule)
    ensures TightenPosition(id, RelabelTarget(id, RaiseRsFloor(id, ByAssetType(id, r)))) == Migrated(id, r)
  {
  }

  /** The row a run leaves for a rule and organisation, or for its template. */
  ghost function RuleRowAfter(rules: Rules, orgs: set<int>, active: set<int>, k: RuleKey): Option<Rule> {
    var template := RuleKey(k.id, None);
    if k in rules then Some(Migrated(k.id, rules[k]))
    else if template in rules && k.org.Some? && k.org.value in orgs && (forall l | l in rules :: l.org != k.org) then
      Some(Migrated(k.id, rules[template].(author := "migration")))
    else if (k.id in BEAR_RULES && (k.org.Some? ==> k.org.value in active))
         || (k.id in TUNE_UP_RULES + BREAKOUT_RULES && (k.org.Some? ==> k.org.value in orgs)) then
      Some(NewRule(k.id))
    else None
  }

  /** Every rule row after a run: updated, copied from its template, or new. */
  lemma RuleRow(rules: Rules, orgs: set<int>, active: set<int>, k: RuleKey)
    ensures var after := RulesAfter(rules, orgs, active);
      RuleRowAfter(rules, orgs, active, k) == if k in after then Some(after[k]) else None
  {
    hide NewRule, ByAssetType, RaiseRsFloor, RelabelTarget, TightenPosition, Migrated, CloneRules, RulesAfter;
    CloneRow(rules, orgs, k);
    MigrationFixpoint.RowAfter(rules, orgs, active, k);
    RuleKeysAfter(rules, orgs, active, k);
    var cloned := CloneRules(rules, orgs);
    if k in cloned {
      UpdatesMigrate(k.id, cloned[k]);
    }
  }

  lemma RuleKeysAfter(rules: Rules, orgs: set<int>, active: set<int>, k: RuleKey)
    ensures k in RulesAfter(rules, orgs, active) <==>
      || k in CloneRules(rules, orgs)
      || (k.id in BEAR_RULES && (k.org.Some? ==> k.org.value in active))
      || (k.id in TUNE_UP_RULES + BREAKOUT_RULES && (k.org.Some? ==> k.org.value in orgs))
  {
    hide NewRule, ByAssetType, RaiseRsFloor, RelabelTarget, TightenPosition, SeedRules, CloneRules, BEAR_RULES,
      TUNE_UP_RULES, BREAKOUT_RULES;
    var typed := Updated(CloneRules(rules, orgs), ByAssetType);
    var bear := SeedRules(typed, active, BEAR_RULES);
    var raised := Updated(bear, RaiseRsFloor);
    var tuned := SeedRules(raised, orgs, TUNE_UP_RULES);
    var tightened := Updated(Updated(tuned, RelabelTarget), TightenPosition);
    MigrationFixpoint.SeedRulesRow(typed, active, BEAR_RULES, k);
    MigrationFixpoint.SeedRulesRow(raised, orgs, TUNE_UP_RULES, k);
    MigrationFixpoint.SeedRulesRow(tightened, orgs, BREAKOUT_RULES, k);
  }

  /** The new rules: the two that block entries in a bear regime carry no threshold, the others one within bounds. */
  lemma NewRules(id: RuleId)
    requires id in BEAR_RULES + TUNE_UP_RULES + BREAKOUT_RULES
    ensures var r := NewRule(id);
      match id
      case regime_bear_block_equities => r.threshold == None && r.min == None && r.max == None && r.assets == EQUITY
      case regime_bear_block_crypto => r.threshold == None && r.min == None && r.max == None && r.assets == CRYPTO
      case equity_stop_width_max_pct =>
        r.threshold == Some(8.0) && r.min == Some(5.0) && r.max == Some(12.0) && r.assets == EQUITY
      case exit_earnings_hold_cushion_pct =>
        r.threshold == Some(10.0) && r.min == Some(5.0) && r.max == Some(40.0) && r.assets == EQUITY
      case exit_trail_giveback_pct =>
        r.threshold == Some(10.0) && r.min == Some(5.0) && r.max == Some(25.0) && r.assets == BOTH
      case _ => r.threshold == Some(3.0) && r.min == Some(1.0) && r.max == Some(10.0) && r.assets == BOTH
  {
  }

  /** How they are signed. */
  lemma NewRuleAuthors(id: RuleId)
    ensures NewRule(id).author ==
      if id == exit_failed_breakout then "migration_012"
      else if id in TUNE_UP_RULES then "migration_007"
      else "migration"
  {
  }

  // ---------------------------------------------------------------- labels

  /** Stripping takes off leading white space, all of it and nothing else. */
  lemma {:induction false} StripTakes(text: string) returns (n: nat)
    ensures n <= |text| && Strip(text) == text[n..]
    ensures forall i | 0 <= i < n :: text[i] in {' ', '\t', '\n', '\r'}
    ensures n < |text| ==> text[n] !in {' ', '\t', '\n', '\r'}
  {
    if text != "" && text[0] in {' ', '\t', '\n', '\r'} {
      n := StripTakes(text[1..]);
      n := n + 1;
    } else {
      n := 0;
    }
  }

  /** The parts of a comma-separated text hold no comma, and joined by commas they are the text again. */
  lemma {:induction false} SplitParts(text: string)
    ensures forall i | 0 <= i < |Split(text)| :: ',' !in Split(text)[i]
    ensures Joined(Split(text)) == text
  {
    if text != "" {
      var rest := Split(text[1..]);
      SplitParts(text[1..]);
      if text[0] == ',' {
        JoinedMore("", rest);
      } else {
        assert Split(text) == [[text[0]] + rest[0]] + rest[1..];
        JoinedFirst(text[0], rest);
      }
    }
  }

  ghost function Joined(parts: seq<string>): string
    requires parts != []
  {
    if |parts| == 1 then parts[0] else parts[0] + "," + Joined(parts[1..])
  }

  lemma JoinedMore(first: string, rest: seq<string>)
    requires rest != []
    ensures Joined([first] + rest) == first + "," + Joined(rest)
  {
    assert ([first] + rest)[1..] == rest;
  }

  lemma JoinedFirst(c: char, rest: seq<string>)
    requires rest != []
    ensures Joined([[c] + rest[0]] + rest[1..]) == [c] + Joined(rest)
  {
    var longer := [[c] + rest[0]] + rest[1..];
    assert longer[1..] == rest[1..];
  }

  /** The exchanges an organisation's configuration lists. */
  ghost function Listed(c: Configs, org: int): seq<string> {
    if CfgKey(active_exchanges, Some(org)) in c then Split(c[CfgKey(active_exchanges, Some(org))].value) else [""]
  }

  /** One of them, white space before it aside, is a crypto exchange. */
  ghost predicate ListsCrypto(c: Configs, org: int) {
    exists i :: 0 <= i < |Listed(c, org)| && "CRYPTO_" <= Strip(Listed(c, org)[i])
  }

  ghost predicate Unlabelled(labels: set<(int, string)>, org: int) {
    forall name: string :: (org, name) !in labels
  }

  /**
    The labels after a run: those there were; the four default ones in an organisation that had none; the
    sector labels where one of its listed exchanges is the Australian one, and the crypto labels where one of
    them is a crypto exchange.
   */
  lemma LabelRow(labels: set<(int, string)>, c: Configs, orgs: set<int>, org: int, name: string)
    ensures (org, name) in LabelsAfter(labels, c, orgs) <==>
      || (org, name) in labels
      || (org in orgs && name in DEFAULT_LABELS && Unlabelled(labels, org))
      || (org in orgs && name in ASX_LABELS && "ASX" in Listed(c, org))
      || (org in orgs && name in CRYPTO_LABELS && ListsCrypto(c, org))
  {
    hide Strip, DEFAULT_LABELS, ASX_LABELS, CRYPTO_LABELS;
    assert Listed(c, org) == ActiveExchanges(c, org);
    assert TradesCrypto(c, org) <==> ListsCrypto(c, org);
    LabelledWhen(labels, org);
    hide Split, ListsCrypto, TradesCrypto, Unlabelled, HasLabels;
    assert (org, name) in NewLabels(labels, c, orgs) <==> org in orgs && name in LabelsFor(labels, c, org);
  }

  /** Labels go by the exchanges an organisation had before the run: the seeded list of a new one comes too late. */
  lemma LabelsSee(c: Configs, home: int, orgs: set<int>, org: int)
    ensures var row := HandedOver(c, home, CfgKey(active_exchanges, Some(org)));
      Listed(ConfigsForLabels(c, home, orgs), org) == if row.Some? then Split(row.value.value) else [""]
  {
    hide Adopt, Seed, Tidy, Default, Retouch, HandedOver, REQUIRED, REMOVED, Split;
    var k := CfgKey(active_exchanges, Some(org));
    AdoptRow(c, home, k);
    SeedRow(Adopt(c, home), orgs, REQUIRED, k);
    TidiedRow(Seed(Adopt(c, home), orgs, REQUIRED), orgs, k);
    NotSeededYet();
  }

  lemma NotSeededYet()
    ensures active_exchanges !in REQUIRED && active_exchanges !in REMOVED
  {
  }

  lemma LabelledWhen(labels: set<(int, string)>, org: int)
    ensures HasLabels(labels, org) <==> !Unlabelled(labels, org)
  {
    if HasLabels(labels, org) {
      var l :| l in labels && l.0 == org;
      assert (org, l.1) in labels;
    }
  }

  // ---------------------------------------------------------------- the whole run

  /**
    A run completes exactly when no row without an organisation that is to be handed over meets one of its key in
    the default organisation. That organisation is found by its name or made, active; a run that completes makes
    an administrator there if there was none, and hands every row without an organisation to it. A run that does
    not leaves everything but memberships and organisations as it was.
   */
  lemma RunLeaves(db: Db) returns (home: int)
    requires Sound(db)
    ensures var e := Migrate(db).db;
      && home in e.orgs && e.orgs[home].name == "Default Org"
      && (if exists id :: id in db.orgs && db.orgs[id].name == "Default Org" then e.orgs == db.orgs
          else home == db.nextOrg && e.orgs == db.orgs[home := Org("Default Org", true)])
      && (Migrate(db).Completed? <==>
            !exists k ::
              k in db.configs && k.org == None && k.name !in GLOBAL && CfgKey(k.name, Some(home)) in db.configs)
    ensures Migrate(db).Completed? ==> var e := Migrate(db).db; var orgs := e.orgs.Keys;
      && (if exists id :: id in db.users && db.users[id].email == "admin@vcpilot.com" then e.users == db.users
          else e.users == db.users[db.nextUser := User("admin@vcpilot.com", home)])
      && (forall row :: row in e.owned <==> row in db.owned)
      && (forall row | row in db.owned :: e.owned[row] == if db.owned[row].None? then Some(home) else db.owned[row])
      && e.configs == ConfigsAfter(db.configs, home, orgs)
      && e.labels == LabelsAfter(db.labels, ConfigsForLabels(db.configs, home, orgs), orgs)
      && e.rules == RulesAfter(db.rules, orgs, set id | id in e.orgs && e.orgs[id].active)
    ensures !Migrate(db).Completed? ==> var e := Migrate(db).db;
      e == db.(memberships := e.memberships, orgs := e.orgs, nextOrg := e.nextOrg)
  {
    hide ConfigsAfter, ConfigsForLabels, RulesAfter, LabelsAfter, Collides, Sound, Founded, HandOver, HasAdmin;
    home := FoundedLeaves(db);
    CollidesWhen(db.configs, home);
    HandOverRows(db.owned, home);
    AdminWhen(db.users);
  }

  lemma FoundedLeaves(db: Db) returns (home: int)
    requires Sound(db)
    ensures var f := Founded(db);
      && home == DefaultOrgId(f.orgs) && home in f.orgs && f.orgs[home].name == "Default Org"
      && (if exists id :: id in db.orgs && db.orgs[id].name == "Default Org" then f.orgs == db.orgs
          else home == db.nextOrg && f.orgs == db.orgs[home := Org("Default Org", true)])
      && f == db.(memberships := f.memberships, orgs := f.orgs, nextOrg := f.nextOrg)
  {
    hide Backfill;
    home := DefaultOrgId(Founded(db).orgs);
    if !HasDefaultOrg(db.orgs) {
      assert Founded(db).orgs[db.nextOrg].name == DEFAULT_ORG;
    }
  }

  lemma CollidesWhen(c: Configs, home: int)
    ensures Collides(c, home) <==>
      exists k :: k in c && k.org == None && k.name !in GLOBAL && CfgKey(k.name, Some(home)) in c
  {
    HandOverKeepsRows(c, home);
    hide Collides;
  }

  lemma HandOverRows(owned: map<int, Option<int>>, home: int)
    ensures forall row :: row in HandOver(owned, home) <==> row in owned
    ensures forall row | row in owned ::
      HandOver(owned, home)[row] == if owned[row].None? then Some(home) else owned[row]
  {
  }

  lemma AdminWhen(users: map<int, User>)
    ensures HasAdmin(users) <==> exists id :: id in users && users[id].email == "admin@vcpilot.com"
  {
  }
}
