/**
  The data part of the multi-tenant migration: what one run makes of the organisations, users, memberships,
  configuration rows, watchlist labels and rule rows, and how many runs it takes to settle.
 */
module Migration {
  import opened Common

  // ---------------------------------------------------------------- tables

  datatype Org = Org(name: string, active: bool)
  datatype User = User(email: string, org: int)

  /** The configuration keys the migration names; every other key is Other. */
  datatype Name =
    | trading_paused | telegram_enabled | telegram_bot_token | telegram_chat_id | ibkr_account
    | novnc_url | vnc_password
    | fmp_api_key | working_capital_aud | working_capital_currency | weekly_injection_aud | entry_limit_buffer_pct
    | trading_kill_switch | max_daily_loss_aud | entry_skip_open_minutes | org_timezone | asx_universe_scope
    | active_exchanges | ibkr_account_usd | fx_audusd_override
    | crypto_exchange_key | crypto_api_key | crypto_api_secret
    | crypto_testnet | us_universe_scope | last_market_regime_ASX | last_market_regime_NYSE | last_market_regime_NASDAQ
    | onboarding_completed
    | ibkr_username | ibkr_password | ibkr_paper_mode
    | whatsapp_enabled | whatsapp_admin_number | whatsapp_api_key | whatsapp_session_name | notification_channel
    | last_market_regime | last_regime_check | last_heartbeat | mock_time_enabled | mock_current_time | ibkr_simulate
    | mock_market_regime | mcp_base_url
    | Other(text: string)

  datatype CfgKey = CfgKey(name: Name, org: Option<int>)
  datatype Cfg = Cfg(value: string, title: string, grp: string)
  type Configs = map<CfgKey, Cfg>

  /** The rule ids the migration names. */
  datatype RuleId =
    | fundamental_eps_growth_recent | fundamental_eps_growth_accel | fundamental_eps_growth_annual
    | fundamental_sales_growth | fundamental_roe | fundamental_profit_margin | fundamental_institutional_own
    | regime_pct_stocks_above_200ma | regime_distribution_days | entry_sector_leadership | exit_earnings_avoid
    | trend_rs_rating_min | trend_pct_below_52w_high | exit_profit_target_2 | risk_max_position_pct
    | regime_bear_block_equities | regime_bear_block_crypto
    | equity_stop_width_max_pct | exit_earnings_hold_cushion_pct | exit_trail_giveback_pct | exit_failed_breakout
    | OtherRule(text: string)

  datatype Assets = BOTH | EQUITY | CRYPTO
  datatype RuleKey = RuleKey(id: RuleId, org: Option<int>)
  datatype Rule = Rule(title: string, threshold: Option<real>, min: Option<real>, max: Option<real>, assets: Assets,
                       author: string)
  type Rules = map<RuleKey, Rule>

  /** `owned` stands for the other tenant tables: the organisation of each of their rows. */
  datatype Db = Db(
    orgs: map<int, Org>, nextOrg: int,
    users: map<int, User>, nextUser: int,
    memberships: map<(int, int), bool>,  // user and organisation, and whether it is the default
    owned: map<int, Option<int>>,
    configs: Configs,
    labels: set<(int, string)>,
    rules: Rules)

  /** Serial ids run ahead of the rows, and memberships are of users. */
  ghost predicate Serial(db: Db) {
    && (forall id | id in db.orgs :: id < db.nextOrg)
    && (forall id | id in db.users :: id < db.nextUser)
    && (forall m | m in db.memberships :: m.0 < db.nextUser)
  }

  // ---------------------------------------------------------------- organisations, users, memberships

  const DEFAULT_ORG := "Default Org"
  const ADMIN_EMAIL := "admin@vcpilot.com"

  predicate HasDefaultOrg(orgs: map<int, Org>) {
    exists id | id in orgs :: orgs[id].name == DEFAULT_ORG
  }

  /** Organisation names are unique. */
  function DefaultOrgId(orgs: map<int, Org>): (id: int)
    requires HasDefaultOrg(orgs) && UniqueNames(orgs)
    ensures id in orgs && orgs[id].name == DEFAULT_ORG
  {
    var id :| id in orgs && orgs[id].name == DEFAULT_ORG;
    id
  }

  ghost predicate UniqueNames(orgs: map<int, Org>) {
    forall a, b | a in orgs && b in orgs && orgs[a].name == orgs[b].name :: a == b
  }

  predicate HasAdmin(users: map<int, User>) {
    exists id | id in users :: users[id].email == ADMIN_EMAIL
  }

  function HomeMemberships(users: map<int, User>): set<(int, int)> {
    set id | id in users :: (id, users[id].org)
  }

  /** Every user gets a default membership of its home organisation unless there is a membership already. */
  function Backfill(memberships: map<(int, int), bool>, users: map<int, User>): map<(int, int), bool> {
    map m | m in memberships.Keys + HomeMemberships(users) :: if m in memberships then memberships[m] else true
  }

  function WithDefaultOrg(db: Db): Db {
    if HasDefaultOrg(db.orgs) then db
    else db.(orgs := db.orgs[db.nextOrg := Org(DEFAULT_ORG, true)], nextOrg := db.nextOrg + 1)
  }

  function WithAdmin(db: Db, home: int): Db {
    if HasAdmin(db.users) then db
    else db.(users := db.users[db.nextUser := User(ADMIN_EMAIL, home)], nextUser := db.nextUser + 1)
  }

  // ---------------------------------------------------------------- configuration rows

  const REQUIRED := {
    trading_paused, telegram_enabled, telegram_bot_token, telegram_chat_id, ibkr_account, novnc_url, vnc_password,
    fmp_api_key, working_capital_aud, working_capital_currency, weekly_injection_aud, entry_limit_buffer_pct,
    trading_kill_switch, max_daily_loss_aud, entry_skip_open_minutes, org_timezone, asx_universe_scope}
  const MULTI_MARKET := {
    active_exchanges, ibkr_account_usd, fx_audusd_override, crypto_exchange_key, crypto_api_key, crypto_api_secret,
    crypto_testnet, us_universe_scope, last_market_regime_ASX, last_market_regime_NYSE, last_market_regime_NASDAQ,
    onboarding_completed}
  const REMOVED := {
    ibkr_username, ibkr_password, ibkr_paper_mode,
    whatsapp_enabled, whatsapp_admin_number, whatsapp_api_key, whatsapp_session_name, notification_channel}
  /** Keys whose rows without an organisation stay that way. */
  const GLOBAL := {
    last_market_regime, last_regime_check, last_heartbeat, mock_time_enabled, mock_current_time, ibkr_simulate,
    mock_market_regime, mcp_base_url}
  const GLOBAL_SEEDS := {mock_time_enabled, mock_current_time, ibkr_simulate}

  /** What a missing row is created with. */
  function Default(n: Name): Cfg {
    match n
    case trading_paused => Cfg("false", "Trading Paused", "general")
    case telegram_enabled => Cfg("true", "Telegram Alerts Enabled", "notifications")
    case novnc_url => Cfg("", "Gateway Login URL (noVNC)", "system")
    case vnc_password => Cfg("", "Gateway VNC Password", "system")
    case working_capital_aud => Cfg("5000.0", "Working Capital (AUD)", "general")
    case working_capital_currency => Cfg("AUD", "Working Capital Currency", "general")
    case weekly_injection_aud => Cfg("0", "Weekly Capital Injection (AUD)", "risk")
    case entry_limit_buffer_pct => Cfg("1.0", "Entry Limit Buffer %", "trading")
    case trading_kill_switch => Cfg("false", "Kill Switch", "trading")
    case max_daily_loss_aud => Cfg("0", "Max Daily Loss (AUD)", "trading")
    case entry_skip_open_minutes => Cfg("10", "Skip Entries After Open (min)", "trading")
    case org_timezone => Cfg("Australia/Sydney", "Display Timezone", "general")
    case asx_universe_scope => Cfg("ASX200", "ASX Universe Scope", "trading")
    case active_exchanges => Cfg("ASX,CRYPTO_INDEPENDENTRESERVE", "Active Exchanges", "trading")
    case crypto_exchange_key => Cfg("CRYPTO_INDEPENDENTRESERVE", "Crypto Exchange", "crypto")
    case crypto_testnet => Cfg("false", "Crypto Testnet Mode", "crypto")
    case us_universe_scope => Cfg("SP500+NASDAQ100", "US Universe Scope", "trading")
    case last_market_regime_ASX => Cfg("UNKNOWN", "ASX Market Regime", "system")
    case last_market_regime_NYSE => Cfg("UNKNOWN", "NYSE Market Regime", "system")
    case last_market_regime_NASDAQ => Cfg("UNKNOWN", "NASDAQ Market Regime", "system")
    case onboarding_completed => Cfg("true", "Onboarding Completed", "general")
    case mock_time_enabled => Cfg("false", "Mock Time Enabled", "system")
    case mock_current_time => Cfg("", "Mock Current Time", "system")
    case ibkr_simulate => Cfg("false", "IBKR Simulation Mode", "system")
    case mcp_base_url => Cfg("https://vcpilot.astradigital.com.au", "MCP Base URL", "mcp")
    case _ => Cfg("", "", "")
  }

  predicate Orphan(k: CfgKey) { k.org == None && k.name !in GLOBAL }

  /** Where the rows without an organisation go. */
  function Adopted(configs: Configs, home: int): set<CfgKey> {
    set k | k in configs && Orphan(k) :: CfgKey(k.name, Some(home))
  }

  /** The update to one organisation would meet a row of the same key there. */
  predicate Collides(configs: Configs, home: int) {
    Adopted(configs, home) * configs.Keys != {}
  }

  /** Rows without an organisation move to the default one, except the global ones. */
  function Adopt(configs: Configs, home: int): Configs {
    map k | k in configs.Keys + Adopted(configs, home) && !Orphan(k) ::
      if k in configs then configs[k] else configs[CfgKey(k.name, None)]
  }

  predicate Within(k: CfgKey, orgs: set<int>) { k.org.Some? && k.org.value in orgs }

  function Needed(orgs: set<int>, names: set<Name>): set<CfgKey> {
    set org, n | org in orgs && n in names :: CfgKey(n, Some(org))
  }

  lemma KeyNeeded(k: CfgKey, orgs: set<int>, names: set<Name>)
    ensures k in Needed(orgs, names) <==> Within(k, orgs) && k.name in names
  {
    if Within(k, orgs) && k.name in names {
      var org, n := k.org.value, k.name;
      assert org in orgs && n in names;
      assert CfgKey(n, Some(org)) in Needed(orgs, names);
    }
  }

  /** A row for each of the names in each of the organisations; existing rows are left alone. */
  function Seed(configs: Configs, orgs: set<int>, names: set<Name>): Configs {
    map k | k in configs.Keys + Needed(orgs, names) :: if k in configs then configs[k] else Default(k.name)
  }

  function Retouch(n: Name, c: Cfg): Cfg {
    if n == org_timezone then c.(title := "Display Timezone")
    else if n in {novnc_url, vnc_password} then c.(grp := "system")
    else c
  }

  /** Retired rows deleted, and a few relabelled, for some organisations. */
  function Tidy(configs: Configs, orgs: set<int>): Configs {
    map k | k in configs && !(Within(k, orgs) && k.name in REMOVED) ::
      if Within(k, orgs) then Retouch(k.name, configs[k]) else configs[k]
  }

  function GlobalKeys(names: set<Name>): set<CfgKey> {
    set n | n in names :: CfgKey(n, None)
  }

  function SeedGlobal(configs: Configs, names: set<Name>): Configs {
    map k | k in configs.Keys + GlobalKeys(names) :: if k in configs then configs[k] else Default(k.name)
  }

  predicate LocalUrl(k: CfgKey) { k.name == mcp_base_url && k.org.Some? }

  /** The base URL is global: organisations' rows go, and a global one is made if missing. */
  function SettleUrl(configs: Configs): Configs {
    SeedGlobal(map k | k in configs && !LocalUrl(k) :: configs[k], {mcp_base_url})
  }

  /** The rows as the labels step finds them. */
  function ConfigsForLabels(configs: Configs, home: int, orgs: set<int>): Configs {
    Tidy(Seed(Adopt(configs, home), orgs, REQUIRED), orgs)
  }

  function ConfigsAfter(configs: Configs, home: int, orgs: set<int>): Configs {
    SettleUrl(Seed(SeedGlobal(ConfigsForLabels(configs, home, orgs), GLOBAL_SEEDS), orgs, MULTI_MARKET))
  }

  // ---------------------------------------------------------------- labels

  const DEFAULT_LABELS := {"Favourites", "High Priority", "VCP Forming", "Under Review"}
  const ASX_LABELS := {
    "Gold", "Lithium", "Rare Earth", "Uranium", "Silver", "Iron & Steel", "Oil & Gas", "Biotech", "Healthcare / Pharma",
    "FinTech", "Technology", "Banks", "Financials", "Real Estate (REIT)", "Energy", "Mining (General)", "Consumer",
    "Industrials", "Telco / Media"}
  const CRYPTO_LABELS := {"Crypto Core", "DeFi", "Altcoins", "Crypto Watch"}

  /** Python's split on commas. */
  function Split(text: string): (parts: seq<string>)
    ensures parts != []
  {
    if text == "" then [""]
    else
      var rest := Split(text[1..]);
      if text[0] == ',' then [""] + rest else [[text[0]] + rest[0]] + rest[1..]
  }

  /** What Python's strip takes off the front. */
  function Strip(text: string): string {
    if text != "" && text[0] in {' ', '\t', '\n', '\r'} then Strip(text[1..]) else text
  }

  function ActiveExchanges(configs: Configs, org: int): seq<string> {
    Split(if CfgKey(active_exchanges, Some(org)) in configs then configs[CfgKey(active_exchanges, Some(org))].value
      else "")
  }

  predicate TradesCrypto(configs: Configs, org: int) {
    exists i | 0 <= i < |ActiveExchanges(configs, org)| :: "CRYPTO_" <= Strip(ActiveExchanges(configs, org)[i])
  }

  predicate HasLabels(labels: set<(int, string)>, org: int) {
    exists l | l in labels :: l.0 == org
  }

  function LabelsFor(labels: set<(int, string)>, configs: Configs, org: int): set<string> {
    (if HasLabels(labels, org) then {} else DEFAULT_LABELS)
    + (if "ASX" in ActiveExchanges(configs, org) then ASX_LABELS else {})
    + (if TradesCrypto(configs, org) then CRYPTO_LABELS else {})
  }

  function NewLabels(labels: set<(int, string)>, configs: Configs, orgs: set<int>): set<(int, string)> {
    set org, name | org in orgs && name in LabelsFor(labels, configs, org) :: (org, name)
  }

  function LabelsAfter(labels: set<(int, string)>, configs: Configs, orgs: set<int>): set<(int, string)> {
    labels + NewLabels(labels, configs, orgs)
  }

  // ---------------------------------------------------------------- rule rows

  predicate HasRules(rules: Rules, org: Option<int>) {
    exists k | k in rules :: k.org == org
  }

  function CloneKeys(rules: Rules, orgs: set<int>): set<RuleKey> {
    set org, t | org in orgs && t in rules && t.org == None && !HasRules(rules, Some(org)) :: RuleKey(t.id, Some(org))
  }

  /** Organisations without any rule get a copy of every template. */
  function CloneRules(rules: Rules, orgs: set<int>): Rules {
    map k | k in rules.Keys + CloneKeys(rules, orgs) ::
      if k in rules then rules[k] else rules[RuleKey(k.id, None)].(author := "migration")
  }

  function Updated(rules: Rules, update: (RuleId, Rule) -> Rule): Rules {
    map k | k in rules :: update(k.id, rules[k])
  }

  const EQUITY_ONLY := {
    fundamental_eps_growth_recent, fundamental_eps_growth_accel, fundamental_eps_growth_annual,
    fundamental_sales_growth,
    fundamental_roe, fundamental_profit_margin, fundamental_institutional_own, regime_pct_stocks_above_200ma,
    regime_distribution_days, entry_sector_leadership, exit_earnings_avoid, trend_rs_rating_min}

  /** Migration 003. */
  function ByAssetType(id: RuleId, r: Rule): Rule {
    var typed := if id in EQUITY_ONLY && r.assets == BOTH then r.(assets := EQUITY) else r;
    if id == trend_pct_below_52w_high && (typed.max.None? || typed.max.value < 80.0) then typed.(max := Some(80.0))
    else typed
  }

  /** Migration 007, the updates before its new rules. */
  function RaiseRsFloor(id: RuleId, r: Rule): Rule {
    if id != trend_rs_rating_min then r
    else
      var raised := if r.threshold == Some(70.0)
        then r.(threshold := Some(80.0), max := Some(99.0), title := "Relative Strength ≥ 80") else r;
      if raised.max.None? || raised.max.value < 90.0 then raised.(max := Some(99.0)) else raised
  }

  /** Migration 007, the update after them. */
  function RelabelTarget(id: RuleId, r: Rule): Rule {
    if id == exit_profit_target_2 then r.(title := "Activate trailing stop at 40% profit", min := Some(20.0)) else r
  }

  /** Migration 011. */
  function TightenPosition(id: RuleId, r: Rule): Rule {
    if id == risk_max_position_pct && r.threshold == Some(30.0)
    then r.(threshold := Some(25.0), title := "Max position size: 25% of capital") else r
  }

  function NewRule(id: RuleId): Rule {
    match id
    case regime_bear_block_equities => Rule("Block equity entries in BEAR regime", None, None, None, EQUITY,
      "migration")
    case regime_bear_block_crypto => Rule("Block crypto entries in BEAR regime", None, None, None, CRYPTO, "migration")
    case equity_stop_width_max_pct =>
      Rule("Max equity stop width: 8% below entry", Some(8.0), Some(5.0), Some(12.0), EQUITY, "migration_007")
    case exit_earnings_hold_cushion_pct =>
      Rule("Hold through earnings if cushion ≥ 10%", Some(10.0), Some(5.0), Some(40.0), EQUITY, "migration_007")
    case exit_trail_giveback_pct =>
      Rule("Trailing give-back after activation: 10%", Some(10.0), Some(5.0), Some(25.0), BOTH, "migration_007")
    case exit_failed_breakout =>
      Rule("Exit failed breakout: close back below pivot within 3 days", Some(3.0), Some(1.0), Some(10.0), BOTH,
        "migration_012")
    case _ => Rule("", None, None, None, BOTH, "migration")
  }

  predicate Covers(k: RuleKey, ids: set<RuleId>, orgs: set<int>) {
    k.id in ids && (k.org.Some? ==> k.org.value in orgs)
  }

  function RuleKeys(ids: set<RuleId>, orgs: set<int>): set<RuleKey> {
    (set id | id in ids :: RuleKey(id, None)) + (set id, org | id in ids && org in orgs :: RuleKey(id, Some(org)))
  }

  lemma KeyCovered(k: RuleKey, ids: set<RuleId>, orgs: set<int>)
    ensures k in RuleKeys(ids, orgs) <==> Covers(k, ids, orgs)
  {
    if Covers(k, ids, orgs) {
      if k.org.Some? {
        var id, org := k.id, k.org.value;
        assert id in ids && org in orgs;
        assert RuleKey(id, Some(org)) in (set id, org | id in ids && org in orgs :: RuleKey(id, Some(org)));
      } else {
        assert k == RuleKey(k.id, None);
      }
    }
  }

  /** The template and each organisation's row of the given rules, where missing. */
  function SeedRules(rules: Rules, orgs: set<int>, ids: set<RuleId>): Rules {
    map k | k in rules.Keys + RuleKeys(ids, orgs) :: if k in rules then rules[k] else NewRule(k.id)
  }

  const BEAR_RULES := {regime_bear_block_equities, regime_bear_block_crypto}
  const TUNE_UP_RULES := {equity_stop_width_max_pct, exit_earnings_hold_cushion_pct, exit_trail_giveback_pct}
  const BREAKOUT_RULES := {exit_failed_breakout}

  /** Migrations 003 to 012, on the rows as the organisations' loop leaves them. */
  function Retuned(cloned: Rules, orgs: set<int>, active: set<int>): Rules {
    var bear := SeedRules(Updated(cloned, ByAssetType), active, BEAR_RULES);
    var tuned := SeedRules(Updated(bear, RaiseRsFloor), orgs, TUNE_UP_RULES);
    SeedRules(Updated(Updated(tuned, RelabelTarget), TightenPosition), orgs, BREAKOUT_RULES)
  }

  function RulesAfter(rules: Rules, orgs: set<int>, active: set<int>): Rules {
    Retuned(CloneRules(rules, orgs), orgs, active)
  }

  // ---------------------------------------------------------------- a run

  function Active(orgs: map<int, Org>): set<int> {
    set id | id in orgs && orgs[id].active
  }

  ghost predicate Sound(db: Db) { Serial(db) && UniqueNames(db.orgs) }

  /** A run that meets a key collision stops there, with the steps before it committed. */
  datatype Outcome = Completed(db: Db) | Collided(db: Db)

  /** The steps before the rows are handed over to the default organisation. */
  function Founded(db: Db): (r: Db)
    requires Sound(db)
    ensures Sound(r) && HasDefaultOrg(r.orgs)
  {
    var r := WithDefaultOrg(db.(memberships := Backfill(db.memberships, db.users)));
    assert !HasDefaultOrg(db.orgs) ==> r.orgs[db.nextOrg].name == DEFAULT_ORG;
    r
  }

  function HandOver(owned: map<int, Option<int>>, home: int): map<int, Option<int>> {
    map row | row in owned :: if owned[row].None? then Some(home) else owned[row]
  }

  function Migrate(db: Db): (r: Outcome)
    requires Sound(db)
    ensures Sound(r.db) && HasDefaultOrg(r.db.orgs)
  {
    hide ConfigsAfter, LabelsAfter, ConfigsForLabels, RulesAfter, Active, Collides, Founded, HandOver, Backfill;
    var founded := Founded(db);
    var home, orgs := DefaultOrgId(founded.orgs), founded.orgs.Keys;
    if Collides(db.configs, home) then Collided(founded)
    else
      Completed(WithAdmin(founded, home).(
        owned := HandOver(db.owned, home),
        configs := ConfigsAfter(db.configs, home, orgs),
        labels := LabelsAfter(db.labels, ConfigsForLabels(db.configs, home, orgs), orgs),
        rules := RulesAfter(db.rules, orgs, Active(founded.orgs))))
  }
}
