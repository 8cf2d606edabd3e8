/**
  The migration as it runs: guarded inserts, updates and deletes on the tables, in loops over the
  organisations, the keys and the rules. Every method is tied to the step of module Migration it carries out.
 */
module MigrationRun {
  import opened Common
  import opened Migration
  import MigrationFixpoint

  const REQUIRED_LIST := [
    trading_paused, telegram_enabled, telegram_bot_token, telegram_chat_id, ibkr_account, novnc_url, vnc_password,
    fmp_api_key, working_capital_aud, working_capital_currency, weekly_injection_aud, entry_limit_buffer_pct,
    trading_kill_switch, max_daily_loss_aud, entry_skip_open_minutes, org_timezone]
  const MULTI_MARKET_LIST := [
    active_exchanges, ibkr_account_usd, fx_audusd_override, crypto_exchange_key, crypto_api_key, crypto_api_secret,
    crypto_testnet, us_universe_scope, last_market_regime_ASX, last_market_regime_NYSE, last_market_regime_NASDAQ,
    onboarding_completed]
  const GLOBAL_SEED_LIST := [mock_time_enabled, mock_current_time, ibkr_simulate]
  const CREDENTIALS := {ibkr_username, ibkr_password, ibkr_paper_mode}
  const WHATSAPP :=
    {whatsapp_enabled, whatsapp_admin_number, whatsapp_api_key, whatsapp_session_name, notification_channel}
  const DEFAULT_LABEL_LIST := ["Favourites", "High Priority", "VCP Forming", "Under Review"]
  const ASX_LABEL_LIST := [
    "Gold", "Lithium", "Rare Earth", "Uranium", "Silver", "Iron & Steel", "Oil & Gas", "Biotech", "Healthcare / Pharma",
    "FinTech", "Technology", "Banks", "Financials", "Real Estate (REIT)", "Energy", "Mining (General)", "Consumer",
    "Industrials", "Telco / Media"]
  const CRYPTO_LABEL_LIST := ["Crypto Core", "DeFi", "Altcoins", "Crypto Watch"]

  function Elements<T(==)>(list: seq<T>): set<T> { set x | x in list }

  lemma NameElements()
    ensures Elements(REQUIRED_LIST) + {asx_universe_scope} == REQUIRED
    ensures Elements(MULTI_MARKET_LIST) == MULTI_MARKET
    ensures Elements(GLOBAL_SEED_LIST) == GLOBAL_SEEDS
  {
  }

  lemma RemovedLists(n: Name)
    ensures n in REMOVED <==> n in CREDENTIALS || n in WHATSAPP
  {
  }

  lemma LabelElements()
    ensures Elements(DEFAULT_LABEL_LIST) == DEFAULT_LABELS
    ensures Elements(ASX_LABEL_LIST) == ASX_LABELS
    ensures Elements(CRYPTO_LABEL_LIST) == CRYPTO_LABELS
  {
  }

  lemma ElementsNext<T>(list: seq<T>, i: nat)
    requires i < |list|
    ensures Elements(list[..i + 1]) == Elements(list[..i]) + {list[i]}
  {
    assert list[..i + 1] == list[..i] + [list[i]];
  }

  // ---------------------------------------------------------------- single statements

  /** An update of one organisation's rows. */
  function UpdatedFor(c: Configs, org: int, update: (Name, Cfg) -> Cfg): Configs {
    map k | k in c :: if k.org == Some(org) then update(k.name, c[k]) else c[k]
  }

  /** A deletion of one organisation's rows. */
  function WithoutFor(c: Configs, org: int, names: set<Name>): Configs {
    map k | k in c && !(k.org == Some(org) && k.name in names) :: c[k]
  }

  function Relabel(n: Name, r: Cfg): Cfg {
    if n == org_timezone then r.(title := "Display Timezone") else r
  }

  function Regroup(n: Name, r: Cfg): Cfg {
    if n in {novnc_url, vnc_password} && r.grp != "system" then r.(grp := "system") else r
  }

  lemma RetouchInSteps(n: Name, r: Cfg)
    ensures Retouch(n, r) == Regroup(n, Relabel(n, r))
  {
  }

  lemma TidyInSteps(c: Configs, org: int)
    ensures Tidy(c, {org}) ==
      WithoutFor(UpdatedFor(WithoutFor(UpdatedFor(c, org, Relabel), org, CREDENTIALS), org, Regroup), org, WHATSAPP)
  {
    hide CREDENTIALS, WHATSAPP, REMOVED, Retouch, Relabel, Regroup;
    forall n, r ensures Retouch(n, r) == Regroup(n, Relabel(n, r)) {
      RetouchInSteps(n, r);
    }
    forall n: Name ensures n in REMOVED <==> n in CREDENTIALS || n in WHATSAPP {
      RemovedLists(n);
    }
  }

  // ---------------------------------------------------------------- how the steps add up over a loop

  lemma SeedNone(c: Configs, orgs: set<int>)
    ensures Seed(c, orgs, {}) == c
  {
    assert Needed(orgs, {}) == {};
  }

  lemma SeedNowhere(c: Configs, names: set<Name>)
    ensures Seed(c, {}, names) == c
  {
    assert Needed({}, names) == {};
  }

  lemma SeedNoGlobals(c: Configs)
    ensures SeedGlobal(c, {}) == c
  {
    assert GlobalKeys({}) == {};
  }

  lemma SeedMoreGlobals(c: Configs, names: set<Name>, n: Name)
    ensures SeedGlobal(c, names + {n}) ==
      var s := SeedGlobal(c, names); if CfgKey(n, None) in s then s else s[CfgKey(n, None) := Default(n)]
  {
    hide Default;
    assert GlobalKeys(names + {n}) == GlobalKeys(names) + {CfgKey(n, None)};
  }

  lemma SeedMoreNames(c: Configs, org: int, names: set<Name>, n: Name)
    ensures Seed(c, {org}, names + {n}) ==
      var s := Seed(c, {org}, names); if CfgKey(n, Some(org)) in s then s else s[CfgKey(n, Some(org)) := Default(n)]
  {
    hide Default;
    forall k ensures k in Needed({org}, names + {n}) <==> k in Needed({org}, names) || k == CfgKey(n, Some(org)) {
      KeyNeeded(k, {org}, names + {n});
      KeyNeeded(k, {org}, names);
    }
  }

  lemma SeedMoreOrgs(c: Configs, done: set<int>, org: int, names: set<Name>)
    ensures Seed(Seed(c, done, names), {org}, names) == Seed(c, done + {org}, names)
  {
    hide Default;
    forall k ensures k in Needed(done + {org}, names) <==> k in Needed(done, names) + Needed({org}, names) {
      KeyNeeded(k, done + {org}, names);
      KeyNeeded(k, done, names);
      KeyNeeded(k, {org}, names);
    }
  }

  function Prepared(c: Configs, orgs: set<int>): Configs {
    Tidy(Seed(c, orgs, REQUIRED), orgs)
  }

  lemma PreparedRow(c: Configs, orgs: set<int>, k: CfgKey)
    ensures var p := Prepared(c, orgs); var found := k in c || (Within(k, orgs) && k.name in REQUIRED);
      && (k in p <==> found && !(Within(k, orgs) && k.name in REMOVED))
      && (k in p ==> var r := if k in c then c[k] else Default(k.name);
        p[k] == if Within(k, orgs) then Retouch(k.name, r) else r)
  {
    hide Default, Retouch, REQUIRED, REMOVED;
    KeyNeeded(k, orgs, REQUIRED);
  }

  lemma PrepareMore(c: Configs, done: set<int>, org: int)
    requires org !in done
    ensures Prepared(Prepared(c, done), {org}) == Prepared(c, done + {org})
  {
    hide Prepared, Default, Retouch, REQUIRED, REMOVED;
    var p, more := Prepared(Prepared(c, done), {org}), Prepared(c, done + {org});
    forall k ensures (k in p <==> k in more) && (k in p ==> p[k] == more[k]) {
      PreparedRow(c, done, k);
      PreparedRow(Prepared(c, done), {org}, k);
      PreparedRow(c, done + {org}, k);
    }
  }

  /** Only the organisation's own list of exchanges matters for its labels. */
  lemma LabelsMore(l: set<(int, string)>, c: Configs, d: Configs, done: set<int>, org: int)
    requires org !in done
    requires forall o | o in done :: ActiveExchanges(c, o) == ActiveExchanges(d, o)
    ensures LabelsAfter(LabelsAfter(l, c, done), d, {org}) == LabelsAfter(l, d, done + {org})
  {
    hide ActiveExchanges, DEFAULT_LABELS, ASX_LABELS, CRYPTO_LABELS;
    var before := LabelsAfter(l, c, done);
    assert HasLabels(before, org) == HasLabels(l, org) by {
      if HasLabels(l, org) {
        var x :| x in l && x.0 == org;
        assert x in before;
      }
    }
    assert LabelsFor(before, d, org) == LabelsFor(l, d, org);
    forall o | o in done ensures LabelsFor(l, c, o) == LabelsFor(l, d, o) {
    }
    forall o, name
      ensures (o, name) in NewLabels(l, d, done + {org}) <==>
        (o, name) in NewLabels(l, c, done) + NewLabels(before, d, {org})
    {
    }
  }

  lemma PreparedExchanges(c: Configs, done: set<int>, org: int, o: int)
    requires org !in done && o in done
    ensures ActiveExchanges(Prepared(c, done), o) == ActiveExchanges(Prepared(c, done + {org}), o)
  {
    hide Prepared, Default, Retouch, REQUIRED, REMOVED, Split;
    PreparedRow(c, done, CfgKey(active_exchanges, Some(o)));
    PreparedRow(c, done + {org}, CfgKey(active_exchanges, Some(o)));
  }

  predicate GetsCopy(rules: Rules, orgs: set<int>, k: RuleKey) {
    k.org.Some? && k.org.value in orgs && RuleKey(k.id, None) in rules && !HasRules(rules, k.org)
  }

  lemma CloneRow(rules: Rules, orgs: set<int>, k: RuleKey)
    ensures var c := CloneRules(rules, orgs);
      && (k in c <==> k in rules || GetsCopy(rules, orgs, k))
      && (k in c ==> c[k] == if k in rules then rules[k] else rules[RuleKey(k.id, None)].(author := "migration"))
  {
    hide HasRules;
    if GetsCopy(rules, orgs, k) {
      var org, t := k.org.value, RuleKey(k.id, None);
      assert org in orgs && t in rules && t.org == None && !HasRules(rules, Some(org));
      assert RuleKey(t.id, Some(org)) in CloneKeys(rules, orgs);
    }
  }

  lemma CloneGivesRules(rules: Rules, done: set<int>, org: Option<int>)
    requires org.Some? && org.value !in done
    ensures HasRules(CloneRules(rules, done), org) == HasRules(rules, org)
  {
    hide CloneRules;
    if HasRules(rules, org) {
      var k :| k in rules && k.org == org;
      CloneRow(rules, done, k);
    } else if HasRules(CloneRules(rules, done), org) {
      var k :| k in CloneRules(rules, done) && k.org == org;
      CloneRow(rules, done, k);
    }
  }

  lemma CloneMore(rules: Rules, done: set<int>, org: int)
    requires org !in done
    ensures CloneRules(CloneRules(rules, done), {org}) == CloneRules(rules, done + {org})
  {
    hide CloneRules, HasRules;
    var before := CloneRules(rules, done);
    CloneGivesRules(rules, done, Some(org));
    var c, more := CloneRules(before, {org}), CloneRules(rules, done + {org});
    forall k ensures (k in c <==> k in more) && (k in c ==> c[k] == more[k]) {
      CloneRow(rules, done, k);
      CloneRow(rules, done, RuleKey(k.id, None));
      CloneRow(before, {org}, k);
      CloneRow(rules, done + {org}, k);
    }
  }

  lemma SeedMoreRules(rules: Rules, orgs: set<int>, ids: set<RuleId>, id: RuleId)
    ensures SeedRules(SeedRules(rules, orgs, ids), orgs, {id}) == SeedRules(rules, orgs, ids + {id})
  {
    hide NewRule;
    forall k ensures k in RuleKeys(ids + {id}, orgs) <==> k in RuleKeys(ids, orgs) + RuleKeys({id}, orgs) {
      KeyCovered(k, ids + {id}, orgs);
      KeyCovered(k, ids, orgs);
      KeyCovered(k, {id}, orgs);
    }
  }

  lemma SeedMoreCopies(rules: Rules, orgs: set<int>, id: RuleId, org: int)
    ensures SeedRules(rules, orgs + {org}, {id}) ==
      var s := SeedRules(rules, orgs, {id});
        if RuleKey(id, Some(org)) in s then s else s[RuleKey(id, Some(org)) := NewRule(id)]
  {
    hide NewRule;
    forall k ensures k in RuleKeys({id}, orgs + {org}) <==> k in RuleKeys({id}, orgs) || k == RuleKey(id, Some(org)) {
      KeyCovered(k, {id}, orgs + {org});
      KeyCovered(k, {id}, orgs);
    }
  }

  lemma ScopeUntouched(r: Cfg)
    ensures asx_universe_scope !in REMOVED && Retouch(asx_universe_scope, r) == r
  {
  }

  /** The universe scope can be seeded after the tidying. */
  lemma PrepareInSteps(c: Configs, org: int)
    ensures Prepared(c, {org}) ==
      Seed(Tidy(Seed(c, {org}, Elements(REQUIRED_LIST)), {org}), {org}, {asx_universe_scope})
  {
    hide REQUIRED_LIST, REQUIRED, REMOVED, Retouch, Default, Elements, Prepared;
    NameElements();
    var early := Elements(REQUIRED_LIST);
    var s := Seed(c, {org}, early);
    var t := Tidy(s, {org});
    var u := Seed(t, {org}, {asx_universe_scope});
    var p := Prepared(c, {org});
    forall k ensures (k in p <==> k in u) && (k in p ==> p[k] == u[k]) {
      PreparedRow(c, {org}, k);
      KeyNeeded(k, {org}, early);
      KeyNeeded(k, {org}, {asx_universe_scope});
      ScopeUntouched(Default(asx_universe_scope));
    }
  }

  function Copies(rules: Rules, org: int): Rules {
    map k | k in (set t | t in rules && t.org == None :: RuleKey(t.id, Some(org))) ::
      rules[RuleKey(k.id, None)].(author := "migration")
  }

  lemma CopiesAreClones(rules: Rules, org: int)
    ensures CloneRules(rules, {org}) ==
      if !HasRules(rules, Some(org)) && HasRules(rules, None) then rules + Copies(rules, org) else rules
  {
    hide CloneRules;
    var c := CloneRules(rules, {org});
    var d := if !HasRules(rules, Some(org)) && HasRules(rules, None) then rules + Copies(rules, org) else rules;
    forall k ensures (k in c <==> k in d) && (k in c ==> c[k] == d[k]) {
      CloneRow(rules, {org}, k);
      CopyRow(rules, org, k);
    }
  }

  lemma CopyRow(rules: Rules, org: int, k: RuleKey)
    ensures k in Copies(rules, org) <==> k.org == Some(org) && RuleKey(k.id, None) in rules
  {
    var t := RuleKey(k.id, None);
    if k.org == Some(org) && t in rules {
      assert k == RuleKey(t.id, Some(org));
      assert t.org == None;
    }
  }

  lemma NothingYet(c: Configs, l: set<(int, string)>, r: Rules)
    ensures Prepared(c, {}) == c && LabelsAfter(l, c, {}) == l && CloneRules(r, {}) == r
  {
    hide REQUIRED, REMOVED, Retouch, Default;
    assert Needed({}, REQUIRED) == {};
    assert CloneKeys(r, {}) == {};
  }

  ghost predicate Distinct(ids: seq<int>) {
    forall i, j | 0 <= i < j < |ids| :: ids[i] != ids[j]
  }

  lemma SeedNoRules(rules: Rules, orgs: set<int>)
    ensures SeedRules(rules, orgs, {}) == rules
  {
    assert RuleKeys({}, orgs) == {};
  }

  lemma SeedTemplate(rules: Rules, id: RuleId)
    ensures SeedRules(rules, {}, {id}) == if RuleKey(id, None) in rules then rules
      else rules[RuleKey(id, None) := NewRule(id)]
  {
    hide NewRule;
    assert RuleKeys({id}, {}) == {RuleKey(id, None)};
  }

  lemma RuleElements()
    ensures Elements([regime_bear_block_equities, regime_bear_block_crypto]) == BEAR_RULES
    ensures Elements([equity_stop_width_max_pct, exit_earnings_hold_cushion_pct, exit_trail_giveback_pct]) ==
      TUNE_UP_RULES
    ensures Elements([exit_failed_breakout]) == BREAKOUT_RULES
  {
  }

  lemma SoundElsewhere(d: Db, e: Db)
    requires Sound(d) && e == d.(owned := e.owned, configs := e.configs)
    ensures Sound(e)
  {
  }

  lemma BackfillSound(db: Db)
    requires Sound(db)
    ensures Sound(db.(memberships := Backfill(db.memberships, db.users)))
  {
  }

  /** Where a row is found after the hand-over. */
  function Heir(k: CfgKey, home: int): CfgKey {
    if Orphan(k) then CfgKey(k.name, Some(home)) else k
  }

  lemma HandOverKeepsRows(c: Configs, home: int)
    ensures Collides(c, home) <==> exists k :: k in c && Orphan(k) && CfgKey(k.name, Some(home)) in c
    ensures !Collides(c, home) ==> |Adopt(c, home)| == |c|
    ensures forall k | k in Adopt(c, home) :: !Orphan(k)
    ensures !Collides(c, home) ==>
      forall k | k in c :: Heir(k, home) in Adopt(c, home) && Adopt(c, home)[Heir(k, home)] == c[k]
  {
    var moved := Adopted(c, home);
    assert Collides(c, home) ==> exists t :: t in moved && t in c by {
      if Collides(c, home) {
        var t :| t in moved * c.Keys;
      }
    }
    if k: CfgKey :| k in c && Orphan(k) && CfgKey(k.name, Some(home)) in c {
      assert CfgKey(k.name, Some(home)) in moved * c.Keys;
    }
    if !Collides(c, home) {
      forall k | k in c && Orphan(k) ensures Heir(k, home) in moved && Heir(k, home) !in c {
        assert Heir(k, home) in moved;
        assert Heir(k, home) !in moved * c.Keys;
      }
      SameSize(c, home);
    }
  }

  lemma SameSize(c: Configs, home: int)
    requires !Collides(c, home)
    ensures |Adopt(c, home)| == |c|
  {
    AdoptKeys(c, home);
    forall k, l | k in c.Keys && l in c.Keys && Heir(k, home) == Heir(l, home) ensures k == l {
      HeirsDiffer(c, home, k, l);
    }
    hide Heir, Adopt, Collides;
    HeirsSize(c.Keys, home);
    assert (set k | k in c :: Heir(k, home)) == set k | k in c.Keys :: Heir(k, home);
    assert |Adopt(c, home)| == |Adopt(c, home).Keys| && |c| == |c.Keys|;
  }

  lemma AdoptKeys(c: Configs, home: int)
    ensures Adopt(c, home).Keys == set k | k in c :: Heir(k, home)
  {
    hide Orphan;
    var heirs := set k | k in c :: Heir(k, home);
    forall k ensures k in Adopt(c, home) <==> k in heirs {
      MigrationFixpoint.NotOrphan(k);
      if k in Adopt(c, home) && k !in c {
        var o :| o in c && Orphan(o) && k == CfgKey(o.name, Some(home));
        assert k == Heir(o, home);
      } else if k in Adopt(c, home) {
        assert k == Heir(k, home);
      }
    }
  }

  lemma HeirsDiffer(c: Configs, home: int, k: CfgKey, l: CfgKey)
    requires !Collides(c, home) && k in c && l in c && Heir(k, home) == Heir(l, home)
    ensures k == l
  {
    if Orphan(k) {
      assert Heir(k, home) in Adopted(c, home);
    }
    if Orphan(l) {
      assert Heir(l, home) in Adopted(c, home);
    }
    forall m | m in Adopted(c, home) ensures m !in c {
      assert m !in Adopted(c, home) * c.Keys;
    }
  }

  lemma {:induction false} HeirsSize(keys: set<CfgKey>, home: int)
    requires forall k, l | k in keys && l in keys && Heir(k, home) == Heir(l, home) :: k == l
    ensures |set k | k in keys :: Heir(k, home)| == |keys|
    decreases |keys|
  {
    hide Heir;
    var heirs := set k | k in keys :: Heir(k, home);
    if keys != {} {
      var k :| k in keys;
      assert heirs - {Heir(k, home)} == set l | l in keys - {k} :: Heir(l, home);
      HeirsSize(keys - {k}, home);
      assert Heir(k, home) in heirs;
    } else {
      assert heirs == {};
    }
  }

  // ---------------------------------------------------------------- the run

  class Tables {
    var orgs: map<int, Org>
    var nextOrg: int
    var users: map<int, User>
    var nextUser: int
    var memberships: map<(int, int), bool>
    var owned: map<int, Option<int>>
    var configs: Configs
    var labels: set<(int, string)>
    var rules: Rules

    /** All the tables at once. */
    ghost function View(): Db
      reads this
    {
      Db(orgs, nextOrg, users, nextUser, memberships, owned, configs, labels, rules)
    }

    method FoundDefaultOrg() returns (home: int)
      requires Sound(View())
      modifies this`orgs, this`nextOrg
      ensures View() == WithDefaultOrg(old(View()))
      ensures Sound(View()) && HasDefaultOrg(orgs) && home == DefaultOrgId(orgs)
      ensures home in orgs && orgs[home].name == "Default Org"
      ensures (exists id :: id in old(orgs) && old(orgs)[id].name == "Default Org") ==> orgs == old(orgs)
      ensures !(exists id :: id in old(orgs) && old(orgs)[id].name == "Default Org") ==>
        home == old(nextOrg) && orgs == old(orgs)[home := Org("Default Org", true)]
    {
      if !HasDefaultOrg(orgs) {
        orgs := orgs[nextOrg := Org(DEFAULT_ORG, true)];
        nextOrg := nextOrg + 1;
        assert orgs[old(nextOrg)].name == DEFAULT_ORG;
      }
      home := DefaultOrgId(orgs);
    }

    /**
      The rows of all tables go to the default organisation together, or none does: the latter exactly when
      some key has a row there already. Every row is found afterwards, with what it held, in one place.
     */
    method HandRowsOver(home: int) returns (ok: bool)
      modifies this`owned, this`configs
      ensures ok <==> !exists k :: k in old(configs) && Orphan(k) && CfgKey(k.name, Some(home)) in old(configs)
      ensures ok == !Collides(old(configs), home)
      ensures configs == if ok then Adopt(old(configs), home) else old(configs)
      ensures owned == if ok then HandOver(old(owned), home) else old(owned)
      ensures ok ==> owned.Keys == old(owned).Keys && forall row | row in owned ::
        owned[row] == if old(owned)[row].None? then Some(home) else old(owned)[row]
      ensures ok ==> (forall k | k in configs :: !Orphan(k)) && (forall row | row in owned :: owned[row].Some?)
      ensures ok ==> |configs| == |old(configs)| && forall k | k in old(configs) ::
        Heir(k, home) in configs && configs[Heir(k, home)] == old(configs)[k]
    {
      HandOverKeepsRows(configs, home);
      hide Orphan;
      ok := !Collides(configs, home);
      if ok {
        configs := Adopt(configs, home);
        owned := HandOver(owned, home);
      }
    }

    /**
      There is an administrator afterwards; one made here lives in the default organisation, and nobody else
      changes.
     */
    method SeedAdmin(home: int)
      requires Sound(View())
      modifies this`users, this`nextUser
      ensures View() == WithAdmin(old(View()), home)
      ensures HasAdmin(users) && Sound(View())
      ensures forall id | id in old(users) :: id in users && users[id] == old(users)[id]
      ensures forall id | id in users && id !in old(users) ::
        users[id] == User("admin@vcpilot.com", home) && !HasAdmin(old(users))
    {
      if !HasAdmin(users) {
        users := users[nextUser := User(ADMIN_EMAIL, home)];
        assert users[nextUser].email == ADMIN_EMAIL;
        nextUser := nextUser + 1;
      }
    }

    method EnsureKeys(org: int, names: seq<Name>)
      modifies this`configs
      ensures configs == Seed(old(configs), {org}, Elements(names))
    {
      hide Default, Seed;
      SeedNone(configs, {org});
      assert Elements(names[..0]) == {};
      for i := 0 to |names|
        invariant configs == Seed(old(configs), {org}, Elements(names[..i]))
      {
        SeedMoreNames(old(configs), org, Elements(names[..i]), names[i]);
        ElementsNext(names, i);
        if CfgKey(names[i], Some(org)) !in configs {
          configs := configs[CfgKey(names[i], Some(org)) := Default(names[i])];
        }
      }
      assert names[..|names|] == names;
    }

    method EnsureGlobalKeys()
      modifies this`configs
      ensures configs == SeedGlobal(old(configs), GLOBAL_SEEDS)
    {
      hide Default, GLOBAL_SEED_LIST, SeedGlobal;
      var names := GLOBAL_SEED_LIST;
      SeedNoGlobals(configs);
      assert Elements(names[..0]) == {};
      for i := 0 to |names|
        invariant configs == SeedGlobal(old(configs), Elements(names[..i]))
      {
        SeedMoreGlobals(old(configs), Elements(names[..i]), names[i]);
        ElementsNext(names, i);
        if CfgKey(names[i], None) !in configs {
          configs := configs[CfgKey(names[i], None) := Default(names[i])];
        }
      }
      assert names[..|names|] == names;
      NameElements();
    }

    /** The relabellings and deletions for one organisation. */
    method TidyKeys(org: int)
      modifies this`configs
      ensures configs == Tidy(old(configs), {org})
    {
      TidyInSteps(configs, org);
      configs := UpdatedFor(configs, org, Relabel);
      configs := WithoutFor(configs, org, CREDENTIALS);
      configs := UpdatedFor(configs, org, Regroup);
      configs := WithoutFor(configs, org, WHATSAPP);
    }

    /** Inserts the labels the organisation lacks. */
    method AddLabels(org: int, names: seq<string>)
      modifies this`labels
      ensures labels == old(labels) + set name | name in Elements(names) :: (org, name)
    {
      for i := 0 to |names|
        invariant labels == old(labels) + set name | name in Elements(names[..i]) :: (org, name)
      {
        ElementsNext(names, i);
        if (org, names[i]) !in labels {
          labels := labels + {(org, names[i])};
        }
      }
      assert names[..|names|] == names;
    }

    method SeedLabels(org: int)
      modifies this`labels
      ensures labels == LabelsAfter(old(labels), configs, {org})
    {
      hide Split, Strip, DEFAULT_LABELS, ASX_LABELS, CRYPTO_LABELS;
      LabelElements();
      if !HasLabels(labels, org) {
        AddLabels(org, DEFAULT_LABEL_LIST);
      }
      if "ASX" in ActiveExchanges(configs, org) {
        AddLabels(org, ASX_LABEL_LIST);
      }
      if TradesCrypto(configs, org) {
        AddLabels(org, CRYPTO_LABEL_LIST);
      }
    }

    method CopyTemplates(org: int)
      modifies this`rules
      ensures rules == CloneRules(old(rules), {org})
    {
      hide CloneRules, Copies;
      CopiesAreClones(rules, org);
      if !HasRules(rules, Some(org)) && HasRules(rules, None) {
        rules := rules + Copies(rules, org);
      }
    }

    /** What is done for each organisation in turn. */
    method PrepareOrg(org: int)
      modifies this`configs, this`labels, this`rules
      ensures configs == Prepared(old(configs), {org})
      ensures labels == LabelsAfter(old(labels), configs, {org})
      ensures rules == CloneRules(old(rules), {org})
    {
      hide Prepared, Seed, Tidy, LabelsAfter, CloneRules;
      PrepareInSteps(configs, org);
      EnsureKeys(org, REQUIRED_LIST);
      TidyKeys(org);
      assert Elements([asx_universe_scope]) == {asx_universe_scope};
      EnsureKeys(org, [asx_universe_scope]);
      SeedLabels(org);
      CopyTemplates(org);
    }

    method PrepareOrgs(ids: seq<int>)
      requires Distinct(ids)
      modifies this`configs, this`labels, this`rules
      ensures configs == Prepared(old(configs), Elements(ids))
      ensures labels == LabelsAfter(old(labels), configs, Elements(ids))
      ensures rules == CloneRules(old(rules), Elements(ids))
    {
      hide Prepared, LabelsAfter, CloneRules, ActiveExchanges;
      NothingYet(configs, labels, rules);
      assert Elements(ids[..0]) == {};
      for i := 0 to |ids|
        invariant configs == Prepared(old(configs), Elements(ids[..i]))
        invariant labels == LabelsAfter(old(labels), configs, Elements(ids[..i]))
        invariant rules == CloneRules(old(rules), Elements(ids[..i]))
      {
        ghost var done := Elements(ids[..i]);
        assert ids[i] !in done;
        PrepareMore(old(configs), done, ids[i]);
        CloneMore(old(rules), done, ids[i]);
        forall o | o in done
          ensures ActiveExchanges(Prepared(old(configs), done), o) ==
            ActiveExchanges(Prepared(old(configs), done + {ids[i]}), o)
        {
          PreparedExchanges(old(configs), done, ids[i], o);
        }
        LabelsMore(old(labels), configs, Prepared(old(configs), done + {ids[i]}), done, ids[i]);
        ElementsNext(ids, i);
        PrepareOrg(ids[i]);
      }
      assert ids[..|ids|] == ids;
    }

    method EnsureMarketKeys(ids: seq<int>)
      modifies this`configs
      ensures configs == Seed(old(configs), Elements(ids), MULTI_MARKET)
    {
      hide Seed, MULTI_MARKET, MULTI_MARKET_LIST;
      NameElements();
      SeedNowhere(configs, MULTI_MARKET);
      assert Elements(ids[..0]) == {};
      for i := 0 to |ids|
        invariant configs == Seed(old(configs), Elements(ids[..i]), MULTI_MARKET)
      {
        SeedMoreOrgs(old(configs), Elements(ids[..i]), ids[i], MULTI_MARKET);
        ElementsNext(ids, i);
        EnsureKeys(ids[i], MULTI_MARKET_LIST);
      }
      assert ids[..|ids|] == ids;
    }

    /** The base URL is a global setting only. */
    method SettleBaseUrl()
      modifies this`configs
      ensures configs == SettleUrl(old(configs))
    {
      hide Default;
      configs := map k | k in configs && !LocalUrl(k) :: configs[k];
      if CfgKey(mcp_base_url, None) !in configs {
        configs := configs[CfgKey(mcp_base_url, None) := Default(mcp_base_url)];
      }
    }

    /** One new rule: its template, then a row for each of the organisations. */
    method EnsureRule(id: RuleId, ids: seq<int>)
      modifies this`rules
      ensures rules == SeedRules(old(rules), Elements(ids), {id})
    {
      hide NewRule, SeedRules;
      SeedTemplate(rules, id);
      if RuleKey(id, None) !in rules {
        rules := rules[RuleKey(id, None) := NewRule(id)];
      }
      assert Elements(ids[..0]) == {};
      for i := 0 to |ids|
        invariant rules == SeedRules(old(rules), Elements(ids[..i]), {id})
      {
        SeedMoreCopies(old(rules), Elements(ids[..i]), id, ids[i]);
        ElementsNext(ids, i);
        if RuleKey(id, Some(ids[i])) !in rules {
          rules := rules[RuleKey(id, Some(ids[i])) := NewRule(id)];
        }
      }
      assert ids[..|ids|] == ids;
    }

    method EnsureRules(news: seq<RuleId>, ids: seq<int>)
      modifies this`rules
      ensures rules == SeedRules(old(rules), Elements(ids), Elements(news))
    {
      hide SeedRules;
      SeedNoRules(rules, Elements(ids));
      assert Elements(news[..0]) == {};
      for i := 0 to |news|
        invariant rules == SeedRules(old(rules), Elements(ids), Elements(news[..i]))
      {
        SeedMoreRules(old(rules), Elements(ids), Elements(news[..i]), news[i]);
        ElementsNext(news, i);
        EnsureRule(news[i], ids);
      }
      assert news[..|news|] == news;
    }

    /** The steps after the organisations' loop. */
    method SeedTheRest(ids: seq<int>, active: seq<int>)
      modifies this`configs, this`rules
      ensures configs == SettleUrl(Seed(SeedGlobal(old(configs), GLOBAL_SEEDS), Elements(ids), MULTI_MARKET))
      ensures rules == Retuned(old(rules), Elements(ids), Elements(active))
    {
      hide Seed, SeedGlobal, SettleUrl, SeedRules, Migration.Updated, Elements;
      EnsureGlobalKeys();
      rules := Migration.Updated(rules, ByAssetType);
      RuleElements();
      EnsureRules([regime_bear_block_equities, regime_bear_block_crypto], active);
      rules := Migration.Updated(rules, RaiseRsFloor);
      EnsureRules([equity_stop_width_max_pct, exit_earnings_hold_cushion_pct, exit_trail_giveback_pct], ids);
      rules := Migration.Updated(rules, RelabelTarget);
      EnsureMarketKeys(ids);
      SettleBaseUrl();
      rules := Migration.Updated(rules, TightenPosition);
      EnsureRules([exit_failed_breakout], ids);
    }

    /** The steps up to the administrator: memberships, the default organisation, its rows. */
    method Settle() returns (ok: bool, home: int)
      requires Sound(View())
      modifies this
      ensures home == DefaultOrgId(Founded(old(View())).orgs) && ok == !Collides(old(configs), home)
      ensures View() == if ok
        then WithAdmin(Founded(old(View())), home).(
          owned := HandOver(old(owned), home), configs := Adopt(old(configs), home))
        else Founded(old(View()))
    {
      hide Adopt, Orphan, Heir, Collides, Backfill, HandOver, Serial, UniqueNames, HasDefaultOrg, DefaultOrgId,
        HasAdmin;
      memberships := Backfill(memberships, users);
      assert Sound(View()) by { BackfillSound(old(View())); }
      home := FoundDefaultOrg();
      assert View() == Founded(old(View()));
      ok := HandRowsOver(home);
      if !ok { return; }
      SoundElsewhere(Founded(old(View())), View());
      SeedAdmin(home);
    }

    /**
      The migration. It stops at a key collision, with what was committed before. `select` lists the ids
      of a set of organisations in the order the database returns them.
     */
    method Migrate(select: set<int> -> seq<int>) returns (ok: bool)
      requires Sound(View())
      requires forall s :: Elements(select(s)) == s && Distinct(select(s))
      modifies this
      ensures ok == Migration.Migrate(old(View())).Completed? && View() == Migration.Migrate(old(View())).db
    {
      hide Adopt, Seed, SettleUrl, LabelsAfter, CloneRules, Retuned, Collides, Backfill, HandOver, Active, Elements,
        Serial, UniqueNames, HasDefaultOrg, DefaultOrgId, HasAdmin;
      var home;
      ok, home := Settle();
      if !ok { return; }
      var ids, active := select(orgs.Keys), select(Active(orgs));
      PrepareOrgs(ids);
      assert configs == ConfigsForLabels(old(configs), home, orgs.Keys);
      SeedTheRest(ids, active);
    }
  }
}
