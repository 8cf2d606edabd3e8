/**
  The rule configuration rows: one template per rule and at most one row per rule and organisation, and
  every handler that writes them.
 */
module RuleLifecycle {
  import opened Common

  datatype Override = Override(enabled: Option<bool>, threshold: Option<real>)

  datatype Rule = Rule(enabled: bool, mandatory: bool, threshold: Option<real>, min: Option<real>, max: Option<real>,
                       overrides: map<string, Override>, assets: string, updatedBy: Option<string>)

  /** The row of an organisation, or with None the template. */
  datatype Key = Key(rule: string, org: Option<int>)

  type Book = map<Key, Rule>

  /** Stamps of rows nobody edited by hand. */
  const UNEDITED := {None, Some("superadmin"), Some("migration"), Some("system"), Some("admin")}
  const SYNC_STAMP := Some("superadmin:sync")

  function Template(k: Key): Key { Key(k.rule, None) }

  /** Whether the rule applies to accounts of a tier. */
  predicate EnabledFor(r: Rule, tier: string) {
    r.enabled && (tier in r.overrides ==> r.overrides[tier].enabled != Some(false))
  }

  /**
    The copy made for one organisation by the dashboard and on sign-up, which leave the asset types at their
    default.
   */
  function Clone(t: Rule, stamp: string): Rule { t.(assets := "BOTH", updatedBy := Some(stamp)) }

  // ---------------------------------------------------------------- sync-all

  predicate Edited(r: Rule) { r.updatedBy !in UNEDITED }

  /** Whether a sync writes row `k`. */
  predicate Syncs(book: Book, force: bool, k: Key)
    requires k in book
  {
    k.org.Some? && Template(k) in book && (force || !Edited(book[k]))
  }

  function Copied(r: Rule, t: Rule): Rule {
    r.(enabled := t.enabled, threshold := t.threshold, overrides := t.overrides, updatedBy := SYNC_STAMP)
  }

  function SyncedRow(book: Book, force: bool, k: Key): Rule
    requires k in book || Template(k) in book
  {
    if k !in book then book[Template(k)].(updatedBy := SYNC_STAMP)
    else if Syncs(book, force, k) then Copied(book[k], book[Template(k)])
    else book[k]
  }

  function Templates(book: Book): set<Key> {
    set k | k in book && k.org == None
  }

  /** Rows of organisations for rules that have a template. */
  function OrgRows(book: Book): set<Key> {
    set k | k in book && k.org.Some? && Template(k) in book
  }

  function MissingRows(book: Book, orgs: set<int>): set<Key> {
    set t, org | t in Templates(book) && org in orgs && Key(t.rule, Some(org)) !in book :: Key(t.rule, Some(org))
  }

  function Sync(book: Book, orgs: set<int>, force: bool): Book {
    map k | k in book.Keys + MissingRows(book, orgs) :: SyncedRow(book, force, k)
  }

  // ---------------------------------------------------------------- the other handlers

  /** The dashboard toggle: a missing row is cloned from the template first, mandatory or not. */
  function Toggle(book: Book, org: int, rule: string): Book {
    var k := Key(rule, Some(org));
    var there := if k in book || Template(k) !in book then book else book[k := Clone(book[Template(k)], "admin")];
    if k in there && !there[k].mandatory then there[k := there[k].(enabled := !there[k].enabled)] else there
  }

  /** Bounds as the dashboard takes them: zero is a bound like any other. */
  predicate StrictlyWithin(r: Rule, threshold: real) {
    (r.min.Some? ==> r.min.value <= threshold) && (r.max.Some? ==> threshold <= r.max.value)
  }

  /** The dashboard's threshold: a missing row is cloned first, whatever becomes of the value. */
  function SetThreshold(book: Book, org: int, rule: string, threshold: real): Book {
    var k := Key(rule, Some(org));
    var there := if k in book || Template(k) !in book then book else book[k := Clone(book[Template(k)], "admin")];
    if k in there && there[k].threshold.Some? && StrictlyWithin(there[k], threshold)
    then there[k := there[k].(threshold := Some(threshold))] else there
  }

  function ToggleGlobal(book: Book, rule: string): Book {
    var k := Key(rule, None);
    if k in book && !book[k].mandatory
    then book[k := book[k].(enabled := !book[k].enabled, updatedBy := Some("superadmin"))] else book
  }

  function OverrideOf(r: Rule, tier: string): Override {
    if tier in r.overrides then r.overrides[tier] else Override(None, None)
  }

  function ToggleTier(book: Book, rule: string, tier: string): Book {
    var k := Key(rule, None);
    if k in book && !book[k].mandatory then
      var o := OverrideOf(book[k], tier);
      var flipped := o.(enabled := Some(o.enabled == Some(false)));
      book[k := book[k].(overrides := book[k].overrides[tier := flipped], updatedBy := Some("superadmin"))]
    else book
  }

  function TierThreshold(book: Book, rule: string, tier: string, threshold: real): Book {
    var k := Key(rule, None);
    if k in book && book[k].threshold.Some? then
      var o := OverrideOf(book[k], tier).(threshold := Some(threshold));
      book[k := book[k].(overrides := book[k].overrides[tier := o], updatedBy := Some("superadmin"))]
    else book
  }

  /** A new organisation gets a clone of every template. */
  function SignUp(book: Book, org: int): Book {
    book + map t | t in Templates(book) && Key(t.rule, Some(org)) !in book ::
      Key(t.rule, Some(org)) := Clone(book[t], "superadmin")
  }

  function TelegramRule(book: Book, org: int, rule: string, on: bool): Book {
    var k := Key(rule, Some(org));
    if k in book && (on || !book[k].mandatory) then book[k := book[k].(enabled := on, updatedBy := Some("agent"))]
    else book
  }

  datatype Reply = Done | NothingGiven | NoSuchRule | Mandatory | OutOfBounds

  /** A bound of zero counts as no bound. */
  predicate WithinBounds(r: Rule, threshold: real) {
    && (r.min.Some? && r.min.value != 0.0 ==> r.min.value <= threshold)
    && (r.max.Some? && r.max.value != 0.0 ==> threshold <= r.max.value)
  }

  function McpReply(book: Book, org: int, rule: string, enabled: Option<bool>, threshold: Option<real>): Reply {
    var k := Key(rule, Some(org));
    if enabled.None? && threshold.None? then NothingGiven
    else if k !in book then NoSuchRule
    else if book[k].mandatory && enabled == Some(false) then Mandatory
    else if threshold.Some? && !WithinBounds(book[k], threshold.value) then OutOfBounds
    else Done
  }

  /** The switch is set before the threshold is checked, and leaving the session commits it either way. */
  function McpUpdate(book: Book, org: int, rule: string, enabled: Option<bool>, threshold: Option<real>): Book {
    var k := Key(rule, Some(org));
    var reply := McpReply(book, org, rule, enabled, threshold);
    if reply !in {Done, OutOfBounds} then book
    else
      var switched := if enabled.Some? then book[k].(enabled := enabled.value) else book[k];
      book[k := if reply == Done && threshold.Some? then switched.(threshold := threshold) else switched]
  }

  datatype Action =
    | DoToggle(org: int, rule: string)
    | DoSetThreshold(org: int, rule: string, value: real)
    | DoToggleGlobal(rule: string)
    | DoToggleTier(rule: string, tier: string)
    | DoTierThreshold(rule: string, tier: string, value: real)
    | DoSignUp(org: int)
    | DoSync(orgs: set<int>, force: bool)
    | DoTelegramRule(org: int, rule: string, on: bool)
    | DoMcpUpdate(org: int, rule: string, enabled: Option<bool>, threshold: Option<real>)

  function Next(book: Book, a: Action): Book {
    match a
    case DoToggle(org, rule) => Toggle(book, org, rule)
    case DoSetThreshold(org, rule, threshold) => SetThreshold(book, org, rule, threshold)
    case DoToggleGlobal(rule) => ToggleGlobal(book, rule)
    case DoToggleTier(rule, tier) => ToggleTier(book, rule, tier)
    case DoTierThreshold(rule, tier, threshold) => TierThreshold(book, rule, tier, threshold)
    case DoSignUp(org) => SignUp(book, org)
    case DoSync(orgs, force) => Sync(book, orgs, force)
    case DoTelegramRule(org, rule, on) => TelegramRule(book, org, rule, on)
    case DoMcpUpdate(org, rule, enabled, threshold) => McpUpdate(book, org, rule, enabled, threshold)
  }

  function Run(book: Book, actions: seq<Action>): Book {
    if actions == [] then book else Next(Run(book, actions[..|actions| - 1]), actions[|actions| - 1])
  }

  // ---------------------------------------------------------------- mandatory rules stay on

  ghost predicate FullyOn(r: Rule) {
    forall tier: string :: EnabledFor(r, tier)
  }

  ghost predicate MandatoryOn(book: Book) {
    forall k | k in book && book[k].mandatory :: FullyOn(book[k])
  }

  /** All rows of a rule agree on whether it is mandatory. */
  ghost predicate Agreed(book: Book) {
    forall k, l | k in book && l in book && k.rule == l.rule :: book[k].mandatory == book[l].mandatory
  }

  /** Row `r` may stand where the agreement and the switch of rule `k` are as in `book`. */
  ghost predicate Fits(book: Book, k: Key, r: Rule) {
    && (r.mandatory ==> FullyOn(r))
    && exists l :: l in book && l.rule == k.rule && book[l].mandatory == r.mandatory
  }

  lemma FittingKeeps(book: Book, after: Book)
    requires Agreed(book) && forall k | k in after :: Fits(book, k, after[k])
    ensures Agreed(after) && MandatoryOn(after)
  {
    hide FullyOn;
    forall k, l | k in after && l in after && k.rule == l.rule ensures after[k].mandatory == after[l].mandatory {
      var m :| m in book && m.rule == k.rule && book[m].mandatory == after[k].mandatory;
      var n :| n in book && n.rule == l.rule && book[n].mandatory == after[l].mandatory;
    }
  }

  lemma SameSwitch(r: Rule, s: Rule)
    requires FullyOn(r) && s.enabled == r.enabled && s.overrides == r.overrides
    ensures FullyOn(s)
  {
    forall tier: string ensures EnabledFor(s, tier) {
      assert EnabledFor(r, tier);
    }
  }

  lemma OwnRowFits(book: Book, k: Key)
    requires MandatoryOn(book) && k in book
    ensures Fits(book, k, book[k])
  {
  }

  /** A row with its template's switch and mandatory flag fits. */
  lemma TemplateRowFits(book: Book, k: Key, r: Rule)
    requires MandatoryOn(book) && Agreed(book) && Template(k) in book
    requires r.enabled == book[Template(k)].enabled && r.overrides == book[Template(k)].overrides
    requires r.mandatory == book[Template(k)].mandatory
    ensures Fits(book, k, r)
  {
    if r.mandatory {
      SameSwitch(book[Template(k)], r);
    }
  }

  lemma SyncFits(book: Book, orgs: set<int>, force: bool, k: Key)
    requires MandatoryOn(book) && Agreed(book) && k in Sync(book, orgs, force)
    ensures Fits(book, k, Sync(book, orgs, force)[k])
  {
    hide MandatoryOn, Fits, FullyOn;
    if k in book && !Syncs(book, force, k) {
      OwnRowFits(book, k);
    } else {
      TemplateRowFits(book, k, SyncedRow(book, force, k));
    }
  }

  lemma SignUpFits(book: Book, org: int, k: Key)
    requires MandatoryOn(book) && Agreed(book) && k in SignUp(book, org)
    ensures Fits(book, k, SignUp(book, org)[k])
  {
    hide MandatoryOn, Fits, FullyOn, Agreed;
    if k in book {
      OwnRowFits(book, k);
    } else {
      TemplateRowFits(book, k, Clone(book[Template(k)], "superadmin"));
    }
  }

  /** A write to one existing row that keeps its mandatory flag and, if set, leaves its switch on. */
  lemma WriteFits(book: Book, k: Key, r: Rule)
    requires MandatoryOn(book) && Agreed(book) && k in book && r.mandatory == book[k].mandatory
    requires r.mandatory ==> FullyOn(r)
    ensures Agreed(book[k := r]) && MandatoryOn(book[k := r])
  {
  }

  lemma CloneFits(book: Book, k: Key, stamp: string)
    requires MandatoryOn(book) && Agreed(book) && k !in book && Template(k) in book
    ensures var r := Clone(book[Template(k)], stamp); Agreed(book[k := r]) && MandatoryOn(book[k := r])
  {
    var t := book[Template(k)];
    if t.mandatory {
      SameSwitch(t, Clone(t, stamp));
    }
  }

  lemma NextKeeps(book: Book, a: Action)
    requires MandatoryOn(book) && Agreed(book)
    ensures MandatoryOn(Next(book, a)) && Agreed(Next(book, a))
  {
    hide MandatoryOn, Agreed, FullyOn, Fits, Sync, SignUp, Clone;
    match a
    case DoToggle(org, rule) =>
      var k := Key(rule, Some(org));
      var there := book;
      if k !in book && Template(k) in book {
        CloneFits(book, k, "admin");
        there := book[k := Clone(book[Template(k)], "admin")];
      }
      if k in there && !there[k].mandatory {
        WriteFits(there, k, there[k].(enabled := !there[k].enabled));
      }
    case DoSetThreshold(org, rule, threshold) =>
      var k := Key(rule, Some(org));
      var there := book;
      if k !in book && Template(k) in book {
        CloneFits(book, k, "admin");
        there := book[k := Clone(book[Template(k)], "admin")];
      }
      if k in there && there[k].threshold.Some? && StrictlyWithin(there[k], threshold) {
        SwitchOn(there, k, there[k].(threshold := Some(threshold)));
        WriteFits(there, k, there[k].(threshold := Some(threshold)));
      }
    case DoToggleGlobal(rule) =>
      var k := Key(rule, None);
      if k in book && !book[k].mandatory {
        WriteFits(book, k, book[k].(enabled := !book[k].enabled, updatedBy := Some("superadmin")));
      }
    case DoToggleTier(rule, tier) =>
      var k := Key(rule, None);
      if k in book && !book[k].mandatory {
        WriteFits(book, k, ToggleTier(book, rule, tier)[k]);
      }
    case DoTierThreshold(rule, tier, threshold) =>
      var k := Key(rule, None);
      if k in book && book[k].threshold.Some? {
        ThresholdKeepsSwitch(book, rule, tier, threshold);
        WriteFits(book, k, TierThreshold(book, rule, tier, threshold)[k]);
      }
    case DoSignUp(org) =>
      forall k | k in SignUp(book, org) ensures Fits(book, k, SignUp(book, org)[k]) {
        SignUpFits(book, org, k);
      }
      FittingKeeps(book, SignUp(book, org));
    case DoSync(orgs, force) =>
      forall k | k in Sync(book, orgs, force) ensures Fits(book, k, Sync(book, orgs, force)[k]) {
        SyncFits(book, orgs, force, k);
      }
      FittingKeeps(book, Sync(book, orgs, force));
    case DoTelegramRule(org, rule, on) =>
      var k := Key(rule, Some(org));
      if k in book && (on || !book[k].mandatory) {
        SwitchOn(book, k, book[k].(enabled := on, updatedBy := Some("agent")));
        WriteFits(book, k, book[k].(enabled := on, updatedBy := Some("agent")));
      }
    case DoMcpUpdate(org, rule, enabled, threshold) =>
      var k := Key(rule, Some(org));
      if McpReply(book, org, rule, enabled, threshold) in {Done, OutOfBounds} {
        SwitchOn(book, k, McpUpdate(book, org, rule, enabled, threshold)[k]);
        WriteFits(book, k, McpUpdate(book, org, rule, enabled, threshold)[k]);
      }
  }

  lemma SwitchOn(book: Book, k: Key, r: Rule)
    requires MandatoryOn(book) && k in book && r.mandatory == book[k].mandatory && r.overrides == book[k].overrides
    requires r.mandatory ==> r.enabled || r.enabled == book[k].enabled
    ensures r.mandatory ==> FullyOn(r)
  {
    if r.mandatory {
      assert EnabledFor(book[k], "");
      SameSwitch(book[k], r);
    }
  }

  lemma ThresholdKeepsSwitch(book: Book, rule: string, tier: string, threshold: real)
    requires MandatoryOn(book) && Key(rule, None) in book && book[Key(rule, None)].threshold.Some?
    ensures var r := TierThreshold(book, rule, tier, threshold)[Key(rule, None)];
      r.mandatory == book[Key(rule, None)].mandatory && (r.mandatory ==> FullyOn(r))
  {
    var row := book[Key(rule, None)];
    var r := TierThreshold(book, rule, tier, threshold)[Key(rule, None)];
    if r.mandatory {
      forall t: string ensures EnabledFor(r, t) {
        assert EnabledFor(row, t);
      }
    }
  }

  /**
    No run of the handlers ever leaves a mandatory rule off, globally or for a tier, as long as the rows of
    each rule agreed at the start on being mandatory.
   */
  lemma {:induction false} MandatoryStaysOn(book: Book, actions: seq<Action>)
    requires MandatoryOn(book) && Agreed(book)
    ensures MandatoryOn(Run(book, actions)) && Agreed(Run(book, actions))
  {
    hide MandatoryOn, Agreed, Next;
    if actions != [] {
      MandatoryStaysOn(book, actions[..|actions| - 1]);
      NextKeeps(Run(book, actions[..|actions| - 1]), actions[|actions| - 1]);
    }
  }

  /**
    Without that agreement a sync is where it breaks: it keeps mandatory rules on exactly when no
    mandatory row it writes has a template that is off for some tier.
   */
  lemma SyncKeepsMandatoryExactly(book: Book, orgs: set<int>, force: bool)
    requires MandatoryOn(book)
    ensures MandatoryOn(Sync(book, orgs, force)) <==>
      forall k | k in book && Syncs(book, force, k) && book[k].mandatory :: FullyOn(book[Template(k)])
  {
    hide FullyOn;
    var after := Sync(book, orgs, force);
    forall k | k in after ensures
      after[k].mandatory && !FullyOn(after[k]) <==>
        k in book && Syncs(book, force, k) && book[k].mandatory && !FullyOn(book[Template(k)])
    {
      if k in book && Syncs(book, force, k) {
        SameSwitchIff(after[k], book[Template(k)]);
      } else if k !in book {
        SameSwitchIff(after[k], book[Template(k)]);
      }
    }
    forall k | k in book && Syncs(book, force, k) ensures k in after {
    }
  }

  lemma SameSwitchIff(r: Rule, s: Rule)
    requires s.enabled == r.enabled && s.overrides == r.overrides
    ensures FullyOn(r) <==> FullyOn(s)
  {
    if FullyOn(r) {
      SameSwitch(r, s);
    }
    if FullyOn(s) {
      SameSwitch(s, r);
    }
  }

  // ---------------------------------------------------------------- what a sync achieves

  /** Every organisation has a row for every template; with force each such row is its template's. */
  lemma SyncIsComplete(book: Book, orgs: set<int>, force: bool)
    ensures var after := Sync(book, orgs, force);
      && after.Keys == book.Keys + MissingRows(book, orgs) && book.Keys !! MissingRows(book, orgs)
      && (forall t, org | t in Templates(book) && org in orgs :: Key(t.rule, Some(org)) in after)
      && (forall t | t in Templates(book) :: after[t] == book[t])
      && (forall k | k in after && k.org.Some? && Template(k) in book && (force || k !in book) ::
            && after[k].enabled == book[Template(k)].enabled
            && after[k].threshold == book[Template(k)].threshold
            && after[k].overrides == book[Template(k)].overrides)
      && (!force ==> forall k | k in book && Edited(book[k]) :: after[k] == book[k])
  {
  }

  /**
    A second sync without force changes nothing, even if templates were changed in between: every row the
    first one saw or made is stamped as its work or as somebody's.
   */
  lemma SecondSyncDoesNothing(book: Book, orgs: set<int>, later: Book)
    requires later.Keys == Sync(book, orgs, false).Keys
    requires forall k | k in later && k.org.Some? :: later[k] == Sync(book, orgs, false)[k]
    ensures Sync(later, orgs, false) == later
  {
    hide Sync;
    SyncIsComplete(book, orgs, false);
    forall k | k in later && k.org.Some? && Template(k) in later ensures Template(k) in book && Edited(later[k]) {
      FirstSyncStamps(book, orgs, k);
    }
    forall t, org | t in Templates(later) && org in orgs ensures Key(t.rule, Some(org)) in later {
      assert Template(t) == t && t in Sync(book, orgs, false) && t !in MissingRows(book, orgs);
    }
    assert MissingRows(later, orgs) == {};
    NothingToSync(later, orgs);
  }

  /** Synced once, a row nobody edited does not follow its template when that is switched off and synced again. */
  lemma SyncFreezesRow(rule: string)
    ensures var r := Rule(true, false, None, None, None, map[], "BOTH", Some("migration"));
      var k, book := Key(rule, Some(1)), map[Key(rule, None) := r, Key(rule, Some(1)) := r];
      var again := Sync(ToggleGlobal(Sync(book, {1}, false), rule), {1}, false);
      Key(rule, None) in again && k in again && !again[Key(rule, None)].enabled && again[k].enabled
  {
    var r := Rule(true, false, None, None, None, map[], "BOTH", Some("migration"));
    var book := map[Key(rule, None) := r, Key(rule, Some(1)) := r];
    FirstSync(rule, r);
    hide Sync;
    SecondSyncDoesNothing(book, {1}, ToggleGlobal(Sync(book, {1}, false), rule));
  }

  lemma FirstSync(rule: string, r: Rule)
    requires r.updatedBy == Some("migration")
    ensures Sync(map[Key(rule, None) := r, Key(rule, Some(1)) := r], {1}, false) ==
      map[Key(rule, None) := r, Key(rule, Some(1)) := r.(updatedBy := SYNC_STAMP)]
  {
    var book := map[Key(rule, None) := r, Key(rule, Some(1)) := r];
    assert MissingRows(book, {1}) == {};
  }

  /** After an unforced sync every row with a template counts as edited. */
  lemma FirstSyncStamps(book: Book, orgs: set<int>, k: Key)
    requires k in Sync(book, orgs, false) && k.org.Some? && Template(k) in Sync(book, orgs, false)
    ensures Template(k) in book && Edited(Sync(book, orgs, false)[k])
  {
    assert Template(k) !in MissingRows(book, orgs);
  }

  lemma NothingToSync(book: Book, orgs: set<int>)
    requires forall k | k in book && k.org.Some? && Template(k) in book :: Edited(book[k])
    requires MissingRows(book, orgs) == {}
    ensures Sync(book, orgs, false) == book
  {
  }

  /**
    The dashboard toggle leaves the row's stamp alone. An unforced sync therefore keeps the toggled value
    exactly when the row already counted as edited, has no template, or the template agrees with it.
   */
  lemma ToggleSurvivesSync(book: Book, orgs: set<int>, org: int, rule: string)
    requires var k := Key(rule, Some(org)); k in book && !book[k].mandatory
    ensures var k := Key(rule, Some(org));
      var toggled := Toggle(book, org, rule);
      Sync(toggled, orgs, false)[k].enabled == !book[k].enabled <==>
        Edited(book[k]) || Template(k) !in book || book[Template(k)].enabled == !book[k].enabled
  {
  }

  /** Switched off on the dashboard, on again after the next sync. */
  lemma SyncUndoesToggle(rule: string)
    ensures var r := Rule(true, false, None, None, None, map[], "BOTH", Some("migration"));
      var k, book := Key(rule, Some(1)), map[Key(rule, None) := r, Key(rule, Some(1)) := r];
      !Toggle(book, 1, rule)[k].enabled && Sync(Toggle(book, 1, rule), {1}, false)[k].enabled
  {
  }

  /** An MCP update that is refused has still changed the rule exactly when it also carried a switch that differs. */
  lemma RefusedUpdateMaySwitch(book: Book, org: int, rule: string, enabled: Option<bool>, threshold: Option<real>)
    ensures var k, reply := Key(rule, Some(org)), McpReply(book, org, rule, enabled, threshold);
      reply != Done && McpUpdate(book, org, rule, enabled, threshold) != book <==>
        && k in book && enabled.Some? && enabled.value != book[k].enabled && (book[k].mandatory ==> enabled.value)
        && threshold.Some? && !WithinBounds(book[k], threshold.value)
  {
    var k := Key(rule, Some(org));
    var after := McpUpdate(book, org, rule, enabled, threshold);
    if k in book {
      assert after != book <==> after[k] != book[k] by {
        assert after == book[k := after[k]];
      }
    }
  }

  /** Refused for a threshold of 50 against a maximum of 10, and switched off all the same. */
  lemma RefusedButSwitched(rule: string)
    ensures var book :=
      map[Key(rule, Some(1)) := Rule(true, false, Some(8.0), Some(5.0), Some(10.0), map[], "BOTH", None)];
      && McpReply(book, 1, rule, Some(false), Some(50.0)) == OutOfBounds
      && !McpUpdate(book, 1, rule, Some(false), Some(50.0))[Key(rule, Some(1))].enabled
  {
  }
}
