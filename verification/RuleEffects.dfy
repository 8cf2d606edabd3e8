/**
  What each handler of the rule rows leaves of every single row, written out field by field, for tables that the
  handlers and the sync write as a whole.
 */
module RuleEffects {
  import opened Common
  import opened RuleLifecycle

  ghost function At(book: Book, k: Key): Option<Rule> {
    if k in book then Some(book[k]) else None
  }

  /** An organisation's copy of a template: for either asset type, whatever the template is for. */
  ghost function CopyOf(t: Rule, stamp: string): Rule {
    Rule(t.enabled, t.mandatory, t.threshold, t.min, t.max, t.overrides, "BOTH", Some(stamp))
  }

  /** The row the dashboard edits: the organisation's own, else a fresh copy of the template, else none. */
  ghost function Editable(book: Book, k: Key): Option<Rule> {
    if k in book then Some(book[k])
    else if Key(k.rule, None) in book then Some(CopyOf(book[Key(k.rule, None)], "admin"))
    else None
  }

  /** No bound is crossed; `zeroCounts` says whether a bound of zero is one. */
  ghost predicate InRange(r: Rule, x: real, zeroCounts: bool) {
    && (r.min.Some? && (zeroCounts || r.min != Some(0.0)) ==> r.min.value <= x)
    && (r.max.Some? && (zeroCounts || r.max != Some(0.0)) ==> x <= r.max.value)
  }

  /**
    What an MCP update leaves of `r`: nothing changes when nothing is given or a mandatory rule is to go off; the
    threshold does not when it crosses a bound, but the switch then does all the same.
   */
  ghost function Updated(r: Rule, enabled: Option<bool>, threshold: Option<real>): Rule {
    if (enabled.None? && threshold.None?) || (r.mandatory && enabled == Some(false)) then r
    else
      r.(enabled := if enabled.Some? then enabled.value else r.enabled,
         threshold := if threshold.Some? && InRange(r, threshold.value, false) then threshold else r.threshold)
  }

  /** A template's row after one tier's override is switched, or given a threshold. */
  ghost function Overridden(t: Rule, tier: string, o: Override): Rule {
    Rule(t.enabled, t.mandatory, t.threshold, t.min, t.max, t.overrides[tier := o], t.assets, Some("superadmin"))
  }

  /** The row an organisation has after a sync. */
  ghost function Synced(book: Book, orgs: set<int>, force: bool, k: Key): Option<Rule> {
    if k.org.None? || Key(k.rule, None) !in book then At(book, k)
    else
      var t := book[Key(k.rule, None)];
      if k !in book then
        if k.org.value !in orgs then None
        else Some(t.(updatedBy := Some("superadmin:sync")))
      else
        var r := book[k];
        if force || r.updatedBy in {None, Some("superadmin"), Some("migration"), Some("system"), Some("admin")} then
          Some(Rule(t.enabled, r.mandatory, t.threshold, r.min, r.max, t.overrides, r.assets, Some("superadmin:sync")))
        else Some(r)
  }

  /** What becomes of row `k`. */
  ghost function RowAfter(book: Book, a: Action, k: Key): Option<Rule> {
    match a
    case DoToggle(org, rule) =>
      var row := Editable(book, k);
      if k != Key(rule, Some(org)) || row.None? then At(book, k)
      else Some(row.value.(enabled := if row.value.mandatory then row.value.enabled else !row.value.enabled))
    case DoSetThreshold(org, rule, x) =>
      var row := Editable(book, k);
      if k != Key(rule, Some(org)) || row.None? then At(book, k)
      else if row.value.threshold.Some? && InRange(row.value, x, true) then Some(row.value.(threshold := Some(x)))
      else row
    case DoToggleGlobal(rule) =>
      if k in book && k == Key(rule, None) && !book[k].mandatory
      then Some(book[k].(enabled := !book[k].enabled, updatedBy := Some("superadmin"))) else At(book, k)
    case DoToggleTier(rule, tier) =>
      if k in book && k == Key(rule, None) && !book[k].mandatory then
        if tier in book[k].overrides then
          var o := book[k].overrides[tier];
          var on := o.enabled == Some(false);
          Some(Overridden(book[k], tier, Override(Some(on), o.threshold)))
        else Some(Overridden(book[k], tier, Override(Some(false), None)))
      else At(book, k)
    case DoTierThreshold(rule, tier, x) =>
      if k in book && k == Key(rule, None) && book[k].threshold.Some? then
        var was := if tier in book[k].overrides then book[k].overrides[tier].enabled else None;
        Some(Overridden(book[k], tier, Override(was, Some(x))))
      else At(book, k)
    case DoSignUp(org) =>
      if k.org == Some(org) && k !in book && Key(k.rule, None) in book
      then Some(CopyOf(book[Key(k.rule, None)], "superadmin")) else At(book, k)
    case DoSync(orgs, force) => Synced(book, orgs, force, k)
    case DoTelegramRule(org, rule, on) =>
      if k in book && k == Key(rule, Some(org)) && (on || !book[k].mandatory)
      then Some(book[k].(enabled := on, updatedBy := Some("agent"))) else At(book, k)
    case DoMcpUpdate(org, rule, enabled, threshold) =>
      if k in book && k == Key(rule, Some(org)) then Some(Updated(book[k], enabled, threshold)) else At(book, k)
  }

  /** Every handler leaves of every row exactly that. */
  lemma StepRowByRow(book: Book, a: Action, k: Key)
    ensures At(Next(book, a), k) == RowAfter(book, a, k)
  {
    hide Sync, SignUp;
    match a
    case DoSync(orgs, force) => SyncRowByRow(book, orgs, force, k);
    case DoSignUp(org) => SignUpRowByRow(book, org, k);
    case DoMcpUpdate(org, rule, enabled, threshold) => UpdateRowByRow(book, org, rule, enabled, threshold, k);
    case _ =>
  }

  /** A run is its handlers' work in order: each next one leaves of every row what it makes of the row so far. */
  lemma RunRowByRow(book: Book, actions: seq<Action>, a: Action, k: Key)
    ensures Run(book, []) == book
    ensures At(Run(book, actions + [a]), k) == RowAfter(Run(book, actions), a, k)
  {
    hide Next, RowAfter, At;
    assert (actions + [a])[..|actions|] == actions;
    StepRowByRow(Run(book, actions), a, k);
  }

  lemma SyncRowByRow(book: Book, orgs: set<int>, force: bool, k: Key)
    ensures At(Sync(book, orgs, force), k) == Synced(book, orgs, force, k)
  {
    SyncAdds(book, orgs, k);
    hide MissingRows;
  }

  lemma SignUpRowByRow(book: Book, org: int, k: Key)
    ensures At(SignUp(book, org), k) == RowAfter(book, DoSignUp(org), k)
  {
    assert Key(k.rule, None) in book ==> Key(k.rule, None) in Templates(book);
  }

  lemma UpdateRowByRow(book: Book, org: int, rule: string, enabled: Option<bool>, threshold: Option<real>, k: Key)
    ensures At(McpUpdate(book, org, rule, enabled, threshold), k) ==
      RowAfter(book, DoMcpUpdate(org, rule, enabled, threshold), k)
  {
  }

  /** The rows a sync adds, and those it goes through. */
  lemma SyncAdds(book: Book, orgs: set<int>, k: Key)
    ensures k in MissingRows(book, orgs) <==>
      k !in book && k.org.Some? && k.org.value in orgs && Key(k.rule, None) in book
    ensures k in OrgRows(book) <==> k in book && k.org.Some? && Key(k.rule, None) in book
  {
    if k !in book && k.org.Some? && k.org.value in orgs && Key(k.rule, None) in book {
      var t, org := Key(k.rule, None), k.org.value;
      assert t in Templates(book) && k == Key(t.rule, Some(org));
      assert Key(t.rule, Some(org)) in MissingRows(book, orgs);
    }
  }

  /** A rule is on for every tier when it is on and no tier's override switches it off. */
  lemma FullyOnMeans(r: Rule)
    ensures FullyOn(r) <==> r.enabled && forall tier | tier in r.overrides :: r.overrides[tier].enabled != Some(false)
  {
    if FullyOn(r) {
      assert EnabledFor(r, "");
      forall tier | tier in r.overrides ensures r.overrides[tier].enabled != Some(false) {
        assert EnabledFor(r, tier);
      }
    }
  }

  /** Which of its answers an MCP update gives. */
  lemma UpdateReplies(book: Book, org: int, rule: string, enabled: Option<bool>, threshold: Option<real>)
    ensures var reply, k := McpReply(book, org, rule, enabled, threshold), Key(rule, Some(org));
      var given := enabled.Some? || threshold.Some?;
      && (reply == NothingGiven <==> !given)
      && (reply == NoSuchRule <==> given && k !in book)
      && (reply == RuleLifecycle.Mandatory <==> given && k in book && book[k].mandatory && enabled == Some(false))
      && (reply == OutOfBounds <==>
            && k in book && !(book[k].mandatory && enabled == Some(false))
            && threshold.Some? && !InRange(book[k], threshold.value, false))
  {
  }
}
