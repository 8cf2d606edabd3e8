/**
  Signals, watchlist items, positions and entry orders, and every step that the dashboard, the Telegram
  agent, the MCP tools and the background tasks take on them. One step is one committed handler; a
  promotion request is two, since other handlers may run between its commit and the answer of the queue.
 */
module SignalLifecycle {
  import opened Common

  datatype SignalStatus = PENDING | TRIGGERED | EXPIRED | SKIPPED | CANCELLED
  datatype ItemStatus = WATCHING | SIGNALLED | REMOVED

  datatype Key = Key(org: int, ticker: string)
  datatype Signal = Signal(key: Key, date: int, status: SignalStatus)
  datatype Item = Item(key: Key, status: ItemStatus)
  datatype Order = Order(key: Key, signal: nat, submitted: bool)

  /** A signal's id is its place in `signals`; rows of that table are never deleted. */
  datatype Desk = Desk(
    today: int,
    signals: seq<Signal>,
    items: map<int, Item>,
    inFlight: multiset<int>,  // items flipped to SIGNALLED whose task the queue has not answered for yet
    queue: multiset<int>,     // items with a promotion task waiting
    open: multiset<Key>,      // open positions
    orders: map<int, Order>)

  datatype Action =
    | BeginPromote(org: int, item: int)            // either promote route, up to its first commit
    | QueueOutcome(item: int, accepted: bool)      // the queue takes the task, or the route reverts
    | RunTask(item: int, priced: bool)             // the background promotion task
    | TaskFails(item: int)                         // its exception handler
    | Trigger(signal: nat, order: int, simulated: bool)
    | FillOrder(order: int)
    | CancelOrder(org: int, order: int)            // the dashboard, after the broker agreed
    | OrderLapsed(order: int)                      // order sync finds the entry gone unfilled
    | ClosePosition(key: Key)
    | WebSkip(org: int, signal: nat)
    | McpSkip(org: int, signal: nat)
    | TelegramSkip(key: Key)
    | TelegramUnskip(key: Key)
    | HeldSkip(signal: nat)                        // entry check on a ticker already held
    | Delist(signal: nat)                          // universe refresh drops the ticker
    | AddItem(item: int, key: Key)
    | RemoveItem(org: int, item: int)
    | PurgeItem(item: int)
    | NextDay
    | Unskip(org: int, signal: nat)                // the dashboard or MCP, whatever the signal's date
    | Screen(key: Key, item: int)                  // the screener finds a pattern for a ticker

  predicate Live(s: Signal) { s.status in {PENDING, TRIGGERED} }

  /** Counts against a new signal: live, or dated today whatever became of it. */
  predicate Blocks(s: Signal, today: int) { s.date == today || Live(s) }

  predicate Blocked(signals: seq<Signal>, today: int, key: Key) {
    exists i | 0 <= i < |signals| :: signals[i].key == key && Blocks(signals[i], today)
  }

  predicate HasLive(signals: seq<Signal>, key: Key) {
    exists i | 0 <= i < |signals| :: signals[i].key == key && Live(signals[i])
  }

  function SetStatus(signals: seq<Signal>, i: nat, status: SignalStatus): seq<Signal>
    requires i < |signals|
  {
    signals[i := signals[i].(status := status)]
  }

  function SetItem(items: map<int, Item>, item: int, status: ItemStatus): map<int, Item>
    requires item in items
  {
    items[item := items[item].(status := status)]
  }

  /** The oldest signal of a key with that date and status. */
  function FindDated(signals: seq<Signal>, key: Key, date: int, status: SignalStatus): (i: Option<nat>)
    ensures i.Some? ==> i.value < |signals| && signals[i.value] == Signal(key, date, status)
    ensures Signal(key, date, status) !in signals[..if i.Some? then i.value else |signals|]
  {
    if signals == [] then None
    else
      var n := |signals| - 1;
      var before := FindDated(signals[..n], key, date, status);
      assert before.Some? ==> signals[..n][..before.value] == signals[..before.value];
      if before.Some? then before else if signals[n] == Signal(key, date, status) then Some(n) else None
  }

  /** The newest triggered signal of a key. */
  function NewestTriggered(signals: seq<Signal>, key: Key): (i: Option<nat>)
    ensures i.Some? ==> i.value < |signals| && signals[i.value].key == key && signals[i.value].status == TRIGGERED
    ensures forall j | (if i.Some? then i.value else -1) < j < |signals| ::
      !(signals[j].key == key && signals[j].status == TRIGGERED)
  {
    if signals == [] then None
    else
      var n := |signals| - 1;
      if signals[n].key == key && signals[n].status == TRIGGERED then Some(n) else NewestTriggered(signals[..n], key)
  }

  // ---------------------------------------------------------------- the steps

  function Begin(d: Desk, org: int, item: int): Desk {
    if item !in d.items || d.items[item].key.org != org || d.items[item].key in d.open
       || Blocked(d.signals, d.today, d.items[item].key)
    then d
    else d.(items := SetItem(d.items, item, SIGNALLED), inFlight := d.inFlight + multiset{item})
  }

  function Answer(d: Desk, item: int, accepted: bool): Desk {
    if item !in d.inFlight then d
    else
      var answered := d.(inFlight := d.inFlight - multiset{item});
      if accepted then answered.(queue := d.queue + multiset{item})
      else if item in d.items then answered.(items := SetItem(d.items, item, WATCHING))
      else answered
  }

  function Promote(d: Desk, item: int, priced: bool): Desk {
    if item !in d.queue then d
    else
      var taken := d.(queue := d.queue - multiset{item});
      if item !in d.items then taken
      else
        var key := d.items[item].key;
        if key in d.open || !priced then taken.(items := SetItem(d.items, item, WATCHING))
        else taken.(
          items := SetItem(d.items, item, SIGNALLED),
          signals := if Blocked(d.signals, d.today, key) then d.signals
            else d.signals + [Signal(key, d.today, PENDING)])
  }

  function Fail(d: Desk, item: int): Desk {
    if item !in d.queue then d
    else
      var taken := d.(queue := d.queue - multiset{item});
      if item in d.items && d.items[item].status == SIGNALLED then taken.(items := SetItem(d.items, item, WATCHING))
      else taken
  }

  function Enter(d: Desk, i: nat, order: int, simulated: bool): Desk {
    if i >= |d.signals| || d.signals[i].status != PENDING || order in d.orders then d
    else
      var key := d.signals[i].key;
      d.(signals := SetStatus(d.signals, i, TRIGGERED),
         orders := d.orders[order := Order(key, i, !simulated)],
         open := if simulated then d.open + multiset{key} else d.open)
  }

  function Retire(orders: map<int, Order>, order: int): map<int, Order>
    requires order in orders
  {
    orders[order := orders[order].(submitted := false)]
  }

  function Fill(d: Desk, order: int): Desk {
    if order !in d.orders || !d.orders[order].submitted then d
    else d.(orders := Retire(d.orders, order), open := d.open + multiset{d.orders[order].key})
  }

  function Cancel(d: Desk, org: int, order: int): Desk {
    if order !in d.orders || d.orders[order].key.org != org || !d.orders[order].submitted then d
    else
      var key := d.orders[order].key;
      var i := NewestTriggered(d.signals, key);
      d.(orders := Retire(d.orders, order),
         open := d.open - multiset{key},
         signals := if i.Some? then SetStatus(d.signals, i.value, PENDING) else d.signals)
  }

  function Lapse(d: Desk, order: int): Desk {
    if order !in d.orders || !d.orders[order].submitted then d
    else
      var i := d.orders[order].signal;
      d.(orders := Retire(d.orders, order),
         signals := if i < |d.signals| && d.signals[i].status == TRIGGERED then SetStatus(d.signals, i, PENDING)
           else d.signals)
  }

  /** Signal `i` goes to `to` if it is there and in one of the `from` states. */
  function Move(d: Desk, i: nat, from: set<SignalStatus>, to: SignalStatus): Desk {
    if i < |d.signals| && d.signals[i].status in from then d.(signals := SetStatus(d.signals, i, to)) else d
  }

  function MoveFound(d: Desk, i: Option<nat>, to: SignalStatus): Desk
    requires i.Some? ==> i.value < |d.signals|
  {
    if i.Some? then d.(signals := SetStatus(d.signals, i.value, to)) else d
  }

  predicate Owns(d: Desk, org: int, i: nat) { i < |d.signals| && d.signals[i].key.org == org }

  function ScreenFinds(d: Desk, key: Key, item: int): Desk {
    if HasLive(d.signals, key) || key in d.open then d
    else d.(
      signals := d.signals + [Signal(key, d.today, PENDING)],
      items := if item in d.items && d.items[item] == Item(key, WATCHING) then SetItem(d.items, item, SIGNALLED)
        else d.items)
  }

  function Next(d: Desk, a: Action): Desk {
    match a
    case BeginPromote(org, item) => Begin(d, org, item)
    case QueueOutcome(item, accepted) => Answer(d, item, accepted)
    case RunTask(item, priced) => Promote(d, item, priced)
    case TaskFails(item) => Fail(d, item)
    case Trigger(i, order, simulated) => Enter(d, i, order, simulated)
    case FillOrder(order) => Fill(d, order)
    case CancelOrder(org, order) => Cancel(d, org, order)
    case OrderLapsed(order) => Lapse(d, order)
    case ClosePosition(key) => d.(open := d.open - multiset{key})
    case WebSkip(org, i) => if Owns(d, org, i) then MoveFound(d, Some(i), SKIPPED) else d
    case McpSkip(org, i) => if Owns(d, org, i) then Move(d, i, {PENDING}, SKIPPED) else d
    case TelegramSkip(key) => MoveFound(d, FindDated(d.signals, key, d.today, PENDING), SKIPPED)
    case TelegramUnskip(key) => MoveFound(d, FindDated(d.signals, key, d.today, SKIPPED), PENDING)
    case HeldSkip(i) => if i < |d.signals| && d.signals[i].key in d.open then Move(d, i, {PENDING}, SKIPPED) else d
    case Delist(i) => Move(d, i, {PENDING}, EXPIRED)
    case AddItem(item, key) => if item in d.items then d else d.(items := d.items[item := Item(key, WATCHING)])
    case RemoveItem(org, item) =>
      if item in d.items && d.items[item].key.org == org then d.(items := SetItem(d.items, item, REMOVED)) else d
    case PurgeItem(item) => d.(items := d.items - {item})
    case NextDay => d.(today := d.today + 1)
    case Unskip(org, i) => if Owns(d, org, i) then Move(d, i, {SKIPPED}, PENDING) else d
    case Screen(key, item) => ScreenFinds(d, key, item)
  }

  function Run(d: Desk, actions: seq<Action>): Desk {
    if actions == [] then d else Next(Run(d, actions[..|actions| - 1]), actions[|actions| - 1])
  }

  // ---------------------------------------------------------------- the invariant

  ghost predicate NoFutureSignals(signals: seq<Signal>, today: int) {
    forall i | 0 <= i < |signals| :: signals[i].date <= today
  }

  /** Each organisation and ticker has at most one signal that is live or dated today. */
  ghost predicate OneBlocking(signals: seq<Signal>, today: int) {
    forall i, j | 0 <= i < j < |signals| && signals[i].key == signals[j].key ::
      !(Blocks(signals[i], today) && Blocks(signals[j], today))
  }

  ghost predicate OneLive(signals: seq<Signal>) {
    forall i, j | 0 <= i < j < |signals| && signals[i].key == signals[j].key :: !(Live(signals[i]) && Live(signals[j]))
  }

  ghost predicate HasSignal(signals: seq<Signal>, key: Key) {
    exists i :: 0 <= i < |signals| && signals[i].key == key
  }

  /**
    An item off the watchlist as signalled has a request or task under way, or its ticker has had a signal;
    `WentWithASignal` says what that signal was when the item went.
   */
  ghost predicate NoneVanished(d: Desk) {
    forall item | item in d.items && d.items[item].status == SIGNALLED ::
      item in d.inFlight || item in d.queue || HasSignal(d.signals, d.items[item].key)
  }

  ghost predicate Inv(d: Desk) {
    NoFutureSignals(d.signals, d.today) && OneBlocking(d.signals, d.today) && NoneVanished(d)
  }

  // ---------------------------------------------------------------- what a step can do to the signals

  /** Same signals, none of which starts to count, and perhaps one new pending signal for a ticker not blocked. */
  ghost predicate Evolves(before: seq<Signal>, after: seq<Signal>, today: int) {
    && |before| <= |after| <= |before| + 1
    && (forall i | 0 <= i < |before| ::
          && after[i].key == before[i].key && after[i].date == before[i].date
          && (Blocks(after[i], today) ==> Blocks(before[i], today)))
    && (|after| != |before| ==> after[|before|].date == today && !Blocked(before, today, after[|before|].key))
  }

  lemma EvolvingKeeps(before: seq<Signal>, after: seq<Signal>, today: int)
    requires Evolves(before, after, today) && NoFutureSignals(before, today) && OneBlocking(before, today)
    ensures NoFutureSignals(after, today) && OneBlocking(after, today)
    ensures forall key | HasSignal(before, key) :: HasSignal(after, key)
  {
    forall key | HasSignal(before, key) ensures HasSignal(after, key) {
      var i :| 0 <= i < |before| && before[i].key == key;
      assert after[i].key == key;
    }
  }

  lemma MoveEvolves(signals: seq<Signal>, i: nat, to: SignalStatus, today: int)
    requires i < |signals|
    requires to in {PENDING, TRIGGERED} ==> Blocks(signals[i], today)
    ensures Evolves(signals, SetStatus(signals, i, to), today)
  {
  }

  lemma AppendEvolves(signals: seq<Signal>, key: Key, today: int)
    requires !Blocked(signals, today, key)
    ensures var after := signals + [Signal(key, today, PENDING)];
      Evolves(signals, after, today) && HasSignal(after, key)
  {
    var after := signals + [Signal(key, today, PENDING)];
    assert after[|signals|].key == key;
  }

  lemma SameEvolves(signals: seq<Signal>, today: int)
    ensures Evolves(signals, signals, today)
  {
  }

  lemma StepEvolves(d: Desk, a: Action)
    requires !a.Unskip? && !a.Screen? && !a.NextDay?
    ensures Next(d, a).today == d.today && Evolves(d.signals, Next(d, a).signals, d.today)
  {
    hide Evolves, Blocked;
    SameEvolves(d.signals, d.today);
    match a
    case RunTask(item, priced) =>
      if item in d.items && !Blocked(d.signals, d.today, d.items[item].key) {
        AppendEvolves(d.signals, d.items[item].key, d.today);
      }
    case Trigger(i, order, simulated) =>
      if i < |d.signals| && d.signals[i].status == PENDING {
        MoveEvolves(d.signals, i, TRIGGERED, d.today);
      }
    case CancelOrder(org, order) =>
      if order in d.orders {
        MoveFoundEvolves(d, NewestTriggered(d.signals, d.orders[order].key), PENDING);
      }
    case OrderLapsed(order) =>
      if order in d.orders && d.orders[order].signal < |d.signals| &&
        d.signals[d.orders[order].signal].status == TRIGGERED {
        MoveEvolves(d.signals, d.orders[order].signal, PENDING, d.today);
      }
    case WebSkip(org, i) => MoveAnyEvolves(d, i, SKIPPED);
    case McpSkip(org, i) => MoveAnyEvolves(d, i, SKIPPED);
    case HeldSkip(i) => MoveAnyEvolves(d, i, SKIPPED);
    case Delist(i) => MoveAnyEvolves(d, i, EXPIRED);
    case TelegramSkip(key) => MoveFoundEvolves(d, FindDated(d.signals, key, d.today, PENDING), SKIPPED);
    case TelegramUnskip(key) => MoveFoundEvolves(d, FindDated(d.signals, key, d.today, SKIPPED), PENDING);
    case _ =>
  }

  lemma MoveAnyEvolves(d: Desk, i: nat, to: SignalStatus)
    requires to in {SKIPPED, EXPIRED}
    ensures i < |d.signals| ==> Evolves(d.signals, SetStatus(d.signals, i, to), d.today)
  {
    if i < |d.signals| {
      MoveEvolves(d.signals, i, to, d.today);
    }
  }

  lemma MoveFoundEvolves(d: Desk, i: Option<nat>, to: SignalStatus)
    requires i.Some? ==> i.value < |d.signals| && (to in {PENDING, TRIGGERED} ==> Blocks(d.signals[i.value], d.today))
    ensures i.Some? ==> Evolves(d.signals, SetStatus(d.signals, i.value, to), d.today)
  {
    if i.Some? {
      MoveEvolves(d.signals, i.value, to, d.today);
    }
  }

  /** The item side of a step, given that signals are only ever added. */
  lemma StepLosesNoItem(d: Desk, a: Action)
    requires NoneVanished(d)
    requires forall key | HasSignal(d.signals, key) :: HasSignal(Next(d, a).signals, key)
    ensures NoneVanished(Next(d, a))
  {
    hide Begin, Answer, Promote, Fail, ScreenFinds, HasSignal, Enter, Fill, Cancel, Lapse, Move, MoveFound;
    match a
    case BeginPromote(org, item) => BeginLosesNoItem(d, org, item);
    case QueueOutcome(item, accepted) => AnswerLosesNoItem(d, item, accepted);
    case RunTask(item, priced) => PromoteLosesNoItem(d, item, priced);
    case TaskFails(item) => FailLosesNoItem(d, item);
    case Screen(key, item) => ScreenLosesNoItem(d, key, item);
    case _ =>
      OtherStepsKeepItems(d, a);
      hide Next, NoneVanished;
      QuietLosesNoItem(d, Next(d, a));
  }

  lemma OtherStepsKeepItems(d: Desk, a: Action)
    requires !a.BeginPromote? && !a.QueueOutcome? && !a.RunTask? && !a.TaskFails? && !a.Screen?
    ensures var e := Next(d, a);
      && e.inFlight == d.inFlight && e.queue == d.queue
      && forall item | item in e.items && e.items[item].status == SIGNALLED ::
        item in d.items && d.items[item] == e.items[item]
  {
    hide SetStatus, FindDated, NewestTriggered;
  }

  /** No item becomes SIGNALLED and nothing leaves the queue. */
  lemma QuietLosesNoItem(d: Desk, e: Desk)
    requires NoneVanished(d) && e.inFlight == d.inFlight && e.queue == d.queue
    requires forall key | HasSignal(d.signals, key) :: HasSignal(e.signals, key)
    requires forall item | item in e.items && e.items[item].status == SIGNALLED ::
      item in d.items && d.items[item] == e.items[item]
    ensures NoneVanished(e)
  {
  }

  lemma BeginLosesNoItem(d: Desk, org: int, item: int)
    requires NoneVanished(d)
    ensures NoneVanished(Begin(d, org, item))
  {
    hide HasSignal, Blocked;
  }

  lemma AnswerLosesNoItem(d: Desk, item: int, accepted: bool)
    requires NoneVanished(d)
    ensures NoneVanished(Answer(d, item, accepted))
  {
    hide HasSignal;
  }

  lemma FailLosesNoItem(d: Desk, item: int)
    requires NoneVanished(d)
    ensures NoneVanished(Fail(d, item))
  {
    hide HasSignal;
  }

  lemma PromoteLosesNoItem(d: Desk, item: int, priced: bool)
    requires NoneVanished(d)
    requires forall key | HasSignal(d.signals, key) :: HasSignal(Promote(d, item, priced).signals, key)
    ensures NoneVanished(Promote(d, item, priced))
  {
    if item in d.queue && item in d.items {
      var key := d.items[item].key;
      if !Blocked(d.signals, d.today, key) {
        AppendEvolves(d.signals, key, d.today);
      }
      hide Blocked;
      assert Promote(d, item, priced).items[item].status == SIGNALLED ==>
        HasSignal(Promote(d, item, priced).signals, key);
    }
    hide HasSignal, Blocked;
  }

  lemma ScreenLosesNoItem(d: Desk, key: Key, item: int)
    requires NoneVanished(d)
    requires forall k | HasSignal(d.signals, k) :: HasSignal(ScreenFinds(d, key, item).signals, k)
    ensures NoneVanished(ScreenFinds(d, key, item))
  {
    if !HasLive(d.signals, key) && key !in d.open {
      assert ScreenFinds(d, key, item).signals[|d.signals|].key == key;
      assert HasSignal(ScreenFinds(d, key, item).signals, key);
    }
    hide HasSignal, HasLive;
  }

  /** A new day only forgets: nothing is dated ahead of today, so nothing starts to count. */
  lemma DayPasses(signals: seq<Signal>, today: int)
    requires NoFutureSignals(signals, today) && OneBlocking(signals, today)
    ensures NoFutureSignals(signals, today + 1) && OneBlocking(signals, today + 1)
  {
    assert forall i | 0 <= i < |signals| :: Blocks(signals[i], today + 1) ==> Blocks(signals[i], today);
  }

  /** Any step but the undated unskip and the screener's keeps the invariant. */
  lemma NextKeeps(d: Desk, a: Action)
    requires Inv(d) && !a.Unskip? && !a.Screen?
    ensures Inv(Next(d, a))
  {
    hide NoFutureSignals, OneBlocking, NoneVanished, HasSignal, Evolves;
    if a.NextDay? {
      DayPasses(d.signals, d.today);
    } else {
      hide Next;
      StepEvolves(d, a);
      EvolvingKeeps(d.signals, Next(d, a).signals, d.today);
    }
    StepLosesNoItem(d, a);
  }

  /**
    Every interleaving: from a desk in order, no run of promotions, queue answers, tasks, triggers, fills,
    cancels, skips, Telegram unskips and day changes ever leaves two blocking signals for one ticker of an
    organisation, or an item off the watchlist with nothing under way whose ticker never had a signal.
   */
  lemma {:induction false} RunKeeps(d: Desk, actions: seq<Action>)
    requires Inv(d)
    requires forall i | 0 <= i < |actions| :: !actions[i].Unskip? && !actions[i].Screen?
    ensures Inv(Run(d, actions))
  {
    hide Inv, Next;
    if actions != [] {
      RunKeeps(d, actions[..|actions| - 1]);
      NextKeeps(Run(d, actions[..|actions| - 1]), actions[|actions| - 1]);
    }
  }

  // ---------------------------------------------------------------- items that leave the watchlist

  /** The item is off the watchlist as signalled, and no request or task for it is under way. */
  predicate Gone(d: Desk, item: int) {
    item in d.items && d.items[item].status == SIGNALLED && item !in d.inFlight && item !in d.queue
  }

  /** When an item goes, its ticker has a signal that is live or dated today; this holds of every step. */
  lemma GoesWithASignal(d: Desk, a: Action, item: int)
    requires !Gone(d, item) && Gone(Next(d, a), item)
    ensures var e := Next(d, a); Blocked(e.signals, e.today, e.items[item].key)
  {
    hide Blocked, HasLive;
    match a
    case BeginPromote(org, i) =>
    case QueueOutcome(i, accepted) =>
    case RunTask(i, priced) =>
      if i == item && item in d.items && !Blocked(d.signals, d.today, d.items[item].key) {
        NewSignalBlocks(d.signals, d.today, d.items[item].key);
      }
    case TaskFails(i) =>
    case Screen(key, i) => NewSignalBlocks(d.signals, d.today, key);
    case _ => OtherStepsKeepItems(d, a);
  }

  lemma NewSignalBlocks(signals: seq<Signal>, today: int, key: Key)
    ensures Blocked(signals + [Signal(key, today, PENDING)], today, key)
  {
    var after := signals + [Signal(key, today, PENDING)];
    assert after[|signals|].key == key && Blocks(after[|signals|], today);
  }

  /**
    No promoted item vanishes: over any run whatever, an item found gone that was not so at the start went at
    some step, has been gone since, and at that step its ticker had a signal live or dated that day.
   */
  lemma {:induction false} WentWithASignal(d: Desk, actions: seq<Action>, item: int) returns (k: nat)
    requires !Gone(d, item) && Gone(Run(d, actions), item)
    ensures k < |actions| && !Gone(Run(d, actions[..k]), item)
    ensures forall m | k < m <= |actions| :: Gone(Run(d, actions[..m]), item)
    ensures var e := Run(d, actions[..k + 1]); item in e.items && Blocked(e.signals, e.today, e.items[item].key)
  {
    hide Next, Gone, Blocked;
    assert actions != [];
    var n := |actions| - 1;
    var before := Run(d, actions[..n]);
    assert actions[..n + 1] == actions;
    if Gone(before, item) {
      k := WentWithASignal(d, actions[..n], item);
      assert forall m | 0 <= m <= n :: actions[..n][..m] == actions[..m];
    } else {
      k := n;
      GoesWithASignal(before, actions[n], item);
      GoneIsThere(Run(d, actions), item);
    }
  }

  lemma GoneIsThere(d: Desk, item: int)
    ensures Gone(d, item) ==> item in d.items
  {
  }

  /** No task is queued for the item, and it has one of the statuses only while a request of its own is in flight. */
  predicate NotPromoted(d: Desk, item: int, away: set<ItemStatus>) {
    item !in d.queue && (item in d.items && d.items[item].status in away ==> item in d.inFlight)
  }

  /** The steps that may give the item such a status for good: its task accepted, screened, or removed by hand. */
  predicate TakesOff(a: Action, item: int, away: set<ItemStatus>) {
    a == QueueOutcome(item, true) || (a.Screen? && a.item == item) ||
      (REMOVED in away && a.RemoveItem? && a.item == item)
  }

  lemma StepKeepsUnpromoted(d: Desk, a: Action, item: int, away: set<ItemStatus>)
    requires WATCHING !in away && NotPromoted(d, item, away) && !TakesOff(a, item, away)
    ensures NotPromoted(Next(d, a), item, away)
  {
    hide Blocked, HasLive, FindDated, NewestTriggered, SetStatus;
    if !a.BeginPromote? && !a.QueueOutcome? && !a.RunTask? && !a.TaskFails? && !a.Screen? {
      OtherStepsKeepPlace(d, a, item, away);
      hide Next;
    }
  }

  lemma OtherStepsKeepPlace(d: Desk, a: Action, item: int, away: set<ItemStatus>)
    requires !a.BeginPromote? && !a.QueueOutcome? && !a.RunTask? && !a.TaskFails? && !a.Screen?
    requires WATCHING !in away && !TakesOff(a, item, away)
    ensures var e := Next(d, a);
      && e.inFlight == d.inFlight && e.queue == d.queue
      && (item in e.items && e.items[item].status in away ==> item in d.items && d.items[item] == e.items[item])
  {
    hide SetStatus, FindDated, NewestTriggered;
  }

  /**
    A promotion that is not accepted leaves its item WATCHING: after every run in which no task of the item
    is accepted and the screener does not take it, however often it is requested and rejected and whatever
    else happens, the item has no task queued and is SIGNALLED only while a request for it is still to be
    answered. With REMOVED among the statuses, and no removal by hand in the run, it is then WATCHING.
   */
  lemma {:induction false} RejectedStaysWatching(d: Desk, actions: seq<Action>, item: int, away: set<ItemStatus>)
    requires WATCHING !in away && NotPromoted(d, item, away)
    requires forall k | 0 <= k < |actions| :: !TakesOff(actions[k], item, away)
    ensures NotPromoted(Run(d, actions), item, away)
    ensures var e := Run(d, actions);
      away == {SIGNALLED, REMOVED} && item in e.items && item !in e.inFlight ==> e.items[item].status == WATCHING
  {
    hide Next, TakesOff;
    if actions != [] {
      RejectedStaysWatching(d, actions[..|actions| - 1], item, away);
      StepKeepsUnpromoted(Run(d, actions[..|actions| - 1]), actions[|actions| - 1], item, away);
    }
  }

  // ---------------------------------------------------------------- the steps left out

  /** Another signal of signal `i`'s ticker is live or dated today. */
  ghost predicate Rival(signals: seq<Signal>, today: int, i: nat)
    requires i < |signals|
  {
    exists j :: 0 <= j < |signals| && j != i && signals[j].key == signals[i].key && Blocks(signals[j], today)
  }

  /**
    The undated unskip keeps one blocking signal per ticker exactly when the signal is not the caller's or
    not skipped, or it has no rival.
   */
  lemma UnskipKeepsOneBlocking(d: Desk, org: int, i: nat)
    requires Inv(d)
    ensures var e := Next(d, Unskip(org, i));
      OneBlocking(e.signals, e.today) <==>
      !Owns(d, org, i) || d.signals[i].status != SKIPPED || !Rival(d.signals, d.today, i)
  {
    hide NoneVanished;
    var e := Next(d, Unskip(org, i));
    if e != d {
      assert Live(e.signals[i]);
      assert forall j | 0 <= j < |d.signals| && j != i :: e.signals[j] == d.signals[j];
      if Rival(d.signals, d.today, i) {
        var j :| 0 <= j < |d.signals| && j != i && d.signals[j].key == d.signals[i].key &&
          Blocks(d.signals[j], d.today);
        assert Blocks(e.signals[j], d.today) && Blocks(e.signals[i], d.today);
      }
    }
  }

  /** Skipped one day, promoted again the next, then unskipped: two pending signals for one ticker. */
  lemma UnskipMakesTwo(key: Key)
    ensures var d :=
      Desk(1, [Signal(key, 0, SKIPPED), Signal(key, 1, PENDING)], map[], multiset{}, multiset{}, multiset{}, map[]);
      Inv(d) && !OneLive(Next(d, Unskip(key.org, 0)).signals)
  {
    var d := Desk(1, [Signal(key, 0, SKIPPED), Signal(key, 1, PENDING)], map[], multiset{}, multiset{}, multiset{},
      map[]);
    var e := Next(d, Unskip(key.org, 0));
    assert e.signals == [Signal(key, 0, PENDING), Signal(key, 1, PENDING)];
    assert Live(e.signals[0]) && Live(e.signals[1]);
  }

  /**
    The screener looks only for live signals, so it keeps one blocking signal per ticker exactly when it
    creates nothing or the ticker has no signal dated today.
   */
  lemma ScreenKeepsOneBlocking(d: Desk, key: Key, item: int)
    requires Inv(d)
    ensures var e := Next(d, Screen(key, item));
      OneBlocking(e.signals, e.today) <==>
      HasLive(d.signals, key) || key in d.open
      || !exists j :: 0 <= j < |d.signals| && d.signals[j].key == key && d.signals[j].date == d.today
  {
    hide NoneVanished;
    var e := Next(d, Screen(key, item));
    if !HasLive(d.signals, key) && key !in d.open {
      var n := |d.signals|;
      assert e.signals[n] == Signal(key, d.today, PENDING);
      assert forall j | 0 <= j < n :: e.signals[j] == d.signals[j];
      if exists j :: 0 <= j < n && d.signals[j].key == key && d.signals[j].date == d.today {
        var j :| 0 <= j < n && d.signals[j].key == key && d.signals[j].date == d.today;
        assert Blocks(e.signals[j], d.today) && Blocks(e.signals[n], d.today);
      }
    }
  }

  /** Skipped in the morning, screened again, unskipped from Telegram: two pending signals for one ticker. */
  lemma ScreenThenUnskip(key: Key)
    ensures var d := Desk(0, [Signal(key, 0, PENDING)], map[], multiset{}, multiset{}, multiset{}, map[]);
      Inv(d) && !OneLive(Next(Next(Next(d, TelegramSkip(key)), Screen(key, 0)), TelegramUnskip(key)).signals)
  {
    var d := Desk(0, [Signal(key, 0, PENDING)], map[], multiset{}, multiset{}, multiset{}, map[]);
    var skipped, again := Signal(key, 0, SKIPPED), Signal(key, 0, PENDING);
    assert FindDated(d.signals, key, 0, PENDING) == Some(0);
    var e := Next(d, TelegramSkip(key));
    assert e.signals == [skipped];
    var f := Next(e, Screen(key, 0));
    assert f.signals == [skipped, again] && f.signals[..1] == [skipped];
    assert FindDated([skipped], key, 0, SKIPPED) == Some(0);
    var g := Next(f, TelegramUnskip(key));
    assert Live(g.signals[0]) && Live(g.signals[1]);
  }

  /** Like Evolves, counting only live signals. */
  ghost predicate EvolvesLive(before: seq<Signal>, after: seq<Signal>) {
    && |before| <= |after| <= |before| + 1
    && (forall i | 0 <= i < |before| :: after[i].key == before[i].key && (Live(after[i]) ==> Live(before[i])))
    && (|after| != |before| ==> !HasLive(before, after[|before|].key))
  }

  lemma MoveEvolvesLive(signals: seq<Signal>, i: Option<nat>, to: SignalStatus)
    requires i.Some? && i.value < |signals| ==> to in {SKIPPED, EXPIRED} || Live(signals[i.value])
    ensures EvolvesLive(signals, signals)
    ensures i.Some? && i.value < |signals| ==> EvolvesLive(signals, SetStatus(signals, i.value, to))
  {
  }

  lemma AppendEvolvesLive(d: Desk, key: Key)
    requires !Blocked(d.signals, d.today, key) || !HasLive(d.signals, key)
    ensures EvolvesLive(d.signals, d.signals + [Signal(key, d.today, PENDING)])
  {
    if HasLive(d.signals, key) {
      LiveBlocks(d.signals, d.today, key);
    }
  }

  lemma StepEvolvesLive(d: Desk, a: Action)
    requires !a.Unskip? && !a.TelegramUnskip?
    ensures EvolvesLive(d.signals, Next(d, a).signals)
  {
    hide EvolvesLive, Blocked, HasLive, SetStatus;
    MoveEvolvesLive(d.signals, None, SKIPPED);
    match a
    case RunTask(item, priced) =>
      if item in d.items && !Blocked(d.signals, d.today, d.items[item].key) {
        AppendEvolvesLive(d, d.items[item].key);
      }
    case Screen(key, item) =>
      if !HasLive(d.signals, key) {
        AppendEvolvesLive(d, key);
      }
    case Trigger(i, order, simulated) =>
      if i < |d.signals| && d.signals[i].status == PENDING {
        MoveEvolvesLive(d.signals, Some(i), TRIGGERED);
      }
    case CancelOrder(org, order) =>
      if order in d.orders {
        MoveEvolvesLive(d.signals, NewestTriggered(d.signals, d.orders[order].key), PENDING);
      }
    case OrderLapsed(order) =>
      if order in d.orders && d.orders[order].signal < |d.signals| &&
        d.signals[d.orders[order].signal].status == TRIGGERED {
        MoveEvolvesLive(d.signals, Some(d.orders[order].signal), PENDING);
      }
    case WebSkip(org, i) => MoveEvolvesLive(d.signals, Some(i), SKIPPED);
    case McpSkip(org, i) => MoveEvolvesLive(d.signals, Some(i), SKIPPED);
    case HeldSkip(i) => MoveEvolvesLive(d.signals, Some(i), SKIPPED);
    case Delist(i) => MoveEvolvesLive(d.signals, Some(i), EXPIRED);
    case TelegramSkip(key) => MoveEvolvesLive(d.signals, FindDated(d.signals, key, d.today, PENDING), SKIPPED);
    case _ =>
  }

  lemma LiveBlocks(signals: seq<Signal>, today: int, key: Key)
    requires HasLive(signals, key)
    ensures Blocked(signals, today, key)
  {
    var i :| 0 <= i < |signals| && signals[i].key == key && Live(signals[i]);
    assert Blocks(signals[i], today);
  }

  lemma EvolvingKeepsOneLive(before: seq<Signal>, after: seq<Signal>)
    requires EvolvesLive(before, after) && OneLive(before)
    ensures OneLive(after)
  {
  }

  /** With the screener running but nothing ever unskipped, there is still at most one live signal per ticker. */
  lemma {:induction false} RunKeepsOneLive(d: Desk, actions: seq<Action>)
    requires OneLive(d.signals)
    requires forall i | 0 <= i < |actions| :: !actions[i].Unskip? && !actions[i].TelegramUnskip?
    ensures OneLive(Run(d, actions).signals)
  {
    hide OneLive, Next, EvolvesLive;
    if actions != [] {
      var before := Run(d, actions[..|actions| - 1]);
      RunKeepsOneLive(d, actions[..|actions| - 1]);
      StepEvolvesLive(before, actions[|actions| - 1]);
      EvolvingKeepsOneLive(before.signals, Next(before, actions[|actions| - 1]).signals);
    }
  }

  // ---------------------------------------------------------------- a triggered signal blocks for good

  /** A triggered signal whose position is closed, five days on: its ticker cannot be promoted. */
  lemma ClosedTradeStillBlocks(key: Key)
    ensures var d := Desk(5, [Signal(key, 0, TRIGGERED)], map[7 := Item(key, WATCHING)], multiset{}, multiset{},
                          multiset{key}, map[1 := Order(key, 0, false)]);
      var e := Next(d, ClosePosition(key));
      Inv(d) && key !in e.open && e.items[7].status == WATCHING && Next(e, BeginPromote(key.org, 7)) == e
  {
    var d := Desk(5, [Signal(key, 0, TRIGGERED)], map[7 := Item(key, WATCHING)], multiset{}, multiset{},
                  multiset{key}, map[1 := Order(key, 0, false)]);
    assert Live(d.signals[0]) && d.signals[0].key == key;
    assert Blocked(d.signals, 5, key);
  }

  /** The steps that take signal `i` out of TRIGGERED, judged on the desk they find. */
  predicate Releases(d: Desk, a: Action, i: nat)
    requires i < |d.signals|
  {
    match a
    case WebSkip(org, j) => j == i && d.signals[i].key.org == org
    case CancelOrder(org, order) =>
      order in d.orders && d.orders[order].submitted && d.orders[order].key.org == org
      && NewestTriggered(d.signals, d.orders[order].key) == Some(i)
    case OrderLapsed(order) => order in d.orders && d.orders[order].submitted && d.orders[order].signal == i
    case _ => false
  }

  /** Old signals keep their places and tickers, and a new one is never for a ticker with a live signal. */
  ghost predicate Extends(before: seq<Signal>, after: seq<Signal>) {
    && |before| <= |after| <= |before| + 1
    && (forall j | 0 <= j < |before| :: after[j].key == before[j].key)
    && (|after| != |before| ==> !HasLive(before, after[|before|].key))
  }

  lemma StepExtends(d: Desk, a: Action)
    ensures Extends(d.signals, Next(d, a).signals)
  {
    hide Blocked, HasLive, FindDated, NewestTriggered;
    match a
    case RunTask(item, priced) =>
      if item in d.items && HasLive(d.signals, d.items[item].key) {
        LiveBlocks(d.signals, d.today, d.items[item].key);
      }
    case Screen(key, item) =>
    case _ => OtherStepsAddNoSignal(d, a);
  }

  lemma OtherStepsAddNoSignal(d: Desk, a: Action)
    requires !a.RunTask? && !a.Screen?
    ensures |Next(d, a).signals| == |d.signals| && Extends(d.signals, Next(d, a).signals)
  {
    hide Blocked, HasLive, FindDated, NewestTriggered, Begin, Answer, Fail, SetStatus, Extends;
    MoveExtends(d.signals);
    match a
    case BeginPromote(org, item) => BeginMovesItem(d, org, item);
    case QueueOutcome(item, accepted) => AnswerMovesItem(d, item, accepted);
    case TaskFails(item) => FailMovesItem(d, item);
    case _ =>
  }

  lemma MoveExtends(signals: seq<Signal>)
    ensures Extends(signals, signals)
    ensures forall i: nat, to | i < |signals| ::
      |SetStatus(signals, i, to)| == |signals| && Extends(signals, SetStatus(signals, i, to))
  {
    hide HasLive;
  }

  /** Those and no others do. */
  lemma ReleasedExactly(d: Desk, a: Action, i: nat)
    requires i < |d.signals| && d.signals[i].status == TRIGGERED
    ensures i < |Next(d, a).signals|
    ensures Next(d, a).signals[i].status != TRIGGERED <==> Releases(d, a, i)
  {
    hide Begin, Answer, Promote, Fail, Enter, Fill, Cancel, Lapse, Move, ScreenFinds;
    match a
    case CancelOrder(org, order) => CancelReleases(d, org, order, i);
    case OrderLapsed(order) => LapseReleases(d, order, i);
    case WebSkip(org, j) =>
    case _ => OthersLeaveTriggered(d, a, i);
  }

  lemma CancelReleases(d: Desk, org: int, order: int, i: nat)
    requires i < |d.signals| && d.signals[i].status == TRIGGERED
    ensures i < |Cancel(d, org, order).signals|
    ensures Cancel(d, org, order).signals[i].status != TRIGGERED <==> Releases(d, CancelOrder(org, order), i)
  {
    hide NewestTriggered, Retire;
  }

  lemma LapseReleases(d: Desk, order: int, i: nat)
    requires i < |d.signals| && d.signals[i].status == TRIGGERED
    ensures i < |Lapse(d, order).signals|
    ensures Lapse(d, order).signals[i].status != TRIGGERED <==> Releases(d, OrderLapsed(order), i)
  {
    hide Retire;
  }

  lemma OthersLeaveTriggered(d: Desk, a: Action, i: nat)
    requires i < |d.signals| && d.signals[i].status == TRIGGERED
    requires !a.CancelOrder? && !a.OrderLapsed? && !a.WebSkip?
    ensures i < |Next(d, a).signals| && Next(d, a).signals[i] == d.signals[i]
  {
    hide HasLive, Blocked, FindDated, NewestTriggered;
  }

  /** Signal `i` stands triggered and nothing for its ticker came after the first `n` signals. */
  ghost predicate Holds(signals: seq<Signal>, i: nat, n: nat, key: Key) {
    && i < n <= |signals| && signals[i].key == key && signals[i].status == TRIGGERED
    && forall j | n <= j < |signals| :: signals[j].key != key
  }

  lemma TriggeredBlocksStep(d: Desk, a: Action, i: nat, n: nat, key: Key)
    requires Holds(d.signals, i, n, key) && !Releases(d, a, i)
    ensures Holds(Next(d, a).signals, i, n, key)
  {
    hide Next, Releases;
    ReleasedExactly(d, a, i);
    StepExtends(d, a);
    assert Live(d.signals[i]) && HasLive(d.signals, key);
  }

  /**
    Filling, closing the position and later days do not clear a triggered signal, nor does anything done to
    other signals and orders. Until its owner skips this one on the dashboard, or its entry order is cancelled
    or lapses, no run creates another signal for its ticker.
   */
  lemma {:induction false} TriggeredBlocksForGood(d: Desk, actions: seq<Action>, i: nat)
    requires i < |d.signals| && d.signals[i].status == TRIGGERED
    requires forall k | 0 <= k < |actions| && i < |Run(d, actions[..k]).signals| ::
      !Releases(Run(d, actions[..k]), actions[k], i)
    ensures Holds(Run(d, actions).signals, i, |d.signals|, d.signals[i].key)
  {
    hide Next, Releases;
    if actions != [] {
      var n := |actions| - 1;
      assert forall k | 0 <= k <= n :: actions[..n][..k] == actions[..k];
      TriggeredBlocksForGood(d, actions[..n], i);
      TriggeredBlocksStep(Run(d, actions[..n]), actions[n], i, |d.signals|, d.signals[i].key);
    }
  }

  // ---------------------------------------------------------------- working orders and their signals

  /** Every working entry order belongs to a triggered signal of its ticker, and no two to the same one. */
  ghost predicate Follows(d: Desk) {
    && (forall o | o in d.orders && d.orders[o].submitted :: Backed(d.signals, d.orders[o]))
    && (forall o, p | o in d.orders && p in d.orders && o != p && d.orders[o].submitted && d.orders[p].submitted ::
          d.orders[o].signal != d.orders[p].signal)
  }

  ghost predicate Backed(signals: seq<Signal>, order: Order) {
    order.signal < |signals| && signals[order.signal].status == TRIGGERED && signals[order.signal].key == order.key
  }

  /** The signal has a working order. */
  predicate Working(d: Desk, i: nat) {
    exists o | o in d.orders :: d.orders[o].submitted && d.orders[o].signal == i
  }

  /** A step that leaves orders and triggered signals alone. */
  lemma QuietKeepsFollowing(d: Desk, e: Desk)
    requires Follows(d) && e.orders == d.orders && |d.signals| <= |e.signals|
    requires forall i | 0 <= i < |d.signals| && d.signals[i].status == TRIGGERED :: e.signals[i] == d.signals[i]
    ensures Follows(e)
  {
  }

  /** Retiring an order and releasing its signal keeps the other orders backed. */
  lemma RetireKeepsFollowing(d: Desk, order: int, e: Desk)
    requires Follows(d) && order in d.orders && d.orders[order].submitted
    requires e.orders == Retire(d.orders, order) && |e.signals| == |d.signals|
    requires forall i | 0 <= i < |d.signals| && i != d.orders[order].signal :: e.signals[i] == d.signals[i]
    ensures Follows(e)
  {
    forall o | o in e.orders && e.orders[o].submitted ensures Backed(e.signals, e.orders[o]) {
      assert o != order && d.orders[o].submitted && d.orders[o] == e.orders[o];
    }
  }

  lemma EnterKeepsFollowing(d: Desk, i: nat, order: int, simulated: bool)
    requires Follows(d)
    ensures Follows(Enter(d, i, order, simulated))
  {
    if i < |d.signals| && d.signals[i].status == PENDING && order !in d.orders {
      var e := Enter(d, i, order, simulated);
      forall o | o in e.orders && e.orders[o].submitted
        ensures Backed(e.signals, e.orders[o]) && (o != order ==> e.orders[o].signal != i)
      {
        if o != order {
          assert o in d.orders && d.orders[o] == e.orders[o];
        }
      }
    }
  }

  /** The newest triggered signal of a working order's ticker is the order's own, when one signal at most is live. */
  lemma NewestIsOwn(d: Desk, order: int)
    requires Follows(d) && OneLive(d.signals) && order in d.orders && d.orders[order].submitted
    ensures NewestTriggered(d.signals, d.orders[order].key) == Some(d.orders[order].signal)
  {
    var key, own := d.orders[order].key, d.orders[order].signal;
    assert Backed(d.signals, d.orders[order]) && Live(d.signals[own]);
    var i := NewestTriggered(d.signals, key);
    if i.Some? {
      assert Live(d.signals[i.value]);
    }
  }

  lemma StepKeepsFollowing(d: Desk, a: Action)
    requires Follows(d) && OneLive(d.signals) && !a.WebSkip?
    ensures Follows(Next(d, a))
  {
    hide Follows, OneLive, HasLive, Blocked, FindDated, NewestTriggered, Backed;
    match a
    case Trigger(i, order, simulated) => EnterKeepsFollowing(d, i, order, simulated);
    case FillOrder(order) =>
      if order in d.orders && d.orders[order].submitted {
        RetireKeepsFollowing(d, order, Next(d, a));
      }
    case CancelOrder(org, order) =>
      if order in d.orders && d.orders[order].submitted {
        NewestIsOwn(d, order);
        if d.orders[order].key.org == org {
          RetireKeepsFollowing(d, order, Next(d, a));
        }
      }
    case OrderLapsed(order) =>
      if order in d.orders && d.orders[order].submitted {
        RetireKeepsFollowing(d, order, Next(d, a));
      }
    case _ =>
      OthersKeepTriggered(d, a);
      hide Next;
      QuietKeepsFollowing(d, Next(d, a));
  }

  lemma OthersKeepTriggered(d: Desk, a: Action)
    requires !a.Trigger? && !a.FillOrder? && !a.CancelOrder? && !a.OrderLapsed? && !a.WebSkip?
    ensures var e := Next(d, a);
      && e.orders == d.orders && |d.signals| <= |e.signals|
      && forall i | 0 <= i < |d.signals| && d.signals[i].status == TRIGGERED :: e.signals[i] == d.signals[i]
  {
    OthersKeepOrders(d, a);
    StepExtends(d, a);
    hide Next;
    forall i: nat | i < |d.signals| && d.signals[i].status == TRIGGERED ensures Next(d, a).signals[i] == d.signals[i] {
      OthersLeaveTriggered(d, a, i);
    }
  }

  lemma OthersKeepOrders(d: Desk, a: Action)
    requires !a.Trigger? && !a.FillOrder? && !a.CancelOrder? && !a.OrderLapsed?
    ensures Next(d, a).orders == d.orders
  {
    hide FindDated, SetStatus, Begin, Answer, Promote, Fail, Move, MoveFound, ScreenFinds;
    MovesKeepOrders(d);
    match a
    case BeginPromote(org, item) => BeginMovesItem(d, org, item);
    case QueueOutcome(item, accepted) => AnswerMovesItem(d, item, accepted);
    case RunTask(item, priced) => PromoteKeepsOrders(d, item, priced);
    case TaskFails(item) => FailMovesItem(d, item);
    case Screen(key, item) => ScreenKeepsOrders(d, key, item);
    case _ =>
  }

  lemma MovesKeepOrders(d: Desk)
    ensures forall i: nat, from, to :: Move(d, i, from, to).orders == d.orders
    ensures forall i: Option<nat>, to | i.Some? ==> i.value < |d.signals| :: MoveFound(d, i, to).orders == d.orders
  {
    hide SetStatus;
  }

  lemma BeginMovesItem(d: Desk, org: int, item: int)
    ensures Begin(d, org, item).orders == d.orders && Begin(d, org, item).signals == d.signals
  {
    hide Blocked, SetItem;
  }

  lemma AnswerMovesItem(d: Desk, item: int, accepted: bool)
    ensures Answer(d, item, accepted).orders == d.orders && Answer(d, item, accepted).signals == d.signals
  {
    hide SetItem;
  }

  lemma PromoteKeepsOrders(d: Desk, item: int, priced: bool)
    ensures Promote(d, item, priced).orders == d.orders
  {
    hide Blocked, SetItem;
  }

  lemma FailMovesItem(d: Desk, item: int)
    ensures Fail(d, item).orders == d.orders && Fail(d, item).signals == d.signals
  {
    hide SetItem;
  }

  lemma ScreenKeepsOrders(d: Desk, key: Key, item: int)
    ensures ScreenFinds(d, key, item).orders == d.orders
  {
    hide HasLive, SetItem;
  }

  /** The dashboard's skip leaves every working order with its signal if and only if the signal has no working order. */
  lemma SkipKeepsFollowing(d: Desk, org: int, i: nat)
    requires Follows(d)
    ensures Follows(Next(d, WebSkip(org, i))) <==> !Owns(d, org, i) || !Working(d, i)
  {
    var e := Next(d, WebSkip(org, i));
    if Owns(d, org, i) {
      assert e.orders == d.orders && e.signals == SetStatus(d.signals, i, SKIPPED);
      forall o | o in d.orders && d.orders[o].submitted
        ensures Backed(e.signals, e.orders[o]) <==> d.orders[o].signal != i
      {
        assert Backed(d.signals, d.orders[o]);
      }
    }
  }

  /**
    Whole runs: with one live signal a ticker at the start, nothing unskipped, and no signal skipped on the
    dashboard while its order works, every working order keeps its own triggered signal.
   */
  lemma {:induction false} RunKeepsFollowing(d: Desk, actions: seq<Action>)
    requires Follows(d) && OneLive(d.signals)
    requires forall i | 0 <= i < |actions| :: !actions[i].Unskip? && !actions[i].TelegramUnskip?
    requires forall k | 0 <= k < |actions| && actions[k].WebSkip? ::
      !Owns(Run(d, actions[..k]), actions[k].org, actions[k].signal) ||
        !Working(Run(d, actions[..k]), actions[k].signal)
    ensures Follows(Run(d, actions))
  {
    hide Follows, OneLive, Next, Owns, Working;
    if actions != [] {
      var n := |actions| - 1;
      assert forall k | 0 <= k <= n :: actions[..n][..k] == actions[..k];
      RunKeepsFollowing(d, actions[..n]);
      RunKeepsOneLive(d, actions[..n]);
      if actions[n].WebSkip? {
        SkipKeepsFollowing(Run(d, actions[..n]), actions[n].org, actions[n].signal);
      } else {
        StepKeepsFollowing(Run(d, actions[..n]), actions[n]);
      }
    }
  }

  /** Skipping a triggered signal on the dashboard leaves its order working and lets the screener raise another. */
  lemma SkipLeavesOrderWorking(key: Key)
    ensures var d :=
      Desk(0, [Signal(key, 0, TRIGGERED)], map[], multiset{}, multiset{}, multiset{}, map[1 := Order(key, 0, true)]);
      var e := Next(Next(d, WebSkip(key.org, 0)), Screen(key, 0));
      Inv(d) && Follows(d) && e.signals == [Signal(key, 0, SKIPPED), Signal(key, 0, PENDING)] && e.orders[1].submitted
  {
    var d := Desk(0, [Signal(key, 0, TRIGGERED)], map[], multiset{}, multiset{}, multiset{},
      map[1 := Order(key, 0, true)]);
    assert Next(d, WebSkip(key.org, 0)).signals == [Signal(key, 0, SKIPPED)];
  }
}
