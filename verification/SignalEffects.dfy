/**
  What each step of the signal lifecycle does to the rows it touches, said row by row: which signals, items,
  orders and positions change, to what, and under which condition. The description leaves a step no choice.
 */
module SignalEffects {
  import opened Common
  import opened SignalLifecycle

  // ---------------------------------------------------------------- single rows

  /** Signal `i` goes to `status`, and no other signal changes. */
  ghost predicate Moves(before: seq<Signal>, after: seq<Signal>, i: nat, status: SignalStatus) {
    && i < |before| == |after| && after[i] == Signal(before[i].key, before[i].date, status)
    && forall j | 0 <= j < |before| && j != i :: after[j] == before[j]
  }

  /** The item goes to `status`, and no other item changes. */
  ghost predicate Sets(before: map<int, Item>, after: map<int, Item>, item: int, status: ItemStatus) {
    && item in before && item in after && after[item] == Item(before[item].key, status)
    && after - {item} == before - {item}
  }

  /** The order stops working, and no other order changes. */
  ghost predicate Retires(before: map<int, Order>, after: map<int, Order>, order: int) {
    && order in before && order in after && after[order] == Order(before[order].key, before[order].signal, false)
    && after - {order} == before - {order}
  }

  ghost predicate Adds(before: seq<Signal>, after: seq<Signal>, signal: Signal) {
    |after| == |before| + 1 && after[..|before|] == before && after[|before|] == signal
  }

  /** The first signal equal to `signal` goes to `status`; there may be none. */
  ghost predicate MovesFirst(before: seq<Signal>, after: seq<Signal>, signal: Signal, status: SignalStatus) {
    if signal in before then
      exists i: nat :: i < |before| && before[i] == signal && signal !in before[..i] && Moves(before, after, i, status)
    else after == before
  }

  /** The last triggered signal of the key goes to `status`; there may be none. */
  ghost predicate MovesNewest(before: seq<Signal>, after: seq<Signal>, key: Key, status: SignalStatus) {
    if exists i :: 0 <= i < |before| && before[i].key == key && before[i].status == TRIGGERED then
      exists i: nat :: Newest(before, key, i) && Moves(before, after, i, status)
    else after == before
  }

  ghost predicate Newest(signals: seq<Signal>, key: Key, i: nat) {
    && i < |signals| && signals[i].key == key && signals[i].status == TRIGGERED
    && forall j | i < j < |signals| :: !(signals[j].key == key && signals[j].status == TRIGGERED)
  }

  /** Some signal of the key is pending or triggered. */
  ghost predicate Standing(signals: seq<Signal>, key: Key) {
    exists i :: 0 <= i < |signals| && signals[i].key == key && signals[i].status in {PENDING, TRIGGERED}
  }

  /** Some signal of the key has that date. */
  ghost predicate DatedOn(signals: seq<Signal>, key: Key, date: int) {
    exists i :: 0 <= i < |signals| && signals[i].key == key && signals[i].date == date
  }

  lemma BlockedMeans(signals: seq<Signal>, today: int, key: Key)
    ensures Blocked(signals, today, key) <==> Standing(signals, key) || DatedOn(signals, key, today)
    ensures HasLive(signals, key) <==> Standing(signals, key)
  {
    if Standing(signals, key) {
      var i :| 0 <= i < |signals| && signals[i].key == key && signals[i].status in {PENDING, TRIGGERED};
      assert Live(signals[i]) && Blocks(signals[i], today);
    }
    if DatedOn(signals, key, today) {
      var i :| 0 <= i < |signals| && signals[i].key == key && signals[i].date == today;
      assert Blocks(signals[i], today);
    }
  }

  // ---------------------------------------------------------------- every step

  /** A request takes the caller's item off the watchlist, unless its ticker is held or has a signal that counts. */
  ghost predicate BeginDoes(d: Desk, org: int, item: int, e: Desk) {
    if item in d.items && d.items[item].key.org == org && d.items[item].key !in d.open
       && !Standing(d.signals, d.items[item].key) && !DatedOn(d.signals, d.items[item].key, d.today)
    then
      && Sets(d.items, e.items, item, SIGNALLED) && e.inFlight == d.inFlight + multiset{item}
      && e == d.(items := e.items, inFlight := e.inFlight)
    else e == d
  }

  /** The queue's answer to a request: the task waits, or the item, if it is still there, is back to WATCHING. */
  ghost predicate AnswerDoes(d: Desk, item: int, accepted: bool, e: Desk) {
    if item in d.inFlight then
      && e.inFlight == d.inFlight - multiset{item}
      && e.queue == (if accepted then d.queue + multiset{item} else d.queue)
      && (if !accepted && item in d.items then Sets(d.items, e.items, item, WATCHING) else e.items == d.items)
      && e == d.(items := e.items, inFlight := e.inFlight, queue := e.queue)
    else e == d
  }

  /**
    A task for an item whose ticker is not held, has a price and no signal that counts adds one signal for it,
    pending and dated today; with such a signal it adds none; either way the item is SIGNALLED. A task for a
    held or unpriced ticker adds none and puts the item back to WATCHING.
   */
  ghost predicate TaskDoes(d: Desk, item: int, priced: bool, e: Desk) {
    if item in d.queue then
      && e.queue == d.queue - multiset{item}
      && e == d.(items := e.items, queue := e.queue, signals := e.signals)
      && if item !in d.items then e.items == d.items && e.signals == d.signals
         else
           var key := d.items[item].key;
           if priced && key !in d.open then
             && Sets(d.items, e.items, item, SIGNALLED)
             && if Standing(d.signals, key) || DatedOn(d.signals, key, d.today) then e.signals == d.signals
                else Adds(d.signals, e.signals, Signal(key, d.today, PENDING))
           else Sets(d.items, e.items, item, WATCHING) && e.signals == d.signals
    else e == d
  }

  ghost predicate FailDoes(d: Desk, item: int, e: Desk) {
    if item in d.queue then
      && e.queue == d.queue - multiset{item}
      && (if item in d.items && d.items[item].status == SIGNALLED then Sets(d.items, e.items, item, WATCHING)
          else e.items == d.items)
      && e == d.(items := e.items, queue := e.queue)
    else e == d
  }

  /** A pending signal triggers with an order of its own; a simulated one opens the position at once. */
  ghost predicate TriggerDoes(d: Desk, i: nat, order: int, simulated: bool, e: Desk) {
    if i < |d.signals| && d.signals[i].status == PENDING && order !in d.orders then
      && Moves(d.signals, e.signals, i, TRIGGERED)
      && order in e.orders && e.orders[order] == Order(d.signals[i].key, i, !simulated)
      && e.orders - {order} == d.orders
      && e.open == (if simulated then d.open + multiset{d.signals[i].key} else d.open)
      && e == d.(signals := e.signals, orders := e.orders, open := e.open)
    else e == d
  }

  predicate WorkingOrder(d: Desk, order: int) { order in d.orders && d.orders[order].submitted }

  /** A fill opens the position; a cancel drops one and a lapse leaves them, each with a signal back to pending. */
  ghost predicate OrderDoes(d: Desk, a: Action, e: Desk) {
    match a
    case FillOrder(order) =>
      if WorkingOrder(d, order) then
        && Retires(d.orders, e.orders, order) && e.open == d.open + multiset{d.orders[order].key}
        && e == d.(orders := e.orders, open := e.open)
      else e == d
    case CancelOrder(org, order) =>
      if WorkingOrder(d, order) && d.orders[order].key.org == org then
        && Retires(d.orders, e.orders, order) && e.open == d.open - multiset{d.orders[order].key}
        && MovesNewest(d.signals, e.signals, d.orders[order].key, PENDING)
        && e == d.(orders := e.orders, open := e.open, signals := e.signals)
      else e == d
    case OrderLapsed(order) =>
      if WorkingOrder(d, order) then
        var i := d.orders[order].signal;
        && Retires(d.orders, e.orders, order)
        && (if i < |d.signals| && d.signals[i].status == TRIGGERED then Moves(d.signals, e.signals, i, PENDING)
            else e.signals == d.signals)
        && e == d.(orders := e.orders, signals := e.signals)
      else e == d
    case _ => true
  }

  /** The skips, the unskips and the delisting move one signal or nothing, and touch nothing else. */
  ghost predicate MoveDoes(d: Desk, a: Action, e: Desk) {
    && e == d.(signals := e.signals)
    && match a
       case WebSkip(org, i) =>
         if i < |d.signals| && d.signals[i].key.org == org then Moves(d.signals, e.signals, i, SKIPPED) else e == d
       case McpSkip(org, i) =>
         if i < |d.signals| && d.signals[i].key.org == org && d.signals[i].status == PENDING
         then Moves(d.signals, e.signals, i, SKIPPED) else e == d
       case TelegramSkip(key) => MovesFirst(d.signals, e.signals, Signal(key, d.today, PENDING), SKIPPED)
       case TelegramUnskip(key) => MovesFirst(d.signals, e.signals, Signal(key, d.today, SKIPPED), PENDING)
       case HeldSkip(i) =>
         if i < |d.signals| && d.signals[i].key in d.open && d.signals[i].status == PENDING
         then Moves(d.signals, e.signals, i, SKIPPED) else e == d
       case Delist(i) =>
         if i < |d.signals| && d.signals[i].status == PENDING then Moves(d.signals, e.signals, i, EXPIRED) else e == d
       case Unskip(org, i) =>
         if i < |d.signals| && d.signals[i].key.org == org && d.signals[i].status == SKIPPED
         then Moves(d.signals, e.signals, i, PENDING) else e == d
       case _ => true
  }

  ghost predicate ItemDoes(d: Desk, a: Action, e: Desk) {
    && e == d.(items := e.items)
    && match a
       case AddItem(item, key) =>
         if item in d.items then e == d
         else item in e.items && e.items[item] == Item(key, WATCHING) && e.items - {item} == d.items
       case RemoveItem(org, item) =>
         if item in d.items && d.items[item].key.org == org then Sets(d.items, e.items, item, REMOVED) else e == d
       case PurgeItem(item) => item !in e.items && e.items == d.items - {item}
       case _ => true
  }

  /**
    The screener adds a pending signal dated today for a ticker that is not held and has none live, dated today
    or not, and takes the ticker's item off the watchlist.
   */
  ghost predicate ScreenDoes(d: Desk, key: Key, item: int, e: Desk) {
    if key !in d.open && !Standing(d.signals, key) then
      && Adds(d.signals, e.signals, Signal(key, d.today, PENDING))
      && (if item in d.items && d.items[item] == Item(key, WATCHING) then Sets(d.items, e.items, item, SIGNALLED)
          else e.items == d.items)
      && e == d.(signals := e.signals, items := e.items)
    else e == d
  }

  /** `e` is what step `a` may leave of `d`. */
  ghost predicate Does(d: Desk, a: Action, e: Desk) {
    match a
    case BeginPromote(org, item) => BeginDoes(d, org, item, e)
    case QueueOutcome(item, accepted) => AnswerDoes(d, item, accepted, e)
    case RunTask(item, priced) => TaskDoes(d, item, priced, e)
    case TaskFails(item) => FailDoes(d, item, e)
    case Trigger(i, order, simulated) => TriggerDoes(d, i, order, simulated, e)
    case Screen(key, item) => ScreenDoes(d, key, item, e)
    case ClosePosition(key) => e == d.(open := e.open) && e.open == d.open - multiset{key}
    case NextDay => e == d.(today := e.today) && e.today == d.today + 1
    case FillOrder(_) => OrderDoes(d, a, e)
    case CancelOrder(_, _) => OrderDoes(d, a, e)
    case OrderLapsed(_) => OrderDoes(d, a, e)
    case AddItem(_, _) => ItemDoes(d, a, e)
    case RemoveItem(_, _) => ItemDoes(d, a, e)
    case PurgeItem(_) => ItemDoes(d, a, e)
    case _ => MoveDoes(d, a, e)
  }

  /** Every step does exactly what the description says of it. */
  lemma StepDoes(d: Desk, a: Action)
    ensures Does(d, a, Next(d, a))
  {
    hide BeginDoes, AnswerDoes, TaskDoes, FailDoes, TriggerDoes, ScreenDoes, OrderDoes, ItemDoes, MoveDoes,
      Begin, Answer, Promote, Fail, Enter, ScreenFinds, Fill, Cancel, Lapse, Move, MoveFound, Owns, FindDated, SetItem;
    match a
    case BeginPromote(org, item) => BeginStep(d, org, item);
    case QueueOutcome(item, accepted) => QueueSteps(d, item, accepted);
    case RunTask(item, priced) => PromoteDoes(d, item, priced);
    case TaskFails(item) => QueueSteps(d, item, true);
    case Trigger(i, order, simulated) => TriggerStep(d, i, order, simulated);
    case Screen(key, item) => ScreenStep(d, key, item);
    case ClosePosition(key) =>
    case NextDay =>
    case FillOrder(order) => FillAndLapse(d, order);
    case OrderLapsed(order) => FillAndLapse(d, order);
    case CancelOrder(org, order) => CancelDoes(d, org, order);
    case AddItem(item, key) => ItemSteps(d, a);
    case RemoveItem(org, item) => ItemSteps(d, a);
    case PurgeItem(item) => ItemSteps(d, a);
    case TelegramSkip(key) => TelegramSteps(d, key);
    case TelegramUnskip(key) => TelegramSteps(d, key);
    case _ => SignalSteps(d, a);
  }

  /** A run is its steps in order: each next one does what is described to the desk so far. */
  lemma RunDoes(d: Desk, actions: seq<Action>, a: Action)
    ensures Run(d, []) == d && Does(Run(d, actions), a, Run(d, actions + [a]))
  {
    hide Next, Does;
    assert (actions + [a])[..|actions|] == actions;
    StepDoes(Run(d, actions), a);
  }

  lemma BeginStep(d: Desk, org: int, item: int)
    ensures BeginDoes(d, org, item, Begin(d, org, item))
  {
    hide Standing, DatedOn, Blocked;
    if item in d.items {
      BlockedMeans(d.signals, d.today, d.items[item].key);
    }
  }

  lemma QueueSteps(d: Desk, item: int, accepted: bool)
    ensures AnswerDoes(d, item, accepted, Answer(d, item, accepted)) && FailDoes(d, item, Fail(d, item))
  {
  }

  lemma TriggerStep(d: Desk, i: nat, order: int, simulated: bool)
    ensures TriggerDoes(d, i, order, simulated, Enter(d, i, order, simulated))
  {
  }

  lemma ScreenStep(d: Desk, key: Key, item: int)
    ensures ScreenDoes(d, key, item, ScreenFinds(d, key, item))
  {
    hide Standing, HasLive;
    BlockedMeans(d.signals, d.today, key);
  }

  lemma FillAndLapse(d: Desk, order: int)
    ensures OrderDoes(d, FillOrder(order), Fill(d, order)) && OrderDoes(d, OrderLapsed(order), Lapse(d, order))
  {
  }

  lemma ItemSteps(d: Desk, a: Action)
    requires a.AddItem? || a.RemoveItem? || a.PurgeItem?
    ensures ItemDoes(d, a, Next(d, a))
  {
  }

  lemma TelegramSteps(d: Desk, key: Key)
    ensures MoveDoes(d, TelegramSkip(key), Next(d, TelegramSkip(key)))
    ensures MoveDoes(d, TelegramUnskip(key), Next(d, TelegramUnskip(key)))
  {
    FoundMoves(d, key, PENDING, SKIPPED);
    FoundMoves(d, key, SKIPPED, PENDING);
    hide MovesFirst, FindDated;
  }

  lemma SignalSteps(d: Desk, a: Action)
    requires a.WebSkip? || a.McpSkip? || a.HeldSkip? || a.Delist? || a.Unskip?
    ensures MoveDoes(d, a, Next(d, a))
  {
  }

  lemma PromoteDoes(d: Desk, item: int, priced: bool)
    ensures TaskDoes(d, item, priced, Promote(d, item, priced))
  {
    hide Standing, DatedOn, Blocked;
    if item in d.items {
      BlockedMeans(d.signals, d.today, d.items[item].key);
    }
  }

  lemma CancelDoes(d: Desk, org: int, order: int)
    ensures OrderDoes(d, CancelOrder(org, order), Cancel(d, org, order))
  {
    if WorkingOrder(d, order) {
      NewestMoves(d.signals, d.orders[order].key);
    }
    hide MovesNewest;
  }

  lemma NewestMoves(signals: seq<Signal>, key: Key)
    ensures var i := NewestTriggered(signals, key);
      MovesNewest(signals, if i.Some? then SetStatus(signals, i.value, PENDING) else signals, key, PENDING)
  {
    var i := NewestTriggered(signals, key);
    if i.Some? {
      assert Newest(signals, key, i.value) && Moves(signals, SetStatus(signals, i.value, PENDING), i.value, PENDING);
    }
  }

  lemma FoundMoves(d: Desk, key: Key, from: SignalStatus, to: SignalStatus)
    ensures var found := FindDated(d.signals, key, d.today, from);
      && (found.Some? ==> found.value < |d.signals|)
      && MovesFirst(d.signals, MoveFound(d, found, to).signals, Signal(key, d.today, from), to)
  {
    var found := FindDated(d.signals, key, d.today, from);
    if found.Some? {
      assert Moves(d.signals, MoveFound(d, found, to).signals, found.value, to);
    } else {
      assert d.signals[..|d.signals|] == d.signals;
    }
  }

  /** And the description leaves it no choice: one desk and one step have one outcome. */
  lemma StepDetermined(d: Desk, a: Action, e: Desk, f: Desk)
    requires Does(d, a, e) && Does(d, a, f)
    ensures e == f
  {
    hide BeginDoes, AnswerDoes, TaskDoes, FailDoes, TriggerDoes, ScreenDoes, OrderDoes, ItemDoes, MoveDoes;
    match a
    case BeginPromote(org, item) => PromotionDetermined(d, item, e, f);
    case QueueOutcome(item, accepted) => PromotionDetermined(d, item, e, f);
    case RunTask(item, priced) => TaskDetermined(d, item, priced, e, f);
    case TaskFails(item) => PromotionDetermined(d, item, e, f);
    case Trigger(i, order, simulated) => TriggerDetermined(d, i, order, simulated, e, f);
    case Screen(key, item) => ScreenDetermined(d, key, item, e, f);
    case ClosePosition(key) =>
    case NextDay =>
    case FillOrder(order) => OrderDetermined(d, a, e, f);
    case OrderLapsed(order) => OrderDetermined(d, a, e, f);
    case CancelOrder(org, order) => OrderDetermined(d, a, e, f);
    case AddItem(item, key) => ItemDetermined(d, a, e, f);
    case RemoveItem(org, item) => ItemDetermined(d, a, e, f);
    case PurgeItem(item) => ItemDetermined(d, a, e, f);
    case _ => MoveDetermined(d, a, e, f);
  }

  lemma PromotionDetermined(d: Desk, item: int, e: Desk, f: Desk)
    ensures forall org :: BeginDoes(d, org, item, e) && BeginDoes(d, org, item, f) ==> e == f
    ensures forall accepted :: AnswerDoes(d, item, accepted, e) && AnswerDoes(d, item, accepted, f) ==> e == f
    ensures FailDoes(d, item, e) && FailDoes(d, item, f) ==> e == f
  {
    hide Standing, DatedOn, Sets;
    RowsDetermined(d, e, f);
  }

  lemma TaskDetermined(d: Desk, item: int, priced: bool, e: Desk, f: Desk)
    requires TaskDoes(d, item, priced, e) && TaskDoes(d, item, priced, f)
    ensures e == f
  {
    hide Standing, DatedOn, Sets;
    RowsDetermined(d, e, f);
    Added(e.signals, f.signals);
  }

  lemma TriggerDetermined(d: Desk, i: nat, order: int, simulated: bool, e: Desk, f: Desk)
    requires TriggerDoes(d, i, order, simulated, e) && TriggerDoes(d, i, order, simulated, f)
    ensures e == f
  {
    hide Moves;
    RowsDetermined(d, e, f);
    AddedOrder(d.orders, e.orders, f.orders, order);
  }

  lemma ScreenDetermined(d: Desk, key: Key, item: int, e: Desk, f: Desk)
    requires ScreenDoes(d, key, item, e) && ScreenDoes(d, key, item, f)
    ensures e == f
  {
    hide Standing, Sets;
    RowsDetermined(d, e, f);
    Added(e.signals, f.signals);
  }

  lemma OrderDetermined(d: Desk, a: Action, e: Desk, f: Desk)
    requires a.FillOrder? || a.OrderLapsed? || a.CancelOrder?
    requires OrderDoes(d, a, e) && OrderDoes(d, a, f)
    ensures e == f
  {
    hide Moves, MovesNewest, Retires;
    RowsDetermined(d, e, f);
    FoundDetermined(d, e, f);
  }

  lemma ItemDetermined(d: Desk, a: Action, e: Desk, f: Desk)
    requires a.AddItem? || a.RemoveItem? || a.PurgeItem?
    requires ItemDoes(d, a, e) && ItemDoes(d, a, f)
    ensures e == f
  {
    hide Sets;
    RowsDetermined(d, e, f);
    if a.AddItem? {
      AddedItem(d.items, e.items, f.items, a.item);
    }
  }

  lemma MoveDetermined(d: Desk, a: Action, e: Desk, f: Desk)
    requires a.WebSkip? || a.McpSkip? || a.HeldSkip? || a.Delist? || a.Unskip? || a.TelegramSkip? || a.TelegramUnskip?
    requires MoveDoes(d, a, e) && MoveDoes(d, a, f)
    ensures e == f
  {
    hide Moves, MovesFirst;
    RowsDetermined(d, e, f);
    FoundDetermined(d, e, f);
  }

  lemma Added(e: seq<Signal>, f: seq<Signal>)
    ensures |e| == |f| != 0 && e[..|e| - 1] == f[..|f| - 1] && e[|e| - 1] == f[|f| - 1] ==> e == f
  {
    if |e| == |f| != 0 && e[..|e| - 1] == f[..|f| - 1] && e[|e| - 1] == f[|f| - 1] {
      assert e == e[..|e| - 1] + [e[|e| - 1]];
    }
  }

  lemma AddedOrder(d: map<int, Order>, e: map<int, Order>, f: map<int, Order>, order: int)
    ensures order in e && order in f && e[order] == f[order] && e - {order} == f - {order} == d ==> e == f
  {
    if order in e && order in f && e[order] == f[order] && e - {order} == f - {order} == d {
      assert e == d[order := e[order]] && f == d[order := f[order]];
    }
  }

  lemma AddedItem(d: map<int, Item>, e: map<int, Item>, f: map<int, Item>, item: int)
    ensures item in e && item in f && e[item] == f[item] && e - {item} == f - {item} == d ==> e == f
  {
    if item in e && item in f && e[item] == f[item] && e - {item} == f - {item} == d {
      assert e == d[item := e[item]] && f == d[item := f[item]];
    }
  }

  lemma RowsDetermined(d: Desk, e: Desk, f: Desk)
    ensures forall i, status | Moves(d.signals, e.signals, i, status) && Moves(d.signals, f.signals, i, status) ::
      e.signals == f.signals
    ensures forall item, status | Sets(d.items, e.items, item, status) && Sets(d.items, f.items, item, status) ::
      e.items == f.items
    ensures forall order | Retires(d.orders, e.orders, order) && Retires(d.orders, f.orders, order) ::
      e.orders == f.orders
  {
    forall item, status | Sets(d.items, e.items, item, status) && Sets(d.items, f.items, item, status)
      ensures e.items == f.items
    {
      assert e.items == (e.items - {item})[item := e.items[item]];
      assert f.items == (f.items - {item})[item := f.items[item]];
    }
    forall order | Retires(d.orders, e.orders, order) && Retires(d.orders, f.orders, order)
      ensures e.orders == f.orders
    {
      assert e.orders == (e.orders - {order})[order := e.orders[order]];
      assert f.orders == (f.orders - {order})[order := f.orders[order]];
    }
  }

  lemma FoundDetermined(d: Desk, e: Desk, f: Desk)
    ensures forall signal, status ::
      MovesFirst(d.signals, e.signals, signal, status) && MovesFirst(d.signals, f.signals, signal, status) ==>
        e.signals == f.signals
    ensures forall key, status ::
      MovesNewest(d.signals, e.signals, key, status) && MovesNewest(d.signals, f.signals, key, status) ==>
        e.signals == f.signals
  {
  }

  // ---------------------------------------------------------------- promotions from end to end

  /**
    Requested, accepted and run with a price, a promotion of an item whose ticker is not held and has no signal
    that counts ends in one new signal, pending and dated today, with the item off the watchlist, no request
    and no task left over, and nothing else changed.
   */
  lemma PromotionMakesSignal(d: Desk, org: int, item: int)
    requires item in d.items && d.items[item].key.org == org && d.items[item].key !in d.open
    requires !Standing(d.signals, d.items[item].key) && !DatedOn(d.signals, d.items[item].key, d.today)
    ensures var e := Run(d, [BeginPromote(org, item), QueueOutcome(item, true), RunTask(item, true)]);
      && Adds(d.signals, e.signals, Signal(d.items[item].key, d.today, PENDING))
      && Sets(d.items, e.items, item, SIGNALLED)
      && e == d.(signals := e.signals, items := e.items)
  {
    hide Standing, DatedOn, Next, Does;
    var begin, accept, task := BeginPromote(org, item), QueueOutcome(item, true), RunTask(item, true);
    RunThree(d, begin, accept, task);
    var requested, waiting := Next(d, begin), Next(Next(d, begin), accept);
    StepDoes(d, begin);
    StepDoes(requested, accept);
    StepDoes(waiting, task);
    PromotionSteps(d, org, item, requested, waiting, Next(waiting, task));
  }

  lemma RunThree(d: Desk, a: Action, b: Action, c: Action)
    ensures Run(d, [a, b, c]) == Next(Next(Next(d, a), b), c)
  {
    hide Next;
    assert [a, b, c][..2] == [a, b] && [a, b][..1] == [a] && [a][..0] == [];
    assert Run(d, [a]) == Next(Run(d, []), a);
    assert Run(d, [a, b]) == Next(Run(d, [a]), b);
  }

  lemma PromotionSteps(d: Desk, org: int, item: int, requested: Desk, waiting: Desk, e: Desk)
    requires item in d.items && d.items[item].key.org == org && d.items[item].key !in d.open
    requires !Standing(d.signals, d.items[item].key) && !DatedOn(d.signals, d.items[item].key, d.today)
    requires Does(d, BeginPromote(org, item), requested)
    requires Does(requested, QueueOutcome(item, true), waiting)
    requires Does(waiting, RunTask(item, true), e)
    ensures Adds(d.signals, e.signals, Signal(d.items[item].key, d.today, PENDING))
    ensures Sets(d.items, e.items, item, SIGNALLED) && e == d.(signals := e.signals, items := e.items)
  {
    hide Standing, DatedOn;
    assert e.inFlight == d.inFlight && e.queue == d.queue;
  }

  /** A task run with a price, for an item whose ticker is not held, leaves the ticker a signal that counts. */
  lemma TaskLeavesSignal(d: Desk, item: int)
    requires item in d.queue && item in d.items && d.items[item].key !in d.open
    ensures var e, key := Next(d, RunTask(item, true)), d.items[item].key;
      && (Standing(e.signals, key) || DatedOn(e.signals, key, e.today))
      && item in e.items && e.items[item] == Item(key, SIGNALLED)
      && |e.signals| == |d.signals| + if Standing(d.signals, key) || DatedOn(d.signals, key, d.today) then 0 else 1
  {
    var e, key := Next(d, RunTask(item, true)), d.items[item].key;
    StepDoes(d, RunTask(item, true));
    if !Standing(d.signals, key) && !DatedOn(d.signals, key, d.today) {
      assert e.signals[|d.signals|].key == key;
    }
    hide Standing, DatedOn, Next;
  }

  // ---------------------------------------------------------------- where signals come from

  /** The step makes a signal for the ticker: its task runs priced and unblocked, or the screener finds none live. */
  ghost predicate Raises(d: Desk, a: Action, key: Key) {
    match a
    case RunTask(item, priced) =>
      && priced && item in d.queue && item in d.items && d.items[item].key == key && key !in d.open
      && !Standing(d.signals, key) && !DatedOn(d.signals, key, d.today)
    case Screen(found, _) => found == key && key !in d.open && !Standing(d.signals, key)
    case _ => false
  }

  /** A step keeps every signal's ticker and date, and adds a signal exactly when it raises one. */
  lemma StepRaises(d: Desk, a: Action)
    ensures var e := Next(d, a);
      && |d.signals| <= |e.signals| <= |d.signals| + 1
      && (forall j | 0 <= j < |d.signals| ::
            e.signals[j].key == d.signals[j].key && e.signals[j].date == d.signals[j].date)
      && (forall key :: Raises(d, a, key) <==>
            |e.signals| == |d.signals| + 1 && e.signals[|d.signals|] == Signal(key, d.today, PENDING))
      && (|e.signals| == |d.signals| + 1 ==> Raises(d, a, e.signals[|d.signals|].key))
  {
    StepDoes(d, a);
    hide Next, Standing, DatedOn, AnswerDoes, BeginDoes, FailDoes, OrderDoes, MoveDoes, ItemDoes, TriggerDoes;
    if a.RunTask? || a.Screen? {
    } else {
      OthersRaiseNothing(d, a, Next(d, a));
    }
  }

  lemma OthersRaiseNothing(d: Desk, a: Action, e: Desk)
    requires !a.RunTask? && !a.Screen? && Does(d, a, e)
    ensures |e.signals| == |d.signals|
    ensures forall j | 0 <= j < |d.signals| ::
      e.signals[j].key == d.signals[j].key && e.signals[j].date == d.signals[j].date
  {
    hide Standing, DatedOn, Sets, Retires;
  }

  /** Every signal a run added was raised at one of its steps, pending and dated that day. */
  lemma {:induction false} SignalOrigin(d: Desk, actions: seq<Action>, i: nat) returns (k: nat)
    requires |d.signals| <= i < |Run(d, actions).signals|
    ensures k < |actions|
    ensures var s, before, after := Run(d, actions).signals[i], Run(d, actions[..k]), Run(d, actions[..k + 1]);
      && |before.signals| == i && Raises(before, actions[k], s.key) && s.date == before.today
      && |after.signals| == i + 1 && after.signals[i] == Signal(s.key, before.today, PENDING)
  {
    hide Next, Raises;
    var n := |actions| - 1;
    var before := Run(d, actions[..n]);
    StepRaises(before, actions[n]);
    if i < |before.signals| {
      k := SignalOrigin(d, actions[..n], i);
      assert actions[..n][..k] == actions[..k] && actions[..n][..k + 1] == actions[..k + 1];
    } else {
      k := n;
      assert actions[..n + 1] == actions;
    }
  }

  /** And every signal a step of a run raises is there at the end, in its place, with its ticker and date. */
  lemma {:induction false} RaisedStays(d: Desk, actions: seq<Action>, k: nat, key: Key)
    requires k < |actions| && Raises(Run(d, actions[..k]), actions[k], key)
    ensures var before, e := Run(d, actions[..k]), Run(d, actions);
      |before.signals| < |e.signals| && e.signals[|before.signals|].key == key
      && e.signals[|before.signals|].date == before.today
  {
    hide Next, Raises;
    var n := |actions| - 1;
    StepRaises(Run(d, actions[..n]), actions[n]);
    if k < n {
      assert actions[..n][..k] == actions[..k];
      RaisedStays(d, actions[..n], k, key);
    }
  }
}
