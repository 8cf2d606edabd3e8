/**
  The handlers that write signals and watchlist items, updating the tables in place. Each one is a step of
  the signal lifecycle and keeps its invariant, save the undated unskip.
 */
module SignalDesk {
  import opened Common
  import opened SignalLifecycle
  import opened SignalEffects

  datatype PromoteReply = NotFound | PositionOpen | SignalExists | Flipped
  datatype SkipReply = Skipped | Restored | NotThere | WrongStatus

  class Tables {
    var today: int
    var signals: seq<Signal>
    var items: map<int, Item>
    var inFlight: multiset<int>
    var queue: multiset<int>
    var open: multiset<Key>
    var orders: map<int, Order>

    constructor (d: Desk)
      ensures View() == d
    {
      today, signals, items, inFlight, queue, open, orders :=
        d.today, d.signals, d.items, d.inFlight, d.queue, d.open, d.orders;
    }

    function View(): Desk
      reads this
    {
      Desk(today, signals, items, inFlight, queue, open, orders)
    }

    /** Both promote routes, up to the commit that takes the item off the watchlist. */
    method RequestPromotion(org: int, item: int) returns (reply: PromoteReply)
      modifies this
      ensures View() == Next(old(View()), BeginPromote(org, item))
      ensures reply == Flipped ==>
        && item in old(items)
        && items == old(items)[item := Item(old(items)[item].key, SIGNALLED)]
        && inFlight == old(inFlight) + multiset{item}
      ensures reply != Flipped ==> View() == old(View())
      ensures reply == NotFound <==> item !in old(items) || old(items)[item].key.org != org
      ensures reply == PositionOpen <==>
        item in old(items) && old(items)[item].key.org == org && old(items)[item].key in open
      ensures reply == SignalExists <==>
        && item in old(items) && old(items)[item].key.org == org && old(items)[item].key !in open
        && (Standing(signals, old(items)[item].key) || DatedOn(signals, old(items)[item].key, today))
      ensures old(Inv(View())) ==> Inv(View())
    {
      hide Inv;
      NextKeepsIf(View(), BeginPromote(org, item));
      if item !in items || items[item].key.org != org {
        return NotFound;
      }
      var w := items[item];
      if w.key in open {
        return PositionOpen;
      }
      BlockedMeans(signals, today, w.key);
      if Blocked(signals, today, w.key) {
        return SignalExists;
      }
      items := items[item := w.(status := SIGNALLED)];
      inFlight := inFlight + multiset{item};
      reply := Flipped;
    }

    /** The rest of either route: the queue took the task, or the optimistic flip is rolled back. */
    method QueueAnswered(item: int, accepted: bool)
      requires item in inFlight
      modifies this
      ensures View() == Next(old(View()), QueueOutcome(item, accepted))
      ensures inFlight == old(inFlight) - multiset{item}
      ensures accepted ==> queue == old(queue) + multiset{item} && items == old(items)
      ensures !accepted ==> queue == old(queue) && items.Keys == old(items).Keys
      ensures !accepted && item in items ==> items == old(items)[item := Item(old(items)[item].key, WATCHING)]
      ensures old(Inv(View())) ==> Inv(View())
    {
      hide Inv;
      NextKeepsIf(View(), QueueOutcome(item, accepted));
      inFlight := inFlight - multiset{item};
      if accepted {
        queue := queue + multiset{item};
      } else if item in items {
        items := items[item := items[item].(status := WATCHING)];
      }
    }

    /**
      The background task; `priced` says whether the ticker has a usable closing price. For a priced ticker that
      is not held, the item is SIGNALLED and there is one new signal, pending and dated today, unless one counts
      already; else no signal is added and the item is WATCHING.
     */
    method RunPromotionTask(item: int, priced: bool)
      requires item in queue
      modifies this
      ensures View() == Next(old(View()), RunTask(item, priced))
      ensures queue == old(queue) - multiset{item}
      ensures item !in old(items) ==> items == old(items) && signals == old(signals)
      ensures item in old(items) && priced && old(items)[item].key !in open ==>
        && items == old(items)[item := Item(old(items)[item].key, SIGNALLED)]
        && signals ==
           if Standing(old(signals), old(items)[item].key) || DatedOn(old(signals), old(items)[item].key, today)
           then old(signals) else old(signals) + [Signal(old(items)[item].key, today, PENDING)]
      ensures item in old(items) && (!priced || old(items)[item].key in open) ==>
        items == old(items)[item := Item(old(items)[item].key, WATCHING)] && signals == old(signals)
      ensures old(Inv(View())) ==> Inv(View())
    {
      hide Inv, Standing, DatedOn;
      NextKeepsIf(View(), RunTask(item, priced));
      queue := queue - multiset{item};
      if item !in items {
        return;
      }
      var w := items[item];
      BlockedMeans(signals, today, w.key);
      if w.key in open || !priced {
        items := items[item := w.(status := WATCHING)];
        return;
      }
      if !Blocked(signals, today, w.key) {
        signals := signals + [Signal(w.key, today, PENDING)];
      }
      items := items[item := w.(status := SIGNALLED)];
    }

    /** The dashboard's cancel, once the broker has cancelled the order. */
    method CancelOpenOrder(org: int, order: int)
      modifies this
      ensures View() == Next(old(View()), CancelOrder(org, order))
      ensures OrderDoes(old(View()), CancelOrder(org, order), View())
      ensures old(Inv(View())) ==> Inv(View())
    {
      hide Inv, NewestTriggered, Next, OrderDoes;
      NextKeepsIf(View(), CancelOrder(org, order));
      CancelStep(View(), org, order);
      CancelDoes(View(), org, order);
      if order in orders && orders[order].key.org == org && orders[order].submitted {
        var key := orders[order].key;
        orders := orders[order := orders[order].(submitted := false)];
        if key in open {
          open := open - multiset{key};
        }
        var newest := NewestTriggered(signals, key);
        if newest.Some? {
          signals := signals[newest.value := signals[newest.value].(status := PENDING)];
        }
      }
    }

    /** The dashboard's skip does not look at the status: a triggered or expired signal goes to SKIPPED too. */
    method SkipFromDashboard(org: int, signal: nat)
      modifies this
      ensures View() == Next(old(View()), WebSkip(org, signal))
      ensures signal < |old(signals)| && old(signals)[signal].key.org == org ==>
        signals == old(signals)[signal := Signal(old(signals)[signal].key, old(signals)[signal].date, SKIPPED)]
      ensures signal >= |old(signals)| || old(signals)[signal].key.org != org ==> View() == old(View())
      ensures old(Inv(View())) ==> Inv(View())
    {
      hide Inv;
      NextKeepsIf(View(), WebSkip(org, signal));
      if signal < |signals| && signals[signal].key.org == org {
        signals := signals[signal := signals[signal].(status := SKIPPED)];
      }
    }

    method SkipFromMcp(org: int, signal: nat) returns (reply: SkipReply)
      modifies this
      ensures View() == Next(old(View()), McpSkip(org, signal))
      ensures reply == NotThere <==> signal >= |old(signals)| || old(signals)[signal].key.org != org
      ensures reply == Skipped <==>
        signal < |old(signals)| && old(signals)[signal].key.org == org && old(signals)[signal].status == PENDING
      ensures reply == Skipped ==>
        signals == old(signals)[signal := Signal(old(signals)[signal].key, old(signals)[signal].date, SKIPPED)]
      ensures reply == Skipped <==> View() != old(View())
      ensures old(Inv(View())) ==> Inv(View())
    {
      hide Inv;
      NextKeepsIf(View(), McpSkip(org, signal));
      if signal >= |signals| || signals[signal].key.org != org {
        return NotThere;
      }
      if signals[signal].status != PENDING {
        return WrongStatus;
      }
      signals := signals[signal := signals[signal].(status := SKIPPED)];
      assert signals[signal] != old(signals)[signal];
      reply := Skipped;
    }

    method SkipFromTelegram(key: Key) returns (reply: SkipReply)
      modifies this
      ensures View() == Next(old(View()), TelegramSkip(key))
      ensures reply == Skipped <==> Signal(key, today, PENDING) in old(signals)
      ensures MovesFirst(old(signals), signals, Signal(key, today, PENDING), SKIPPED)
      ensures old(Inv(View())) ==> Inv(View())
    {
      hide Inv;
      NextKeepsIf(View(), TelegramSkip(key));
      FoundMoves(View(), key, PENDING, SKIPPED);
      var found := FindDated(signals, key, today, PENDING);
      assert found.None? ==> signals[..|signals|] == signals;
      if found.None? {
        return NotThere;
      }
      signals := signals[found.value := signals[found.value].(status := SKIPPED)];
      reply := Skipped;
    }

    /** Telegram restores only a signal dated today, which still counts against new ones. */
    method UnskipFromTelegram(key: Key) returns (reply: SkipReply)
      modifies this
      ensures View() == Next(old(View()), TelegramUnskip(key))
      ensures reply == Restored <==> Signal(key, today, SKIPPED) in old(signals)
      ensures MovesFirst(old(signals), signals, Signal(key, today, SKIPPED), PENDING)
      ensures old(Inv(View())) ==> Inv(View())
    {
      hide Inv;
      NextKeepsIf(View(), TelegramUnskip(key));
      FoundMoves(View(), key, SKIPPED, PENDING);
      var found := FindDated(signals, key, today, SKIPPED);
      assert found.None? ==> signals[..|signals|] == signals;
      if found.None? {
        return NotThere;
      }
      signals := signals[found.value := signals[found.value].(status := PENDING)];
      reply := Restored;
    }

    /** The dashboard's and the MCP tool's unskip, whatever the signal's date. */
    method UnskipAnyDay(org: int, signal: nat)
      modifies this
      ensures View() == Next(old(View()), Unskip(org, signal))
      ensures MoveDoes(old(View()), Unskip(org, signal), View())
      ensures signal < |old(signals)| && old(signals)[signal].key.org == org ==>
        signals == if old(signals)[signal].status != SKIPPED then old(signals)
                   else old(signals)[signal := Signal(old(signals)[signal].key, old(signals)[signal].date, PENDING)]
      ensures old(Inv(View())) ==> (OneBlocking(signals, today) <==>
        !Owns(old(View()), org, signal) || old(signals)[signal].status != SKIPPED ||
          !Rival(old(signals), today, signal))
    {
      if signal < |signals| && signals[signal].key.org == org && signals[signal].status == SKIPPED {
        signals := signals[signal := signals[signal].(status := PENDING)];
      }
      if old(Inv(View())) {
        UnskipKeepsOneBlocking(old(View()), org, signal);
      }
    }
  }

  lemma CancelStep(d: Desk, org: int, order: int)
    ensures Next(d, CancelOrder(org, order)) == Cancel(d, org, order)
  {
    hide Cancel;
  }

  lemma NextKeepsIf(d: Desk, a: Action)
    requires !a.Unskip? && !a.Screen?
    ensures Inv(d) ==> Inv(Next(d, a))
  {
    if Inv(d) {
      NextKeeps(d, a);
    }
  }
}
