/**
  The IBKR order book as the trading code drives it: the three-legged bracket with its
  stop-limit entry, the wait for the gateway's verdict, and the stop ratchet that raises a
  working protective stop in place.
 */
module BrokerOrders {
  import opened Common
  import opened Rounding
  import opened TickRounding

  datatype Side = BUY | SELL
  datatype Kind = LMT | MKT | STP | STP_LMT
  datatype Tif = DAY | GTC
  datatype Status = ApiPending | PendingSubmit | PreSubmitted | Submitted | Filled
                  | PendingCancel | ApiCancelled | Cancelled | Inactive | Rejected

  const STABLE := {Submitted, PreSubmitted, Filled, Cancelled, ApiCancelled, Inactive, Rejected, PendingCancel}
  const BAD := {Cancelled, ApiCancelled, Inactive, Rejected, PendingCancel}

  /** The gateway is polled every half second for at most twelve seconds. */
  const MAX_POLLS := 24

  function Reverse(side: Side): Side {
    if side == BUY then SELL else BUY
  }

  /** The value an order object holds. */
  datatype Ticket = Ticket(id: int, side: Side, kind: Kind, qty: real, limit: real, stop: real, parent: int)

  class Order {
    const id: int
    const side: Side
    const kind: Kind
    const qty: real
    const parent: int
    const transmit: bool
    var lmtPrice: real
    var auxPrice: real
    var tif: Tif
    var orderRef: string
    var account: string
    var cancelRequested: bool

    constructor (id: int, side: Side, kind: Kind, qty: real, lmtPrice: real, auxPrice: real, parent: int,
      transmit: bool)
      ensures Value() == Ticket(id, side, kind, qty, lmtPrice, auxPrice, parent)
      ensures this.transmit == transmit && !cancelRequested
    {
      this.id, this.side, this.kind, this.qty := id, side, kind, qty;
      this.lmtPrice, this.auxPrice, this.parent, this.transmit := lmtPrice, auxPrice, parent, transmit;
      tif, orderRef, account, cancelRequested := DAY, "", "", false;
    }

    function Value(): Ticket
      reads this
    {
      Ticket(id, side, kind, qty, lmtPrice, auxPrice, parent)
    }
  }

  // ---------------------------------------------------------------- bracket prices

  datatype Request = Request(action: Side, qty: real, entry: real, stop: real, target: real,
                             pivot: Option<real>, bufferPct: real, venue: Venue, orderRef: string,
                             simulateOnDisconnect: bool)

  datatype Prices = Prices(trigger: Option<real>, entryLimit: real, stop: real, target: real)

  function LimitPrice(trigger: real, bufferPct: real, v: Venue): real {
    RoundToTick(trigger * (1.0 + bufferPct / 100.0), v)
  }

  function PriceBracket(req: Request): Prices {
    var v := req.venue;
    var stop, target := RoundToTick(req.stop, v), RoundToTick(req.target, v);
    if req.action == BUY && req.pivot.Some? then
      var trigger := RoundToTick(Max(req.pivot.value, req.entry), v);
      Prices(Some(trigger), LimitPrice(trigger, req.bufferPct, v), stop, target)
    else
      Prices(None, RoundToTick(req.entry, v), stop, target)
  }

  /**
    The stop-limit entry is ordered across every tick band: the protective stop is at or below the
    trigger, the trigger at or below the limit, and the limit chases the trigger by no more than the
    buffer and half a tick.
   */
  lemma BracketPricesOrdered(req: Request)
    requires req.action == BUY && req.pivot.Some?
    requires 0.0 <= Max(req.pivot.value, req.entry) && 0.0 <= req.bufferPct
    requires req.stop <= Max(req.pivot.value, req.entry)
    ensures var p, v := PriceBracket(req), req.venue;
      && p.trigger.Some?
      && p.stop <= p.trigger.value <= p.entryLimit
      && p.trigger.value == Max(RoundToTick(req.pivot.value, v), RoundToTick(req.entry, v))
      && LimitWithinBuffer(p.trigger.value, p.entryLimit, req.bufferPct, v)
  {
    StopBelowTrigger(req.stop, req.pivot.value, req.entry, req.venue);
    LimitAboveTrigger(RoundToTick(Max(req.pivot.value, req.entry), req.venue), req.bufferPct, req.venue);
  }

  /** The limit sits above the trigger by the buffer, give or take half a tick. */
  ghost predicate LimitWithinBuffer(trigger: real, limit: real, bufferPct: real, v: Venue) {
    var chase := trigger * bufferPct / 100.0;
    var halfTick := Tick(trigger + chase, v) / 2.0;
    chase - halfTick <= limit - trigger <= chase + halfTick
  }

  lemma StopBelowTrigger(stop: real, pivot: real, entry: real, v: Venue)
    requires 0.0 <= Max(pivot, entry) && stop <= Max(pivot, entry)
    ensures var trigger := RoundToTick(Max(pivot, entry), v);
      && RoundToTick(stop, v) <= trigger && 0.0 <= trigger && RoundToTick(trigger, v) == trigger
      && trigger == Max(RoundToTick(pivot, v), RoundToTick(entry, v))
  {
    var top := Max(pivot, entry);
    TickMonotone(stop, top, v);
    TickMonotone(if pivot <= entry then pivot else entry, top, v);
    RoundedPriceNonNegative(top, v);
    TickIdempotent(top, v);
  }

  lemma LimitAboveTrigger(trigger: real, bufferPct: real, v: Venue)
    requires 0.0 <= trigger && 0.0 <= bufferPct
    ensures var limit := LimitPrice(trigger, bufferPct, v);
      (RoundToTick(trigger, v) == trigger ==> trigger <= limit) && LimitWithinBuffer(trigger, limit, bufferPct, v)
  {
    hide RoundToTick, Tick, TicksPerUnit;
    var chase := trigger * bufferPct / 100.0;
    assert trigger * (1.0 + bufferPct / 100.0) == trigger + chase;
    assert 0.0 <= chase;
    TickMonotone(trigger, trigger + chase, v);
    TickNear(trigger + chase, v);
  }

  // ---------------------------------------------------------------- bracket submission

  /** The broker session: what it answers is given from outside, the `n`-th poll by `status(n)`. */
  datatype Session = Session(connected: bool, qualified: bool, account: string, nextId: int, status: nat -> Status)

  datatype Failure = Disconnected | NotQualified | Refused(status: Status) | Stuck
  datatype Outcome = Simulated | Error(why: Failure) | Accepted(prices: Prices, status: Status)

  /** What every bracket handed to the broker looks like, read off the legs themselves. */
  ghost predicate Bracketed(legs: seq<Order>, req: Request, account: string)
    reads legs
  {
    && |legs| == 3
    && legs[0] != legs[1] && legs[0] != legs[2] && legs[1] != legs[2]
    && (forall leg | leg in legs :: leg.qty == req.qty && leg.orderRef == req.orderRef)
    && (forall leg | leg in legs :: account != "" ==> leg.account == account)
    && legs[0].side == req.action && legs[1].side != req.action && legs[2].side != req.action
    && legs[1].parent == legs[2].parent == legs[0].id && legs[0].parent == 0
    && (forall i | 0 <= i < 3 :: (legs[i].transmit <==> i == 2) && (legs[i].tif == DAY <==> i == 0))
    && legs[1].kind == LMT && legs[2].kind == STP
  }

  /** The legs' prices: with a trigger the entry is a stop-limit, else a plain limit order. */
  ghost predicate Carries(legs: seq<Order>, p: Prices)
    requires |legs| == 3
    reads legs
  {
    && legs[0].kind == (if p.trigger.Some? then STP_LMT else LMT)
    && legs[0].auxPrice == (if p.trigger.Some? then p.trigger.value else 0.0) && legs[0].lmtPrice == p.entryLimit
    && legs[1].lmtPrice == p.target && legs[2].auxPrice == p.stop
  }

  /**
    The same prices by the request. The profit leg sells at its target and the protective leg at its stop, each
    to the tick. A buy with a pivot enters by stop-limit, triggered at the higher of pivot and entry and limited
    the buffer's percentage above the trigger; any other request enters by limit at its entry.
   */
  ghost predicate PricedFor(req: Request, entry: Kind, trigger: real, limit: real, target: real, stop: real) {
    && target == RoundToTick(req.target, req.venue) && stop == RoundToTick(req.stop, req.venue)
    && if req.action == BUY && req.pivot.Some? then
         && entry == STP_LMT
         && trigger == RoundToTick(if req.pivot.value < req.entry then req.entry else req.pivot.value, req.venue)
         && limit == RoundToTick(trigger * (1.0 + req.bufferPct / 100.0), req.venue)
       else
         entry == LMT && limit == RoundToTick(req.entry, req.venue)
  }

  lemma PricesFor(req: Request)
    ensures var p := PriceBracket(req);
      if p.trigger.Some? then PricedFor(req, STP_LMT, p.trigger.value, p.entryLimit, p.target, p.stop)
      else PricedFor(req, LMT, 0.0, p.entryLimit, p.target, p.stop)
  {
    hide RoundToTick;
    var v := req.venue;
    var stop, target := RoundToTick(req.stop, v), RoundToTick(req.target, v);
    if req.action == BUY && req.pivot.Some? {
      hide LimitPrice, PricedFor;
      var trigger := RoundToTick(Max(req.pivot.value, req.entry), v);
      StopLimitPrices(req, trigger, LimitPrice(trigger, req.bufferPct, v), target, stop);
    }
  }

  lemma StopLimitPrices(req: Request, trigger: real, limit: real, target: real, stop: real)
    requires req.action == BUY && req.pivot.Some?
    requires trigger == RoundToTick(Max(req.pivot.value, req.entry), req.venue)
      && limit == LimitPrice(trigger, req.bufferPct, req.venue)
    requires target == RoundToTick(req.target, req.venue) && stop == RoundToTick(req.stop, req.venue)
    ensures PricedFor(req, STP_LMT, trigger, limit, target, stop)
  {
    hide RoundToTick;
  }

  method BuildLegs(req: Request, p: Prices, account: string, nextId: int) returns (legs: seq<Order>)
    ensures fresh(legs) && Bracketed(legs, req, account) && Carries(legs, p)
    ensures legs[0].id == nextId && legs[1].id == nextId + 1 && legs[2].id == nextId + 2
    ensures forall leg | leg in legs :: !leg.cancelRequested
  {
    var parent: Order;
    if p.trigger.Some? {
      parent := new Order(nextId, req.action, STP_LMT, req.qty, p.entryLimit, p.trigger.value, 0, false);
    } else {
      parent := new Order(nextId, req.action, LMT, req.qty, p.entryLimit, 0.0, 0, false);
    }
    var takeProfit := new Order(nextId + 1, Reverse(req.action), LMT, req.qty, p.target, 0.0, nextId, false);
    var stopLoss := new Order(nextId + 2, Reverse(req.action), STP, req.qty, 0.0, p.stop, nextId, true);
    legs := [parent, takeProfit, stopLoss];
    ghost var built := parent.Value();
    for i := 0 to 3
      invariant forall j | 0 <= j < i :: legs[j].orderRef == req.orderRef && (legs[j].tif == DAY <==> j == 0)
      invariant forall j | 0 <= j < i :: account != "" ==> legs[j].account == account
      invariant forall leg | leg in legs :: !leg.cancelRequested
      invariant parent.Value() == built && takeProfit.lmtPrice == p.target && stopLoss.auxPrice == p.stop
    {
      legs[i].orderRef := req.orderRef;
      legs[i].tif := if i == 0 then DAY else GTC;
      if account != "" {
        legs[i].account := account;
      }
    }
  }

  /** `n` is the first poll with a stable status, or the last poll there is. */
  ghost predicate SettlesAt(status: nat -> Status, n: nat) {
    && n <= 24
    && (forall m: nat | m < n :: status(m) in {ApiPending, PendingSubmit})
    && (status(n) in {ApiPending, PendingSubmit} ==> n == 24)
  }

  method AwaitParent(answers: nat -> Status) returns (status: Status, polls: nat)
    ensures SettlesAt(answers, polls) && status == answers(polls)
  {
    var waited := 0.0;
    polls, status := 0, answers(0);
    while status !in STABLE && waited < 12.0
      invariant 0 <= polls <= MAX_POLLS && waited == polls as real * 0.5
      invariant status == answers(polls)
      invariant forall m: nat | m < polls :: answers(m) in {ApiPending, PendingSubmit}
      decreases MAX_POLLS - polls
    {
      StableOrWaiting(status);
      waited, polls := waited + 0.5, polls + 1;
      status := answers(polls);
    }
    StableOrWaiting(status);
  }

  lemma StableOrWaiting(status: Status)
    ensures status in STABLE <==> status !in {ApiPending, PendingSubmit}
  {
  }

  method CancelAll(legs: seq<Order>)
    modifies legs
    ensures forall leg | leg in legs :: leg.cancelRequested
    ensures forall leg | leg in legs ::
      && leg.Value() == old(leg.Value())
      && leg.tif == old(leg.tif) && leg.orderRef == old(leg.orderRef) && leg.account == old(leg.account)
  {
    for i := 0 to |legs|
      invariant forall j | 0 <= j < i :: legs[j].cancelRequested
      invariant forall leg | leg in legs ::
        && leg.Value() == old(leg.Value())
        && leg.tif == old(leg.tif) && leg.orderRef == old(leg.orderRef) && leg.account == old(leg.account)
    {
      legs[i].cancelRequested := true;
    }
  }

  /** What the parent's last status is answered with. */
  function Verdict(p: Prices, last: Status): Outcome {
    if last in BAD then Error(Refused(last)) else if last == PendingSubmit then Error(Stuck) else Accepted(p, last)
  }

  /** The answer promises an acknowledgement exactly when the last status is not ApiPending. */
  lemma AcceptedMeansAcknowledged(p: Prices, last: Status)
    ensures (Verdict(p, last).Accepted? ==> last in {Submitted, PreSubmitted, Filled}) <==> last != ApiPending
  {
  }

  /** A parent that stays in ApiPending through every poll is reported as accepted, never having been acknowledged. */
  lemma StaysApiPending(p: Prices) returns (answers: nat -> Status, polls: nat)
    ensures SettlesAt(answers, polls) && Verdict(p, answers(polls)) == Accepted(p, ApiPending)
    ensures forall n: nat :: answers(n) !in {Submitted, PreSubmitted, Filled}
  {
    answers, polls := n => ApiPending, MAX_POLLS;
  }

  /**
    An accepted outcome means the gateway acknowledged the entry, with one gap: a parent still in
    ApiPending after the last poll is neither in the refused set nor PendingSubmit, and is reported
    as accepted although nothing acknowledged it.
   */
  method SubmitBracket(req: Request, session: Session) returns (outcome: Outcome, legs: seq<Order>, polls: nat)
    ensures fresh(legs)
    ensures !session.connected ==>
      legs == [] && outcome == if req.simulateOnDisconnect then Simulated else Error(Disconnected)
    ensures session.connected && !session.qualified ==> legs == [] && outcome == Error(NotQualified)
    ensures session.connected && session.qualified ==>
      && Bracketed(legs, req, session.account)
      && PricedFor(req, legs[0].kind, legs[0].auxPrice, legs[0].lmtPrice, legs[1].lmtPrice, legs[2].auxPrice)
      && legs[0].id == session.nextId
      && SettlesAt(session.status, polls)
      && var last := session.status(polls);
         && outcome == Verdict(PriceBracket(req), last)
         && (outcome.Accepted? <==> last in {Submitted, PreSubmitted, Filled, ApiPending})
         && (outcome.Accepted? ==> outcome.status == last && Carries(legs, outcome.prices))
         && (outcome == Error(Refused(last)) <==>
               last in {Cancelled, ApiCancelled, Inactive, Rejected, PendingCancel})
         && (outcome == Error(Stuck) <==> last == PendingSubmit)
         && (forall leg | leg in legs :: leg.cancelRequested <==> outcome == Error(Stuck))
  {
    if !session.connected {
      return if req.simulateOnDisconnect then Simulated else Error(Disconnected), [], 0;
    }
    if !session.qualified {
      return Error(NotQualified), [], 0;
    }
    hide PriceBracket, PricedFor;
    PricesFor(req);
    var p := PriceBracket(req);
    legs := BuildLegs(req, p, session.account, session.nextId);
    var status;
    status, polls := AwaitParent(session.status);
    if status in BAD {
      outcome := Error(Refused(status));
    } else if status == PendingSubmit {
      CancelAll(legs);
      outcome := Error(Stuck);
    } else {
      outcome := Accepted(p, status);
    }
  }

  // ---------------------------------------------------------------- the stop ratchet

  predicate WorkingSellStop(t: Ticket) {
    t.side == SELL && t.kind in {STP, STP_LMT}
  }

  /** A working SELL stop moved up to `price`; left alone when the rounded price is no higher. */
  function Raise(t: Ticket, price: real, v: Venue): Ticket {
    var rounded := RoundToTick(price, v);
    if rounded <= t.stop then t
    else if t.kind == STP_LMT && t.limit != 0.0 then
      t.(stop := rounded, limit := RoundToTick(rounded + (t.limit - t.stop), v))
    else t.(stop := rounded)
  }

  /** The first open order carrying `id`; the length of the book when there is none. */
  function IndexOf(book: seq<Ticket>, id: int): (i: nat)
    ensures i <= |book| && (i < |book| ==> book[i].id == id)
    ensures forall j | 0 <= j < i :: book[j].id != id
  {
    if book == [] || book[0].id == id then 0 else 1 + IndexOf(book[1..], id)
  }

  datatype Call = Call(id: int, price: real, venue: Venue)

  function ModifyStop(book: seq<Ticket>, call: Call): (after: seq<Ticket>)
    ensures |after| == |book|
  {
    var i := IndexOf(book, call.id);
    if i < |book| && WorkingSellStop(book[i]) then book[i := Raise(book[i], call.price, call.venue)] else book
  }

  /**
    What one call does to the book: the first order of that id, if it is a selling stop below the rounded price,
    has its stop there, a stop-limit's limit following at the distance it had; no other order changes.
   */
  lemma ModifiesExactly(book: seq<Ticket>, call: Call, i: nat)
    requires i < |book|
    ensures var t, u, stop := book[i], ModifyStop(book, call)[i], RoundToTick(call.price, call.venue);
      if t.id == call.id && (forall j | 0 <= j < i :: book[j].id != call.id)
         && t.side == SELL && t.kind in {STP, STP_LMT} && t.stop < stop
      then
        && u.stop == stop && u == t.(stop := u.stop, limit := u.limit)
        && u.limit == if t.kind == STP_LMT && t.limit != 0.0
           then RoundToTick(stop + (t.limit - t.stop), call.venue) else t.limit
      else u == t
  {
    hide RoundToTick;
  }

  function ModifyStops(book: seq<Ticket>, calls: seq<Call>): (after: seq<Ticket>)
    ensures |after| == |book|
    decreases |calls|
  {
    if calls == [] then book else ModifyStops(ModifyStop(book, calls[0]), calls[1..])
  }

  /** A sequence of calls is each call in turn, whose effect on an order ModifiesExactly describes. */
  lemma CallsInTurn(book: seq<Ticket>, calls: seq<Call>, call: Call)
    ensures ModifyStops(book, []) == book
    ensures ModifyStops(book, calls + [call]) == ModifyStop(ModifyStops(book, calls), call)
    decreases |calls|
  {
    hide ModifyStop;
    if calls == [] {
      assert calls + [call] == [call] && [call][1..] == [];
    } else {
      assert (calls + [call])[1..] == calls[1..] + [call];
      CallsInTurn(ModifyStop(book, calls[0]), calls[1..], call);
    }
  }

  /** Distance from a stop-limit's stop to its limit. */
  function Spread(t: Ticket): real { t.limit - t.stop }

  /** Half a tick of the band the new limit falls in, when the call moves a stop-limit's limit; else nothing. */
  function Slack(t: Ticket, price: real, v: Venue): real {
    var rounded := RoundToTick(price, v);
    if t.kind == STP_LMT && t.stop < rounded then Tick(rounded + Spread(t), v) / 2.0 else 0.0
  }

  /** The slack of all the calls that move order `i`. */
  function Drift(book: seq<Ticket>, calls: seq<Call>, i: nat): real
    requires i < |book|
    decreases |calls|
  {
    if calls == [] then 0.0
    else
      var c := calls[0];
      (if IndexOf(book, c.id) == i && WorkingSellStop(book[i]) then Slack(book[i], c.price, c.venue) else 0.0)
      + Drift(ModifyStop(book, c), calls[1..], i)
  }

  /** A call's slack is half the tick of the new limit where a stop-limit is raised, and none otherwise. */
  lemma SlackIs(t: Ticket, price: real, v: Venue)
    ensures var stop := RoundToTick(price, v);
      if t.kind == STP_LMT && t.stop < stop then 2.0 * Slack(t, price, v) == Tick(stop + (t.limit - t.stop), v)
      else Slack(t, price, v) == 0.0
    ensures 0.0 <= Slack(t, price, v) <= 0.005
  {
    hide RoundToTick;
  }

  /** So over a whole sequence of calls the spread moves by no more than half a cent a call. */
  lemma {:induction false} DriftIsSmall(book: seq<Ticket>, calls: seq<Call>, i: nat)
    requires i < |book|
    ensures 0.0 <= Drift(book, calls, i) <= 0.005 * |calls| as real
    decreases |calls|
  {
    hide Slack, ModifyStop;
    if calls != [] {
      SlackIs(book[i], calls[0].price, calls[0].venue);
      DriftIsSmall(ModifyStop(book, calls[0]), calls[1..], i);
    }
  }

  /** The smallest price there is on all the venues of the calls. */
  function LeastPrice(calls: seq<Call>): real {
    if exists k | 0 <= k < |calls| :: calls[k].venue == ASX then Tick(0.0, ASX) else Tick(0.0, US)
  }

  /** `least` is a price on the venue of every call. */
  ghost predicate Suits(calls: seq<Call>, least: real) {
    forall k | 0 <= k < |calls| :: Priced(calls[k].venue, least)
  }

  ghost predicate Priced(v: Venue, least: real) {
    least == Tick(0.0, ASX) || (v == US && least == Tick(0.0, US))
  }

  /** `u` is what calls with `drift` slack in all may have made of `t`. */
  ghost predicate Ratcheted(t: Ticket, u: Ticket, drift: real, least: real) {
    && u == t.(stop := u.stop, limit := u.limit)
    && t.stop <= u.stop
    && (!WorkingSellStop(t) ==> u == t)
    && (t.kind == STP ==> u.limit == t.limit)
    && (t.kind == STP_LMT && least <= t.limit ==>
          least <= u.limit && -drift <= Spread(u) - Spread(t) <= drift)
  }

  /** One change moves the spread by at most half a tick of the band the new limit falls in. */
  lemma RaiseKeepsSpread(t: Ticket, price: real, v: Venue)
    requires WorkingSellStop(t)
    ensures var u := Raise(t, price, v);
      && u.stop == Max(t.stop, RoundToTick(price, v))
      && (t.kind == STP_LMT && t.limit != 0.0 && t.stop < u.stop ==>
            var half := Tick(u.stop + Spread(t), v) / 2.0;
            -half <= Spread(u) - Spread(t) <= half)
  {
    TickNear(Raise(t, price, v).stop + Spread(t), v);
  }

  lemma RaiseRatchets(t: Ticket, price: real, v: Venue, least: real)
    requires WorkingSellStop(t) && Priced(v, least)
    ensures Ratcheted(t, Raise(t, price, v), Slack(t, price, v), least)
  {
    hide RoundToTick, Tick;
    LeastIsAPrice(v, least);
    RaiseKeepsSpread(t, price, v);
    var u := Raise(t, price, v);
    if t.kind == STP_LMT && least <= t.limit && t.stop < u.stop {
      TickMonotone(least, u.stop + Spread(t), v);
    }
  }

  lemma LeastIsAPrice(v: Venue, least: real)
    requires Priced(v, least)
    ensures 0.0 < least && RoundToTick(least, v) == least
  {
    hide RoundAt, RoundToTick;
    assert least == 0.001 || (v == US && least == 0.0001);
    FourDecimalsKeepTicks(least, v);
    RoundAtFixed(least, TicksPerUnit(least, v));
  }

  lemma RatchetedCompose(t: Ticket, u: Ticket, w: Ticket, c: real, d: real, least: real)
    requires Ratcheted(t, u, c, least) && Ratcheted(u, w, d, least)
    ensures Ratcheted(t, w, c + d, least)
  {
  }

  lemma {:induction false} StopsRatchet(book: seq<Ticket>, calls: seq<Call>, i: nat, least: real)
    requires i < |book| && Suits(calls, least)
    ensures Ratcheted(book[i], ModifyStops(book, calls)[i], Drift(book, calls, i), least)
    decreases |calls|
  {
    hide Tick, Raise, Slack, Ratcheted, Priced;
    if calls == [] {
      NothingRatchets(book[i], least);
    } else {
      var c := calls[0];
      var next := ModifyStop(book, c);
      StopsRatchet(next, calls[1..], i, least);
      var slack := if IndexOf(book, c.id) == i && WorkingSellStop(book[i]) then Slack(book[i], c.price, c.venue)
        else 0.0;
      if IndexOf(book, c.id) == i && WorkingSellStop(book[i]) {
        RaiseRatchets(book[i], c.price, c.venue, least);
      } else {
        NothingRatchets(book[i], least);
      }
      RatchetedCompose(book[i], next[i], ModifyStops(book, calls)[i], slack, Drift(next, calls[1..], i), least);
    }
  }

  lemma NothingRatchets(t: Ticket, least: real)
    ensures Ratcheted(t, t, 0.0, least)
  {
  }

  /**
    Whatever calls arrive in whatever order, no working stop ever moves down, the spread of a stop-limit whose
    limit is a price of the venue moves by at most half a tick for each call that changes it, and nothing else
    in the book changes.
   */
  lemma StopsOnlyRise(book: seq<Ticket>, calls: seq<Call>)
    ensures forall i: nat | i < |book| ::
      Ratcheted(book[i], ModifyStops(book, calls)[i], Drift(book, calls, i), LeastPrice(calls))
  {
    forall i: nat | i < |book|
      ensures Ratcheted(book[i], ModifyStops(book, calls)[i], Drift(book, calls, i), LeastPrice(calls))
    {
      StopsRatchet(book, calls, i, LeastPrice(calls));
    }
  }

  lemma RaiseMoves(t: Ticket, price: real, v: Venue)
    ensures var rounded := RoundToTick(price, v);
      Raise(t, price, v) == if rounded <= t.stop then t else t.(stop := rounded,
        limit := if t.kind == STP_LMT && t.limit != 0.0 then RoundToTick(rounded + (t.limit - t.stop), v) else t.limit)
  {
    hide RoundToTick;
  }

  /** A price that does not round above the current stop is answered as a success and changes nothing. */
  datatype Reply = NotConnected | NotFound | NotASellStop | AlreadyTighter | Raised

  class Gateway {
    var connected: bool
    var openTrades: seq<Order>

    constructor (trades: seq<Order>)
      ensures connected && openTrades == trades
    {
      connected, openTrades := true, trades;
    }

    ghost predicate Valid()
      reads this
    {
      forall i, j | 0 <= i < j < |openTrades| :: openTrades[i] != openTrades[j]
    }

    function Book(): (book: seq<Ticket>)
      reads this, openTrades
      ensures |book| == |openTrades| && forall i | 0 <= i < |book| :: book[i] == openTrades[i].Value()
    {
      seq(|openTrades|, i requires 0 <= i < |openTrades| reads this, openTrades => openTrades[i].Value())
    }

    method ModifyStopOrder(orderId: int, newStop: real, venue: Venue) returns (reply: Reply)
      requires Valid()
      modifies openTrades
      ensures Valid()
      ensures Book() == if connected then ModifyStop(old(Book()), Call(orderId, newStop, venue)) else old(Book())
      ensures reply == NotConnected <==> !connected
      ensures connected ==> var i := IndexOf(old(Book()), orderId);
        && (reply == NotFound <==> i == |openTrades|)
        && (reply == NotASellStop <==> i < |openTrades| && !WorkingSellStop(old(Book())[i]))
        && (reply == Raised <==>
              && i < |openTrades| && old(Book())[i].side == SELL && old(Book())[i].kind in {STP, STP_LMT}
              && old(Book())[i].stop < RoundToTick(newStop, venue))
        && (reply == Raised ==> openTrades[i].auxPrice == RoundToTick(newStop, venue))
        && (reply == Raised <==> Book() != old(Book()))
    {
      hide RoundToTick, IndexOf, ModifyStops, Ratcheted, Raise;
      if !connected {
        return NotConnected;
      }
      ghost var before := Book();
      for k := 0 to |openTrades|
        invariant Book() == before
        invariant forall j | 0 <= j < k :: openTrades[j].id != orderId
      {
        var order := openTrades[k];
        if order.id == orderId {
          assert before[k].id == orderId && IndexOf(before, orderId) == k;
          if order.side != SELL || order.kind !in {STP, STP_LMT} {
            return NotASellStop;
          }
          var current := order.auxPrice;
          var rounded := RoundToTick(newStop, venue);
          RaiseMoves(before[k], newStop, venue);
          if rounded <= current {
            return AlreadyTighter;
          }
          order.auxPrice := rounded;
          if order.kind == STP_LMT && order.lmtPrice != 0.0 {
            var spread := order.lmtPrice - current;
            order.lmtPrice := RoundToTick(rounded + spread, venue);
          }
          assert Book()[k] == Raise(before[k], newStop, venue);
          assert Book() == before[k := Raise(before[k], newStop, venue)];
          return Raised;
        }
        assert before[k].id != orderId;
      }
      assert forall j | 0 <= j < |before| :: before[j].id != orderId;
      return NotFound;
    }
  }
}
