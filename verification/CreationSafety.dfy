// Every interleaving of createOrder calls: conservation of money and quota, the
// overdraft and quota limits, unique keys, and the retry bound.

module CreationSafety {
  import opened OrderModel
  import opened RefundAmounts
  import opened CreationMachine

  ghost predicate Conserved(s: Shop, start: Shop) {
    && s.creditLimit == start.creditLimit && s.quotaLimit == start.quotaLimit
    && s.balance + Charged(s.orders) + HeldMoney(s.hs) + s.leakedMoney
       == start.balance + ReturnedMoney(s.orders, s.returned)
    && s.quotaUsed + ReturnedUnits(s.orders, s.returned)
       == start.quotaUsed + Consumed(s.orders) + HeldUnits(s.hs) + s.leakedUnits
  }

  predicate WithinLimits(s: Shop) {
    s.balance + s.creditLimit >= 0 && s.quotaUsed <= s.quotaLimit
  }

  predicate Within(back: Taken, paid: Taken) {
    MoneyOf(back) <= MoneyOf(paid) && UnitsOf(back) <= UnitsOf(paid)
  }

  // No order has given back more than it took.
  ghost predicate ReturnsWithin(s: Shop) {
    forall i :: i in s.returned ==> i < |s.orders| && Within(s.returned[i], s.orders[i].paid)
  }

  ghost predicate UniqueOrders(s: Shop) {
    && (forall i, j :: 0 <= i < j < |s.orders| ==> s.orders[i].number != s.orders[j].number)
    && (forall i, j :: 0 <= i < j < |s.orders| ==> s.orders[i].key != s.orders[j].key)
  }

  // -------------------------------------------------------------------------
  // Bookkeeping over the sums
  // -------------------------------------------------------------------------

  lemma {:induction false} HeldAfterUpdate(hs: seq<Pc>, h: nat, pc: Pc)
    requires h < |hs|
    ensures HeldMoney(hs[h := pc]) == HeldMoney(hs) - MoneyOf(Holding(hs[h])) + MoneyOf(Holding(pc))
    ensures HeldUnits(hs[h := pc]) == HeldUnits(hs) - UnitsOf(Holding(hs[h])) + UnitsOf(Holding(pc))
  {
    var init := hs[..|hs| - 1];
    if h == |hs| - 1 {
      assert hs[h := pc][..|hs| - 1] == init;
    } else {
      assert hs[h := pc][..|hs| - 1] == init[h := pc];
      HeldAfterUpdate(init, h, pc);
    }
  }

  lemma SumsAfterAppend(orders: seq<Placed>, o: Placed)
    ensures Charged(orders + [o]) == Charged(orders) + MoneyOf(o.paid)
    ensures Consumed(orders + [o]) == Consumed(orders) + UnitsOf(o.paid)
    ensures forall h :: OrdersBy(orders + [o], h) == OrdersBy(orders, h) + if o.caller == h then 1 else 0
  {
    assert (orders + [o])[..|orders|] == orders;
  }

  lemma {:induction false} ReturnedAfter(orders: seq<Placed>, returned: map<nat, Taken>, i: nat, back: Taken)
    requires i < |orders| && i !in returned
    ensures ReturnedMoney(orders, returned[i := back]) == ReturnedMoney(orders, returned) + MoneyOf(back)
    ensures ReturnedUnits(orders, returned[i := back]) == ReturnedUnits(orders, returned) + UnitsOf(back)
  {
    var init := orders[..|orders| - 1];
    if i < |init| { ReturnedAfter(init, returned, i, back); } else { ReturnedBeyond(init, returned, i, back); }
  }

  lemma {:induction false} ReturnedBeyond(orders: seq<Placed>, returned: map<nat, Taken>, i: nat, back: Taken)
    requires i >= |orders|
    ensures ReturnedMoney(orders, returned[i := back]) == ReturnedMoney(orders, returned)
    ensures ReturnedUnits(orders, returned[i := back]) == ReturnedUnits(orders, returned)
  {
    if orders != [] { ReturnedBeyond(orders[..|orders| - 1], returned, i, back); }
  }

  lemma ReturnedOfNew(orders: seq<Placed>, o: Placed, returned: map<nat, Taken>)
    requires |orders| !in returned
    ensures ReturnedMoney(orders + [o], returned) == ReturnedMoney(orders, returned)
    ensures ReturnedUnits(orders + [o], returned) == ReturnedUnits(orders, returned)
  {
    assert (orders + [o])[..|orders|] == orders;
  }

  lemma {:induction false} ReturnedAtMostTaken(orders: seq<Placed>, returned: map<nat, Taken>)
    requires forall i :: i in returned && i < |orders| ==> Within(returned[i], orders[i].paid)
    ensures ReturnedMoney(orders, returned) <= Charged(orders)
    ensures ReturnedUnits(orders, returned) <= Consumed(orders)
  {
    if orders != [] { ReturnedAtMostTaken(orders[..|orders| - 1], returned); }
  }

  lemma HeldAfterCall(hs: seq<Pc>, pc: Pc)
    ensures HeldMoney(hs + [pc]) == HeldMoney(hs) + MoneyOf(Holding(pc))
    ensures HeldUnits(hs + [pc]) == HeldUnits(hs) + UnitsOf(Holding(pc))
  {
    assert (hs + [pc])[..|hs|] == hs;
  }

  // -------------------------------------------------------------------------
  // One step
  // -------------------------------------------------------------------------

  function Gain(s: Shop, n: Shop): Taken {
    if |n.orders| == |s.orders| + 1 then n.orders[|s.orders|].paid else Money(0)
  }

  predicate MoneyEffect(s: Shop, n: Shop, h: nat)
    requires h < |s.hs| && h < |n.hs|
  {
    && n.creditLimit == s.creditLimit && n.quotaLimit == s.quotaLimit && n.returned == s.returned
    && n.balance + MoneyOf(Gain(s, n)) + MoneyOf(Holding(n.hs[h])) + n.leakedMoney
       == s.balance + MoneyOf(Holding(s.hs[h])) + s.leakedMoney
    && n.quotaUsed - UnitsOf(Gain(s, n)) - UnitsOf(Holding(n.hs[h])) - n.leakedUnits
       == s.quotaUsed - UnitsOf(Holding(s.hs[h])) - s.leakedUnits
    && (WithinLimits(s) ==> WithinLimits(n))
  }

  predicate OrderEffect(s: Shop, n: Shop, h: nat)
    requires h < |s.hs|
  {
    || n.orders == s.orders
    || (|n.orders| == |s.orders| + 1
        && n.orders == s.orders + [n.orders[|s.orders|]]
        && var o := n.orders[|s.orders|];
           && o.caller == h
           && !NumberTaken(s.orders, o.number)
           && !KeyTaken(s.orders, o.key)
           && (s.hs[h].Transact? || s.hs[h].Insert?)
           && o.key == s.hs[h].req.key)
  }

  predicate OneHandler(s: Shop, n: Shop, h: nat)
    requires h < |s.hs|
  {
    n.hs == s.hs || (|n.hs| == |s.hs| && n.hs == s.hs[h := n.hs[h]])
  }

  lemma AdvanceEffect(s: Shop, h: nat, c: Choice)
    requires h < |s.hs|
    ensures OneHandler(s, Advance(s, h, c), h)
    ensures OrderEffect(s, Advance(s, h, c), h)
  {}

  lemma AdvanceMoney(s: Shop, h: nat, c: Choice)
    requires h < |s.hs|
    ensures h < |Advance(s, h, c).hs| && MoneyEffect(s, Advance(s, h, c), h)
  {
    if s.hs[h].Transact? { TransactionMoney(s, h, c); }
    else if s.hs[h].Insert? { InsertMoney(s, h, c); }
    else if s.hs[h].Take? { TakeMoney(s, h, c); }
    else if OnlyMoves(s.hs[h]) { NothingTaken(s, h, c); }
    else { ReturnMoney(s, h, c); }
  }

  lemma TransactionMoney(s: Shop, h: nat, c: Choice)
    requires h < |s.hs| && s.hs[h].Transact?
    ensures h < |Advance(s, h, c).hs| && MoneyEffect(s, Advance(s, h, c), h)
  {}

  lemma InsertMoney(s: Shop, h: nat, c: Choice)
    requires h < |s.hs| && s.hs[h].Insert?
    ensures h < |Advance(s, h, c).hs| && MoneyEffect(s, Advance(s, h, c), h)
  {}

  lemma TakeMoney(s: Shop, h: nat, c: Choice)
    requires h < |s.hs| && s.hs[h].Take?
    ensures h < |Advance(s, h, c).hs| && MoneyEffect(s, Advance(s, h, c), h)
  {}

  lemma ReturnMoney(s: Shop, h: nat, c: Choice)
    requires h < |s.hs| && (s.hs[h].RecordDebit? || s.hs[h].Compensate?)
    ensures h < |Advance(s, h, c).hs| && MoneyEffect(s, Advance(s, h, c), h)
  {}

  predicate OnlyMoves(pc: Pc) {
    pc.CheckKey? || pc.Begin? || pc.Populate? || pc.Lookup? || pc.Finished?
  }

  lemma NothingTaken(s: Shop, h: nat, c: Choice)
    requires h < |s.hs| && OnlyMoves(s.hs[h])
    ensures h < |Advance(s, h, c).hs| && OnlyHolds(Advance(s, h, c), s, h)
  {}

  predicate OnlyHolds(n: Shop, s: Shop, h: nat)
    requires h < |n.hs|
  {
    n == s.(hs := n.hs) && Holding(n.hs[h]) == Money(0)
  }

  predicate IsOwn(c: Choice) { !c.Call? && !c.Return? }

  lemma RefundIsWithin(o: Placed, remains: nat)
    ensures Within(RefundOf(o, remains), o.paid)
  {
    if o.paid.Money? { ShareIsWithinCharge(Charge(o.paid.amount, 0, o.paid.amount), remains, o.quantity); }
  }

  lemma ReturnStep(s: Shop, start: Shop, i: nat, remains: nat)
    requires Conserved(s, start) && WithinLimits(s) && ReturnsWithin(s)
    ensures var n := Returning(s, i, remains); Conserved(n, start) && WithinLimits(n) && ReturnsWithin(n)
  {
    if i < |s.orders| && i !in s.returned {
      RefundIsWithin(s.orders[i], remains);
      ReturnedAfter(s.orders, s.returned, i, RefundOf(s.orders[i], remains));
    }
  }

  lemma OwnStep(s: Shop, start: Shop, h: nat, c: Choice)
    requires Conserved(s, start) && WithinLimits(s) && ReturnsWithin(s) && h < |s.hs| && IsOwn(c)
    ensures var n := Advance(s, h, c); Conserved(n, start) && WithinLimits(n) && ReturnsWithin(n)
  {
    var n := Advance(s, h, c);
    AdvanceEffect(s, h, c);
    AdvanceMoney(s, h, c);
    HeldAfterUpdate(s.hs, h, n.hs[h]);
    assert s.hs[h := s.hs[h]] == s.hs;
    if n.orders != s.orders {
      SumsAfterAppend(s.orders, n.orders[|s.orders|]);
      ReturnedOfNew(s.orders, n.orders[|s.orders|], s.returned);
    }
  }

  lemma ConservedStep(s: Shop, start: Shop, h: nat, c: Choice)
    requires Conserved(s, start) && WithinLimits(s) && ReturnsWithin(s)
    ensures var n := Next(s, h, c); Conserved(n, start) && WithinLimits(n) && ReturnsWithin(n)
  {
    if c.Call? {
      if h == |s.hs| { HeldAfterCall(s.hs, CheckKey(c.req)); }
    } else if c.Return? {
      ReturnStep(s, start, c.order, c.remains);
    } else if h < |s.hs| {
      OwnStep(s, start, h, c);
    }
  }

  lemma UniqueStep(s: Shop, h: nat, c: Choice)
    requires UniqueOrders(s)
    ensures UniqueOrders(Next(s, h, c))
  {
    if IsOwn(c) && h < |s.hs| { AdvanceEffect(s, h, c); }
  }

  // -------------------------------------------------------------------------
  // Each call: its retries and its orders
  // -------------------------------------------------------------------------

  function AttemptOf(pc: Pc): Attempt { if pc.CheckKey? then FIRST_ATTEMPT else pc.a }

  // The measure _attemptCreateOrder's recursion decreases.
  function RetriesLeft(a: Attempt): int {
    (ORDER_NUMBER_MAX_ATTEMPTS - a.duplicates)
    + (if a.forceStandalone then 0 else 1) + (if a.isRetry then 0 else 1)
  }

  const MAX_ATTEMPTS: nat := ORDER_NUMBER_MAX_ATTEMPTS + 3

  predicate AttemptOk(pc: Pc) {
    var a := AttemptOf(pc);
    && a.duplicates <= ORDER_NUMBER_MAX_ATTEMPTS
    && 1 <= a.count && a.count + RetriesLeft(a) <= MAX_ATTEMPTS
    && (pc.Transact? ==> !a.forceStandalone)
    && ((pc.Populate? || pc.Lookup?) && pc.inSession ==> !a.forceStandalone)
    && (pc.Compensate? && pc.next.NewNumber? ==> a.duplicates < ORDER_NUMBER_MAX_ATTEMPTS)
    && (pc.Compensate? && pc.next.ReturnExisting? ==> pc.req.key.Some?)
    && (pc.Lookup? ==> pc.req.key.Some?)
  }

  // The order a call is about to report, or has reported, is in the collection.
  predicate ReportOk(orders: seq<Placed>, pc: Pc, h: nat) {
    && (pc.Populate? ==> pc.order in orders && pc.order.caller == h)
    && (pc.Finished? && pc.outcome.Created? ==>
          pc.outcome.order in orders && pc.outcome.order.caller == h)
    && (pc.Finished? && pc.outcome.Existing? ==>
          pc.req.key.Some? &&
          (pc.outcome.found.Some? ==> pc.outcome.found.value in orders && pc.outcome.found.value.key == pc.req.key))
  }

  function StoredBy(pc: Pc): nat { if pc.CheckKey? then 0 else pc.a.stored }

  ghost predicate CallsInv(s: Shop) {
    && (forall h :: 0 <= h < |s.hs| ==>
          AttemptOk(s.hs[h]) && ReportOk(s.orders, s.hs[h], h) && OrdersBy(s.orders, h) == StoredBy(s.hs[h]))
    && (forall i :: 0 <= i < |s.orders| ==>
          s.orders[i].caller < |s.hs| && s.orders[i].key == s.hs[s.orders[i].caller].req.key)
  }

  predicate CallEffect(s: Shop, n: Shop, h: nat)
    requires h < |s.hs| && h < |n.hs|
  {
    && AttemptOk(n.hs[h])
    && n.hs[h].req == s.hs[h].req
    && ReportOk(n.orders, n.hs[h], h)
    && StoredBy(n.hs[h]) == StoredBy(s.hs[h]) + |n.orders| - |s.orders|
  }

  predicate Plain(pc: Pc, req: Request, a: Attempt) {
    && AttemptOk(pc) && pc.req == req && StoredBy(pc) == a.stored && Holding(pc) == Money(0)
    && !pc.Populate? && (pc.Finished? ==> pc.outcome.Refused?)
  }

  predicate Bounded(a: Attempt) {
    a.duplicates <= ORDER_NUMBER_MAX_ATTEMPTS && 1 <= a.count && a.count + RetriesLeft(a) <= MAX_ATTEMPTS
  }

  lemma OnErrorOk(req: Request, a: Attempt, inSession: bool, why: Failure)
    requires Bounded(a) && (inSession ==> !a.forceStandalone)
    ensures Plain(OnError(req, a, inSession, why), req, a)
  {}

  lemma ResumeOk(req: Request, a: Attempt, inSession: bool, next: Afterwards)
    requires Bounded(a) && (inSession ==> !a.forceStandalone)
    requires next.NewNumber? ==> a.duplicates < ORDER_NUMBER_MAX_ATTEMPTS
    requires next.ReturnExisting? ==> req.key.Some?
    ensures Plain(Resume(req, a, inSession, next), req, a)
  {
    if next.Rethrow? { OnErrorOk(req, a, inSession, next.why); }
  }

  predicate NextOk(req: Request, a: Attempt, next: Afterwards) {
    && (next.NewNumber? ==> a.duplicates < ORDER_NUMBER_MAX_ATTEMPTS)
    && (next.ReturnExisting? ==> req.key.Some?)
  }

  lemma InsertErrorOk(req: Request, a: Attempt, duplicateKey: bool, why: Failure)
    ensures NextOk(req, a, InsertError(req, a, duplicateKey, why))
  {}

  lemma IndexErrorOk(s: Shop, req: Request, a: Attempt, number: string)
    ensures IndexError(s, req, a, number).Some? ==> NextOk(req, a, IndexError(s, req, a, number).value)
  {}

  lemma CallTransaction(s: Shop, h: nat, c: Choice)
    requires h < |s.hs| && s.hs[h].Transact? && AttemptOk(s.hs[h])
    ensures h < |Advance(s, h, c).hs| && CallEffect(s, Advance(s, h, c), h)
  {
    var Transact(req, a, number) := s.hs[h];
    assert Advance(s, h, c) == RunTransaction(s, h, req, a, number, c);
    if c.Throw? {
      InsertErrorOk(req, a, false, c.why);
      ResumeOk(req, a, true, InsertError(req, a, false, c.why));
      OnErrorOk(req, a, true, c.why);
    } else if c.Bill? {
      IndexErrorOk(s, req, a, number);
      if IndexError(s, req, a, number).Some? { ResumeOk(req, a, true, IndexError(s, req, a, number).value); }
    }
  }

  lemma CallInsert(s: Shop, h: nat, c: Choice)
    requires h < |s.hs| && s.hs[h].Insert? && AttemptOk(s.hs[h])
    ensures h < |Advance(s, h, c).hs| && CallEffect(s, Advance(s, h, c), h)
  {
    var Insert(req, a, number, taken) := s.hs[h];
    assert Advance(s, h, c) == InsertOrder(s, h, req, a, number, taken, c);
    if c.Throw? { InsertErrorOk(req, a, false, c.why); }
    IndexErrorOk(s, req, a, number);
  }

  lemma CallCompensate(s: Shop, h: nat, c: Choice)
    requires h < |s.hs| && s.hs[h].Compensate? && AttemptOk(s.hs[h])
    ensures h < |Advance(s, h, c).hs| && CallEffect(s, Advance(s, h, c), h)
  {
    ResumeOk(s.hs[h].req, s.hs[h].a, false, s.hs[h].next);
  }

  lemma CallOther(s: Shop, h: nat, c: Choice)
    requires h < |s.hs| && AttemptOk(s.hs[h]) && ReportOk(s.orders, s.hs[h], h)
    requires !s.hs[h].Transact? && !s.hs[h].Insert? && !s.hs[h].Compensate?
    ensures h < |Advance(s, h, c).hs| && CallEffect(s, Advance(s, h, c), h)
  {
    if s.hs[h].Populate? || s.hs[h].Lookup? { CallReads(s, h, c); }
    else if s.hs[h].Take? || s.hs[h].RecordDebit? { CallPays(s, h, c); }
    else { CallStarts(s, h, c); }
  }

  lemma CallReads(s: Shop, h: nat, c: Choice)
    requires h < |s.hs| && AttemptOk(s.hs[h]) && ReportOk(s.orders, s.hs[h], h)
    requires s.hs[h].Populate? || s.hs[h].Lookup?
    ensures h < |Advance(s, h, c).hs| && CallEffect(s, Advance(s, h, c), h)
  {
    var pc := s.hs[h];
    if c.Throw? { OnErrorOk(pc.req, pc.a, pc.inSession, c.why); }
  }

  lemma CallPays(s: Shop, h: nat, c: Choice)
    requires h < |s.hs| && AttemptOk(s.hs[h]) && (s.hs[h].Take? || s.hs[h].RecordDebit?)
    ensures h < |Advance(s, h, c).hs| && CallEffect(s, Advance(s, h, c), h)
  {
    if c.Throw? { OnErrorOk(s.hs[h].req, s.hs[h].a, false, c.why); }
  }

  lemma CallStarts(s: Shop, h: nat, c: Choice)
    requires h < |s.hs| && AttemptOk(s.hs[h]) && ReportOk(s.orders, s.hs[h], h)
    requires s.hs[h].CheckKey? || s.hs[h].Begin? || s.hs[h].Finished?
    ensures h < |Advance(s, h, c).hs| && CallEffect(s, Advance(s, h, c), h)
  {}

  lemma CallAdvance(s: Shop, h: nat, c: Choice)
    requires h < |s.hs| && AttemptOk(s.hs[h]) && ReportOk(s.orders, s.hs[h], h)
    ensures h < |Advance(s, h, c).hs| && CallEffect(s, Advance(s, h, c), h)
  {
    if s.hs[h].Transact? { CallTransaction(s, h, c); }
    else if s.hs[h].Insert? { CallInsert(s, h, c); }
    else if s.hs[h].Compensate? { CallCompensate(s, h, c); }
    else { CallOther(s, h, c); }
  }

  lemma NoOrdersYet(orders: seq<Placed>, h: nat)
    requires forall i :: 0 <= i < |orders| ==> orders[i].caller < h
    ensures OrdersBy(orders, h) == 0
  {}

  lemma CallsKept(s: Shop, n: Shop, h: nat)
    requires CallsInv(s) && h < |s.hs| && OneHandler(s, n, h) && OrderEffect(s, n, h)
    requires h < |n.hs| && CallEffect(s, n, h)
    ensures CallsInv(n)
  {
    if n.orders != s.orders { SumsAfterAppend(s.orders, n.orders[|s.orders|]); }
    forall g | 0 <= g < |n.hs|
      ensures AttemptOk(n.hs[g]) && ReportOk(n.orders, n.hs[g], g) && OrdersBy(n.orders, g) == StoredBy(n.hs[g])
    {
      if g != h { assert n.hs[g] == s.hs[g]; }
    }
  }

  lemma CallsStep(s: Shop, h: nat, c: Choice)
    requires CallsInv(s)
    ensures CallsInv(Next(s, h, c))
  {
    var n := Next(s, h, c);
    if c.Call? {
      if h == |s.hs| { NoOrdersYet(s.orders, h); }
    } else if IsOwn(c) && h < |s.hs| {
      AdvanceEffect(s, h, c);
      CallAdvance(s, h, c);
      CallsKept(s, n, h);
    }
  }

  // -------------------------------------------------------------------------
  // Over whole runs
  // -------------------------------------------------------------------------

  ghost predicate ShopInv(s: Shop, start: Shop) {
    Conserved(s, start) && WithinLimits(s) && ReturnsWithin(s) && UniqueOrders(s) && CallsInv(s)
  }

  lemma {:induction false} ShopAlways(start: Shop, schedule: seq<Step>)
    requires Opening(start)
    ensures ShopInv(Run(start, schedule), start)
  {
    if schedule != [] {
      var init, last := schedule[..|schedule| - 1], schedule[|schedule| - 1];
      var s := Run(start, init);
      ShopAlways(start, init);
      ConservedStep(s, start, last.h, last.c);
      UniqueStep(s, last.h, last.c);
      CallsStep(s, last.h, last.c);
    }
  }
}
