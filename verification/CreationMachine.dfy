// Order creation for one customer as a state machine: any number of concurrent
// createOrder calls against one wallet, one quota and one order collection.
//
// With a session, debit and insert take effect together or not at all, so the
// transactional part of an attempt is one step.  Without one, the debit, its
// ledger record, the insert and the compensation are separate steps.  Refunds of
// stored orders happen in between, each once.

module CreationMachine {
  import opened Options
  import opened OrderModel

  datatype Request = Request(key: Option<string>, quantity: nat)

  // One recursive call of _attemptCreateOrder: its three retry parameters, how
  // many orders this createOrder call has stored before it, and its number.
  datatype Attempt = Attempt(isRetry: bool, forceStandalone: bool, duplicates: nat, stored: nat, count: nat)

  const FIRST_ATTEMPT: Attempt := Attempt(false, false, 0, 0, 1)
  const ORDER_NUMBER_MAX_ATTEMPTS: nat := 20

  datatype Failure = DuplicateNumber | WriteConflict | TxnUnsupported | OtherFailure

  // What an attempt takes before it inserts the order.
  datatype Taken = Money(amount: nat) | Units(quantity: nat)

  // An order of this customer, and the createOrder call that stored it.
  datatype Placed = Placed(number: string, key: Option<string>, paid: Taken, quantity: nat, caller: nat)

  datatype Afterwards = NewNumber | ReturnExisting | Rethrow(why: Failure)

  datatype Outcome = Created(order: Placed) | Existing(found: Option<Placed>) | Refused

  datatype Pc =
    | CheckKey(req: Request)
    | Begin(req: Request, a: Attempt)
    | Transact(req: Request, a: Attempt, number: string)
    | Take(req: Request, a: Attempt, number: string)
    | RecordDebit(req: Request, a: Attempt, number: string, taken: Taken)
    | Insert(req: Request, a: Attempt, number: string, taken: Taken)
    | Compensate(req: Request, a: Attempt, taken: Taken, next: Afterwards)
    | Populate(req: Request, a: Attempt, inSession: bool, order: Placed)
    | Lookup(req: Request, a: Attempt, inSession: bool)
    | Finished(req: Request, outcome: Outcome, a: Attempt)

  datatype Choice =
    | Call(req: Request)
    | Ok
    | Throw(why: Failure)
    | Refuse
    | Start(number: string, useTransaction: bool)
    // The billing mode and price the attempt computed, and whether the user is active.
    | Bill(quotaBilled: bool, amount: nat, active: bool)
    // processOrderRefund or markOrderAsFailed of a stored order.
    | Return(order: nat, remains: nat)

  // returned: what each refunded order has given back.
  datatype Shop = Shop(
    balance: int, creditLimit: nat,
    quotaUsed: int, quotaLimit: int,
    orders: seq<Placed>,
    returned: map<nat, Taken>,
    leakedMoney: nat, leakedUnits: nat,
    hs: seq<Pc>)

  // -------------------------------------------------------------------------
  // The two atomic guards, and the unique indexes
  // -------------------------------------------------------------------------

  function WhatIsTaken(req: Request, c: Choice): Taken
    requires c.Bill?
  {
    if c.quotaBilled then Units(req.quantity) else Money(c.amount)
  }

  // debitWalletAtomic's filter, the quota filter, and the final price guard.
  predicate Affordable(s: Shop, req: Request, c: Choice)
    requires c.Bill?
  {
    if c.quotaBilled then s.quotaUsed + req.quantity <= s.quotaLimit
    else c.amount > 0 && c.active && s.balance + s.creditLimit >= c.amount
  }

  function Deduct(s: Shop, t: Taken): Shop {
    match t
    case Money(amount) => s.(balance := s.balance - amount)
    case Units(quantity) => s.(quotaUsed := s.quotaUsed + quantity)
  }

  function GiveBack(s: Shop, t: Taken): Shop {
    match t
    case Money(amount) => s.(balance := s.balance + amount)
    case Units(quantity) => s.(quotaUsed := s.quotaUsed - quantity)
  }

  function Leak(s: Shop, t: Taken): Shop {
    match t
    case Money(amount) => s.(leakedMoney := s.leakedMoney + amount)
    case Units(quantity) => s.(leakedUnits := s.leakedUnits + quantity)
  }

  predicate NumberTaken(orders: seq<Placed>, number: string) {
    exists i :: 0 <= i < |orders| && orders[i].number == number
  }

  // The index on user and key is sparse over both fields, and the user is always
  // there: a missing key is stored as null and indexed like any other value.
  predicate KeyTaken(orders: seq<Placed>, key: Option<string>) {
    exists i :: 0 <= i < |orders| && orders[i].key == key
  }

  // What a refund of the order gives back: all of it, or the undelivered share.
  function RefundOf(o: Placed, remains: nat): Taken {
    match o.paid
    case Money(amount) => Money(ShareRefund(Charge(amount, 0, amount), remains, o.quantity))
    case Units(quantity) => Units(if IsPartialDelivery(remains, quantity) then remains else quantity)
  }

  // Guarded by the order's refunded flag; nothing to give back is refused.
  function Returning(s: Shop, i: nat, remains: nat): Shop {
    if i >= |s.orders| || i in s.returned then s
    else
      var back := RefundOf(s.orders[i], remains);
      if MoneyOf(back) == 0 && UnitsOf(back) == 0 then s
      else GiveBack(s, back).(returned := s.returned[i := back])
  }

  // Order.findOne({ userId, idempotencyKey })
  function FindByKey(orders: seq<Placed>, key: Option<string>): (found: Option<Placed>)
    ensures found.Some? ==> found.value in orders && found.value.key == key
    ensures found.Some? <==> exists i :: 0 <= i < |orders| && orders[i].key == key
  {
    if orders == [] then None
    else if orders[0].key == key then Some(orders[0])
    else
      assert forall i :: 0 < i < |orders| ==> orders[i] == orders[1..][i - 1];
      FindByKey(orders[1..], key)
  }

  // -------------------------------------------------------------------------
  // Retries
  // -------------------------------------------------------------------------

  function AgainWith(a: Attempt, isRetry: bool, forceStandalone: bool, duplicates: nat): Attempt {
    Attempt(isRetry, forceStandalone, duplicates, a.stored, a.count + 1)
  }

  // The outer catch block.
  function OnError(req: Request, a: Attempt, inSession: bool, why: Failure): Pc {
    if inSession && why.TxnUnsupported? then Begin(req, AgainWith(a, true, true, a.duplicates))
    else if why.WriteConflict? && !a.isRetry then Begin(req, AgainWith(a, true, a.forceStandalone, a.duplicates))
    else Finished(req, Refused, a)
  }

  // Which branch of the insert's catch block an error takes.
  function InsertError(req: Request, a: Attempt, duplicateKey: bool, why: Failure): Afterwards {
    if !duplicateKey && why.DuplicateNumber? && a.duplicates < ORDER_NUMBER_MAX_ATTEMPTS then NewNumber
    else if (duplicateKey || why.DuplicateNumber?) && req.key.Some? then ReturnExisting
    else Rethrow(why)
  }

  function Resume(req: Request, a: Attempt, inSession: bool, next: Afterwards): Pc {
    match next
    case NewNumber => Begin(req, AgainWith(a, a.isRetry, a.forceStandalone, a.duplicates + 1))
    case ReturnExisting => Lookup(req, a, inSession)
    case Rethrow(why) => OnError(req, a, inSession, why)
  }

  // The error the unique indexes raise for this insert, if they do.
  function IndexError(s: Shop, req: Request, a: Attempt, number: string): Option<Afterwards> {
    if NumberTaken(s.orders, number) then Some(InsertError(req, a, false, DuplicateNumber))
    else if KeyTaken(s.orders, req.key) then Some(InsertError(req, a, true, OtherFailure))
    else None
  }

  function Store(s: Shop, o: Placed): Shop { s.(orders := s.orders + [o]) }

  function Stored(a: Attempt): Attempt { a.(stored := a.stored + 1) }

  // -------------------------------------------------------------------------
  // Steps
  // -------------------------------------------------------------------------

  function Goto(s: Shop, h: nat, pc: Pc): Shop
    requires h < |s.hs|
  {
    s.(hs := s.hs[h := pc])
  }

  // Debit and insert in one transaction.
  function RunTransaction(s: Shop, h: nat, req: Request, a: Attempt, number: string, c: Choice): Shop
    requires h < |s.hs|
  {
    match c
    case Refuse => Goto(s, h, Finished(req, Refused, a))
    case Throw(why) =>
      Goto(s, h, if why.DuplicateNumber? then Resume(req, a, true, InsertError(req, a, false, why))
                 else OnError(req, a, true, why))
    case Bill(_, _, _) =>
      if !Affordable(s, req, c) then Goto(s, h, Finished(req, Refused, a))
      else (match IndexError(s, req, a, number)
        case Some(next) => Goto(s, h, Resume(req, a, true, next))
        case None =>
          var o := Placed(number, req.key, WhatIsTaken(req, c), req.quantity, h);
          Goto(Store(Deduct(s, o.paid), o), h, Populate(req, Stored(a), true, o)))
    case _ => s
  }

  function InsertOrder(s: Shop, h: nat, req: Request, a: Attempt, number: string, taken: Taken, c: Choice): Shop
    requires h < |s.hs|
  {
    match c
    case Throw(why) => Goto(s, h, Compensate(req, a, taken, InsertError(req, a, false, why)))
    case Ok =>
      (match IndexError(s, req, a, number)
       case Some(next) => Goto(s, h, Compensate(req, a, taken, next))
       case None =>
         var o := Placed(number, req.key, taken, req.quantity, h);
         Goto(Store(s, o), h, Populate(req, Stored(a), false, o)))
    case _ => s
  }

  function Advance(s: Shop, h: nat, c: Choice): Shop
    requires h < |s.hs|
  {
    match (s.hs[h], c)
    case (CheckKey(req), Ok) =>
      var found := FindByKey(s.orders, req.key);
      Goto(s, h, if req.key.Some? && found.Some? then Finished(req, Existing(found), FIRST_ATTEMPT)
                 else Begin(req, FIRST_ATTEMPT))
    case (CheckKey(req), Throw(_)) => Goto(s, h, Finished(req, Refused, FIRST_ATTEMPT))
    case (Begin(req, a), Start(number, useTransaction)) =>
      if NumberTaken(s.orders, number) then s
      else Goto(s, h, if useTransaction && !a.forceStandalone then Transact(req, a, number)
                      else Take(req, a, number))
    case (Begin(req, a), Throw(_)) => Goto(s, h, Finished(req, Refused, a))
    case (Transact(req, a, number), _) => RunTransaction(s, h, req, a, number, c)
    case (Take(req, a, _), Refuse) => Goto(s, h, Finished(req, Refused, a))
    case (Take(req, a, _), Throw(why)) => Goto(s, h, OnError(req, a, false, why))
    case (Take(req, a, number), Bill(quotaBilled, _, _)) =>
      var taken := WhatIsTaken(req, c);
      if !Affordable(s, req, c) then Goto(s, h, Finished(req, Refused, a))
      else Goto(Deduct(s, taken), h,
                if quotaBilled then Insert(req, a, number, taken) else RecordDebit(req, a, number, taken))
    case (RecordDebit(req, a, number, taken), Ok) => Goto(s, h, Insert(req, a, number, taken))
    // The debit has been applied; nothing takes it back.
    case (RecordDebit(req, a, _, taken), Throw(why)) => Goto(Leak(s, taken), h, OnError(req, a, false, why))
    case (Insert(req, a, number, taken), _) => InsertOrder(s, h, req, a, number, taken, c)
    case (Compensate(req, a, taken, next), Ok) => Goto(GiveBack(s, taken), h, Resume(req, a, false, next))
    case (Compensate(req, a, taken, next), Throw(_)) => Goto(Leak(s, taken), h, Resume(req, a, false, next))
    case (Populate(req, a, _, order), Ok) => Goto(s, h, Finished(req, Created(order), a))
    case (Populate(req, a, inSession, _), Throw(why)) => Goto(s, h, OnError(req, a, inSession, why))
    case (Lookup(req, a, _), Ok) => Goto(s, h, Finished(req, Existing(FindByKey(s.orders, req.key)), a))
    case (Lookup(req, a, inSession), Throw(why)) => Goto(s, h, OnError(req, a, inSession, why))
    case _ => s
  }

  function Next(s: Shop, h: nat, c: Choice): Shop {
    if c.Call? then if h == |s.hs| then s.(hs := s.hs + [CheckKey(c.req)]) else s
    else if c.Return? then Returning(s, c.order, c.remains)
    else if h < |s.hs| then Advance(s, h, c)
    else s
  }

  datatype Step = Step(h: nat, c: Choice)

  ghost function Run(s: Shop, schedule: seq<Step>): Shop {
    if schedule == [] then s
    else
      var before := Run(s, schedule[..|schedule| - 1]);
      var last := schedule[|schedule| - 1];
      Next(before, last.h, last.c)
  }

  ghost predicate Opening(s: Shop) {
    && s.orders == [] && s.returned == map[] && s.hs == []
    && s.leakedMoney == s.leakedUnits == 0
    && s.balance + s.creditLimit >= 0
    && 0 <= s.quotaUsed <= s.quotaLimit
  }

  // -------------------------------------------------------------------------
  // Sums
  // -------------------------------------------------------------------------

  function MoneyOf(t: Taken): nat { if t.Money? then t.amount else 0 }
  function UnitsOf(t: Taken): nat { if t.Units? then t.quantity else 0 }

  function Charged(orders: seq<Placed>): nat {
    if orders == [] then 0 else Charged(orders[..|orders| - 1]) + MoneyOf(orders[|orders| - 1].paid)
  }

  function Consumed(orders: seq<Placed>): nat {
    if orders == [] then 0 else Consumed(orders[..|orders| - 1]) + UnitsOf(orders[|orders| - 1].paid)
  }

  function ReturnedMoney(orders: seq<Placed>, returned: map<nat, Taken>): nat {
    if orders == [] then 0
    else
      var last := |orders| - 1;
      ReturnedMoney(orders[..last], returned) + if last in returned then MoneyOf(returned[last]) else 0
  }

  function ReturnedUnits(orders: seq<Placed>, returned: map<nat, Taken>): nat {
    if orders == [] then 0
    else
      var last := |orders| - 1;
      ReturnedUnits(orders[..last], returned) + if last in returned then UnitsOf(returned[last]) else 0
  }

  function OrdersBy(orders: seq<Placed>, h: nat): nat {
    if orders == [] then 0
    else OrdersBy(orders[..|orders| - 1], h) + if orders[|orders| - 1].caller == h then 1 else 0
  }

  // What a handler has taken and neither paid into an order nor given back.
  function Holding(pc: Pc): Taken {
    if pc.RecordDebit? || pc.Insert? || pc.Compensate? then pc.taken else Money(0)
  }

  function HeldMoney(hs: seq<Pc>): nat {
    if hs == [] then 0 else HeldMoney(hs[..|hs| - 1]) + MoneyOf(Holding(hs[|hs| - 1]))
  }

  function HeldUnits(hs: seq<Pc>): nat {
    if hs == [] then 0 else HeldUnits(hs[..|hs| - 1]) + UnitsOf(Holding(hs[|hs| - 1]))
  }
}
