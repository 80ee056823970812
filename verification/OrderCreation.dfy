// createOrder and _attemptCreateOrder as code over the shared documents.  Each
// database operation is proved to be one step of the creation machine, and the
// retries are the source's own recursion with its decreasing measure.

module OrderCreation {
  import opened Options
  import opened CreationMachine
  import opened CreationSafety

  class OrderService {
    var balance: int
    var creditLimit: nat
    var quotaUsed: int
    var quotaLimit: int
    var orders: seq<Placed>
    var returned: map<nat, Taken>
    var leakedMoney: nat
    var leakedUnits: nat
    var hs: seq<Pc>
    ghost const origin: Shop
    ghost var history: seq<Step>

    ghost function View(): Shop
      reads this
    {
      Shop(balance, creditLimit, quotaUsed, quotaLimit, orders, returned, leakedMoney, leakedUnits, hs)
    }

    ghost predicate Valid()
      reads this
    {
      View() == Run(origin, history)
    }

    constructor (balance: int, creditLimit: nat, quotaUsed: int, quotaLimit: int)
      requires balance + creditLimit >= 0 && 0 <= quotaUsed <= quotaLimit
      ensures Valid() && Opening(origin) && origin == View() && history == []
      ensures this.balance == balance && this.quotaUsed == quotaUsed && orders == []
    {
      this.balance := balance;
      this.creditLimit := creditLimit;
      this.quotaUsed := quotaUsed;
      this.quotaLimit := quotaLimit;
      orders, returned, hs := [], map[], [];
      leakedMoney, leakedUnits := 0, 0;
      history := [];
      origin := Shop(balance, creditLimit, quotaUsed, quotaLimit, [], map[], 0, 0, []);
    }

    ghost method Record(h: nat, c: Choice)
      requires View() == Next(Run(origin, history), h, c)
      modifies this`history
      ensures Valid() && history == old(history) + [Step(h, c)]
    {
      ghost var more, now := history + [Step(h, c)], View();
      assert Run(origin, more) == now by { assert more[..|history|] == history; }
      history := more;
      assert View() == now;
    }

    // Anything other calls do while h waits.
    method Interleave(h: nat)
      requires Valid() && h < |hs|
      modifies this
      ensures Valid() && old(history) <= history
      ensures h < |hs| && hs[h] == old(hs[h])
      ensures OrdersBy(orders, h) == OrdersBy(old(orders), h)
    {
      var steps: int := *;
      while steps > 0
        invariant Valid() && old(history) <= history
        invariant h < |hs| && hs[h] == old(hs[h])
        invariant OrdersBy(orders, h) == OrdersBy(old(orders), h)
      {
        var g: nat := *;
        var c: Choice := *;
        if g != h { OtherStep(g, h, c); }
        steps := steps - 1;
      }
    }

    method OtherStep(g: nat, h: nat, c: Choice)
      requires Valid() && g != h && h < |hs|
      modifies this
      ensures Valid() && old(history) <= history
      ensures h < |hs| && hs[h] == old(hs[h])
      ensures OrdersBy(orders, h) == OrdersBy(old(orders), h)
    {
      OthersUntouched(View(), g, h, c);
      var n := Next(Shop(balance, creditLimit, quotaUsed, quotaLimit, orders, returned, leakedMoney, leakedUnits, hs), g, c);
      balance, creditLimit, quotaUsed, quotaLimit := n.balance, n.creditLimit, n.quotaUsed, n.quotaLimit;
      orders, returned, leakedMoney, leakedUnits, hs := n.orders, n.returned, n.leakedMoney, n.leakedUnits, n.hs;
      Record(g, c);
    }

    // A step of h that touches no document.
    method Moves(h: nat, c: Choice, next: Pc)
      requires Valid() && h < |hs|
      requires Next(View(), h, c) == Goto(View(), h, next)
      modifies this
      ensures Valid() && history == old(history) + [Step(h, c)]
      ensures View() == Goto(old(View()), h, next)
    {
      hs := hs[h := next];
      Record(h, c);
    }

    // -----------------------------------------------------------------------
    // createOrder
    // -----------------------------------------------------------------------

    method CreateOrder(req: Request) returns (h: nat, outcome: Outcome)
      requires Valid()
      modifies this
      ensures Valid() && old(history) < history
      ensures h == |old(hs)| && h < |hs| && hs[h].Finished? && hs[h].req == req && hs[h].outcome == outcome
    {
      h := Arrive(req);
      Interleave(h);
      var throws: bool := *;
      if throws {
        Moves(h, Throw(OtherFailure), Finished(req, Refused, FIRST_ATTEMPT));
        return h, Refused;
      }
      var found := CheckExisting(h, req);
      if found.Some? { return h, Existing(found); }
      outcome := AttemptCreateOrder(h, req, FIRST_ATTEMPT);
    }

    method Arrive(req: Request) returns (h: nat)
      requires Valid()
      modifies this`hs, this`history
      ensures Valid() && history == old(history) + [Step(h, Call(req))]
      ensures h == |old(hs)| && hs == old(hs) + [CheckKey(req)]
    {
      h := |hs|;
      hs := hs + [CheckKey(req)];
      Record(h, Call(req));
    }

    // The idempotency check: an order with the key, if one is supplied.
    method CheckExisting(h: nat, req: Request) returns (found: Option<Placed>)
      requires Valid() && h < |hs| && hs[h] == CheckKey(req)
      modifies this
      ensures Valid() && history == old(history) + [Step(h, Ok)] && orders == old(orders)
      ensures found.Some? <==> req.key.Some? && exists i :: 0 <= i < |orders| && orders[i].key == req.key
      ensures found.Some? ==> found.value in orders && found.value.key == req.key
      ensures h < |hs| && hs == old(hs)[h := if found.Some? then Finished(req, Existing(found), FIRST_ATTEMPT)
                                             else Begin(req, FIRST_ATTEMPT)]
    {
      found := if req.key.Some? then FindByKey(orders, req.key) else None;
      Moves(h, Ok, if found.Some? then Finished(req, Existing(found), FIRST_ATTEMPT) else Begin(req, FIRST_ATTEMPT));
    }

    // -----------------------------------------------------------------------
    // _attemptCreateOrder
    // -----------------------------------------------------------------------

    method AttemptCreateOrder(h: nat, req: Request, a: Attempt) returns (outcome: Outcome)
      requires Valid() && h < |hs| && hs[h] == Begin(req, a) && Bounded(a)
      modifies this
      ensures Valid() && old(history) <= history
      ensures h < |hs| && hs[h].Finished? && hs[h].req == req && hs[h].outcome == outcome
      decreases RetriesLeft(a), 2
    {
      Interleave(h);
      var useTransaction: bool := *;
      var number: string := *;
      if NumberTaken(orders, number) {
        // No free candidate in ORDER_NUMBER_MAX_ATTEMPTS draws.
        Moves(h, Throw(OtherFailure), Finished(req, Refused, a));
        return Refused;
      }
      var inSession := useTransaction && !a.forceStandalone;
      Moves(h, Start(number, useTransaction),
            if inSession then Transact(req, a, number) else Take(req, a, number));
      if inSession { AttemptInTransaction(h, req, a, number); }
      else { AttemptStandalone(h, req, a, number); }
      outcome := Conclude(h, req, a);
    }

    // Read the stored order back, look up the one with the same key, or recurse.
    method Conclude(h: nat, req: Request, a: Attempt) returns (outcome: Outcome)
      requires Valid() && h < |hs| && hs[h].req == req && Closing(hs[h], a)
      modifies this
      ensures Valid() && old(history) <= history
      ensures h < |hs| && hs[h].Finished? && hs[h].req == req && hs[h].outcome == outcome
      decreases RetriesLeft(a), 1
    {
      if hs[h].Populate? { PopulateOrder(h); }
      if hs[h].Lookup? { var threw := FindExisting(h); }
      if hs[h].Begin? {
        outcome := AttemptCreateOrder(h, req, hs[h].a);
      } else {
        outcome := hs[h].outcome;
      }
    }

    method PopulateOrder(h: nat)
      requires Valid() && h < |hs| && hs[h].Populate? && AttemptOk(hs[h])
      modifies this
      ensures Valid() && old(history) <= history && h < |hs|
      ensures hs[h].req == old(hs)[h].req && (hs[h].Begin? || hs[h].Finished?)
      ensures hs[h].Begin? ==> Bounded(hs[h].a) && RetriesLeft(hs[h].a) < RetriesLeft(old(hs)[h].a)
    {
      Interleave(h);
      var pc := hs[h];
      var why: Failure := *;
      var throws: bool := *;
      if throws {
        OnErrorOk(pc.req, pc.a, pc.inSession, why);
        Moves(h, Throw(why), OnError(pc.req, pc.a, pc.inSession, why));
      } else {
        Moves(h, Ok, Finished(pc.req, Created(pc.order), pc.a));
      }
    }

    // Unless the lookup throws - still inside the outer try block - the call
    // hands back the stored order with its key, if there is one.
    method FindExisting(h: nat) returns (threw: bool)
      requires Valid() && h < |hs| && hs[h].Lookup? && AttemptOk(hs[h])
      modifies this
      ensures Valid() && old(history) <= history && h < |hs|
      ensures hs[h].req == old(hs)[h].req && (hs[h].Begin? || hs[h].Finished?)
      ensures hs[h].Begin? ==> threw && Bounded(hs[h].a) && RetriesLeft(hs[h].a) < RetriesLeft(old(hs)[h].a)
      ensures !threw ==> HandedBack(hs[h], orders)
    {
      Interleave(h);
      var pc := hs[h];
      var why: Failure := *;
      threw := *;
      if threw {
        OnErrorOk(pc.req, pc.a, pc.inSession, why);
        Moves(h, Throw(why), OnError(pc.req, pc.a, pc.inSession, why));
      } else {
        Moves(h, Ok, Finished(pc.req, Existing(FindByKey(orders, pc.req.key)), pc.a));
      }
    }

    // With a session: debit and insert commit together or not at all.
    method AttemptInTransaction(h: nat, req: Request, a: Attempt, number: string)
      requires Valid() && h < |hs| && hs[h] == Transact(req, a, number) && Bounded(a) && !a.forceStandalone
      modifies this
      ensures Valid() && old(history) <= history && h < |hs|
      ensures hs[h].req == req && Closing(hs[h], a)
    {
      Interleave(h);
      var refuses: bool, throws: bool, why: Failure := *, *, *;
      if refuses {
        TransactionStep(View(), h, Refuse);
        Moves(h, Refuse, Finished(req, Refused, a));
        return;
      }
      if throws {
        TransactionStep(View(), h, Throw(why));
        InsertErrorOk(req, a, false, why);
        var next := if why.DuplicateNumber? then Resume(req, a, true, InsertError(req, a, false, why))
                    else OnError(req, a, true, why);
        ResumeCloses(req, a, true, InsertError(req, a, false, why));
        ResumeCloses(req, a, true, Rethrow(why));
        Moves(h, Throw(why), next);
        return;
      }
      var quotaBilled: bool, amount: nat, active: bool := *, *, *;
      var stored := CommitDebitAndInsert(h, req, a, number, quotaBilled, amount, active);
    }

    // The order is stored and paid for exactly when the customer can pay for it
    // - the wallet going down to minus the credit limit at most - and its number
    // and key are free.
    method CommitDebitAndInsert(h: nat, req: Request, a: Attempt, number: string,
                                quotaBilled: bool, amount: nat, active: bool)
      returns (stored: bool)
      requires Valid() && h < |hs| && hs[h] == Transact(req, a, number) && Bounded(a) && !a.forceStandalone
      modifies this
      ensures Valid() && history == old(history) + [Step(h, Bill(quotaBilled, amount, active))] && h < |hs|
      ensures View() == RunTransaction(old(View()), h, req, a, number, Bill(quotaBilled, amount, active))
      ensures hs[h].req == req && Closing(hs[h], a)
      ensures stored <==>
                && (forall i :: 0 <= i < |old(orders)| ==>
                      old(orders)[i].number != number && old(orders)[i].key != req.key)
                && if quotaBilled then old(quotaUsed) + req.quantity <= quotaLimit
                   else 0 < amount && active && old(balance) - amount >= -(creditLimit as int)
      ensures orders == old(orders) +
                if stored
                then [Placed(number, req.key, if quotaBilled then Units(req.quantity) else Money(amount),
                             req.quantity, h)]
                else []
      ensures balance == old(balance) - (if stored && !quotaBilled then amount else 0)
      ensures quotaUsed == old(quotaUsed) + (if stored && quotaBilled then req.quantity else 0)
      ensures creditLimit == old(creditLimit) && quotaLimit == old(quotaLimit) && returned == old(returned)
      ensures leakedMoney == old(leakedMoney) && leakedUnits == old(leakedUnits)
      ensures stored ==> hs == old(hs)[h := Populate(req, Stored(a), true, orders[|old(orders)|])]
    {
      var c := Bill(quotaBilled, amount, active);
      TransactionStep(View(), h, c);
      var affordable := if quotaBilled then quotaUsed + req.quantity <= quotaLimit
                        else amount > 0 && active && balance + creditLimit >= amount;
      if !affordable {
        Moves(h, c, Finished(req, Refused, a));
        return false;
      }
      if NumberTaken(orders, number) || KeyTaken(orders, req.key) {
        var next := if NumberTaken(orders, number) then InsertError(req, a, false, DuplicateNumber)
                    else InsertError(req, a, true, OtherFailure);
        InsertErrorOk(req, a, !NumberTaken(orders, number),
                      if NumberTaken(orders, number) then DuplicateNumber else OtherFailure);
        ResumeCloses(req, a, true, next);
        Moves(h, c, Resume(req, a, true, next));
        return false;
      }
      var o := Placed(number, req.key, if quotaBilled then Units(req.quantity) else Money(amount), req.quantity, h);
      if quotaBilled { quotaUsed := quotaUsed + req.quantity; } else { balance := balance - amount; }
      orders := orders + [o];
      hs := hs[h := Populate(req, Stored(a), true, o)];
      Record(h, c);
      return true;
    }

    // Without a session: debit, record, insert, compensate.
    method AttemptStandalone(h: nat, req: Request, a: Attempt, number: string)
      requires Valid() && h < |hs| && hs[h] == Take(req, a, number) && Bounded(a)
      modifies this
      ensures Valid() && old(history) <= history && h < |hs|
      ensures hs[h].req == req && Closing(hs[h], a)
    {
      StartStandalone(h, req, a, number);
      if hs[h].RecordDebit? { RecordDebitEntry(h, req, a, number, hs[h].taken); }
      if hs[h].Insert? {
        InsertStandalone(h, req, a, number, hs[h].taken);
        if hs[h].Compensate? {
          Interleave(h);
          var back := GiveBackPayment(h, req, a, hs[h].taken, hs[h].next);
        }
      }
    }

    method StartStandalone(h: nat, req: Request, a: Attempt, number: string)
      requires Valid() && h < |hs| && hs[h] == Take(req, a, number) && Bounded(a)
      modifies this
      ensures Valid() && old(history) <= history && h < |hs| && hs[h].req == req
      ensures || Closing(hs[h], a)
              || (hs[h].RecordDebit? && hs[h].a == a && hs[h].number == number)
              || (hs[h].Insert? && hs[h].a == a && hs[h].number == number)
    {
      Interleave(h);
      var refuses: bool, throws: bool, why: Failure := *, *, *;
      if refuses {
        Moves(h, Refuse, Finished(req, Refused, a));
        return;
      }
      if throws {
        ResumeCloses(req, a, false, Rethrow(why));
        Moves(h, Throw(why), OnError(req, a, false, why));
        return;
      }
      var quotaBilled: bool, amount: nat, active: bool := *, *, *;
      var took := TakePayment(h, req, a, number, quotaBilled, amount, active);
    }

    // One findOneAndUpdate: the filter decides, and a miss refuses the order.
    method TakePayment(h: nat, req: Request, a: Attempt, number: string, quotaBilled: bool, amount: nat, active: bool)
      returns (took: bool)
      requires Valid() && h < |hs| && hs[h] == Take(req, a, number) && Bounded(a)
      modifies this
      ensures Valid() && history == old(history) + [Step(h, Bill(quotaBilled, amount, active))]
      ensures took <==>
              if quotaBilled then old(quotaUsed) + req.quantity <= quotaLimit
              else 0 < amount && active && old(balance) - amount >= -(creditLimit as int)
      ensures balance == old(balance) - (if took && !quotaBilled then amount else 0)
      ensures quotaUsed == old(quotaUsed) + (if took && quotaBilled then req.quantity else 0)
      ensures orders == old(orders) && returned == old(returned)
      ensures creditLimit == old(creditLimit) && quotaLimit == old(quotaLimit)
      ensures leakedMoney == old(leakedMoney) && leakedUnits == old(leakedUnits)
      ensures h < |hs| && hs == old(hs)[h := if !took then Finished(req, Refused, a)
                                             else if quotaBilled then Insert(req, a, number, Units(req.quantity))
                                             else RecordDebit(req, a, number, Money(amount))]
    {
      var c := Bill(quotaBilled, amount, active);
      took := if quotaBilled then quotaUsed + req.quantity <= quotaLimit
              else amount > 0 && active && balance + creditLimit >= amount;
      if !took {
        Moves(h, c, Finished(req, Refused, a));
      } else if quotaBilled {
        quotaUsed := quotaUsed + req.quantity;
        hs := hs[h := Insert(req, a, number, Units(req.quantity))];
        Record(h, c);
      } else {
        balance := balance - amount;
        hs := hs[h := RecordDebit(req, a, number, Money(amount))];
        Record(h, c);
      }
    }

    // The wallet transaction record; nothing takes the debit back if it throws.
    method RecordDebitEntry(h: nat, req: Request, a: Attempt, number: string, taken: Taken)
      requires Valid() && h < |hs| && hs[h] == RecordDebit(req, a, number, taken) && Bounded(a)
      modifies this
      ensures Valid() && old(history) <= history && h < |hs| && hs[h].req == req
      ensures Closing(hs[h], a) || hs[h] == Insert(req, a, number, taken)
    {
      Interleave(h);
      var throws: bool, why: Failure := *, *;
      if throws {
        ResumeCloses(req, a, false, Rethrow(why));
        leakedMoney := leakedMoney + MoneyOf(taken);
        leakedUnits := leakedUnits + UnitsOf(taken);
        hs := hs[h := OnError(req, a, false, why)];
        Record(h, Throw(why));
      } else {
        Moves(h, Ok, Insert(req, a, number, taken));
      }
    }

    method InsertStandalone(h: nat, req: Request, a: Attempt, number: string, taken: Taken)
      requires Valid() && h < |hs| && hs[h] == Insert(req, a, number, taken) && Bounded(a)
      modifies this
      ensures Valid() && old(history) <= history && h < |hs| && hs[h].req == req
      ensures || Closing(hs[h], a)
              || (hs[h].Compensate? && hs[h].a == a && hs[h].taken == taken && NextOk(req, a, hs[h].next))
    {
      Interleave(h);
      var throws: bool, why: Failure := *, *;
      if throws {
        InsertErrorOk(req, a, false, why);
        InsertStep(View(), h, Throw(why));
        Moves(h, Throw(why), Compensate(req, a, taken, InsertError(req, a, false, why)));
        return;
      }
      var stored := InsertPaid(h, req, a, number, taken);
    }

    // Order.create: the two unique indexes decide.
    method InsertPaid(h: nat, req: Request, a: Attempt, number: string, taken: Taken) returns (stored: bool)
      requires Valid() && h < |hs| && hs[h] == Insert(req, a, number, taken) && Bounded(a)
      modifies this
      ensures Valid() && history == old(history) + [Step(h, Ok)] && h < |hs| && hs[h].req == req
      ensures stored <==> forall i :: 0 <= i < |old(orders)| ==>
                            old(orders)[i].number != number && old(orders)[i].key != req.key
      ensures orders == old(orders) + if stored then [Placed(number, req.key, taken, req.quantity, h)] else []
      ensures balance == old(balance) && quotaUsed == old(quotaUsed) && returned == old(returned)
      ensures creditLimit == old(creditLimit) && quotaLimit == old(quotaLimit)
      ensures leakedMoney == old(leakedMoney) && leakedUnits == old(leakedUnits)
      ensures stored ==> hs == old(hs)[h := Populate(req, Stored(a), false, orders[|old(orders)|])]
                         && Closing(hs[h], a)
      ensures !stored ==> hs[h].Compensate? && hs[h].a == a && hs[h].taken == taken && NextOk(req, a, hs[h].next)
    {
      InsertStep(View(), h, Ok);
      IndexErrorOk(View(), req, a, number);
      if NumberTaken(orders, number) || KeyTaken(orders, req.key) {
        var next := if NumberTaken(orders, number) then InsertError(req, a, false, DuplicateNumber)
                    else InsertError(req, a, true, OtherFailure);
        Moves(h, Ok, Compensate(req, a, taken, next));
        return false;
      }
      var o := Placed(number, req.key, taken, req.quantity, h);
      orders := orders + [o];
      hs := hs[h := Populate(req, Stored(a), false, o)];
      Record(h, Ok);
      return true;
    }

    // refundWalletAtomic, or the $inc back, whose error is swallowed: the call
    // goes on the same way, and what was taken is either returned or lost.
    method GiveBackPayment(h: nat, req: Request, a: Attempt, taken: Taken, next: Afterwards) returns (back: bool)
      requires Valid() && h < |hs| && hs[h] == Compensate(req, a, taken, next) && Bounded(a) && NextOk(req, a, next)
      modifies this
      ensures Valid() && history == old(history) + [Step(h, if back then Ok else Throw(OtherFailure))]
      ensures balance == old(balance) + (if back then MoneyOf(taken) else 0)
      ensures quotaUsed == old(quotaUsed) - (if back then UnitsOf(taken) else 0)
      ensures leakedMoney == old(leakedMoney) + (if back then 0 else MoneyOf(taken))
      ensures leakedUnits == old(leakedUnits) + (if back then 0 else UnitsOf(taken))
      ensures orders == old(orders) && returned == old(returned)
      ensures creditLimit == old(creditLimit) && quotaLimit == old(quotaLimit)
      ensures h < |hs| && hs == old(hs)[h := Resume(req, a, false, next)]
      ensures hs[h].req == req && Closing(hs[h], a)
    {
      ResumeCloses(req, a, false, next);
      var throws: bool := *;
      back := !throws;
      hs := hs[h := Resume(req, a, false, next)];
      if throws {
        leakedMoney := leakedMoney + MoneyOf(taken);
        leakedUnits := leakedUnits + UnitsOf(taken);
        Record(h, Throw(OtherFailure));
      } else {
        balance := balance + MoneyOf(taken);
        quotaUsed := quotaUsed - UnitsOf(taken);
        Record(h, Ok);
      }
    }
  }

  lemma OthersUntouched(s: Shop, g: nat, h: nat, c: Choice)
    requires g != h && h < |s.hs|
    ensures var n := Next(s, g, c);
            && h < |n.hs| && n.hs[h] == s.hs[h]
            && OrdersBy(n.orders, h) == OrdersBy(s.orders, h)
  {
    if IsOwn(c) && g < |s.hs| {
      AdvanceEffect(s, g, c);
      var n := Advance(s, g, c);
      if n.orders != s.orders { SumsAfterAppend(s.orders, n.orders[|s.orders|]); }
    }
  }

  ghost predicate HandedBack(pc: Pc, orders: seq<Placed>) {
    && pc.Finished? && pc.outcome.Existing?
    && (pc.outcome.found.Some? <==> exists i :: 0 <= i < |orders| && orders[i].key == pc.req.key)
    && (pc.outcome.found.Some? ==>
          pc.outcome.found.value in orders && pc.outcome.found.value.key == pc.req.key)
  }

  // Where one attempt leaves its call: finished, to be read back, to be looked
  // up, or at a new attempt with fewer retries left.
  ghost predicate Closing(pc: Pc, a: Attempt) {
    || pc.Finished?
    || ((pc.Populate? || pc.Lookup?) && AttemptOk(pc) && RetriesLeft(pc.a) == RetriesLeft(a))
    || (pc.Begin? && Bounded(pc.a) && RetriesLeft(pc.a) < RetriesLeft(a))
  }

  lemma ResumeCloses(req: Request, a: Attempt, inSession: bool, next: Afterwards)
    requires Bounded(a) && (inSession ==> !a.forceStandalone) && NextOk(req, a, next)
    ensures Closing(Resume(req, a, inSession, next), a) && Resume(req, a, inSession, next).req == req
  {}

  lemma TransactionStep(s: Shop, h: nat, c: Choice)
    requires h < |s.hs| && s.hs[h].Transact? && IsOwn(c)
    ensures Next(s, h, c) == RunTransaction(s, h, s.hs[h].req, s.hs[h].a, s.hs[h].number, c)
  {}

  lemma InsertStep(s: Shop, h: nat, c: Choice)
    requires h < |s.hs| && s.hs[h].Insert? && IsOwn(c)
    ensures Next(s, h, c) == InsertOrder(s, h, s.hs[h].req, s.hs[h].a, s.hs[h].number, s.hs[h].taken, c)
  {}
}
