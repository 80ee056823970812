// The properties of order creation, each over every schedule of any number of
// concurrent calls and of refunds of their orders.

module CreationTheorems {
  import opened Options
  import opened CreationMachine
  import opened CreationSafety
  import OrderCreation

  ghost predicate AllFinished(s: Shop) { forall h :: 0 <= h < |s.hs| ==> s.hs[h].Finished? }

  lemma {:induction false} NothingHeld(hs: seq<Pc>)
    requires forall h :: 0 <= h < |hs| ==> hs[h].Finished?
    ensures HeldMoney(hs) == 0 && HeldUnits(hs) == 0
  {
    if hs != [] {
      NothingHeld(hs[..|hs| - 1]);
      assert hs[|hs| - 1].Finished?;
    }
  }

  lemma RunAppend(s: Shop, schedule: seq<Step>, step: Step)
    ensures Run(s, schedule + [step]) == Next(Run(s, schedule), step.h, step.c)
  {
    assert (schedule + [step])[..|schedule|] == schedule;
  }

  lemma TwoSteps(s: Shop, schedule: seq<Step>, a: Step, b: Step)
    ensures Run(s, schedule + [a, b]) == Next(Next(Run(s, schedule), a.h, a.c), b.h, b.c)
  {
    RunAppend(s, schedule, a);
    assert Run(s, schedule + [a, b]) == Next(Run(s, schedule + [a]), b.h, b.c) by {
      assert schedule + [a, b] == schedule + [a] + [b];
      RunAppend(s, schedule + [a], b);
    }
  }

  // -------------------------------------------------------------------------
  // What is lost, and when
  // -------------------------------------------------------------------------

  // The ledger record of a standalone debit, or a standalone compensation,
  // throws while something has been taken.
  predicate Leaky(s: Shop, step: Step) {
    && step.h < |s.hs| && step.c.Throw?
    && (s.hs[step.h].RecordDebit? || s.hs[step.h].Compensate?)
    && (MoneyOf(s.hs[step.h].taken) > 0 || UnitsOf(s.hs[step.h].taken) > 0)
  }

  // No step of the run is one.
  ghost predicate NeverLeaky(start: Shop, schedule: seq<Step>) {
    schedule == []
    || (NeverLeaky(start, schedule[..|schedule| - 1])
        && !Leaky(Run(start, schedule[..|schedule| - 1]), schedule[|schedule| - 1]))
  }

  lemma LeakStep(s: Shop, step: Step)
    ensures var n := Next(s, step.h, step.c);
            && s.leakedMoney <= n.leakedMoney && s.leakedUnits <= n.leakedUnits
            && (n.leakedMoney + n.leakedUnits == s.leakedMoney + s.leakedUnits <==> !Leaky(s, step))
  {}

  // Money or quota is lost in exactly the runs with such a step.
  lemma {:induction false} NothingLostExactlyWhen(start: Shop, schedule: seq<Step>)
    requires Opening(start)
    ensures var s := Run(start, schedule);
            s.leakedMoney == 0 && s.leakedUnits == 0 <==> NeverLeaky(start, schedule)
  {
    if schedule != [] {
      var init, last := schedule[..|schedule| - 1], schedule[|schedule| - 1];
      NothingLostExactlyWhen(start, init);
      LeakStep(Run(start, init), last);
    }
  }

  // A standalone call is debited, its ledger record throws, and it is refused.
  function LosingRun(req: Request): seq<Step> {
    [Step(0, Call(req)), Step(0, Ok)] + [Step(0, Start("A", false)), Step(0, Bill(false, 1, true))]
    + [Step(0, Throw(OtherFailure))]
  }

  lemma DebitCanBeLost(start: Shop, req: Request)
    requires Opening(start) && start.balance + start.creditLimit >= 1
    ensures var s := Run(start, LosingRun(req));
            && AllFinished(s) && s.hs == [Finished(req, Refused, FIRST_ATTEMPT)]
            && s.orders == [] && s.balance == start.balance - 1 && s.leakedMoney == 1
  {
    var called, taken := [Step(0, Call(req)), Step(0, Ok)], [Step(0, Start("A", false)), Step(0, Bill(false, 1, true))];
    TwoSteps(start, [], called[0], called[1]);
    assert [] + called == called;
    assert Next(start, 0, Call(req)) == start.(hs := [CheckKey(req)]);
    assert Run(start, called) == start.(hs := [Begin(req, FIRST_ATTEMPT)]);
    TwoSteps(start, called, taken[0], taken[1]);
    assert Next(Run(start, called), 0, Start("A", false)) == start.(hs := [Take(req, FIRST_ATTEMPT, "A")]);
    assert Run(start, called + taken)
        == start.(balance := start.balance - 1, hs := [RecordDebit(req, FIRST_ATTEMPT, "A", Money(1))]);
    RunAppend(start, called + taken, Step(0, Throw(OtherFailure)));
  }

  // -------------------------------------------------------------------------
  // The ledger
  // -------------------------------------------------------------------------

  ghost predicate Balanced(s: Shop, start: Shop) {
    && s.balance == start.balance - Charged(s.orders) + ReturnedMoney(s.orders, s.returned) - s.leakedMoney
    && s.quotaUsed == start.quotaUsed + Consumed(s.orders) - ReturnedUnits(s.orders, s.returned) + s.leakedUnits
  }

  // At every moment the overdraft and quota limits hold and no order has given
  // back more than it took.  Once every call has returned, the wallet has paid
  // for exactly the stored orders, less what their refunds gave back, plus what
  // was lost, and the quota likewise; nothing was lost unless a step was leaky.
  lemma BooksBalance(start: Shop, schedule: seq<Step>)
    requires Opening(start)
    ensures var s := Run(start, schedule);
            && s.balance >= -(s.creditLimit as int)
            && 0 <= s.quotaUsed <= s.quotaLimit
            && (forall i :: i in s.returned ==>
                  && i < |s.orders|
                  && MoneyOf(s.returned[i]) <= MoneyOf(s.orders[i].paid)
                  && UnitsOf(s.returned[i]) <= UnitsOf(s.orders[i].paid))
            && (AllFinished(s) ==> Balanced(s, start))
            && (s.leakedMoney == 0 && s.leakedUnits == 0 <==> NeverLeaky(start, schedule))
  {
    var s := Run(start, schedule);
    ShopAlways(start, schedule);
    ReturnedAtMostTaken(s.orders, s.returned);
    if AllFinished(s) { NothingHeld(s.hs); }
    NothingLostExactlyWhen(start, schedule);
  }

  // The code's state always satisfies them.
  lemma ServiceStatesBalance(o: OrderCreation.OrderService)
    requires o.Valid() && Opening(o.origin)
    ensures o.balance >= -(o.creditLimit as int) && 0 <= o.quotaUsed <= o.quotaLimit
    ensures AllFinished(o.View()) ==> Balanced(o.View(), o.origin)
    ensures o.leakedMoney == 0 && o.leakedUnits == 0 <==> NeverLeaky(o.origin, o.history)
  {
    BooksBalance(o.origin, o.history);
  }

  // -------------------------------------------------------------------------
  // One call: at most one order
  // -------------------------------------------------------------------------

  lemma {:induction false} NoneBy(orders: seq<Placed>, h: nat)
    requires forall i :: 0 <= i < |orders| ==> orders[i].caller != h
    ensures OrdersBy(orders, h) == 0
  {
    if orders != [] { NoneBy(orders[..|orders| - 1], h); }
  }

  lemma {:induction false} OneKeyOneOrder(orders: seq<Placed>, h: nat, key: Option<string>)
    requires forall i :: 0 <= i < |orders| && orders[i].caller == h ==> orders[i].key == key
    requires forall i, j :: 0 <= i < j < |orders| ==> orders[i].key != orders[j].key
    ensures OrdersBy(orders, h) <= 1
    ensures OrdersBy(orders, h) == 1 <==> exists i :: 0 <= i < |orders| && orders[i].caller == h
  {
    if orders != [] {
      var init, last := orders[..|orders| - 1], orders[|orders| - 1];
      OneKeyOneOrder(init, h, key);
      if last.caller == h { NoneBy(init, h); }
    }
  }

  // With or without a key, and through every retry, a call stores at most one
  // order: a second insert would repeat the first one's key, null included.
  lemma StoresAtMostOne(start: Shop, schedule: seq<Step>, h: nat)
    requires Opening(start)
    ensures OrdersBy(Run(start, schedule).orders, h) <= 1
    ensures OrdersBy(Run(start, schedule).orders, h) == 1 <==>
            exists i :: 0 <= i < |Run(start, schedule).orders| && Run(start, schedule).orders[i].caller == h
  {
    var s := Run(start, schedule);
    ShopAlways(start, schedule);
    if h < |s.hs| {
      OneKeyOneOrder(s.orders, h, s.hs[h].req.key);
    } else {
      NoneBy(s.orders, h);
    }
  }

  // h's read-back of the order it has stored throws.
  predicate LateError(s: Shop, step: Step, h: nat) {
    step.h == h < |s.hs| && step.c.Throw? && s.hs[h].Populate?
  }

  // Some step of the run is that.
  ghost predicate Late(start: Shop, schedule: seq<Step>, h: nat) {
    schedule != []
    && (Late(start, schedule[..|schedule| - 1], h)
        || LateError(Run(start, schedule[..|schedule| - 1]), schedule[|schedule| - 1], h))
  }

  // The call is about to report, or has reported, the order it stored.
  predicate Reporting(pc: Pc) { pc.Populate? || (pc.Finished? && pc.outcome.Created?) }

  function Unreported(pc: Pc): int { StoredBy(pc) - if Reporting(pc) then 1 else 0 }

  lemma UnreportedStep(s: Shop, h: nat, c: Choice)
    requires h < |s.hs| && AttemptOk(s.hs[h]) && ReportOk(s.orders, s.hs[h], h)
    ensures h < |Advance(s, h, c).hs|
    ensures Unreported(Advance(s, h, c).hs[h])
         == Unreported(s.hs[h]) + if LateError(s, Step(h, c), h) then 1 else 0
  {
    var pc := s.hs[h];
    if pc.Transact? { UnreportedTransaction(s, h, c); }
    else if pc.Compensate? { ResumeOk(pc.req, pc.a, false, pc.next); }
    else if (pc.Take? || pc.RecordDebit?) && c.Throw? { OnErrorOk(pc.req, pc.a, false, c.why); }
    else if (pc.Populate? || pc.Lookup?) && c.Throw? { OnErrorOk(pc.req, pc.a, pc.inSession, c.why); }
  }

  lemma UnreportedTransaction(s: Shop, h: nat, c: Choice)
    requires h < |s.hs| && s.hs[h].Transact? && AttemptOk(s.hs[h])
    ensures h < |Advance(s, h, c).hs| && Unreported(Advance(s, h, c).hs[h]) == Unreported(s.hs[h])
  {
    var Transact(req, a, number) := s.hs[h];
    assert Advance(s, h, c) == RunTransaction(s, h, req, a, number, c);
    if c.Throw? {
      InsertErrorOk(req, a, false, c.why);
      ResumeOk(req, a, true, InsertError(req, a, false, c.why));
      OnErrorOk(req, a, true, c.why);
    } else if c.Bill? {
      IndexErrorOk(s, req, a, number);
      if IndexError(s, req, a, number).Some? { ResumeOk(req, a, true, IndexError(s, req, a, number).value); }
    }
  }

  // A call that is not one of the run's yet has thrown nothing.
  lemma {:induction false} NoLateBeforeCall(start: Shop, schedule: seq<Step>, h: nat)
    requires h >= |Run(start, schedule).hs|
    ensures !Late(start, schedule, h)
  {
    if schedule != [] {
      var init, last := schedule[..|schedule| - 1], schedule[|schedule| - 1];
      CallsOnlyAppear(Run(start, init), last);
      NoLateBeforeCall(start, init, h);
    }
  }

  lemma CallsOnlyAppear(s: Shop, step: Step)
    ensures |s.hs| <= |Next(s, step.h, step.c).hs|
  {
    if IsOwn(step.c) && step.h < |s.hs| { AdvanceEffect(s, step.h, step.c); }
  }

  lemma UnreportedNext(s: Shop, step: Step, h: nat)
    requires CallsInv(s) && h < |s.hs|
    ensures h < |Next(s, step.h, step.c).hs|
    ensures Unreported(Next(s, step.h, step.c).hs[h])
         == Unreported(s.hs[h]) + if LateError(s, step, h) then 1 else 0
  {
    if IsOwn(step.c) && step.h < |s.hs| {
      UnreportedStep(s, step.h, step.c);
      AdvanceEffect(s, step.h, step.c);
    }
  }

  // Storing at most one order, a call cannot be late twice.
  lemma LateOnce(s: Shop, step: Step, h: nat, late: bool)
    requires CallsInv(s) && h < |s.hs| && OrdersBy(s.orders, h) <= 1
    requires Unreported(s.hs[h]) == if late then 1 else 0
    ensures h < |Next(s, step.h, step.c).hs|
    ensures Unreported(Next(s, step.h, step.c).hs[h]) == if late || LateError(s, step, h) then 1 else 0
  {
    UnreportedNext(s, step, h);
  }

  lemma NewCall(s: Shop, step: Step, h: nat)
    requires |s.hs| <= h < |Next(s, step.h, step.c).hs|
    ensures Next(s, step.h, step.c).hs[h].CheckKey?
  {
    if IsOwn(step.c) && step.h < |s.hs| { AdvanceEffect(s, step.h, step.c); }
  }

  lemma {:induction false} UnreportedIsLate(start: Shop, schedule: seq<Step>, h: nat)
    requires Opening(start) && h < |Run(start, schedule).hs|
    ensures Unreported(Run(start, schedule).hs[h]) == if Late(start, schedule, h) then 1 else 0
  {
    var init, last := schedule[..|schedule| - 1], schedule[|schedule| - 1];
    var s := Run(start, init);
    if h < |s.hs| {
      UnreportedIsLate(start, init, h);
      ShopAlways(start, init);
      StoresAtMostOne(start, init, h);
      LateOnce(s, last, h, Late(start, init, h));
    } else {
      NoLateBeforeCall(start, init, h);
      NewCall(s, last, h);
    }
  }

  // Through any mix of transactional and standalone attempts and of the three
  // kinds of retry: a finished call has stored one order exactly when it
  // reports a new one or its own read-back threw, and those two exclude each
  // other; otherwise it has stored none.
  lemma OneOrderExactlyWhen(start: Shop, schedule: seq<Step>, h: nat)
    requires Opening(start)
    requires h < |Run(start, schedule).hs| && Run(start, schedule).hs[h].Finished?
    ensures var s := Run(start, schedule);
            && OrdersBy(s.orders, h) <= 1
            && (OrdersBy(s.orders, h) == 1 <==> s.hs[h].outcome.Created? || Late(start, schedule, h))
            && (s.hs[h].outcome.Created? ==>
                  && !Late(start, schedule, h)
                  && s.hs[h].outcome.order in s.orders && s.hs[h].outcome.order.caller == h)
  {
    ShopAlways(start, schedule);
    StoresAtMostOne(start, schedule, h);
    UnreportedIsLate(start, schedule, h);
    assert ReportOk(Run(start, schedule).orders, Run(start, schedule).hs[h], h);
  }

  // The recursion is bounded: an attempt is never the 24th of its call.
  lemma AttemptsAreBounded(start: Shop, schedule: seq<Step>, h: nat)
    requires Opening(start) && h < |Run(start, schedule).hs|
    ensures AttemptOf(Run(start, schedule).hs[h]).count <= 23
  {
    ShopAlways(start, schedule);
    assert AttemptOk(Run(start, schedule).hs[h]);
  }

  // -------------------------------------------------------------------------
  // Idempotency
  // -------------------------------------------------------------------------

  function KeyCount(orders: seq<Placed>, key: Option<string>): nat {
    if orders == [] then 0
    else KeyCount(orders[..|orders| - 1], key) + if orders[|orders| - 1].key == key then 1 else 0
  }

  function ChargedFor(orders: seq<Placed>, key: Option<string>): nat {
    if orders == [] then 0
    else
      var last := orders[|orders| - 1];
      ChargedFor(orders[..|orders| - 1], key) + if last.key == key then MoneyOf(last.paid) else 0
  }

  lemma {:induction false} NoneWithKey(orders: seq<Placed>, key: Option<string>)
    requires forall i :: 0 <= i < |orders| ==> orders[i].key != key
    ensures KeyCount(orders, key) == 0 && ChargedFor(orders, key) == 0
  {
    if orders != [] { NoneWithKey(orders[..|orders| - 1], key); }
  }

  lemma {:induction false} OneWithKey(orders: seq<Placed>, k: nat)
    requires k < |orders|
    requires forall i, j :: 0 <= i < j < |orders| ==> orders[i].key != orders[j].key
    ensures KeyCount(orders, orders[k].key) == 1
    ensures ChargedFor(orders, orders[k].key) == MoneyOf(orders[k].paid)
  {
    var init := orders[..|orders| - 1];
    if k == |orders| - 1 { NoneWithKey(init, orders[k].key); } else { OneWithKey(init, k); }
  }

  // The order a finished call hands back.
  function Reported(pc: Pc): Option<Placed> {
    match pc
    case Finished(_, Created(order), _) => Some(order)
    case Finished(_, Existing(found), _) => found
    case _ => None
  }

  lemma ReportedIsStored(s: Shop, h: nat) returns (i: nat)
    requires CallsInv(s) && h < |s.hs| && Reported(s.hs[h]).Some?
    ensures i < |s.orders| && s.orders[i] == Reported(s.hs[h]).value && s.orders[i].key == s.hs[h].req.key
  {
    assert ReportOk(s.orders, s.hs[h], h);
    i :| 0 <= i < |s.orders| && s.orders[i] == Reported(s.hs[h]).value;
  }

  // In any run, whatever else the customer orders in it: a supplied key has at
  // most one order, every call with the key that hands an order back hands
  // that one back, and the wallet was charged for it once.
  lemma SameKeySameOrder(start: Shop, schedule: seq<Step>, key: string, g: nat, h: nat)
    requires Opening(start)
    requires var hs := Run(start, schedule).hs;
             g < |hs| && h < |hs| && hs[g].req.key == Some(key) && hs[h].req.key == Some(key)
    requires var hs := Run(start, schedule).hs; Reported(hs[g]).Some? && Reported(hs[h]).Some?
    ensures var s := Run(start, schedule);
            && Reported(s.hs[g]) == Reported(s.hs[h])
            && Reported(s.hs[g]).value in s.orders
            && KeyCount(s.orders, Some(key)) == 1
            && ChargedFor(s.orders, Some(key)) == MoneyOf(Reported(s.hs[g]).value.paid)
  {
    var s := Run(start, schedule);
    ShopAlways(start, schedule);
    var i := ReportedIsStored(s, g);
    var j := ReportedIsStored(s, h);
    assert i == j by { assert s.orders[i].key == s.orders[j].key; }
    OneWithKey(s.orders, i);
  }

  lemma KeyStoredAtMostOnce(start: Shop, schedule: seq<Step>, key: Option<string>)
    requires Opening(start)
    ensures KeyCount(Run(start, schedule).orders, key) <= 1
  {
    var orders := Run(start, schedule).orders;
    ShopAlways(start, schedule);
    if k: nat :| k < |orders| && orders[k].key == key { OneWithKey(orders, k); } else { NoneWithKey(orders, key); }
  }

  // -------------------------------------------------------------------------
  // Orders without a key
  // -------------------------------------------------------------------------

  // Null is one value of the index: once a customer has an order without a key,
  // every other call without one stores nothing and is refused.
  lemma SecondUnkeyedIsRefused(start: Shop, schedule: seq<Step>, i: nat, h: nat)
    requires Opening(start)
    requires var s := Run(start, schedule);
             && i < |s.orders| && s.orders[i].key == None && s.orders[i].caller != h
             && h < |s.hs| && s.hs[h].req.key == None
    ensures var s := Run(start, schedule);
            && OrdersBy(s.orders, h) == 0
            && (s.hs[h].Finished? ==> s.hs[h].outcome.Refused?)
  {
    var s := Run(start, schedule);
    ShopAlways(start, schedule);
    forall j | 0 <= j < |s.orders| ensures s.orders[j].caller != h {
      assert s.orders[j].key == s.hs[s.orders[j].caller].req.key;
    }
    NoneBy(s.orders, h);
    assert ReportOk(s.orders, s.hs[h], h);
  }

  ghost predicate StoresUnkeyed(start: Shop, schedule: seq<Step>, more: seq<Step>) {
    exists i :: |Run(start, schedule).orders| <= i < |Run(start, schedule + more).orders|
             && Run(start, schedule + more).orders[i].key == None
  }

  lemma OrdersKept(s: Shop, step: Step)
    ensures s.orders <= Next(s, step.h, step.c).orders
  {
    if IsOwn(step.c) && step.h < |s.hs| { AdvanceEffect(s, step.h, step.c); }
  }

  lemma OrdersAfter(start: Shop, schedule: seq<Step>, last: Step)
    ensures Run(start, schedule).orders <= Run(start, schedule + [last]).orders
  {
    RunAppend(start, schedule, last);
    OrdersKept(Run(start, schedule), last);
  }

  lemma PrefixOfPrefix(a: seq<Placed>, b: seq<Placed>, c: seq<Placed>)
    requires a <= b <= c
    ensures a <= c
  {}

  lemma {:induction false} OrdersGrow(start: Shop, schedule: seq<Step>, more: seq<Step>)
    ensures Run(start, schedule).orders <= Run(start, schedule + more).orders
    decreases |more|
  {
    if more == [] {
      assert schedule + more == schedule;
    } else {
      var mid := schedule + [more[0]];
      OrdersAfter(start, schedule, more[0]);
      OrdersGrow(start, mid, more[1..]);
      assert mid + more[1..] == schedule + more;
      PrefixOfPrefix(Run(start, schedule).orders, Run(start, mid).orders, Run(start, schedule + more).orders);
    }
  }

  // Longer than every number in use.
  function FreshNumber(orders: seq<Placed>): (number: string)
    ensures forall i :: 0 <= i < |orders| ==> |orders[i].number| < |number|
  {
    if orders == [] then ""
    else
      var init, last := orders[..|orders| - 1], orders[|orders| - 1];
      assert forall i :: 0 <= i < |init| ==> orders[i] == init[i];
      FreshNumber(init) + last.number + "A"
  }

  // A call without a key, and its standalone attempt up to the insert.
  function UnkeyedCall(h: nat): seq<Step> {
    [Step(h, Call(Request(None, 1))), Step(h, Ok)]
  }

  function OneAttempt(h: nat, number: string): seq<Step> {
    [Step(h, Start(number, false)), Step(h, Bill(false, 1, true))] + [Step(h, Ok), Step(h, Ok)]
  }

  lemma LastChanges(hs: seq<Pc>, a: Pc, b: Pc)
    ensures (hs + [a])[|hs| := b] == hs + [b]
  {}

  lemma AttemptPays(t: Shop, hs: seq<Pc>, number: string)
    requires t.hs == hs + [Begin(Request(None, 1), FIRST_ATTEMPT)]
    requires t.balance + t.creditLimit >= 1 && !NumberTaken(t.orders, number)
    ensures Next(Next(t, |hs|, Start(number, false)), |hs|, Bill(false, 1, true)) ==
            t.(balance := t.balance - 1, hs := hs + [RecordDebit(Request(None, 1), FIRST_ATTEMPT, number, Money(1))])
  {
    var req, a := Request(None, 1), FIRST_ATTEMPT;
    LastChanges(hs, Begin(req, a), Take(req, a, number));
    assert Next(t, |hs|, Start(number, false)) == t.(hs := hs + [Take(req, a, number)]);
    LastChanges(hs, Take(req, a, number), RecordDebit(req, a, number, Money(1)));
  }

  lemma AttemptStores(t: Shop, hs: seq<Pc>, number: string)
    requires t.hs == hs + [RecordDebit(Request(None, 1), FIRST_ATTEMPT, number, Money(1))]
    requires !NumberTaken(t.orders, number) && !KeyTaken(t.orders, None)
    ensures Next(Next(t, |hs|, Ok), |hs|, Ok).orders == t.orders + [Placed(number, None, Money(1), 1, |hs|)]
  {
    var req, a := Request(None, 1), FIRST_ATTEMPT;
    LastChanges(hs, RecordDebit(req, a, number, Money(1)), Insert(req, a, number, Money(1)));
    assert Next(t, |hs|, Ok) == t.(hs := hs + [Insert(req, a, number, Money(1))]);
  }

  lemma AttemptRuns(t: Shop, hs: seq<Pc>, schedule: seq<Step>, start: Shop, number: string)
    requires t == Run(start, schedule) && t.hs == hs + [Begin(Request(None, 1), FIRST_ATTEMPT)]
    requires t.balance + t.creditLimit >= 1 && !NumberTaken(t.orders, number) && !KeyTaken(t.orders, None)
    ensures Run(start, schedule + OneAttempt(|hs|, number)).orders
         == t.orders + [Placed(number, None, Money(1), 1, |hs|)]
  {
    var all := OneAttempt(|hs|, number);
    TwoSteps(start, schedule, all[0], all[1]);
    TwoSteps(start, schedule + [all[0], all[1]], all[2], all[3]);
    assert schedule + all == schedule + [all[0], all[1]] + [all[2], all[3]];
    AttemptPays(t, hs, number);
    AttemptStores(Run(start, schedule + [all[0], all[1]]), hs, number);
  }

  lemma FirstUnkeyedIsStored(start: Shop, schedule: seq<Step>)
    requires var s := Run(start, schedule); s.balance + s.creditLimit >= 1 && !KeyTaken(s.orders, None)
    ensures var s := Run(start, schedule);
            var h := |s.hs|;
            StoresUnkeyed(start, schedule, UnkeyedCall(h) + OneAttempt(h, FreshNumber(s.orders)))
  {
    var s := Run(start, schedule);
    var h, number, req := |s.hs|, FreshNumber(s.orders), Request(None, 1);
    var call := UnkeyedCall(h);
    TwoSteps(start, schedule, call[0], call[1]);
    assert Next(s, h, Call(req)) == s.(hs := s.hs + [CheckKey(req)]);
    var t := Run(start, schedule + call);
    assert t == s.(hs := s.hs + [Begin(req, FIRST_ATTEMPT)]);
    AttemptRuns(t, s.hs, schedule + call, start, number);
    assert schedule + (call + OneAttempt(h, number)) == schedule + call + OneAttempt(h, number);
    assert Run(start, schedule + (call + OneAttempt(h, number))).orders[|s.orders|].key == None;
  }

  // A customer who can pay a cent can still get an order without a key exactly
  // when he has none yet.
  lemma UnkeyedStoredExactlyWhen(start: Shop, schedule: seq<Step>)
    requires Opening(start)
    requires var s := Run(start, schedule); s.balance + s.creditLimit >= 1
    ensures (exists more :: StoresUnkeyed(start, schedule, more)) <==>
            forall i :: 0 <= i < |Run(start, schedule).orders| ==> Run(start, schedule).orders[i].key.Some?
  {
    var s := Run(start, schedule);
    if !KeyTaken(s.orders, None) { FirstUnkeyedIsStored(start, schedule); }
    forall more | StoresUnkeyed(start, schedule, more) ensures !KeyTaken(s.orders, None) {
      OrdersGrow(start, schedule, more);
      ShopAlways(start, schedule + more);
      var t := Run(start, schedule + more);
      var i :| |s.orders| <= i < |t.orders| && t.orders[i].key == None;
      forall j | 0 <= j < |s.orders| ensures s.orders[j].key != None { assert s.orders[j] == t.orders[j]; }
    }
  }
}
