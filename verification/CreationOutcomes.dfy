// What one createOrder call comes to: run alone, in both modes, and when its
// insert meets an order stored meanwhile under its own key.

module CreationOutcomes {
  import opened Options
  import opened OrderModel
  import opened CreationMachine
  import opened CreationSafety

  // -------------------------------------------------------------------------
  // A call that runs alone, in which nothing throws and no check refuses
  // -------------------------------------------------------------------------

  // What the call computes before it pays.
  datatype Terms = Terms(number: string, useTransaction: bool, quotaBilled: bool, amount: nat, active: bool)

  function Choose(pc: Pc, t: Terms): Choice {
    match pc
    case Begin(_, _) => Start(t.number, t.useTransaction)
    case Transact(_, _, _) => Bill(t.quotaBilled, t.amount, t.active)
    case Take(_, _, _) => Bill(t.quotaBilled, t.amount, t.active)
    case _ => Ok
  }

  function Onward(s: Shop, h: nat, t: Terms): Shop
    requires h < |s.hs|
  {
    Next(s, h, Choose(s.hs[h], t))
  }

  // From the call to its answer: at most six more steps.
  function Alone(s: Shop, req: Request, t: Terms): Shop {
    Steps(Next(s, |s.hs|, Call(req)), |s.hs|, t, 6)
  }

  function Steps(s: Shop, h: nat, t: Terms, n: nat): Shop
    decreases n
  {
    if n == 0 || h >= |s.hs| then s else Steps(Onward(s, h, t), h, t, n - 1)
  }

  // The wallet may go down to minus the credit limit; the quota up to its limit.
  predicate CanPay(s: Shop, req: Request, t: Terms) {
    if t.quotaBilled then s.quotaUsed + req.quantity <= s.quotaLimit
    else 0 < t.amount && t.active && s.balance - t.amount >= -(s.creditLimit as int)
  }

  ghost predicate KeyFree(orders: seq<Placed>, key: Option<string>) {
    forall i :: 0 <= i < |orders| ==> orders[i].key != key
  }

  function Price(req: Request, t: Terms): Taken {
    if t.quotaBilled then Units(req.quantity) else Money(t.amount)
  }

  function NewOrder(s: Shop, req: Request, t: Terms): Placed {
    Placed(t.number, req.key, Price(req, t), req.quantity, |s.hs|)
  }

  // The shop after the call has paid, and after it has stored its order.
  function Paid(s: Shop, req: Request, t: Terms): Shop {
    s.(balance := s.balance - (if t.quotaBilled then 0 else t.amount),
       quotaUsed := s.quotaUsed + (if t.quotaBilled then req.quantity else 0))
  }

  function WithOrder(s: Shop, req: Request, t: Terms): Shop {
    Paid(s, req, t).(orders := s.orders + [NewOrder(s, req, t)])
  }

  function At(s: Shop, pc: Pc): Shop { s.(hs := s.hs + [pc]) }

  lemma Moving(s: Shop, a: Pc, b: Pc)
    ensures Goto(At(s, a), |s.hs|, b) == At(s, b)
  {}

  lemma Begins(s: Shop, req: Request, a: Attempt, t: Terms)
    requires !NumberTaken(s.orders, t.number)
    ensures Onward(At(s, Begin(req, a)), |s.hs|, t) ==
            At(s, if t.useTransaction && !a.forceStandalone then Transact(req, a, t.number)
                  else Take(req, a, t.number))
  {
    Moving(s, Begin(req, a), Transact(req, a, t.number));
    Moving(s, Begin(req, a), Take(req, a, t.number));
  }

  // In one transaction.
  lemma Transacts(s: Shop, req: Request, a: Attempt, t: Terms)
    requires !NumberTaken(s.orders, t.number) && (req.key.Some? ==> KeyFree(s.orders, req.key))
    ensures var n := Onward(At(s, Transact(req, a, t.number)), |s.hs|, t);
            if CanPay(s, req, t) && KeyFree(s.orders, req.key)
            then n == At(WithOrder(s, req, t),
                         Populate(req, Stored(a), true, NewOrder(s, req, t)))
            else n == At(s, Finished(req, Refused, a))
  {
    var at := Transact(req, a, t.number);
    Moving(s, at, Finished(req, Refused, a));
    if CanPay(s, req, t) && KeyFree(s.orders, req.key) {
      var o := NewOrder(s, req, t);
      assert At(s, at).hs[|s.hs| := Populate(req, Stored(a), true, o)]
          == s.hs + [Populate(req, Stored(a), true, o)];
    } else if CanPay(s, req, t) {
      assert KeyTaken(s.orders, req.key);
    }
  }

  // Step by step.
  lemma Takes(s: Shop, req: Request, a: Attempt, t: Terms)
    ensures var h := |s.hs|;
            var n := Onward(At(s, Take(req, a, t.number)), h, t);
            if !CanPay(s, req, t) then n == At(s, Finished(req, Refused, a))
            else if t.quotaBilled then n == At(Paid(s, req, t), Insert(req, a, t.number, Price(req, t)))
            else
              && n == At(Paid(s, req, t), RecordDebit(req, a, t.number, Price(req, t)))
              && Onward(n, h, t) == At(Paid(s, req, t), Insert(req, a, t.number, Price(req, t)))
  {
    var at, next := Take(req, a, t.number), if t.quotaBilled then Insert(req, a, t.number, Price(req, t))
                                            else RecordDebit(req, a, t.number, Price(req, t));
    Moving(s, at, Finished(req, Refused, a));
    Moving(Paid(s, req, t), at, next);
    Moving(Paid(s, req, t), RecordDebit(req, a, t.number, Price(req, t)), Insert(req, a, t.number, Price(req, t)));
  }

  // Without a key, an order without one already stored: what was taken goes back.
  lemma Inserts(s: Shop, req: Request, a: Attempt, t: Terms)
    requires !NumberTaken(s.orders, t.number) && (req.key.Some? ==> KeyFree(s.orders, req.key))
    ensures var h := |s.hs|;
            var n := Onward(At(Paid(s, req, t), Insert(req, a, t.number, Price(req, t))), h, t);
            if KeyFree(s.orders, req.key)
            then n == At(WithOrder(s, req, t),
                         Populate(req, Stored(a), false, NewOrder(s, req, t)))
            else n == At(Paid(s, req, t), Compensate(req, a, Price(req, t), Rethrow(OtherFailure)))
                 && Onward(n, h, t) == At(s, Finished(req, Refused, a))
  {
    var p := Paid(s, req, t);
    var at, o := Insert(req, a, t.number, Price(req, t)), NewOrder(s, req, t);
    var back := Compensate(req, a, Price(req, t), Rethrow(OtherFailure));
    if KeyFree(s.orders, req.key) {
      Moving(WithOrder(s, req, t), at, Populate(req, Stored(a), false, o));
    } else {
      assert KeyTaken(s.orders, req.key);
      Moving(p, at, back);
      Moving(s, back, Finished(req, Refused, a));
    }
  }

  lemma Reports(s: Shop, req: Request, a: Attempt, inSession: bool, o: Placed, t: Terms)
    ensures Onward(At(s, Populate(req, Stored(a), inSession, o)), |s.hs|, t) ==
            At(s, Finished(req, Created(o), Stored(a)))
  {
    Moving(s, Populate(req, Stored(a), inSession, o), Finished(req, Created(o), Stored(a)));
  }

  lemma {:induction false} FinishedStays(s: Shop, h: nat, t: Terms, n: nat)
    requires h < |s.hs| && s.hs[h].Finished?
    ensures Steps(s, h, t, n) == s
  {
    if n > 0 { FinishedStays(s, h, t, n - 1); }
  }

  lemma TransactsToTheEnd(s: Shop, req: Request, a: Attempt, t: Terms, n: nat)
    requires n >= 2 && !NumberTaken(s.orders, t.number) && (req.key.Some? ==> KeyFree(s.orders, req.key))
    ensures Steps(At(s, Transact(req, a, t.number)), |s.hs|, t, n) ==
            if CanPay(s, req, t) && KeyFree(s.orders, req.key)
            then At(WithOrder(s, req, t), Finished(req, Created(NewOrder(s, req, t)), Stored(a)))
            else At(s, Finished(req, Refused, a))
  {
    var h := |s.hs|;
    var at := At(s, Transact(req, a, t.number));
    Transacts(s, req, a, t);
    assert Steps(at, h, t, n) == Steps(Onward(at, h, t), h, t, n - 1);
    if CanPay(s, req, t) && KeyFree(s.orders, req.key) {
      ReportsToTheEnd(s, req, a, true, t, n - 1);
    } else {
      FinishedStays(At(s, Finished(req, Refused, a)), h, t, n - 1);
    }
  }

  lemma ReportsToTheEnd(s: Shop, req: Request, a: Attempt, inSession: bool, t: Terms, n: nat)
    requires n >= 1
    ensures Steps(At(WithOrder(s, req, t), Populate(req, Stored(a), inSession, NewOrder(s, req, t))),
                  |s.hs|, t, n) ==
            At(WithOrder(s, req, t), Finished(req, Created(NewOrder(s, req, t)), Stored(a)))
  {
    Reports(WithOrder(s, req, t), req, a, inSession, NewOrder(s, req, t), t);
    FinishedStays(At(WithOrder(s, req, t), Finished(req, Created(NewOrder(s, req, t)), Stored(a))),
                  |s.hs|, t, n - 1);
  }

  lemma InsertsToTheEnd(s: Shop, req: Request, a: Attempt, t: Terms, n: nat)
    requires n >= 2 && !NumberTaken(s.orders, t.number) && (req.key.Some? ==> KeyFree(s.orders, req.key))
    ensures Steps(At(Paid(s, req, t), Insert(req, a, t.number, Price(req, t))), |s.hs|, t, n) ==
            if KeyFree(s.orders, req.key)
            then At(WithOrder(s, req, t), Finished(req, Created(NewOrder(s, req, t)), Stored(a)))
            else At(s, Finished(req, Refused, a))
  {
    var h := |s.hs|;
    var at := At(Paid(s, req, t), Insert(req, a, t.number, Price(req, t)));
    Inserts(s, req, a, t);
    assert Steps(at, h, t, n) == Steps(Onward(at, h, t), h, t, n - 1);
    if KeyFree(s.orders, req.key) {
      ReportsToTheEnd(s, req, a, false, t, n - 1);
    } else {
      FinishedStays(At(s, Finished(req, Refused, a)), h, t, n - 2);
    }
  }

  lemma TakesToTheEnd(s: Shop, req: Request, a: Attempt, t: Terms, n: nat)
    requires n >= 4 && !NumberTaken(s.orders, t.number) && (req.key.Some? ==> KeyFree(s.orders, req.key))
    ensures Steps(At(s, Take(req, a, t.number)), |s.hs|, t, n) ==
            if CanPay(s, req, t) && KeyFree(s.orders, req.key)
            then At(WithOrder(s, req, t), Finished(req, Created(NewOrder(s, req, t)), Stored(a)))
            else At(s, Finished(req, Refused, a))
  {
    var h := |s.hs|;
    var at := At(s, Take(req, a, t.number));
    Takes(s, req, a, t);
    assert Steps(at, h, t, n) == Steps(Onward(at, h, t), h, t, n - 1);
    if !CanPay(s, req, t) {
      FinishedStays(At(s, Finished(req, Refused, a)), h, t, n - 1);
    } else if t.quotaBilled {
      InsertsToTheEnd(s, req, a, t, n - 1);
    } else {
      InsertsToTheEnd(s, req, a, t, n - 2);
    }
  }

  // The attempt that begins now, run to its end.
  lemma AttemptEnds(s: Shop, req: Request, a: Attempt, t: Terms, n: nat)
    requires n >= 5 && !NumberTaken(s.orders, t.number) && (req.key.Some? ==> KeyFree(s.orders, req.key))
    ensures Steps(At(s, Begin(req, a)), |s.hs|, t, n) ==
            if CanPay(s, req, t) && KeyFree(s.orders, req.key)
            then At(WithOrder(s, req, t), Finished(req, Created(NewOrder(s, req, t)), Stored(a)))
            else At(s, Finished(req, Refused, a))
  {
    var h := |s.hs|;
    Begins(s, req, a, t);
    var begun := At(s, Begin(req, a));
    assert Steps(begun, h, t, n) == Steps(Onward(begun, h, t), h, t, n - 1);
    if t.useTransaction && !a.forceStandalone {
      TransactsToTheEnd(s, req, a, t, n - 1);
    } else {
      TakesToTheEnd(s, req, a, t, n - 1);
    }
  }

  // Run alone, with a free order number, in either mode: a supplied key that is
  // already stored gives back its order and touches nothing; otherwise the call
  // is Created - its order stored, wallet or quota charged by exactly its price
  // - if and only if the customer can pay it and has no order under the same
  // key, null included; and if not it is refused with nothing changed.
  lemma CreatedExactlyWhen(s: Shop, req: Request, t: Terms)
    requires !NumberTaken(s.orders, t.number)
    ensures var n := Alone(s, req, t);
            if req.key.Some? && !KeyFree(s.orders, req.key)
            then exists o :: o in s.orders && o.key == req.key
                             && n == At(s, Finished(req, Existing(Some(o)), FIRST_ATTEMPT))
            else if CanPay(s, req, t) && KeyFree(s.orders, req.key)
            then n == At(WithOrder(s, req, t), Finished(req, Created(NewOrder(s, req, t)), Stored(FIRST_ATTEMPT)))
            else n == At(s, Finished(req, Refused, FIRST_ATTEMPT))
  {
    var h := |s.hs|;
    var called := At(s, CheckKey(req));
    assert Next(s, h, Call(req)) == called;
    if req.key.Some? && !KeyFree(s.orders, req.key) {
      var found := FindByKey(s.orders, req.key);
      Moving(s, CheckKey(req), Finished(req, Existing(found), FIRST_ATTEMPT));
      FinishedStays(At(s, Finished(req, Existing(found), FIRST_ATTEMPT)), h, t, 5);
      assert found.value in s.orders;
    } else {
      Moving(s, CheckKey(req), Begin(req, FIRST_ATTEMPT));
      assert Steps(called, h, t, 6) == Steps(Onward(called, h, t), h, t, 5);
      AttemptEnds(s, req, FIRST_ATTEMPT, t, 5);
    }
  }

  // -------------------------------------------------------------------------
  // Through retries
  // -------------------------------------------------------------------------

  // An attempt that fails: in a transaction, or at its payment, with an error;
  // or on its own, with the payment taken, because its number has been given
  // away since it was drawn.
  datatype Mishap = Mishap(terms: Terms, why: Failure)

  predicate InSession(a: Attempt, m: Mishap) { m.terms.useTransaction && !a.forceStandalone }

  // The attempt that follows it, if any: without a session where transactions
  // are not supported, once more after a first conflict, and with a new number
  // up to twenty times.
  function After(a: Attempt, m: Mishap): Option<Attempt> {
    match m.why
    case TxnUnsupported =>
      if InSession(a, m) then Some(Attempt(true, true, a.duplicates, a.stored, a.count + 1)) else None
    case WriteConflict =>
      if a.isRetry then None else Some(Attempt(true, a.forceStandalone, a.duplicates, a.stored, a.count + 1))
    case DuplicateNumber =>
      if a.duplicates >= 20 then None
      else Some(Attempt(a.isRetry, a.forceStandalone, a.duplicates + 1, a.stored, a.count + 1))
    case OtherFailure => None
  }

  function Failing(s: Shop, h: nat, m: Mishap): Shop {
    if h >= |s.hs| || !s.hs[h].Begin? then s
    else
      var started := Onward(s, h, m.terms);
      if InSession(s.hs[h].a, m) || !m.why.DuplicateNumber? then Next(started, h, Throw(m.why))
      else
        var taken := Next(started, h, Bill(m.terms.quotaBilled, m.terms.amount, m.terms.active));
        var recorded := if m.terms.quotaBilled then taken else Next(taken, h, Ok);
        Next(Next(recorded, h, Throw(m.why)), h, Ok)
  }

  function FailingAll(s: Shop, h: nat, ms: seq<Mishap>): Shop
    decreases |ms|
  {
    if ms == [] then s else FailingAll(Failing(s, h, ms[0]), h, ms[1..])
  }

  // Each of them is followed by another attempt.
  predicate AllRetried(a: Attempt, ms: seq<Mishap>)
    decreases |ms|
  {
    ms == [] || (After(a, ms[0]).Some? && AllRetried(After(a, ms[0]).value, ms[1..]))
  }

  ghost predicate Payable(s: Shop, req: Request, ms: seq<Mishap>) {
    forall i :: 0 <= i < |ms| ==> !NumberTaken(s.orders, ms[i].terms.number) && CanPay(s, req, ms[i].terms)
  }

  // A failed attempt leaves nothing behind but its retry.
  lemma FailureUndone(s: Shop, req: Request, a: Attempt, m: Mishap)
    requires !NumberTaken(s.orders, m.terms.number) && CanPay(s, req, m.terms) && After(a, m).Some?
    requires req.key.Some? ==> KeyFree(s.orders, req.key)
    ensures Failing(At(s, Begin(req, a)), |s.hs|, m) == At(s, Begin(req, After(a, m).value))
  {
    var h, t, again := |s.hs|, m.terms, After(a, m).value;
    Begins(s, req, a, t);
    if InSession(a, m) {
      TransactFails(s, req, a, m);
    } else if !m.why.DuplicateNumber? {
      Moving(s, Take(req, a, t.number), Begin(req, again));
    } else {
      Takes(s, req, a, t);
      GivenBack(s, req, a, m);
    }
  }

  lemma TransactFails(s: Shop, req: Request, a: Attempt, m: Mishap)
    requires InSession(a, m) && After(a, m).Some?
    ensures Next(At(s, Transact(req, a, m.terms.number)), |s.hs|, Throw(m.why)) == At(s, Begin(req, After(a, m).value))
  {
    Moving(s, Transact(req, a, m.terms.number), Begin(req, After(a, m).value));
  }

  lemma GivenBack(s: Shop, req: Request, a: Attempt, m: Mishap)
    requires m.why.DuplicateNumber? && a.duplicates < 20
    ensures var h, t := |s.hs|, m.terms;
            Next(Next(At(Paid(s, req, t), Insert(req, a, t.number, Price(req, t))), h, Throw(m.why)), h, Ok) ==
            At(s, Begin(req, Attempt(a.isRetry, a.forceStandalone, a.duplicates + 1, a.stored, a.count + 1)))
  {
    var t := m.terms;
    var back := Compensate(req, a, Price(req, t), NewNumber);
    Moving(Paid(s, req, t), Insert(req, a, t.number, Price(req, t)), back);
    Moving(s, back, Begin(req, Attempt(a.isRetry, a.forceStandalone, a.duplicates + 1, a.stored, a.count + 1)));
  }

  lemma {:induction false} FailuresUndone(s: Shop, req: Request, a: Attempt, ms: seq<Mishap>) returns (last: Attempt)
    requires Payable(s, req, ms) && AllRetried(a, ms) && (req.key.Some? ==> KeyFree(s.orders, req.key))
    ensures FailingAll(At(s, Begin(req, a)), |s.hs|, ms) == At(s, Begin(req, last))
    ensures last.stored == a.stored && last.count == a.count + |ms|
    decreases |ms|
  {
    if ms == [] {
      last := a;
    } else {
      FailureUndone(s, req, a, ms[0]);
      last := FailuresUndone(s, req, After(a, ms[0]).value, ms[1..]);
    }
  }

  // Whatever mix of failures a call goes through first, each of a kind that is
  // retried: it ends exactly as it would have without them, its one order paid
  // once, or refused with nothing changed.
  lemma CreatedThroughRetries(s: Shop, req: Request, ms: seq<Mishap>, t: Terms)
    requires Payable(s, req, ms) && AllRetried(FIRST_ATTEMPT, ms)
    requires !NumberTaken(s.orders, t.number) && (req.key.Some? ==> KeyFree(s.orders, req.key))
    ensures exists last: Attempt ::
              && last.count == |ms| + 1
              && Steps(FailingAll(At(s, Begin(req, FIRST_ATTEMPT)), |s.hs|, ms), |s.hs|, t, 5) ==
                 if CanPay(s, req, t) && KeyFree(s.orders, req.key)
                 then At(WithOrder(s, req, t), Finished(req, Created(NewOrder(s, req, t)), Stored(last)))
                 else At(s, Finished(req, Refused, last))
  {
    var last := FailuresUndone(s, req, FIRST_ATTEMPT, ms);
    AttemptEnds(s, req, last, t, 5);
  }

  // -------------------------------------------------------------------------
  // A call whose insert meets its own key
  // -------------------------------------------------------------------------

  // It is on its way to hand the stored order back, or has done so.
  ghost predicate HandsBack(s: Shop, h: nat, req: Request) {
    && h < |s.hs| && s.hs[h].req == req && req.key.Some? && KeyTaken(s.orders, req.key)
    && match s.hs[h]
       case Compensate(_, _, _, next) => next.ReturnExisting?
       case Lookup(_, _, _) => true
       case Finished(_, Existing(found), _) =>
         found.Some? && found.value in s.orders && found.value.key == req.key
       case _ => false
  }

  predicate LookupThrows(s: Shop, step: Step, h: nat) {
    step.h == h < |s.hs| && step.c.Throw? && s.hs[h].Lookup?
  }

  ghost predicate NeverLookupThrows(s: Shop, more: seq<Step>, h: nat) {
    more == []
    || (NeverLookupThrows(s, more[..|more| - 1], h)
        && !LookupThrows(Run(s, more[..|more| - 1]), more[|more| - 1], h))
  }

  lemma StillTaken(s: Shop, step: Step, key: Option<string>)
    requires KeyTaken(s.orders, key)
    ensures KeyTaken(Next(s, step.h, step.c).orders, key)
    ensures s.orders <= Next(s, step.h, step.c).orders
  {
    if IsOwn(step.c) && step.h < |s.hs| { AdvanceEffect(s, step.h, step.c); }
    var i :| 0 <= i < |s.orders| && s.orders[i].key == key;
    assert Next(s, step.h, step.c).orders[i].key == key;
  }

  lemma HandsBackStep(s: Shop, step: Step, h: nat, req: Request)
    requires HandsBack(s, h, req) && !LookupThrows(s, step, h)
    ensures HandsBack(Next(s, step.h, step.c), h, req)
  {
    StillTaken(s, step, req.key);
    if step.h == h && IsOwn(step.c) {
      OwnHandsBack(s, h, step.c, req);
    } else if IsOwn(step.c) && step.h < |s.hs| {
      AdvanceEffect(s, step.h, step.c);
    }
  }

  lemma OwnHandsBack(s: Shop, h: nat, c: Choice, req: Request)
    requires HandsBack(s, h, req) && IsOwn(c) && !(s.hs[h].Lookup? && c.Throw?)
    ensures HandsBack(Advance(s, h, c), h, req)
  {}

  // In one transaction or on its own, with the money taken: the insert finds the
  // number free and the key stored.
  ghost predicate MeetsItsKey(s: Shop, h: nat, c: Choice) {
    && h < |s.hs| && (s.hs[h].Transact? || s.hs[h].Insert?)
    && !NumberTaken(s.orders, s.hs[h].number)
    && s.hs[h].req.key.Some? && KeyTaken(s.orders, s.hs[h].req.key)
    && if s.hs[h].Insert? then c.Ok?
       else c.Bill? && if c.quotaBilled then s.quotaUsed + s.hs[h].req.quantity <= s.quotaLimit
                       else 0 < c.amount && c.active && s.balance - c.amount >= -(s.creditLimit as int)
  }

  // Whatever the others do from then on, and whether or not its compensation
  // throws: unless its own lookup throws, the call never ends refused; when it
  // ends, it hands back a stored order with its key.
  lemma {:induction false} OwnKeyIsHandedBack(s: Shop, h: nat, c: Choice, more: seq<Step>)
    requires MeetsItsKey(s, h, c) && NeverLookupThrows(Next(s, h, c), more, h)
    ensures var n := Run(Next(s, h, c), more);
            && h < |n.hs| && !n.hs[h].Begin?
            && (n.hs[h].Finished? ==>
                  && n.hs[h].outcome.Existing? && n.hs[h].outcome.found.Some?
                  && n.hs[h].outcome.found.value in n.orders
                  && n.hs[h].outcome.found.value.key == s.hs[h].req.key)
    ensures HandsBack(Run(Next(s, h, c), more), h, s.hs[h].req)
  {
    if more == [] {
      assert InsertError(s.hs[h].req, s.hs[h].a, true, OtherFailure).ReturnExisting?;
    } else {
      var init, last := more[..|more| - 1], more[|more| - 1];
      OwnKeyIsHandedBack(s, h, c, init);
      HandsBackStep(Run(Next(s, h, c), init), last, h, s.hs[h].req);
    }
  }

  // -------------------------------------------------------------------------
  // A refund beside the calls
  // -------------------------------------------------------------------------

  // An order that has not been refunded gives back all it took, or with some of
  // its units undelivered their share, once.
  lemma ReturnMeans(s: Shop, h: nat, i: nat, remains: nat)
    requires i < |s.orders| && i !in s.returned
    ensures var n, o := Next(s, h, Return(i, remains)), s.orders[i];
            var all := !(0 < remains < o.quantity);
            && (o.paid.Money? && all ==> n.balance == s.balance + o.paid.amount && n.quotaUsed == s.quotaUsed)
            && (o.paid.Money? && !all ==>
                  && n.balance == s.balance + ShareRefund(Charge(o.paid.amount, 0, o.paid.amount), remains, o.quantity)
                  && n.quotaUsed == s.quotaUsed)
            && (o.paid.Units? && o.paid.quantity == o.quantity ==>
                  n.balance == s.balance && n.quotaUsed == s.quotaUsed - if all then o.quantity else remains)
            && n.orders == s.orders && Next(n, h, Return(i, remains)) == n
  {}
}
