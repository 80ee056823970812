// Every interleaving: the refund flag, the refunds paid, the ledger, and the
// single exit from PROCESSING.

module RefundSafety {
  import opened Options
  import opened OrderModel
  import opened FulfillmentMachine
  import opened RefundAmounts

  // A handler that has set the refunded flag and not yet settled it.
  predicate Holds(pc: Pc) { pc.RefundSession? || pc.RefundCredit? || pc.RefundUndo? }

  ghost predicate Held(s: Sys) { exists i :: 0 <= i < |s.hs| && Holds(s.hs[i]) }

  ghost predicate HeldOnce(s: Sys) {
    forall i, j :: 0 <= i < |s.hs| && 0 <= j < |s.hs| && Holds(s.hs[i]) && Holds(s.hs[j]) ==> i == j
  }

  function Refunds(s: Sys): nat { Count(s.trace, Refunding) }
  function Strandings(s: Sys): nat { Count(s.trace, Stranding) }
  function Exits(s: Sys): nat { Count(s.trace, Leaving) + Count(s.trace, LeavingUnresolved) }

  // The flag is one token: clear and unspent, or set and in exactly one place -
  // held by a handler, spent on a refund, or stranded.
  ghost predicate FlagInv(s: Sys) {
    && (s.doc.refunded <==> s.doc.refundedAt.Some?)
    && HeldOnce(s)
    && Refunds(s) + Strandings(s) <= 1
    && (s.doc.refunded <==> Held(s) || Refunds(s) + Strandings(s) == 1)
    && (Held(s) ==> Refunds(s) + Strandings(s) == 0)
  }

  predicate Refundable(st: OrderStatus) { st in {Failed, Canceled, Partial} }

  ghost predicate StatusInv(s: Sys) {
    && (s.doc.refunded ==> Refundable(s.doc.status))
    && (forall i :: 0 <= i < |s.hs| && InRefund(s.hs[i]) ==> Refundable(s.doc.status))
    && Exits(s) <= 1
    && (s.doc.status == Processing ==> Exits(s) == 0)
  }

  // Each refund pays something, and no more than the order's refundable charge.
  function Cap(c: Charge): nat { if FullRefund(c) >= ChargedBasis(c) then FullRefund(c) else ChargedBasis(c) }

  predicate EventWithin(d: OrderDoc, e: Event) {
    && (e.Credited? ==> 0 < e.amount <= Cap(d.charge))
    && (e.QuotaReturned? ==> 0 < e.quantity <= d.quantity && ChargedBasis(d.charge) == 0)
  }

  ghost predicate LedgerInv(s: Sys, start: Sys) {
    && s.doc.charge == start.doc.charge
    && s.doc.quantity == start.doc.quantity
    && s.balance == start.balance + CreditTotal(s.trace)
    && s.quotaUsed == start.quotaUsed - QuotaTotal(s.trace)
    && forall i :: 0 <= i < |s.trace| ==> EventWithin(s.doc, s.trace[i])
  }

  // The retry counter stays below the limit for as long as the order is open.
  predicate RetryOf(pc: Pc): (below: bool) {
    && (pc.ApplyStatus? ==> pc.retry < MAX_RETRY_COUNT)
    && (pc.RecoverLookup? ==> pc.retry < MAX_RETRY_COUNT)
    && (pc.RecoverWrite? ==> pc.retry < MAX_RETRY_COUNT)
    && (pc.RecoverDefer? ==> pc.retry < MAX_RETRY_COUNT)
    && (pc.PollCheck? ==> pc.retry < MAX_RETRY_COUNT)
    && !pc.KillSwitch?
  }

  ghost predicate RetryInv(s: Sys) {
    && (s.doc.status == Processing ==> s.doc.retryCount < MAX_RETRY_COUNT)
    && forall i :: 0 <= i < |s.hs| ==> RetryOf(s.hs[i])
  }

  // -------------------------------------------------------------------------
  // What one step can do to the flag
  // -------------------------------------------------------------------------

  predicate HoldsAt(s: Sys, h: nat) { h < |s.hs| && Holds(s.hs[h]) }

  predicate SameFlag(s: Sys, n: Sys) {
    n.doc.refunded == s.doc.refunded && n.doc.refundedAt.Some? == s.doc.refundedAt.Some?
  }

  predicate RaisesFlag(s: Sys, n: Sys) {
    !(s.doc.refunded && s.doc.refundedAt.Some?) && n.doc.refunded && n.doc.refundedAt.Some?
  }

  predicate Settles(s: Sys, n: Sys) { Appends(s, n, Refunding) || Appends(s, n, Stranding) }

  predicate FlagEffect(s: Sys, n: Sys, h: nat) {
    || (SameFlag(s, n) && HoldsAt(n, h) == HoldsAt(s, h) && !Settles(s, n))
    || (RaisesFlag(s, n) && !HoldsAt(s, h) && HoldsAt(n, h) && !Settles(s, n))
    || (SameFlag(s, n) && HoldsAt(s, h) && !HoldsAt(n, h) && Settles(s, n))
    || (HoldsAt(s, h) && !HoldsAt(n, h) && !n.doc.refunded && n.doc.refundedAt == None && !Settles(s, n))
    || (RaisesFlag(s, n) && !HoldsAt(s, h) && !HoldsAt(n, h) && Settles(s, n))
  }

  lemma FlagSpawn(s: Sys, c: Choice)
    requires IsSpawn(c)
    ensures FlagEffect(s, Spawn(s, c), |s.hs|)
  {}

  lemma FlagExecute(s: Sys, h: nat, c: Choice)
    requires h < |s.hs| && InExecute(s.hs[h])
    ensures FlagEffect(s, AdvanceExecute(s, h, c), h)
  {
    if s.hs[h].ExecApply? { FlagApply(s, h, c); } else { FlagOtherExecute(s, h, c); }
  }

  lemma FlagApply(s: Sys, h: nat, c: Choice)
    requires h < |s.hs| && InExecute(s.hs[h])
    requires s.hs[h].ExecApply?
    ensures FlagEffect(s, AdvanceExecute(s, h, c), h)
  {}

  lemma FlagOtherExecute(s: Sys, h: nat, c: Choice)
    requires h < |s.hs| && InExecute(s.hs[h])
    requires !s.hs[h].ExecApply?
    ensures FlagEffect(s, AdvanceExecute(s, h, c), h)
  {}

  lemma FlagRefund(s: Sys, h: nat, c: Choice)
    requires h < |s.hs| && InRefund(s.hs[h])
    requires s.doc.refunded <==> s.doc.refundedAt.Some?
    ensures FlagEffect(s, AdvanceRefund(s, h, c), h)
  {}

  lemma FlagPoll(s: Sys, h: nat, c: Choice)
    requires h < |s.hs| && !InExecute(s.hs[h]) && !InRefund(s.hs[h])
    ensures FlagEffect(s, AdvancePoll(s, h, c), h)
  {}

  lemma NextFlagEffect(s: Sys, h: nat, c: Choice)
    requires s.doc.refunded <==> s.doc.refundedAt.Some?
    ensures FlagEffect(s, Next(s, h, c), h)
  {
    if IsSpawn(c) {
      if h == |s.hs| { FlagSpawn(s, c); }
    } else if h < |s.hs| {
      if InExecute(s.hs[h]) { FlagExecute(s, h, c); }
      else if InRefund(s.hs[h]) { FlagRefund(s, h, c); }
      else { FlagPoll(s, h, c); }
    }
  }

  lemma HeldAfter(s: Sys, n: Sys, h: nat)
    requires OneStep(s, n, h) && HeldOnce(s)
    requires HoldsAt(n, h) ==> HoldsAt(s, h) || !Held(s)
    ensures HeldOnce(n)
    ensures HoldsAt(n, h) ==> Held(n)
    ensures !HoldsAt(n, h) && HoldsAt(s, h) ==> !Held(n)
    ensures !HoldsAt(n, h) && !HoldsAt(s, h) ==> (Held(n) <==> Held(s))
  {
    forall i | 0 <= i < |n.hs| && i != h && Holds(n.hs[i])
      ensures i < |s.hs| && Holds(s.hs[i])
    {}
    if Held(s) && !HoldsAt(s, h) {
      var i :| 0 <= i < |s.hs| && Holds(s.hs[i]);
      assert Holds(n.hs[i]);
    }
  }

  lemma FlagStep(s: Sys, h: nat, c: Choice)
    requires FlagInv(s)
    ensures FlagInv(Next(s, h, c))
  {
    var n := Next(s, h, c);
    NextIsOneStep(s, h, c);
    NextFlagEffect(s, h, c);
    HeldAfter(s, n, h);
    CountAfter(s, n, h, Refunding);
    CountAfter(s, n, h, Stranding);
  }

  // -------------------------------------------------------------------------
  // What one step can do to the status
  // -------------------------------------------------------------------------

  predicate Leaves(s: Sys, n: Sys) { Appends(s, n, Leaving) || Appends(s, n, LeavingUnresolved) }

  predicate RefundingAt(s: Sys, h: nat) { h < |s.hs| && InRefund(s.hs[h]) }

  predicate StatusEffect(s: Sys, n: Sys, h: nat) {
    || (n.doc.status == s.doc.status && !Leaves(s, n)
        && (RefundingAt(n, h) ==> RefundingAt(s, h))
        && (n.doc.refunded ==> s.doc.refunded || RefundingAt(s, h)))
    || (s.doc.status == Processing && n.doc.status != Processing && Leaves(s, n)
        && n.doc.refunded == s.doc.refunded
        && (RefundingAt(n, h) ==> Refundable(n.doc.status)))
    || (n.doc.status == Failed && !Leaves(s, n) && !RefundingAt(s, h) && !RefundingAt(n, h))
  }

  lemma StatusSpawn(s: Sys, c: Choice)
    requires IsSpawn(c)
    ensures StatusEffect(s, Spawn(s, c), |s.hs|)
  {}

  lemma StatusExecute(s: Sys, h: nat, c: Choice)
    requires h < |s.hs| && InExecute(s.hs[h])
    ensures StatusEffect(s, AdvanceExecute(s, h, c), h)
  {
    if s.hs[h].ExecApply? { StatusApply(s, h, c); } else { StatusOtherExecute(s, h, c); }
  }

  lemma StatusApply(s: Sys, h: nat, c: Choice)
    requires h < |s.hs| && InExecute(s.hs[h])
    requires s.hs[h].ExecApply?
    ensures StatusEffect(s, AdvanceExecute(s, h, c), h)
  {}

  lemma StatusOtherExecute(s: Sys, h: nat, c: Choice)
    requires h < |s.hs| && InExecute(s.hs[h])
    requires !s.hs[h].ExecApply?
    ensures StatusEffect(s, AdvanceExecute(s, h, c), h)
  {}

  lemma StatusRefund(s: Sys, h: nat, c: Choice)
    requires h < |s.hs| && InRefund(s.hs[h])
    ensures StatusEffect(s, AdvanceRefund(s, h, c), h)
  {}

  lemma StatusPoll(s: Sys, h: nat, c: Choice)
    requires h < |s.hs| && !InExecute(s.hs[h]) && !InRefund(s.hs[h])
    ensures StatusEffect(s, AdvancePoll(s, h, c), h)
  {
    if s.hs[h].ApplyStatus? { StatusReported(s, h, c); } else { StatusOtherPoll(s, h, c); }
  }

  lemma StatusReported(s: Sys, h: nat, c: Choice)
    requires h < |s.hs| && !InExecute(s.hs[h]) && !InRefund(s.hs[h])
    requires s.hs[h].ApplyStatus?
    ensures StatusEffect(s, AdvancePoll(s, h, c), h)
  {}

  lemma StatusOtherPoll(s: Sys, h: nat, c: Choice)
    requires h < |s.hs| && !InExecute(s.hs[h]) && !InRefund(s.hs[h])
    requires !s.hs[h].ApplyStatus?
    ensures StatusEffect(s, AdvancePoll(s, h, c), h)
  {}

  lemma StatusStep(s: Sys, h: nat, c: Choice)
    requires StatusInv(s)
    ensures StatusInv(Next(s, h, c))
  {
    var n := Next(s, h, c);
    NextIsOneStep(s, h, c);
    CountAfter(s, n, h, Leaving);
    CountAfter(s, n, h, LeavingUnresolved);
    if IsSpawn(c) {
      if h == |s.hs| { StatusSpawn(s, c); }
    } else if h < |s.hs| {
      if InExecute(s.hs[h]) { StatusExecute(s, h, c); }
      else if InRefund(s.hs[h]) { StatusRefund(s, h, c); }
      else { StatusPoll(s, h, c); }
    }
    assert StatusEffect(s, n, h);
    forall i | 0 <= i < |n.hs| && InRefund(n.hs[i]) ensures Refundable(n.doc.status) {
      if i != h { assert InRefund(s.hs[i]); }
    }
  }

  // -------------------------------------------------------------------------
  // The ledger
  // -------------------------------------------------------------------------

  predicate LedgerEffect(s: Sys, n: Sys) {
    && n.doc.charge == s.doc.charge
    && n.doc.quantity == s.doc.quantity
    && match Appended(s, n)
       case Some(Credited(_, _, amount)) =>
         n.balance == s.balance + amount && n.quotaUsed == s.quotaUsed && 0 < amount <= Cap(s.doc.charge)
       case Some(QuotaReturned(_, _, units)) =>
         n.balance == s.balance && n.quotaUsed == s.quotaUsed - units
         && 0 < units <= s.doc.quantity && ChargedBasis(s.doc.charge) == 0
       case _ => n.balance == s.balance && n.quotaUsed == s.quotaUsed
  }

  lemma LedgerSpawn(s: Sys, c: Choice)
    requires IsSpawn(c)
    ensures LedgerEffect(s, Spawn(s, c))
  {}

  lemma LedgerExecute(s: Sys, h: nat, c: Choice)
    requires h < |s.hs| && InExecute(s.hs[h])
    ensures LedgerEffect(s, AdvanceExecute(s, h, c))
  {}

  lemma LedgerRefund(s: Sys, h: nat, c: Choice)
    requires h < |s.hs| && InRefund(s.hs[h])
    ensures LedgerEffect(s, AdvanceRefund(s, h, c))
  {
    if s.hs[h].ShareTxn? { ShareIsWithinCharge(s.doc.charge, s.hs[h].remains, s.doc.quantity); }
  }

  lemma LedgerPoll(s: Sys, h: nat, c: Choice)
    requires h < |s.hs| && !InExecute(s.hs[h]) && !InRefund(s.hs[h])
    ensures LedgerEffect(s, AdvancePoll(s, h, c))
  {}

  lemma TotalsAfter(s: Sys, n: Sys, h: nat)
    requires OneStep(s, n, h)
    ensures CreditTotal(n.trace) == CreditTotal(s.trace) +
              match Appended(s, n) case Some(Credited(_, _, amount)) => amount case _ => 0
    ensures QuotaTotal(n.trace) == QuotaTotal(s.trace) +
              match Appended(s, n) case Some(QuotaReturned(_, _, units)) => units case _ => 0
  {
    if n.trace != s.trace {
      assert n.trace[..|n.trace| - 1] == s.trace;
    }
  }

  lemma NextLedgerEffect(s: Sys, h: nat, c: Choice)
    ensures LedgerEffect(s, Next(s, h, c))
  {
    if IsSpawn(c) {
      if h == |s.hs| { LedgerSpawn(s, c); }
    } else if h < |s.hs| {
      if InExecute(s.hs[h]) { LedgerExecute(s, h, c); }
      else if InRefund(s.hs[h]) { LedgerRefund(s, h, c); }
      else { LedgerPoll(s, h, c); }
    }
  }

  lemma LedgerKept(s: Sys, n: Sys, start: Sys, h: nat)
    requires LedgerInv(s, start) && OneStep(s, n, h) && LedgerEffect(s, n)
    ensures LedgerInv(n, start)
  {
    TotalsAfter(s, n, h);
    forall i | 0 <= i < |n.trace| ensures EventWithin(n.doc, n.trace[i]) {
      if i < |s.trace| { assert n.trace[i] == s.trace[i]; }
    }
  }

  lemma LedgerStep(s: Sys, start: Sys, h: nat, c: Choice)
    requires LedgerInv(s, start)
    ensures LedgerInv(Next(s, h, c), start)
  {
    NextIsOneStep(s, h, c);
    NextLedgerEffect(s, h, c);
    LedgerKept(s, Next(s, h, c), start, h);
  }

  // -------------------------------------------------------------------------
  // The retry counter
  // -------------------------------------------------------------------------

  predicate RetryEffect(s: Sys, n: Sys, h: nat) {
    && (n.doc.status == Processing ==>
          s.doc.status == Processing && n.doc.retryCount < MAX_RETRY_COUNT)
    && (h < |n.hs| ==> RetryOf(n.hs[h]))
  }

  lemma RetrySpawn(s: Sys, c: Choice)
    requires IsSpawn(c) && RetryInv(s)
    ensures RetryEffect(s, Spawn(s, c), |s.hs|)
  {}

  lemma RetryExecute(s: Sys, h: nat, c: Choice)
    requires h < |s.hs| && InExecute(s.hs[h]) && RetryInv(s)
    ensures RetryEffect(s, AdvanceExecute(s, h, c), h)
  {
    if s.hs[h].ExecApply? { RetryApply(s, h, c); } else { RetryOtherExecute(s, h, c); }
  }

  lemma RetryApply(s: Sys, h: nat, c: Choice)
    requires h < |s.hs| && InExecute(s.hs[h]) && RetryInv(s)
    requires s.hs[h].ExecApply?
    ensures RetryEffect(s, AdvanceExecute(s, h, c), h)
  {}

  lemma RetryOtherExecute(s: Sys, h: nat, c: Choice)
    requires h < |s.hs| && InExecute(s.hs[h]) && RetryInv(s)
    requires !s.hs[h].ExecApply?
    ensures RetryEffect(s, AdvanceExecute(s, h, c), h)
  {}

  lemma RetryRefund(s: Sys, h: nat, c: Choice)
    requires h < |s.hs| && InRefund(s.hs[h]) && RetryInv(s)
    ensures RetryEffect(s, AdvanceRefund(s, h, c), h)
  {}

  lemma RetryPoll(s: Sys, h: nat, c: Choice)
    requires h < |s.hs| && !InExecute(s.hs[h]) && !InRefund(s.hs[h]) && RetryInv(s)
    ensures RetryEffect(s, AdvancePoll(s, h, c), h)
  {
    assert RetryOf(s.hs[h]);
  }

  lemma RetryStep(s: Sys, h: nat, c: Choice)
    requires RetryInv(s)
    ensures RetryInv(Next(s, h, c))
  {
    var n := Next(s, h, c);
    NextIsOneStep(s, h, c);
    if IsSpawn(c) {
      if h == |s.hs| { RetrySpawn(s, c); }
    } else if h < |s.hs| {
      assert RetryOf(s.hs[h]);
      if InExecute(s.hs[h]) { RetryExecute(s, h, c); }
      else if InRefund(s.hs[h]) { RetryRefund(s, h, c); }
      else { RetryPoll(s, h, c); }
    }
    assert RetryEffect(s, n, h);
  }

  // -------------------------------------------------------------------------
  // Over whole runs
  // -------------------------------------------------------------------------

  ghost predicate SafetyInv(s: Sys, start: Sys) {
    FlagInv(s) && StatusInv(s) && LedgerInv(s, start) && RetryInv(s)
  }

  lemma {:induction false} SafeAlways(start: Sys, schedule: seq<Step>)
    requires Fresh(start)
    ensures SafetyInv(Run(start, schedule), start)
  {
    if schedule == [] {
      assert CreditTotal(start.trace) == QuotaTotal(start.trace) == 0;
    } else {
      var init, last := schedule[..|schedule| - 1], schedule[|schedule| - 1];
      var s := Run(start, init);
      SafeAlways(start, init);
      FlagStep(s, last.h, last.c);
      StatusStep(s, last.h, last.c);
      LedgerStep(s, start, last.h, last.c);
      RetryStep(s, last.h, last.c);
    }
  }
}
