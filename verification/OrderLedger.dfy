// Failing, refunding and force-completing one order, and what its customer has
// paid for it in the end.

module OrderLedger {
  import opened Options
  import opened OrderModel
  import opened RefundAmounts

  // paid: what the wallet has given for the order; quotaHeld: units of quota it
  // holds; given and returned: what the refund in force gave back of each;
  // quantityOnly: the customer's group bills by quantity.
  datatype Account = Account(
    doc: OrderDoc, paid: int, quotaHeld: int, given: nat, returned: nat, quantityOnly: bool)

  datatype AdminError = AlreadyCompleted | AlreadyFailed | AlreadyRefunded | NoRefundableAmount | Aborted

  datatype Op =
    | Fail(commits: bool)
    | Complete(saves: bool)
    | Refund(remains: nat, saves: bool, commits: bool)

  // -------------------------------------------------------------------------
  // The operations
  // -------------------------------------------------------------------------

  function FailError(a: Account, commits: bool): Option<AdminError> {
    if a.doc.status == Failed then Some(AlreadyFailed)
    else if a.doc.refundedAt.Some? then Some(AlreadyRefunded)
    else if FullRefund(a.doc.charge) == 0 && !(a.doc.quantity > 0 && a.quantityOnly) then Some(NoRefundableAmount)
    else if !commits then Some(Aborted)
    else None
  }

  // markOrderAsFailed: one transaction.
  function Failing(a: Account, commits: bool): Account {
    if FailError(a, commits).Some? then a
    else
      var doc := a.doc.(status := Failed, refunded := true, refundedAt := Some(0));
      var total := FullRefund(a.doc.charge);
      if total > 0 then a.(doc := doc, paid := a.paid - total, given := total)
      else a.(doc := doc, quotaHeld := a.quotaHeld - a.doc.quantity, returned := a.doc.quantity)
  }

  predicate NeedsRededuction(d: OrderDoc) { d.refunded || d.status in {Failed, Partial, Canceled} }

  // completeOrder: the debit, then the save, with nothing to undo the first.
  function Completing(a: Account, saves: bool): Account {
    if a.doc.status == Completed then a
    else
      var again := NeedsRededuction(a.doc);
      var charged := a.(paid := a.paid + if again then ChargedBasis(a.doc.charge) else 0);
      if !saves then charged
      else if again
      then charged.(doc := a.doc.(status := Completed, refunded := false, refundedAt := None), given := 0, returned := 0)
      else charged.(doc := a.doc.(status := Completed))
  }

  function ShareError(a: Account, remains: nat, commits: bool): Option<AdminError> {
    var quotaRefund := ChargedBasis(a.doc.charge) == 0 && a.doc.quantity > 0 && a.quantityOnly;
    if a.doc.refunded then Some(AlreadyRefunded)
    else if ShareRefund(a.doc.charge, remains, a.doc.quantity) == 0 && !quotaRefund then Some(NoRefundableAmount)
    else if !commits then Some(Aborted)
    else None
  }

  function UnitsBack(d: OrderDoc, remains: nat): nat {
    if IsPartialDelivery(remains, d.quantity) then remains else d.quantity
  }

  // processOrderRefund: one transaction.
  function Sharing(a: Account, remains: nat, commits: bool): Account {
    if ShareError(a, remains, commits).Some? then a
    else
      var flagged := a.doc.(refunded := true, refundedAt := Some(0));
      var doc := if IsPartialDelivery(remains, a.doc.quantity) then flagged.(remains := remains) else flagged;
      var share := ShareRefund(a.doc.charge, remains, a.doc.quantity);
      var units := UnitsBack(a.doc, remains);
      if ChargedBasis(a.doc.charge) > 0 then a.(doc := doc, paid := a.paid - share, given := share)
      else a.(doc := doc, quotaHeld := a.quotaHeld - units, returned := units)
  }

  predicate RefundGuard(d: OrderDoc) {
    d.refunded || (d.status in {Failed, Canceled} && d.refundedAt.Some?)
  }

  predicate SavesStatus(d: OrderDoc, saves: bool) { d.status == Partial || saves }

  function RefundError(a: Account, remains: nat, saves: bool, commits: bool): Option<AdminError> {
    if RefundGuard(a.doc) then Some(AlreadyRefunded)
    else if remains == 0 then FailError(a, commits)
    else if !SavesStatus(a.doc, saves) then Some(Aborted)
    else ShareError(a, remains, commits)
  }

  // refundOrder: the whole charge, or with units remaining the PARTIAL status
  // first and then their share.
  function Refunding(a: Account, remains: nat, saves: bool, commits: bool): Account {
    if RefundGuard(a.doc) then a
    else if remains == 0 then Failing(a, commits)
    else if !SavesStatus(a.doc, saves) then a
    else Sharing(a.(doc := a.doc.(status := Partial)), remains, commits)
  }

  function Do(a: Account, op: Op): Account {
    match op
    case Fail(commits) => Failing(a, commits)
    case Complete(saves) => Completing(a, saves)
    case Refund(remains, saves, commits) => Refunding(a, remains, saves, commits)
  }

  function DoAll(a: Account, ops: seq<Op>): Account {
    if ops == [] then a else Do(DoAll(a, ops[..|ops| - 1]), ops[|ops| - 1])
  }

  // -------------------------------------------------------------------------
  // When they go through, and what they pay
  // -------------------------------------------------------------------------

  // Failing goes through exactly when the order is neither failed nor refunded,
  // was charged something - money, or units of quota - and the transaction
  // commits.  It then pays back the whole charge, or all the units; otherwise it
  // changes nothing.
  lemma FailPaysBack(a: Account, commits: bool)
    requires WellFormedCharge(a.doc.charge)
    ensures var n, charged := Failing(a, commits), a.doc.charge.charged;
            && (FailError(a, commits).None? <==>
                  && commits && a.doc.status != Failed && a.doc.refundedAt.None?
                  && (charged > 0 || (a.doc.quantity > 0 && a.quantityOnly)))
            && (FailError(a, commits).Some? ==>
                  n == a && match FailError(a, commits).value
                            case AlreadyFailed => a.doc.status == Failed
                            case AlreadyRefunded => a.doc.status != Failed && a.doc.refundedAt.Some?
                            case NoRefundableAmount => charged == 0 && !(a.doc.quantity > 0 && a.quantityOnly)
                            case Aborted => !commits
                            case AlreadyCompleted => false)
            && (FailError(a, commits).None? ==>
                  && n.doc == a.doc.(status := Failed, refunded := true, refundedAt := Some(0))
                  && n.paid == a.paid - charged
                  && n.quotaHeld == a.quotaHeld - if charged > 0 then 0 else a.doc.quantity)
  {
    FullRefundIsTheCharge(a.doc.charge);
  }

  // A refund of some remaining units goes through exactly when the order is not
  // refunded, its PARTIAL status is saved or was there, something is owed, and
  // the transaction commits.  It then pays back the share of the units, or the
  // units; otherwise no money or quota moves.
  lemma ShareIsPaid(a: Account, remains: nat, saves: bool, commits: bool)
    requires remains > 0
    ensures var n := Refunding(a, remains, saves, commits);
            var share := ShareRefund(a.doc.charge, remains, a.doc.quantity);
            var inUnits := ChargedBasis(a.doc.charge) == 0 && a.doc.quantity > 0 && a.quantityOnly;
            && (RefundError(a, remains, saves, commits).None? <==>
                  && commits && !a.doc.refunded && (a.doc.status == Partial || saves)
                  && !(a.doc.status in {Failed, Canceled} && a.doc.refundedAt.Some?) && (share > 0 || inUnits))
            && (RefundError(a, remains, saves, commits).Some? ==> n.paid == a.paid && n.quotaHeld == a.quotaHeld)
            && (RefundError(a, remains, saves, commits).None? ==>
                  && n.doc.status == Partial && n.doc.refunded
                  && n.doc.remains == (if remains < a.doc.quantity then remains else a.doc.remains)
                  && n.paid == a.paid - (if inUnits then 0 else share)
                  && n.quotaHeld == a.quotaHeld
                       - (if !inUnits then 0 else if remains < a.doc.quantity then remains else a.doc.quantity))
  {}

  // Any order but a completed one is completed; one that is refunded or closed
  // pays the charge again, whether or not the save goes through.
  lemma CompletionCharges(a: Account, saves: bool)
    requires WellFormedCharge(a.doc.charge) && a.doc.status != Completed
    ensures var n := Completing(a, saves);
            var again := a.doc.refunded || a.doc.status == Failed || a.doc.status == Partial || a.doc.status == Canceled;
            && n.paid == a.paid + (if again then a.doc.charge.charged else 0) && n.quotaHeld == a.quotaHeld
            && n.doc == if !saves then a.doc
                        else if again then a.doc.(status := Completed, refunded := false, refundedAt := None)
                        else a.doc.(status := Completed)
  {
    FullRefundIsTheCharge(a.doc.charge);
  }

  // -------------------------------------------------------------------------
  // The ledger of a charged order
  // -------------------------------------------------------------------------

  // The customer has paid the charge less what the refund in force gave back.
  predicate Balanced(a: Account) { a.paid == a.doc.charge.charged - a.given }

  predicate Flagged(a: Account) {
    && (a.doc.refunded <==> a.doc.refundedAt.Some?)
    && (a.doc.refunded <==> a.given > 0 || a.returned > 0)
  }

  predicate Charged(a: Account) {
    && WellFormedCharge(a.doc.charge) && a.doc.charge.charged > 0
    && a.given <= a.doc.charge.charged && a.returned == 0 && Flagged(a)
  }

  lemma OperationKeepsCharged(a: Account, op: Op)
    requires Charged(a)
    ensures Charged(Do(a, op))
    ensures Do(a, op).doc.charge == a.doc.charge && Do(a, op).doc.quantity == a.doc.quantity
  {
    FullRefundIsTheCharge(a.doc.charge);
    if op.Refund? { ShareIsWithinCharge(a.doc.charge, op.remains, a.doc.quantity); }
  }

  lemma {:induction false} StaysCharged(start: Account, ops: seq<Op>)
    requires Charged(start)
    ensures Charged(DoAll(start, ops))
    ensures DoAll(start, ops).doc.charge == start.doc.charge && DoAll(start, ops).doc.quantity == start.doc.quantity
  {
    if ops != [] {
      StaysCharged(start, ops[..|ops| - 1]);
      OperationKeepsCharged(DoAll(start, ops[..|ops| - 1]), ops[|ops| - 1]);
    }
  }

  // The operation pays the order back.
  predicate Refunds(a: Account, op: Op) {
    match op
    case Fail(commits) => FailError(a, commits).None?
    case Refund(remains, saves, commits) => RefundError(a, remains, saves, commits).None?
    case Complete(_) => false
  }

  // The last operation of the sequence that paid the order back, if any.
  function LastRefund(start: Account, ops: seq<Op>): (last: Option<Op>)
    ensures last.Some? ==> !last.value.Complete?
  {
    if ops == [] then None
    else
      var init, last := ops[..|ops| - 1], ops[|ops| - 1];
      if Refunds(DoAll(start, init), last) then Some(last) else LastRefund(start, init)
  }

  predicate InFull(op: Op, quantity: nat) {
    op.Fail? || (op.Refund? && !IsPartialDelivery(op.remains, quantity))
  }

  // The latest refund paid the whole charge back; one from before the sequence
  // did when it left the customer with nothing paid.
  predicate RefundedInFull(start: Account, ops: seq<Op>) {
    match LastRefund(start, ops)
    case Some(op) => InFull(op, start.doc.quantity)
    case None => start.paid == 0
  }

  // What the latest refund paid back.
  function PaidBack(start: Account, ops: seq<Op>): int {
    match LastRefund(start, ops)
    case Some(Refund(remains, _, _)) =>
      if remains == 0 then FullRefund(start.doc.charge)
      else ShareRefund(start.doc.charge, remains, start.doc.quantity)
    case Some(_) => FullRefund(start.doc.charge)
    case None => start.doc.charge.charged - start.paid
  }

  // While the order is refunded, its latest refund is the one in force.
  lemma {:induction false} RefundInForce(start: Account, ops: seq<Op>)
    requires Charged(start) && Balanced(start)
    ensures DoAll(start, ops).doc.refunded ==> DoAll(start, ops).given == PaidBack(start, ops)
  {
    if ops != [] {
      RefundInForce(start, ops[..|ops| - 1]);
      StaysCharged(start, ops[..|ops| - 1]);
    }
  }

  lemma PartialShareIsLess(c: Charge, remains: nat, quantity: nat)
    requires IsPartialDelivery(remains, quantity) && ChargedBasis(c) > 0
    ensures ShareRefund(c, remains, quantity) < ChargedBasis(c)
  {
    ShareIsFloored(c, remains, quantity);
    CancelFactor(quantity, remains, ChargedBasis(c));
    CancelFactor(ChargedBasis(c), ShareRefund(c, remains, quantity), quantity);
  }

  lemma InFullPaysTheCharge(start: Account, ops: seq<Op>)
    requires Charged(start)
    ensures RefundedInFull(start, ops) <==> PaidBack(start, ops) == start.doc.charge.charged
  {
    FullRefundIsTheCharge(start.doc.charge);
    var last := LastRefund(start, ops);
    if last.Some? && last.value.Refund? && IsPartialDelivery(last.value.remains, start.doc.quantity) {
      PartialShareIsLess(start.doc.charge, last.value.remains, start.doc.quantity);
    }
  }

  // A forced completion after these operations: the order is neither refunded nor
  // closed, or its latest refund was a full one and the save goes through.
  predicate FairCompletion(start: Account, before: seq<Op>, saves: bool) {
    var d := DoAll(start, before).doc;
    || d.status == Completed
    || !NeedsRededuction(d)
    || (saves && d.refunded && RefundedInFull(start, before))
  }

  // A forced completion keeps the balance exactly when it is fair: not when the
  // order was failed without a refund, was refunded in part, or the save fails.
  lemma CompletionBalancedExactlyWhen(start: Account, before: seq<Op>, saves: bool)
    requires Charged(start) && Balanced(start) && Balanced(DoAll(start, before))
    ensures Balanced(Completing(DoAll(start, before), saves)) <==> FairCompletion(start, before, saves)
  {
    StaysCharged(start, before);
    RefundInForce(start, before);
    InFullPaysTheCharge(start, before);
    FullRefundIsTheCharge(start.doc.charge);
  }

  lemma RefundsKeepBalance(a: Account, op: Op)
    requires Charged(a) && Balanced(a) && !op.Complete?
    ensures Balanced(Do(a, op))
  {
    FullRefundIsTheCharge(a.doc.charge);
  }

  predicate FairCompletions(start: Account, ops: seq<Op>) {
    ops == []
    || (var init, last := ops[..|ops| - 1], ops[|ops| - 1];
        && FairCompletions(start, init)
        && (last.Complete? ==> FairCompletion(start, init, last.saves)))
  }

  predicate AlwaysBalanced(start: Account, ops: seq<Op>) {
    Balanced(DoAll(start, ops)) && (ops != [] ==> AlwaysBalanced(start, ops[..|ops| - 1]))
  }

  // Over any sequence of full and partial refunds and forced completions: the
  // account stays balanced throughout exactly when every completion is fair.
  lemma {:induction false} BalancedExactlyWhen(start: Account, ops: seq<Op>)
    requires Charged(start) && Balanced(start)
    ensures AlwaysBalanced(start, ops) <==> FairCompletions(start, ops)
  {
    if ops != [] {
      var init, last := ops[..|ops| - 1], ops[|ops| - 1];
      BalancedExactlyWhen(start, init);
      StaysCharged(start, init);
      if AlwaysBalanced(start, init) {
        if last.Complete? {
          CompletionBalancedExactlyWhen(start, init, last.saves);
        } else {
          RefundsKeepBalance(DoAll(start, init), last);
        }
      }
    }
  }

  // The customer has then paid the charge, less what the latest refund paid back
  // while the order is refunded: nothing after a full one, a part after a share.
  lemma PaidExactlyOnce(start: Account, ops: seq<Op>)
    requires Charged(start) && Balanced(start) && FairCompletions(start, ops)
    ensures var a := DoAll(start, ops);
            && a.paid == start.doc.charge.charged - (if a.doc.refunded then PaidBack(start, ops) else 0)
            && 0 <= a.paid
            && (a.paid == start.doc.charge.charged <==> !a.doc.refunded)
            && (a.paid == 0 <==> a.doc.refunded && RefundedInFull(start, ops))
  {
    StaysCharged(start, ops);
    BalancedExactlyWhen(start, ops);
    RefundInForce(start, ops);
    InFullPaysTheCharge(start, ops);
  }

  // The failing case in full: what an unfair completion overcharges.
  lemma UnfairCompletionOvercharges(a: Account, saves: bool)
    requires Charged(a) && Balanced(a) && a.doc.status != Completed && NeedsRededuction(a.doc)
    ensures Completing(a, saves).paid == a.doc.charge.charged + (a.doc.charge.charged - a.given)
  {
    FullRefundIsTheCharge(a.doc.charge);
  }

  // -------------------------------------------------------------------------
  // Orders the engine has given up on
  // -------------------------------------------------------------------------

  // A FAILED order whose refund was undone is refused the full refund, and is
  // paid through the partial one: its share, which is the whole charge as soon
  // as no units count as delivered.
  lemma AbandonedIsPaidByShare(a: Account, remains: nat)
    requires a.doc.status == Failed && !a.doc.refunded && a.doc.refundedAt.None?
    requires WellFormedCharge(a.doc.charge) && a.doc.charge.charged > 0
    ensures forall commits :: Do(a, Refund(0, true, commits)) == a == Do(a, Fail(commits))
    ensures remains > 0 ==>
              Do(a, Refund(remains, true, true)).paid == a.paid - ShareRefund(a.doc.charge, remains, a.doc.quantity)
    ensures remains > 0 && remains >= a.doc.quantity ==>
              Do(a, Refund(remains, true, true)).paid == a.paid - a.doc.charge.charged
  {
    FullRefundIsTheCharge(a.doc.charge);
  }

  // -------------------------------------------------------------------------
  // The quota of an order billed by quantity
  // -------------------------------------------------------------------------

  predicate QuotaBilled(a: Account) {
    a.quantityOnly && a.doc.charge == Charge(0, 0, 0) && a.doc.quantity > 0
    && a.given == 0 && a.returned <= a.doc.quantity && Flagged(a)
  }

  predicate QuotaBalanced(a: Account) { a.quotaHeld == a.doc.quantity - a.returned }

  // Completion never takes quota again, so it keeps the quota balanced exactly
  // when none had been returned or the save fails.
  lemma QuotaCompletionBalancedExactlyWhen(a: Account, saves: bool)
    requires QuotaBilled(a) && QuotaBalanced(a) && a.doc.status != Completed
    ensures QuotaBalanced(Completing(a, saves)) <==> !saves || !a.doc.refunded
  {}

  lemma QuotaOperation(a: Account, op: Op)
    requires QuotaBilled(a)
    ensures QuotaBilled(Do(a, op)) && Do(a, op).doc.quantity == a.doc.quantity
    ensures QuotaBalanced(a) && !op.Complete? ==> QuotaBalanced(Do(a, op))
  {}

  // No completion of the sequence finds the order refunded.
  predicate NoRefundedCompletion(start: Account, ops: seq<Op>) {
    ops == []
    || (var init, last := ops[..|ops| - 1], ops[|ops| - 1];
        && NoRefundedCompletion(start, init)
        && (last.Complete? && last.saves && DoAll(start, init).doc.status != Completed ==>
              !DoAll(start, init).doc.refunded))
  }

  predicate AlwaysQuotaBalanced(start: Account, ops: seq<Op>) {
    QuotaBalanced(DoAll(start, ops)) && (ops != [] ==> AlwaysQuotaBalanced(start, ops[..|ops| - 1]))
  }

  lemma {:induction false} StaysQuotaBilled(start: Account, ops: seq<Op>)
    requires QuotaBilled(start)
    ensures QuotaBilled(DoAll(start, ops)) && DoAll(start, ops).doc.quantity == start.doc.quantity
  {
    if ops != [] {
      StaysQuotaBilled(start, ops[..|ops| - 1]);
      QuotaOperation(DoAll(start, ops[..|ops| - 1]), ops[|ops| - 1]);
    }
  }

  // Over any sequence of operations the quota stays balanced throughout exactly
  // when none completes a refunded order.
  lemma {:induction false} QuotaBalancedExactlyWhen(start: Account, ops: seq<Op>)
    requires QuotaBilled(start) && QuotaBalanced(start)
    ensures AlwaysQuotaBalanced(start, ops) <==> NoRefundedCompletion(start, ops)
  {
    if ops != [] {
      var init, last := ops[..|ops| - 1], ops[|ops| - 1];
      QuotaBalancedExactlyWhen(start, init);
      StaysQuotaBilled(start, init);
      var a := DoAll(start, init);
      if AlwaysQuotaBalanced(start, init) {
        QuotaOperation(a, last);
        if last.Complete? && a.doc.status != Completed { QuotaCompletionBalancedExactlyWhen(a, last.saves); }
      }
    }
  }

  // The order then holds its units less those returned, each at most once.
  lemma QuotaHeldOnce(start: Account, ops: seq<Op>)
    requires QuotaBilled(start) && QuotaBalanced(start) && NoRefundedCompletion(start, ops)
    ensures var a := DoAll(start, ops);
            a.quotaHeld == start.doc.quantity - a.returned && 0 <= a.quotaHeld
  {
    StaysQuotaBilled(start, ops);
    QuotaBalancedExactlyWhen(start, ops);
  }

  // With one, the units can be returned a second time.
  lemma QuotaReturnedTwice(start: Account)
    requires QuotaBilled(start) && QuotaBalanced(start) && start.doc.status == Processing && !start.doc.refunded
    ensures DoAll(start, [Fail(true), Complete(true)]).doc.status == Completed
    ensures DoAll(start, [Fail(true), Complete(true)]).quotaHeld == 0
    ensures DoAll(start, [Fail(true), Complete(true), Fail(true)]).quotaHeld + start.doc.quantity == 0
  {
    var one, two, three := [Fail(true)], [Fail(true), Complete(true)], [Fail(true), Complete(true), Fail(true)];
    assert one[..0] == [] && two[..1] == one && three[..2] == two;
    assert DoAll(start, one) == Failing(start, true);
    assert DoAll(start, two) == Completing(Failing(start, true), true);
  }

  // -------------------------------------------------------------------------
  // The code
  // -------------------------------------------------------------------------

  class OrderAdmin {
    var doc: OrderDoc
    var paid: int
    var quotaHeld: int
    ghost var given: nat
    ghost var returned: nat
    const quantityOnly: bool

    ghost function View(): Account
      reads this
    {
      Account(doc, paid, quotaHeld, given, returned, quantityOnly)
    }

    constructor (doc: OrderDoc, paid: int, quotaHeld: int, ghost given: nat, ghost returned: nat, quantityOnly: bool)
      ensures View() == Account(doc, paid, quotaHeld, given, returned, quantityOnly)
    {
      this.doc, this.paid, this.quotaHeld, this.quantityOnly := doc, paid, quotaHeld, quantityOnly;
      this.given, this.returned := given, returned;
    }

    // The flags, then the money, and everything undone when the transaction
    // aborts.
    method MarkOrderAsFailed(commits: bool) returns (error: Option<AdminError>)
      modifies this
      ensures error == FailError(old(View()), commits)
      ensures View() == Failing(old(View()), commits)
    {
      if doc.status == Failed { return Some(AlreadyFailed); }
      if doc.refundedAt != None { return Some(AlreadyRefunded); }
      var total := FullRefund(doc.charge);
      var quotaRefund := total == 0 && doc.quantity > 0 && quantityOnly;
      if total == 0 && !quotaRefund { return Some(NoRefundableAmount); }
      var doc0, paid0, quota0 := doc, paid, quotaHeld;
      doc := doc.(status := Failed, refundedAt := Some(0), refunded := true);
      if quotaRefund { quotaHeld := quotaHeld - doc.quantity; } else { paid := paid - total; }
      if !commits {
        doc, paid, quotaHeld := doc0, paid0, quota0;
        return Some(Aborted);
      }
      if quotaRefund { returned := doc.quantity; } else { given := total; }
      return None;
    }

    method CompleteOrder(saves: bool) returns (error: Option<AdminError>)
      modifies this
      ensures error == if old(doc).status == Completed then Some(AlreadyCompleted)
                       else if !saves then Some(Aborted) else None
      ensures View() == Completing(old(View()), saves)
    {
      if doc.status == Completed { return Some(AlreadyCompleted); }
      var order := doc;
      var again := order.refunded || order.status == Failed || order.status == Partial || order.status == Canceled;
      if again {
        var amount := if order.charge.charged > 0 then order.charge.charged else order.charge.wallet;
        if amount > 0 { paid := paid + amount; }
        order := order.(refunded := false, refundedAt := None);
      }
      order := order.(status := Completed);
      if !saves { return Some(Aborted); }
      doc := order;
      if again { given, returned := 0, 0; }
      return None;
    }

    method ProcessOrderRefund(remains: nat, commits: bool) returns (error: Option<AdminError>)
      modifies this
      ensures error == ShareError(old(View()), remains, commits)
      ensures View() == Sharing(old(View()), remains, commits)
    {
      if doc.refunded { return Some(AlreadyRefunded); }
      var charged := ChargedBasis(doc.charge);
      var quotaRefund := charged == 0 && doc.quantity > 0 && quantityOnly;
      var partly := 0 < remains < doc.quantity;
      var amount := if partly then 100 * FloorDiv(remains * charged, 100 * doc.quantity) else charged;
      if amount == 0 && !quotaRefund { return Some(NoRefundableAmount); }
      if !commits { return Some(Aborted); }
      doc := doc.(refunded := true, refundedAt := Some(0));
      if partly { doc := doc.(remains := remains); }
      var units := if partly then remains else doc.quantity;
      if quotaRefund {
        quotaHeld := quotaHeld - units;
        returned := units;
      } else {
        paid := paid - amount;
        given := amount;
      }
      return None;
    }

    method RefundOrder(remains: nat, saves: bool, commits: bool) returns (error: Option<AdminError>)
      modifies this
      ensures error == RefundError(old(View()), remains, saves, commits)
      ensures View() == Refunding(old(View()), remains, saves, commits)
    {
      if doc.refunded { return Some(AlreadyRefunded); }
      if (doc.status == Failed || doc.status == Canceled) && doc.refundedAt.Some? { return Some(AlreadyRefunded); }
      if remains == 0 {
        error := MarkOrderAsFailed(commits);
        return;
      }
      if doc.status != Partial {
        if !saves { return Some(Aborted); }
        doc := doc.(status := Partial);
      }
      error := ProcessOrderRefund(remains, commits);
    }
  }
}
