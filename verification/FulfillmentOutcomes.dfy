// What the handlers of one order come to when they run alone, whichever of
// their operations throw: what a placement reply, an unresolved provider, a
// recovered placement and a manual failure do to the order and its money.

module FulfillmentOutcomes {
  import opened Options
  import opened OrderModel
  import opened RefundAmounts
  import opened FulfillmentMachine
  import opened OrderWorld
  import opened ProviderPoll
  import FulfillmentTheorems

  // -------------------------------------------------------------------------
  // executeOrder
  // -------------------------------------------------------------------------

  predicate NewOrder(s: Sys) { Unclaimed(s.doc) && !s.doc.refunded }

  // Claimed, dispatched, and waiting for the provider.
  function Sent(s: Sys): Sys {
    var h := |s.hs|;
    Next(Next(Next(Next(s, h, SpawnExecute), h, Resolve(true)), h, Ok), h, Ok)
  }

  // How the operations after the reply has been stored go.
  datatype Luck = Luck(faults: set<Fault>, quantityBilled: bool)

  function AsAnswer(r: Reply, luck: Luck): OrderWorld.Answer {
    OrderWorld.Answer.Answer(r.ps, r.remains, luck.faults, luck.quantityBilled)
  }

  // The reply stored, and what it starts run to its end.
  function Execution(s: Sys, r: Reply, luck: Luck): Sys {
    var h := |s.hs|;
    SixTicks(Next(Next(Sent(s), h, Choice.Answer(r)), h, Ok), h, AsAnswer(r, luck))
  }

  // Where a reply leads, and what is paid back: a call that was not successful
  // was rejected; a status that is missing or uncertain counts as in flight.
  function StatusAfterReply(r: Reply, luck: Luck): OrderStatus {
    if !r.success then Failed
    else match r.ps
      case NoStatus => Processing
      case Uncertain => Processing
      case Reported(InFlight) => Processing
      case Reported(Delivered) => Completed
      case Reported(Cancelled) => Canceled
      case Reported(Rejected) => Failed
      case Reported(PartlyDelivered) => if AtSwap in luck.faults then Processing else Partial
  }

  function RepayAfterReply(d: OrderDoc, r: Reply, luck: Luck): Repay {
    match StatusAfterReply(r, luck)
    case Failed => FullRepay(d, AsAnswer(r, luck))
    case Canceled => FullRepay(d, AsAnswer(r, luck))
    case Partial => ShareRepay(d, r.remains, AsAnswer(r, luck))
    case _ => NOTHING
  }

  lemma SentMeans(s: Sys)
    requires Unclaimed(s.doc)
    ensures Sent(s) == s.(doc := s.doc.(providerStatus := Uncertain), hs := s.hs + [ExecAwait],
                          trace := s.trace + [Dispatched(|s.hs|)])
  {
    var h := |s.hs|;
    FulfillmentTheorems.SendRuns(s, [], s);
    FulfillmentTheorems.FourSteps(s, [], Step(h, SpawnExecute), Step(h, Resolve(true)), Step(h, Ok), Step(h, Ok));
  }

  lemma AppliedMeans(t: Sys, h: nat, r: Reply)
    requires h < |t.hs| && t.hs[h].ExecAwait? && ClaimStands(t.doc)
    ensures Next(Next(t, h, Choice.Answer(r)), h, Ok) == ApplyReply(t, h, r)
  {
    var a := Next(t, h, Choice.Answer(r));
    assert a == Goto(t, h, ExecApply(r));
    assert t.hs[h := ExecApply(r)][h := Done] == t.hs[h := Done];
    assert a.hs[h := ApplyStatus(t.doc.retryCount, r.ps, r.remains)] ==
           t.hs[h := ApplyStatus(t.doc.retryCount, r.ps, r.remains)];
    assert a.hs[h := RefundSwap(PlacementRejected)] == t.hs[h := RefundSwap(PlacementRejected)];
    assert a.hs[h := RefundSwap(PlacementCancelled)] == t.hs[h := RefundSwap(PlacementCancelled)];
  }

  // The write of a reply that still finds the claim.
  lemma ReplyStored(t: Sys, h: nat, r: Reply)
    requires h < |t.hs| && ClaimStands(t.doc)
    ensures var n := ApplyReply(t, h, r);
            && h < |n.hs| && n.balance == t.balance && n.quotaUsed == t.quotaUsed
            && n.doc == t.doc.(providerOrderId := r.providerOrderId, providerStatus := r.ps, status := n.doc.status)
            && if r.success && r.ps == Reported(PartlyDelivered)
               then n.doc.status == Processing && n.hs[h] == ApplyStatus(t.doc.retryCount, r.ps, r.remains)
               else n.doc.status == StatusAfterReply(r, Luck({}, false))
                    && if n.doc.status in {Failed, Canceled} then n.hs[h].RefundSwap? else n.hs[h].Done?
  {}

  // A full refund, or nothing, run to its end.
  lemma RefundRuns(s: Sys, h: nat, a: OrderWorld.Answer)
    requires h < |s.hs| && (s.hs[h].RefundSwap? || s.hs[h].Done?) && !s.doc.refunded
    ensures var n := SixTicks(s, h, a);
            && h < |n.hs| && n.hs[h].Done? && NotesKept(s, n)
            && SettledAs(s, n, s.doc.status, if s.hs[h].Done? then NOTHING else FullRepay(s.doc, a))
  {
    if s.hs[h].Done? {
      DoneIsFixed(s, h, a);
      FiveDone(s, h, a);
    } else {
      FullRefundTicks(s, h, a);
      FiveKept(s, h, a);
      DoneIsFixed(FiveTicks(s, h, a), h, a);
    }
  }

  // How an order that was charged before ends up after a reply.
  ghost predicate RepliedAs(s: Sys, n: Sys, h: nat, r: Reply, luck: Luck) {
    var repay := RepayAfterReply(s.doc, r, luck);
    && h < |n.hs| && n.hs[h].Done?
    && n.doc.providerOrderId == r.providerOrderId && n.doc.providerStatus == r.ps
    && n.doc.status == StatusAfterReply(r, luck) && n.doc.refunded == repay.flagged
    && n.balance == s.balance + repay.money && n.quotaUsed == s.quotaUsed - repay.units
  }

  lemma ReplyConcludes(t: Sys, h: nat, r: Reply, luck: Luck)
    requires h < |t.hs| && ClaimStands(t.doc) && !t.doc.refunded
    ensures RepliedAs(t, SixTicks(ApplyReply(t, h, r), h, AsAnswer(r, luck)), h, r, luck)
  {
    var a, applied := AsAnswer(r, luck), ApplyReply(t, h, r);
    ReplyStored(t, h, r);
    if applied.hs[h].ApplyStatus? { PartialConcludes(t, applied, h, r, luck); } else { RefundRuns(applied, h, a); }
  }

  lemma PartialConcludes(t: Sys, applied: Sys, h: nat, r: Reply, luck: Luck)
    requires r.success && r.ps == Reported(PartlyDelivered) && h < |applied.hs| && !applied.doc.refunded
    requires applied.balance == t.balance && applied.quotaUsed == t.quotaUsed
    requires applied.doc == t.doc.(providerOrderId := r.providerOrderId, providerStatus := r.ps)
    requires applied.doc.status == Processing && applied.hs[h] == ApplyStatus(applied.doc.retryCount, r.ps, r.remains)
    ensures RepliedAs(t, SixTicks(applied, h, AsAnswer(r, luck)), h, r, luck)
  {
    ReportSettles(applied, h, AsAnswer(r, luck));
  }

  // For every reply and whichever operations throw once it is stored: the order
  // holds the reply's id and status; a reply in flight keeps it open, and one
  // delivered completes it, without moving money; a call that failed and a
  // rejected or cancelled order are closed and paid back in full; a partial
  // delivery is closed and paid back its share.
  lemma ExecutionMeans(s: Sys, r: Reply, luck: Luck)
    requires NewOrder(s)
    ensures RepliedAs(s, Execution(s, r, luck), |s.hs|, r, luck)
  {
    var h, t := |s.hs|, Sent(s);
    SentKeeps(s);
    ReplyConcludes(t, h, r, luck);
    SameReply(s, t, SixTicks(ApplyReply(t, h, r), h, AsAnswer(r, luck)), h, r, luck);
    AppliedMeans(t, h, r);
  }

  lemma SentKeeps(s: Sys)
    requires Unclaimed(s.doc)
    ensures var h, t := |s.hs|, Sent(s);
            && |t.hs| == h + 1 && t.hs[h].ExecAwait? && ClaimStands(t.doc) && t.doc.refunded == s.doc.refunded
            && t.doc.charge == s.doc.charge && t.doc.quantity == s.doc.quantity
            && t.balance == s.balance && t.quotaUsed == s.quotaUsed
  {
    SentMeans(s);
  }

  lemma SameReply(s: Sys, t: Sys, n: Sys, h: nat, r: Reply, luck: Luck)
    requires t.doc.charge == s.doc.charge && t.doc.quantity == s.doc.quantity
    requires t.balance == s.balance && t.quotaUsed == s.quotaUsed && RepliedAs(t, n, h, r, luck)
    ensures RepliedAs(s, n, h, r, luck)
  {}

  // The provider could not be resolved.
  function Unplaced(s: Sys, luck: Luck): Sys {
    var h := |s.hs|;
    SixTicks(Next(Next(Next(s, h, SpawnExecute), h, Resolve(false)), h, Ok), h,
             AsAnswer(AMBIGUOUS, luck))
  }

  // Its exit, before the refund.
  function Unresolved(s: Sys): Sys {
    var h := |s.hs|;
    s.(doc := s.doc.(status := Failed), hs := s.hs + [RefundSwap(ResolutionFailed)],
       trace := s.trace + [Exited(h, Failed, true)])
  }

  lemma UnresolvedLeaves(s: Sys, luck: Luck)
    requires NewOrder(s)
    ensures Unplaced(s, luck) == SixTicks(Unresolved(s), |s.hs|, AsAnswer(AMBIGUOUS, luck))
  {
    var h := |s.hs|;
    var a := Next(s, h, SpawnExecute);
    assert a == s.(hs := s.hs + [ExecResolve]);
    FulfillmentTheorems.LastMoves(s.hs, ExecResolve, ExecUnresolved);
    var b := Next(a, h, Resolve(false));
    assert b == s.(hs := s.hs + [ExecUnresolved]);
    FulfillmentTheorems.LastMoves(s.hs, ExecUnresolved, RefundSwap(ResolutionFailed));
    assert Next(b, h, Ok) == Unresolved(s);
  }

  // Without a provider the order fails, is paid back in full, and is never sent.
  lemma UnresolvedMeans(s: Sys, luck: Luck)
    requires NewOrder(s)
    ensures var n, repay := Unplaced(s, luck), FullRepay(s.doc, AsAnswer(AMBIGUOUS, luck));
            && |n.hs| > |s.hs| && n.hs[|s.hs|].Done?
            && n.doc.status == Failed && n.doc.providerOrderId == None && n.doc.providerStatus == NoStatus
            && n.balance == s.balance + repay.money && n.quotaUsed == s.quotaUsed
            && n.doc.refunded == repay.flagged && Calls(n.trace) == Calls(s.trace)
  {
    var h, c, a := |s.hs|, Unresolved(s), AsAnswer(AMBIGUOUS, luck);
    UnresolvedLeaves(s, luck);
    assert Calls(c.trace) == Calls(s.trace) by { assert c.trace[..|s.trace|] == s.trace; }
    RefundRuns(c, h, a);
    NeverCalls(c, h, a, 6);
    TickingSix(c, h, a);
  }

  function Ticking(s: Sys, h: nat, a: OrderWorld.Answer, n: nat): Sys {
    if n == 0 then s else Tick(Ticking(s, h, a, n - 1), h, a)
  }

  lemma TickingSix(s: Sys, h: nat, a: OrderWorld.Answer)
    ensures Ticking(s, h, a, 6) == SixTicks(s, h, a)
  {
    assert Ticking(s, h, a, 1) == Tick(s, h, a);
    assert Ticking(s, h, a, 3) == Tick(Tick(Ticking(s, h, a, 1), h, a), h, a);
    assert Ticking(s, h, a, 5) == Tick(Tick(Ticking(s, h, a, 3), h, a), h, a);
  }

  // A refund never calls the provider.
  lemma RefundNeverCalls(t: Sys, h: nat, c: Choice)
    requires h < |t.hs| && InRefund(t.hs[h])
    ensures var n := AdvanceRefund(t, h, c);
            || n.trace == t.trace
            || (|n.trace| == |t.trace| + 1 && n.trace[..|t.trace|] == t.trace && !IsCall(n.trace[|t.trace|]))
  {}

  // Handler h is refunding, or done, and no call has been added since s.
  predicate Quiet(s: Sys, t: Sys, h: nat) {
    h < |t.hs| && InFullRefund(t.hs[h]) && Calls(t.trace) == Calls(s.trace)
  }

  lemma TickQuiet(s: Sys, t: Sys, h: nat, a: OrderWorld.Answer)
    requires Quiet(s, t, h)
    ensures Quiet(s, Tick(t, h, a), h)
  {
    TickKeeps(t, h, a);
    if t.hs[h].Done? { DoneIsFixed(t, h, a); } else { RefundNeverCalls(t, h, PollChoice(t.hs[h], a)); }
  }

  lemma {:induction false} NeverCalls(s: Sys, h: nat, a: OrderWorld.Answer, n: nat)
    requires h < |s.hs| && InFullRefund(s.hs[h])
    ensures Quiet(s, Ticking(s, h, a, n), h)
  {
    if n > 0 {
      NeverCalls(s, h, a, n - 1);
      TickQuiet(s, Ticking(s, h, a, n - 1), h, a);
    }
  }

  // The request throws, before or after it is sent: the claim stays, so that the
  // order can be recovered, and no money moves.
  lemma ThrowKeepsClaim(s: Sys, late: bool)
    requires NewOrder(s)
    ensures var h := |s.hs|;
            var calling := Next(Next(Next(s, h, SpawnExecute), h, Resolve(true)), h, Ok);
            var n := Next(Next(if late then Next(calling, h, Ok) else calling, h, Throw), h, Ok);
            && ClaimStands(n.doc) && n.doc.providerStatus == Uncertain
            && n.balance == s.balance && n.quotaUsed == s.quotaUsed && h < |n.hs| && n.hs[h].Done?
  {
    var h := |s.hs|;
    var a := Next(s, h, SpawnExecute);
    assert a == s.(hs := s.hs + [ExecResolve]);
    FulfillmentTheorems.LastMoves(s.hs, ExecResolve, ExecClaim);
    var b := Next(a, h, Resolve(true));
    assert b == s.(hs := s.hs + [ExecClaim]);
    var c := Next(b, h, Ok);
    assert c.hs[h] == ExecCall && c.doc == s.doc.(providerStatus := Uncertain);
    var d := if late then Next(c, h, Ok) else c;
    var e := Next(d, h, Throw);
    assert e.hs[h] == ExecApply(AMBIGUOUS) && e.doc == c.doc;
  }

  // A database call of the execution that throws leaves the order open for
  // review, with its money: the guard escalates an order still in PROCESSING.
  predicate Guarded(pc: Pc) { pc.ExecResolve? || pc.ExecUnresolved? || pc.ExecClaim? || pc.ExecApply? }

  lemma CrashEscalates(s: Sys, h: nat)
    requires h < |s.hs| && Guarded(s.hs[h])
    ensures var n := Next(Next(s, h, Throw), h, Ok);
            && n.doc == (if s.doc.status == Processing then s.doc.(status := ManualReview) else s.doc)
            && n.balance == s.balance && n.quotaUsed == s.quotaUsed && h < |n.hs| && n.hs[h].Done?
  {
    assert Next(s, h, Throw).hs[h] == ExecFatal;
  }

  // A reply that comes when the claim no longer stands - the order has been
  // recovered meanwhile - still completes an order in PROCESSING if it was
  // delivered, and otherwise changes nothing.
  lemma LateReplyMeans(s: Sys, h: nat, r: Reply)
    requires h < |s.hs| && s.hs[h] == ExecApply(r) && !ClaimStands(s.doc)
    ensures var n := Next(s, h, Ok);
            && n.doc == (if s.doc.status == Processing && r.success && r.ps == Reported(Delivered)
                         then s.doc.(status := Completed, providerOrderId := r.providerOrderId, providerStatus := r.ps)
                         else s.doc)
            && n.balance == s.balance && n.quotaUsed == s.quotaUsed && h < |n.hs| && n.hs[h].Done?
  {}

  // -------------------------------------------------------------------------
  // markOrderAsFailed beside the engine
  // -------------------------------------------------------------------------

  // It goes through exactly when the order is neither failed nor refunded and
  // something was charged, in money or in units; all of it is then given back.
  lemma MarkFailedMeans(s: Sys, quantityBilled: bool)
    ensures var n, total := Next(s, |s.hs|, SpawnMarkFailed(quantityBilled)), FullRefund(s.doc.charge);
            if s.doc.status != Failed && s.doc.refundedAt.None?
               && (total > 0 || (s.doc.quantity > 0 && quantityBilled))
            then
              && n.doc == s.doc.(status := Failed, refunded := true, refundedAt := Some(|s.trace|))
              && n.balance == s.balance + total
              && n.quotaUsed == s.quotaUsed - (if total > 0 then 0 else s.doc.quantity)
            else n.doc == s.doc && n.balance == s.balance && n.quotaUsed == s.quotaUsed
  {}

  // -------------------------------------------------------------------------
  // A placement whose outcome was uncertain
  // -------------------------------------------------------------------------

  // The lookup by reference finds the order, and its id and status are stored.
  function Recover(s: Sys, id: string, a: OrderWorld.Answer): Sys {
    var h := |s.hs|;
    Next(Next(Next(s, h, SpawnFulfillmentPoll), h, Found(id, a.ps, a.remains)), h, Ok)
  }

  // Then its status is applied, and the refund it leads to run to its end.
  function Recovery(s: Sys, id: string, a: OrderWorld.Answer): Sys { SixTicks(Recover(s, id, a), |s.hs|, a) }

  lemma RecoverStores(s: Sys, id: string, a: OrderWorld.Answer)
    requires ClaimStands(s.doc) && s.doc.retryCount < MAX_RETRY_COUNT
    ensures Recover(s, id, a) ==
            s.(doc := s.doc.(providerOrderId := Some(id), providerStatus := a.ps),
               hs := s.hs + [ApplyStatus(s.doc.retryCount, a.ps, a.remains)],
               trace := s.trace + [StatusSeen(|s.hs|, a.ps), Recovered(|s.hs|)])
  {
    var h := |s.hs|;
    var looking, writing := RecoverLookup(s.doc.retryCount), RecoverWrite(s.doc.retryCount, id, a.ps, a.remains);
    assert Next(s, h, SpawnFulfillmentPoll) == s.(hs := s.hs + [looking]);
    FulfillmentTheorems.LastMoves(s.hs, looking, writing);
    var found := s.(hs := s.hs + [writing], trace := s.trace + [StatusSeen(h, a.ps)]);
    assert Next(s.(hs := s.hs + [looking]), h, Found(id, a.ps, a.remains)) == found;
    FulfillmentTheorems.LastMoves(s.hs, writing, ApplyStatus(s.doc.retryCount, a.ps, a.remains));
    assert found.trace + [Recovered(h)] == s.trace + [StatusSeen(h, a.ps), Recovered(h)];
  }

  // A claimed order that a lookup finds under an id ends with that id and the
  // status found, and is paid exactly what the status and the remains found
  // say: a partial delivery the share of those remains, a cancelled order all
  // its charge, a rejected one its full refund, any other nothing - whichever
  // of the operations throw.
  lemma RecoveryMeans(s: Sys, id: string, a: OrderWorld.Answer)
    requires ClaimStands(s.doc) && !s.doc.refunded && s.doc.retryCount < MAX_RETRY_COUNT
    ensures var n := Recovery(s, id, a);
            && |n.hs| > |s.hs| && n.hs[|s.hs|].Done?
            && n.doc.providerOrderId == Some(id) && n.doc.providerStatus == a.ps
            && n.doc.status == StatusAfter(s.doc, a)
            && n.doc.refunded == RepayAfter(s.doc, a).flagged
            && n.balance == s.balance + RepayAfter(s.doc, a).money
            && n.quotaUsed == s.quotaUsed - RepayAfter(s.doc, a).units
            && n.doc.retryCount == s.doc.retryCount
                 + (if AtSwap !in a.faults && VerdictOf(a.ps) == InFlight then 1 else 0)
  {
    RecoverStores(s, id, a);
    ReportSettles(Recover(s, id, a), |s.hs|, a);
  }

  // In particular, when nothing throws and the order was charged money.
  lemma RecoveredIsPaid(s: Sys, id: string, a: OrderWorld.Answer)
    requires ClaimStands(s.doc) && !s.doc.refunded && s.doc.retryCount < MAX_RETRY_COUNT
    requires a.faults == {} && WellFormedCharge(s.doc.charge) && s.doc.charge.charged > 0
    ensures Recovery(s, id, a).balance == s.balance +
            match VerdictOf(a.ps)
            case PartlyDelivered => ShareRefund(s.doc.charge, a.remains, s.doc.quantity)
            case Cancelled => s.doc.charge.charged
            case Rejected => s.doc.charge.charged
            case _ => 0
  {
    RecoveryMeans(s, id, a);
    FullRefundIsTheCharge(s.doc.charge);
  }
}
