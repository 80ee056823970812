// The provider fulfilment engine as a state machine over one order document.
//
// Every database operation and every provider reply is one atomic step; a
// handler is a program counter that carries the (possibly stale) values it read
// earlier.  Handlers are never removed, new ones may start at any time, and a
// Choice says how the environment resolves the step: whether a database call
// throws, what the provider answers, whether a transaction commits.

module FulfillmentMachine {
  import opened Options
  import opened OrderModel

  // Why a refund is attempted.
  datatype Cause =
    | ResolutionFailed
    | PlacementRejected
    | PlacementCancelled
    | StatusReport(ps: ProviderStatus)
    | AdminAction

  // What placeOrder returned; a thrown call is turned into AMBIGUOUS.
  datatype Reply = Reply(success: bool, providerOrderId: Option<string>, ps: ProviderStatus, remains: nat)

  const AMBIGUOUS: Reply := Reply(true, None, Uncertain, 0)

  function ReplyVerdict(r: Reply): Verdict { if r.success then VerdictOf(r.ps) else Rejected }

  datatype Pc =
    // executeOrder
    | ExecResolve
    | ExecUnresolved
    | ExecClaim
    | ExecCall
    | ExecAwait
    | ExecApply(reply: Reply)
    | ExecFatal
    // refundFailedOrder
    | RefundSwap(cause: Cause)
    | RefundSession(cause: Cause)
    | RefundCredit(cause: Cause)
    | RefundUndo(cause: Cause, again: bool)
    // processOrderRefund
    | ShareTxn(cause: Cause, remains: nat)
    // processOrderStatusResult
    | ApplyStatus(retry: nat, ps: ProviderStatus, remains: nat)
    // recoverUncertainPlacement
    | RecoverLookup(retry: nat)
    | RecoverWrite(retry: nat, id: string, ps: ProviderStatus, remains: nat)
    | RecoverDefer(retry: nat)
    // pollers
    | PollCheck(retry: nat)
    | KillSwitch
    | Done

  datatype Event =
    | Dispatched(h: nat)
    // early: before anything had been sent.
    | PlaceThrew(h: nat, early: bool)
    // The order stays open with the provider's id and status.
    | Pended(h: nat)
    | StatusSeen(h: nat, ps: ProviderStatus)
    | Recovered(h: nat)
    | Exited(h: nat, to: OrderStatus, unresolved: bool)
    | Credited(h: nat, cause: Cause, amount: nat)
    | QuotaReturned(h: nat, cause: Cause, quantity: nat)
    | Stranded(h: nat)

  datatype Choice =
    | SpawnExecute
    | SpawnFulfillmentPoll
    | SpawnStatusPoll
    | SpawnMarkFailed(quantityBilled: bool)
    | Ok
    | Throw
    | Resolve(found: bool)
    | Answer(reply: Reply)
    | Report(ps: ProviderStatus, remains: nat)
    | Found(id: string, ps: ProviderStatus, remains: nat)
    | NotFound
    | Commit(quantityBilled: bool)

  // The shared documents, the handlers, and the history of observable effects.
  // balance and quotaUsed are this order's user's.
  datatype Sys = Sys(doc: OrderDoc, balance: int, quotaUsed: int, hs: seq<Pc>, trace: seq<Event>)

  predicate IsSpawn(c: Choice) {
    c.SpawnExecute? || c.SpawnFulfillmentPoll? || c.SpawnStatusPoll? || c.SpawnMarkFailed?
  }

  // -------------------------------------------------------------------------
  // Compare-and-swap filters
  // -------------------------------------------------------------------------

  predicate Unclaimed(d: OrderDoc) {
    d.status == Processing && d.providerOrderId == None && d.providerStatus == NoStatus
  }

  predicate ClaimStands(d: OrderDoc) {
    d.status == Processing && d.providerOrderId == None && d.providerStatus == Uncertain
  }

  // -------------------------------------------------------------------------
  // Steps
  // -------------------------------------------------------------------------

  function Goto(s: Sys, h: nat, pc: Pc): Sys
    requires h < |s.hs|
  {
    s.(hs := s.hs[h := pc])
  }

  function Log(s: Sys, e: Event): Sys { s.(trace := s.trace + [e]) }

  // Leave PROCESSING for the given status, with the extra fields already set in d.
  function Exit(s: Sys, h: nat, d: OrderDoc, to: OrderStatus, unresolved: bool, pc: Pc): Sys
    requires h < |s.hs|
  {
    Log(Goto(s.(doc := d.(status := to)), h, pc), Exited(h, to, unresolved))
  }

  function Flagged(s: Sys): OrderDoc { s.doc.(refunded := true, refundedAt := Some(|s.trace|)) }

  function Spawn(s: Sys, c: Choice): Sys
    requires IsSpawn(c)
  {
    var h := |s.hs|;
    var d := s.doc;
    match c
    case SpawnExecute =>
      s.(hs := s.hs + [if d.status == Processing then ExecResolve else Done])
    case SpawnFulfillmentPoll =>
      s.(hs := s.hs + [
        if d.status != Processing || !(d.providerOrderId.Some? || d.providerStatus == Uncertain) then Done
        else if d.retryCount >= MAX_RETRY_COUNT then KillSwitch
        else if d.providerOrderId.Some? then PollCheck(d.retryCount)
        else RecoverLookup(d.retryCount)])
    case SpawnStatusPoll =>
      s.(hs := s.hs + [
        if d.status == Processing && d.providerOrderId.Some? then PollCheck(d.retryCount) else Done])
    case SpawnMarkFailed(quantityBilled) =>
      MarkFailed(s.(hs := s.hs + [Done]), h, quantityBilled)
  }

  // markOrderAsFailed, one transaction.
  function MarkFailed(s: Sys, h: nat, quantityBilled: bool): Sys {
    var total := FullRefund(s.doc.charge);
    var returnsQuota := total == 0 && s.doc.quantity > 0 && quantityBilled;
    if s.doc.status == Failed || s.doc.refundedAt.Some? || (total == 0 && !returnsQuota) then s
    else
      var t := s.(doc := Flagged(s).(status := Failed));
      if returnsQuota
      then Log(t.(quotaUsed := t.quotaUsed - s.doc.quantity), QuotaReturned(h, AdminAction, s.doc.quantity))
      else Log(t.(balance := t.balance + total), Credited(h, AdminAction, total))
  }

  // processOrderRefund, one transaction that commits.
  function ShareRefundTxn(s: Sys, h: nat, cause: Cause, remains: nat, quantityBilled: bool): Sys {
    var d := s.doc;
    var returnsQuota := ChargedBasis(d.charge) == 0 && d.quantity > 0 && quantityBilled;
    var partly := IsPartialDelivery(remains, d.quantity);
    var amount := ShareRefund(d.charge, remains, d.quantity);
    if d.refunded || (amount == 0 && !returnsQuota) then s
    else
      var t := s.(doc := if partly then Flagged(s).(remains := remains) else Flagged(s));
      var units := if partly then remains else d.quantity;
      if returnsQuota
      then Log(t.(quotaUsed := t.quotaUsed - units), QuotaReturned(h, cause, units))
      else Log(t.(balance := t.balance + amount), Credited(h, cause, amount))
  }

  // The persistence step of executeOrder once placeOrder has an outcome.
  function ApplyReply(s: Sys, h: nat, r: Reply): Sys
    requires h < |s.hs|
  {
    var d := s.doc;
    var written := d.(providerOrderId := r.providerOrderId, providerStatus := r.ps);
    match ReplyVerdict(r)
    case Rejected =>
      if ClaimStands(d) then Exit(s, h, written, Failed, false, RefundSwap(PlacementRejected))
      else Goto(s, h, Done)
    case InFlight =>
      if ClaimStands(d) then Log(Goto(s.(doc := written), h, Done), Pended(h)) else Goto(s, h, Done)
    case Cancelled =>
      if ClaimStands(d) then Exit(s, h, written, Canceled, false, RefundSwap(PlacementCancelled))
      else Goto(s, h, Done)
    case PartlyDelivered =>
      if ClaimStands(d)
      then Log(Goto(s.(doc := written), h, ApplyStatus(d.retryCount, r.ps, r.remains)), StatusSeen(h, r.ps))
      else Goto(s, h, Done)
    case Delivered =>
      if d.status == Processing then Exit(s, h, written, Completed, false, Done) else Goto(s, h, Done)
  }

  // processOrderStatusResult, up to its one compare-and-swap.
  function ApplyReport(s: Sys, h: nat, retry: nat, ps: ProviderStatus, remains: nat): Sys
    requires h < |s.hs|
  {
    var d := s.doc;
    var written := d.(providerStatus := ps);
    if d.status != Processing then Goto(s, h, Done)
    else match VerdictOf(ps)
      case InFlight =>
        var counted := written.(retryCount := retry + 1);
        if retry + 1 >= MAX_RETRY_COUNT then Exit(s, h, counted, ManualReview, false, Done)
        else Goto(s.(doc := counted), h, Done)
      case Delivered => Exit(s, h, written, Completed, false, Done)
      case PartlyDelivered =>
        Exit(s, h, written.(remains := remains), Partial, false, ShareTxn(StatusReport(ps), remains))
      case Cancelled => Exit(s, h, written, Canceled, false, ShareTxn(StatusReport(ps), 0))
      case Rejected => Exit(s, h, written, Failed, false, RefundSwap(StatusReport(ps)))
  }

  function Defer(s: Sys, h: nat, retry: nat): Sys
    requires h < |s.hs|
  {
    var counted := s.doc.(retryCount := retry + 1);
    if !ClaimStands(s.doc) then Goto(s, h, Done)
    else if retry + 1 >= MAX_RETRY_COUNT then Exit(s, h, counted, ManualReview, false, Done)
    else Goto(s.(doc := counted), h, Done)
  }

  function AdvanceExecute(s: Sys, h: nat, c: Choice): Sys
    requires h < |s.hs|
  {
    var d := s.doc;
    match (s.hs[h], c)
    case (ExecResolve, Resolve(found)) => Goto(s, h, if found then ExecClaim else ExecUnresolved)
    case (ExecResolve, Throw) => Goto(s, h, ExecFatal)
    case (ExecUnresolved, Ok) =>
      if Unclaimed(d) then Exit(s, h, d, Failed, true, RefundSwap(ResolutionFailed)) else Goto(s, h, Done)
    case (ExecUnresolved, Throw) => Goto(s, h, ExecFatal)
    case (ExecClaim, Ok) =>
      if Unclaimed(d) then Goto(s.(doc := d.(providerStatus := Uncertain)), h, ExecCall)
      else Goto(s, h, Done)
    case (ExecClaim, Throw) => Goto(s, h, ExecFatal)
    case (ExecCall, Ok) => Log(Goto(s, h, ExecAwait), Dispatched(h))
    case (ExecCall, Throw) => Log(Goto(s, h, ExecApply(AMBIGUOUS)), PlaceThrew(h, true))
    case (ExecAwait, Answer(reply)) => Goto(s, h, ExecApply(reply))
    case (ExecAwait, Throw) => Log(Goto(s, h, ExecApply(AMBIGUOUS)), PlaceThrew(h, false))
    case (ExecApply(reply), Ok) => ApplyReply(s, h, reply)
    case (ExecApply(_), Throw) => Goto(s, h, ExecFatal)
    case (ExecFatal, Ok) =>
      if d.status == Processing then Exit(s, h, d, ManualReview, false, Done) else Goto(s, h, Done)
    case (ExecFatal, Throw) => Goto(s, h, Done)
    case _ => s
  }

  function AdvanceRefund(s: Sys, h: nat, c: Choice): Sys
    requires h < |s.hs|
  {
    match (s.hs[h], c)
    case (RefundSwap(cause), Ok) =>
      if !s.doc.refunded then Goto(s.(doc := Flagged(s)), h, RefundSession(cause)) else Goto(s, h, Done)
    case (RefundSwap(_), Throw) => Goto(s, h, Done)
    case (RefundSession(cause), Ok) => Goto(s, h, RefundCredit(cause))
    // startSession is called after the flag is set and outside the try block.
    case (RefundSession(_), Throw) => Log(Goto(s, h, Done), Stranded(h))
    case (RefundCredit(cause), Commit(_)) =>
      var total := FullRefund(s.doc.charge);
      if total == 0 then Goto(s, h, RefundUndo(cause, true))
      else Log(Goto(s.(balance := s.balance + total), h, Done), Credited(h, cause, total))
    case (RefundCredit(cause), Throw) => Goto(s, h, RefundUndo(cause, false))
    case (RefundUndo(_, _), Ok) =>
      Goto(s.(doc := s.doc.(refunded := false, refundedAt := None)), h, Done)
    case (RefundUndo(cause, again), Throw) =>
      if again then Goto(s, h, RefundUndo(cause, false)) else Log(Goto(s, h, Done), Stranded(h))
    case (ShareTxn(cause, remains), Commit(quantityBilled)) =>
      ShareRefundTxn(Goto(s, h, Done), h, cause, remains, quantityBilled)
    case (ShareTxn(_, _), Throw) => Goto(s, h, Done)
    case _ => s
  }

  function AdvancePoll(s: Sys, h: nat, c: Choice): Sys
    requires h < |s.hs|
  {
    var d := s.doc;
    match (s.hs[h], c)
    case (ApplyStatus(retry, ps, remains), Ok) => ApplyReport(s, h, retry, ps, remains)
    case (ApplyStatus(_, _, _), Throw) => Goto(s, h, Done)
    case (RecoverLookup(retry), Found(id, ps, remains)) =>
      Log(Goto(s, h, RecoverWrite(retry, id, ps, remains)), StatusSeen(h, ps))
    case (RecoverLookup(retry), NotFound) => Goto(s, h, RecoverDefer(retry))
    case (RecoverLookup(retry), Throw) => Goto(s, h, RecoverDefer(retry))
    case (RecoverWrite(_, id, ps, remains), Ok) =>
      if ClaimStands(d)
      then Log(Goto(s.(doc := d.(providerOrderId := Some(id), providerStatus := ps)), h,
                    ApplyStatus(d.retryCount, ps, remains)),
               Recovered(h))
      else Goto(s, h, Done)
    case (RecoverWrite(retry, _, _, _), Throw) => Goto(s, h, RecoverDefer(retry))
    case (RecoverDefer(retry), Ok) => Defer(s, h, retry)
    case (RecoverDefer(_), Throw) => Goto(s, h, Done)
    case (PollCheck(retry), Report(ps, remains)) =>
      Log(Goto(s, h, ApplyStatus(retry, ps, remains)), StatusSeen(h, ps))
    case (PollCheck(_), NotFound) => Goto(s, h, Done)
    case (PollCheck(_), Throw) => Goto(s, h, Done)
    case (KillSwitch, Ok) =>
      if d.status == Processing && d.retryCount >= MAX_RETRY_COUNT
      then Exit(s, h, d, ManualReview, false, Done)
      else Goto(s, h, Done)
    case (KillSwitch, Throw) => Goto(s, h, Done)
    case _ => s
  }

  predicate InExecute(pc: Pc) {
    pc.ExecResolve? || pc.ExecUnresolved? || pc.ExecClaim? || pc.ExecCall? || pc.ExecAwait?
    || pc.ExecApply? || pc.ExecFatal?
  }

  predicate InRefund(pc: Pc) {
    pc.RefundSwap? || pc.RefundSession? || pc.RefundCredit? || pc.RefundUndo? || pc.ShareTxn?
  }

  // A step that does not fit the state changes nothing.
  function Next(s: Sys, h: nat, c: Choice): Sys {
    if IsSpawn(c) then if h == |s.hs| then Spawn(s, c) else s
    else if h >= |s.hs| then s
    else if InExecute(s.hs[h]) then AdvanceExecute(s, h, c)
    else if InRefund(s.hs[h]) then AdvanceRefund(s, h, c)
    else AdvancePoll(s, h, c)
  }

  datatype Step = Step(h: nat, c: Choice)

  ghost function Run(s: Sys, schedule: seq<Step>): Sys {
    if schedule == [] then s
    else
      var before := Run(s, schedule[..|schedule| - 1]);
      var last := schedule[|schedule| - 1];
      Next(before, last.h, last.c)
  }

  // An automatic order as order creation leaves it.
  ghost predicate Fresh(s: Sys) {
    && s.doc.status == Processing
    && s.doc.providerOrderId == None
    && s.doc.providerStatus == NoStatus
    && s.doc.retryCount == 0
    && !s.doc.refunded
    && s.doc.refundedAt == None
    && s.doc.quantity > 0
    && s.hs == []
    && s.trace == []
  }

  // -------------------------------------------------------------------------
  // Counting over the history
  // -------------------------------------------------------------------------

  datatype Kind = Dispatching | Throwing | Keeping | Seeing | Recovering | Leaving | LeavingUnresolved | Refunding | Stranding

  function KindOf(e: Event): Kind {
    match e
    case Dispatched(_) => Dispatching
    case PlaceThrew(_, _) => Throwing
    case Pended(_) => Keeping
    case StatusSeen(_, _) => Seeing
    case Recovered(_) => Recovering
    case Exited(_, _, unresolved) => if unresolved then LeavingUnresolved else Leaving
    case Credited(_, _, _) => Refunding
    case QuotaReturned(_, _, _) => Refunding
    case Stranded(_) => Stranding
  }

  function Count(t: seq<Event>, k: Kind): nat {
    if t == [] then 0
    else Count(t[..|t| - 1], k) + if KindOf(t[|t| - 1]) == k then 1 else 0
  }

  predicate IsRefund(e: Event) { e.Credited? || e.QuotaReturned? }

  // Calls of placeOrder: those that sent the request, and those that threw before.
  predicate IsCall(e: Event) { e.Dispatched? || (e.PlaceThrew? && e.early) }

  function Calls(t: seq<Event>): nat {
    if t == [] then 0
    else Calls(t[..|t| - 1]) + if IsCall(t[|t| - 1]) then 1 else 0
  }

  // Money credited and units returned over the history.
  function CreditTotal(t: seq<Event>): nat {
    if t == [] then 0
    else CreditTotal(t[..|t| - 1]) + if t[|t| - 1].Credited? then t[|t| - 1].amount else 0
  }

  function QuotaTotal(t: seq<Event>): nat {
    if t == [] then 0
    else QuotaTotal(t[..|t| - 1]) + if t[|t| - 1].QuotaReturned? then t[|t| - 1].quantity else 0
  }

  // The event a step appended, if any.
  function Appended(s: Sys, n: Sys): Option<Event> {
    if |n.trace| == |s.trace| + 1 then Some(n.trace[|s.trace|]) else None
  }

  predicate Appends(s: Sys, n: Sys, k: Kind) {
    Appended(s, n).Some? && KindOf(Appended(s, n).value) == k
  }

  predicate AppendsCall(s: Sys, n: Sys) { Appended(s, n).Some? && IsCall(Appended(s, n).value) }

  // A step touches one handler (possibly a new one) and appends at most one event.
  ghost predicate OneStep(s: Sys, n: Sys, h: nat) {
    && (n.trace == s.trace || (|n.trace| == |s.trace| + 1 && s.trace == n.trace[..|s.trace|]))
    && |s.hs| <= |n.hs|
    && (|n.hs| == |s.hs| || (|n.hs| == |s.hs| + 1 && h == |s.hs|))
    && forall i :: 0 <= i < |s.hs| && i != h ==> n.hs[i] == s.hs[i]
  }

  lemma NextIsOneStep(s: Sys, h: nat, c: Choice)
    ensures OneStep(s, Next(s, h, c), h)
  {
    if IsSpawn(c) { if h == |s.hs| { SpawnIsOneStep(s, c); } }
    else if h < |s.hs| {
      if InExecute(s.hs[h]) { ExecuteIsOneStep(s, h, c); }
      else if InRefund(s.hs[h]) { RefundIsOneStep(s, h, c); }
      else { PollIsOneStep(s, h, c); }
    }
  }

  lemma SpawnIsOneStep(s: Sys, c: Choice)
    requires IsSpawn(c)
    ensures OneStep(s, Spawn(s, c), |s.hs|)
  {}

  lemma ExecuteIsOneStep(s: Sys, h: nat, c: Choice)
    requires h < |s.hs| && InExecute(s.hs[h])
    ensures OneStep(s, AdvanceExecute(s, h, c), h)
  {}

  lemma RefundIsOneStep(s: Sys, h: nat, c: Choice)
    requires h < |s.hs| && InRefund(s.hs[h])
    ensures OneStep(s, AdvanceRefund(s, h, c), h)
  {}

  lemma PollIsOneStep(s: Sys, h: nat, c: Choice)
    requires h < |s.hs| && !InExecute(s.hs[h]) && !InRefund(s.hs[h])
    ensures OneStep(s, AdvancePoll(s, h, c), h)
  {}

  lemma CountAfter(s: Sys, n: Sys, h: nat, k: Kind)
    requires OneStep(s, n, h)
    ensures Count(n.trace, k) == Count(s.trace, k) + if Appends(s, n, k) then 1 else 0
  {
    if n.trace != s.trace {
      assert n.trace[..|n.trace| - 1] == s.trace;
    }
  }

  lemma CallsAfter(s: Sys, n: Sys, h: nat)
    requires OneStep(s, n, h)
    ensures Calls(n.trace) == Calls(s.trace) + if AppendsCall(s, n) then 1 else 0
  {
    if n.trace != s.trace {
      assert n.trace[..|n.trace| - 1] == s.trace;
    }
  }

  lemma {:induction false} DispatchesAreCalls(t: seq<Event>)
    ensures Count(t, Dispatching) <= Calls(t)
  {
    if t != [] { DispatchesAreCalls(t[..|t| - 1]); }
  }
}
