// Polling one provider's orders in batches, and all providers' groups, against
// the plain loop that polls each answered order once.

module ProviderPoll {
  import opened Options
  import opened OrderModel
  import opened FulfillmentMachine
  import opened OrderWorld
  import opened OrderPolling

  // -------------------------------------------------------------------------
  // What one poll does to one order
  // -------------------------------------------------------------------------

  // What a poll pays back, in money or in units, and whether it leaves the
  // order flagged as refunded.
  datatype Repay = Repay(money: nat, units: nat, flagged: bool)

  const NOTHING: Repay := Repay(0, 0, false)

  // processOrderRefund.
  function ShareRepay(d: OrderDoc, remains: nat, a: Answer): Repay {
    var amount := ShareRefund(d.charge, remains, d.quantity);
    if AtMoney in a.faults then NOTHING
    else if ChargedBasis(d.charge) == 0 && d.quantity > 0 && a.quantityBilled
    then Repay(0, if IsPartialDelivery(remains, d.quantity) then remains else d.quantity, true)
    else if amount == 0 then NOTHING
    else Repay(amount, 0, true)
  }

  // refundFailedOrder: a throw when the session is opened, or at the last undo,
  // leaves the flag on an unpaid order.
  function FullRepay(d: OrderDoc, a: Answer): Repay {
    if AtFlag in a.faults then NOTHING
    else if AtSession in a.faults then Repay(0, 0, true)
    else if AtMoney in a.faults then Repay(0, 0, AtLastUndo in a.faults)
    else if FullRefund(d.charge) == 0 then Repay(0, 0, AtUndo in a.faults && AtLastUndo in a.faults)
    else Repay(FullRefund(d.charge), 0, true)
  }

  ghost predicate SettledAs(s: Sys, n: Sys, to: OrderStatus, repay: Repay) {
    && n.doc.status == to && n.doc.providerOrderId == s.doc.providerOrderId
    && n.balance == s.balance + repay.money && n.quotaUsed == s.quotaUsed - repay.units
    && n.doc.refunded == repay.flagged
  }

  lemma HeardTicks(s: Sys, a: Answer)
    requires s.doc.status == Processing && s.doc.providerOrderId.Some?
    ensures Ticks(s, |s.hs|, a, 2) == Log(s.(hs := s.hs + [ApplyStatus(s.doc.retryCount, a.ps, a.remains)]),
                                          StatusSeen(|s.hs|, a.ps))
  {
    var h := |s.hs|;
    OneMoreTick(s, h, a, 0);
    OneMoreTick(s, h, a, 1);
    assert Tick(s, h, a) == s.(hs := s.hs + [PollCheck(s.doc.retryCount)]);
  }

  lemma ReportTick(s: Sys, h: nat, a: Answer)
    requires h < |s.hs| && s.hs[h].ApplyStatus?
    ensures Tick(s, h, a) ==
            if AtSwap in a.faults then Goto(s, h, Done)
            else ApplyReport(s, h, s.hs[h].retry, s.hs[h].ps, s.hs[h].remains)
  {}

  lemma ShareTick(s: Sys, h: nat, a: Answer)
    requires h < |s.hs| && s.hs[h].ShareTxn? && !s.doc.refunded
    ensures var t := Tick(s, h, a);
            h < |t.hs| && t.hs[h].Done?
            && SettledAs(s, t, s.doc.status, ShareRepay(s.doc, s.hs[h].remains, a))
  {
    assert AtMoney in a.faults ==> Tick(s, h, a) == Goto(s, h, Done);
    assert AtMoney !in a.faults ==>
      Tick(s, h, a) == ShareRefundTxn(Goto(s, h, Done), h, s.hs[h].cause, s.hs[h].remains, a.quantityBilled);
  }

  // Two, three or five ticks settle a refund; the rest change nothing.
  function FiveTicks(s: Sys, h: nat, a: Answer): Sys {
    Tick(Tick(Tick(Tick(Tick(s, h, a), h, a), h, a), h, a), h, a)
  }

  lemma UndoTicks(s: Sys, h: nat, a: Answer)
    requires h < |s.hs| && s.hs[h].RefundUndo? && s.doc.refunded
    ensures var t := Tick(Tick(s, h, a), h, a);
            && h < |t.hs| && t.hs[h].Done?
            && SettledAs(s, t, s.doc.status,
                         Repay(0, 0, AtLastUndo in a.faults && (s.hs[h].again ==> AtUndo in a.faults)))
  {
    var t1 := Tick(s, h, a);
    if s.hs[h].again && AtUndo in a.faults {
      assert t1 == Goto(s, h, RefundUndo(s.hs[h].cause, false));
    } else {
      DoneIsFixed(t1, h, a);
    }
  }

  lemma CreditTicks(s: Sys, h: nat, a: Answer)
    requires h < |s.hs| && s.hs[h].RefundCredit? && s.doc.refunded
    requires AtFlag !in a.faults && AtSession !in a.faults
    ensures var t := Tick(Tick(Tick(s, h, a), h, a), h, a);
            h < |t.hs| && t.hs[h].Done? && SettledAs(s, t, s.doc.status, FullRepay(s.doc, a))
  {
    var t1 := Tick(s, h, a);
    var cause := s.hs[h].cause;
    if AtMoney in a.faults {
      assert t1 == Goto(s, h, RefundUndo(cause, false));
      UndoTicks(t1, h, a);
    } else if FullRefund(s.doc.charge) == 0 {
      assert t1 == Goto(s, h, RefundUndo(cause, true));
      UndoTicks(t1, h, a);
    } else {
      DoneIsFixed(t1, h, a);
    }
  }

  lemma FullRefundTicks(s: Sys, h: nat, a: Answer)
    requires h < |s.hs| && s.hs[h].RefundSwap? && !s.doc.refunded
    ensures var t := FiveTicks(s, h, a);
            h < |t.hs| && t.hs[h].Done? && SettledAs(s, t, s.doc.status, FullRepay(s.doc, a))
  {
    var t1 := Tick(s, h, a);
    if AtFlag in a.faults {
      assert t1 == Goto(s, h, Done);
      StaysDone(t1, h, a);
    } else {
      assert t1 == Goto(s.(doc := Flagged(s)), h, RefundSession(s.hs[h].cause));
      var t2 := Tick(t1, h, a);
      if AtSession in a.faults {
        assert t2 == Log(Goto(t1, h, Done), Stranded(h));
        StaysDone(t2, h, a);
      } else {
        assert t2 == Goto(t1, h, RefundCredit(s.hs[h].cause));
        CreditTicks(t2, h, a);
      }
    }
  }

  lemma StaysDone(t: Sys, h: nat, a: Answer)
    requires h < |t.hs| && t.hs[h].Done?
    ensures Tick(Tick(Tick(Tick(t, h, a), h, a), h, a), h, a) == t == Tick(Tick(Tick(t, h, a), h, a), h, a)
  {
    DoneIsFixed(t, h, a);
  }

  // The status and the refund a poll leaves an open order with.
  function StatusAfter(d: OrderDoc, a: Answer): OrderStatus {
    if AtSwap in a.faults then Processing
    else match VerdictOf(a.ps)
      case InFlight => if d.retryCount + 1 >= MAX_RETRY_COUNT then ManualReview else Processing
      case Delivered => Completed
      case PartlyDelivered => Partial
      case Cancelled => Canceled
      case Rejected => Failed
  }

  function RepayAfter(d: OrderDoc, a: Answer): Repay {
    if AtSwap in a.faults then NOTHING
    else match VerdictOf(a.ps)
      case PartlyDelivered => ShareRepay(d, a.remains, a)
      case Cancelled => ShareRepay(d, 0, a)
      case Rejected => FullRepay(d, a)
      case _ => NOTHING
  }

  // The status swap, and the refund it leads to.
  lemma SwapMeans(s: Sys, h: nat, a: Answer)
    requires h < |s.hs| && s.hs[h] == ApplyStatus(s.doc.retryCount, a.ps, a.remains)
    requires s.doc.status == Processing
    ensures var t := Tick(s, h, a);
            && h < |t.hs|
            && SettledAs(s, t, StatusAfter(s.doc, a), Repay(0, 0, s.doc.refunded))
            && t.doc.charge == s.doc.charge && t.doc.quantity == s.doc.quantity
            && t.doc.retryCount == s.doc.retryCount
               + (if AtSwap !in a.faults && VerdictOf(a.ps) == InFlight then 1 else 0)
            && t.doc.providerStatus == (if AtSwap in a.faults then s.doc.providerStatus else a.ps)
            && t.doc.remains ==
               (if AtSwap !in a.faults && VerdictOf(a.ps) == PartlyDelivered then a.remains else s.doc.remains)
            && t.hs[h] == if AtSwap in a.faults then Done
                          else match VerdictOf(a.ps)
                            case PartlyDelivered => ShareTxn(StatusReport(a.ps), a.remains)
                            case Cancelled => ShareTxn(StatusReport(a.ps), 0)
                            case Rejected => RefundSwap(StatusReport(a.ps))
                            case _ => Done
  {
    ReportTick(s, h, a);
  }

  // From the status swap on, run to the end: what was heard is written, and the
  // order is closed and paid back as it says.
  ghost predicate ReportApplied(s: Sys, n: Sys, a: Answer) {
    && SettledAs(s, n, StatusAfter(s.doc, a), RepayAfter(s.doc, a))
    && n.doc.retryCount == s.doc.retryCount + (if AtSwap !in a.faults && VerdictOf(a.ps) == InFlight then 1 else 0)
    && n.doc.providerStatus == (if AtSwap in a.faults then s.doc.providerStatus else a.ps)
    && n.doc.remains ==
       (if AtSwap !in a.faults && VerdictOf(a.ps) == PartlyDelivered then a.remains else s.doc.remains)
  }

  function SixTicks(s: Sys, h: nat, a: Answer): Sys { FiveTicks(Tick(s, h, a), h, a) }

  lemma ReportSettles(s: Sys, h: nat, a: Answer)
    requires h < |s.hs| && s.hs[h] == ApplyStatus(s.doc.retryCount, a.ps, a.remains)
    requires s.doc.status == Processing && !s.doc.refunded
    ensures var n := SixTicks(s, h, a); h < |n.hs| && n.hs[h].Done? && ReportApplied(s, n, a)
  {
    var t := Tick(s, h, a);
    SwapMeans(s, h, a);
    if AtSwap in a.faults || !RequiresRefund(a.ps) {
      FiveDone(t, h, a);
    } else if VerdictOf(a.ps) == Rejected {
      FullRefundTicks(t, h, a);
      FiveKept(t, h, a);
    } else {
      ShareTick(t, h, a);
      ShareKept(t, h, a);
      StaysDone(Tick(t, h, a), h, a);
    }
  }

  lemma FiveDone(t: Sys, h: nat, a: Answer)
    requires h < |t.hs| && t.hs[h].Done?
    ensures FiveTicks(t, h, a) == t
  {
    DoneIsFixed(t, h, a);
  }

  // What a refund leaves alone.
  predicate NotesKept(t: Sys, n: Sys) {
    && n.doc.status == t.doc.status && n.doc.retryCount == t.doc.retryCount
    && n.doc.providerStatus == t.doc.providerStatus && n.doc.remains == t.doc.remains
  }

  predicate InFullRefund(pc: Pc) {
    pc.RefundSwap? || pc.RefundSession? || pc.RefundCredit? || pc.RefundUndo? || pc.Done?
  }

  lemma TickKeeps(t: Sys, h: nat, a: Answer)
    requires h < |t.hs| && InFullRefund(t.hs[h])
    ensures var n := Tick(t, h, a); NotesKept(t, n) && h < |n.hs| && InFullRefund(n.hs[h])
  {
    if t.hs[h].Done? { DoneIsFixed(t, h, a); } else { RefundKeeps(t, h, PollChoice(t.hs[h], a)); }
  }

  lemma RefundKeeps(t: Sys, h: nat, c: Choice)
    requires h < |t.hs| && InRefund(t.hs[h]) && !t.hs[h].ShareTxn?
    ensures var n := AdvanceRefund(t, h, c); NotesKept(t, n) && h < |n.hs| && InFullRefund(n.hs[h])
  {}

  lemma FiveKept(t: Sys, h: nat, a: Answer)
    requires h < |t.hs| && InFullRefund(t.hs[h])
    ensures NotesKept(t, FiveTicks(t, h, a))
  {
    var t1 := Tick(t, h, a);
    TickKeeps(t, h, a);
    var t2 := Tick(t1, h, a);
    TickKeeps(t1, h, a);
    var t3 := Tick(t2, h, a);
    TickKeeps(t2, h, a);
    var t4 := Tick(t3, h, a);
    TickKeeps(t3, h, a);
    TickKeeps(t4, h, a);
  }

  // A share refund notes the units it pays for, if the delivery was partial.
  lemma ShareKept(t: Sys, h: nat, a: Answer)
    requires h < |t.hs| && t.hs[h].ShareTxn?
    ensures var n := Tick(t, h, a);
            && h < |n.hs| && n.hs[h].Done? && n.doc.status == t.doc.status
            && n.doc.retryCount == t.doc.retryCount && n.doc.providerStatus == t.doc.providerStatus
            && (n.doc.remains == t.doc.remains
                || (n.doc.remains == t.hs[h].remains && IsPartialDelivery(t.hs[h].remains, t.doc.quantity)))
  {}

  // Whatever the provider answers, whatever the order was charged and whichever
  // operations throw: a pending status only counts, a completed one closes the
  // order, and the others close it and pay back the share, the charge or the
  // deducted total - unless the status swap throws, which leaves everything as
  // it was, or the refund does.
  lemma SettleMeans(s: Sys, a: Answer)
    requires s.doc.status == Processing && s.doc.providerOrderId.Some? && !s.doc.refunded
    ensures ReportApplied(s, Settle(s, a), a)
  {
    var h := |s.hs|;
    HeardTicks(s, a);
    SettleInTwo(s, a);
    ReportSettles(Ticks(s, h, a, 2), h, a);
  }

  lemma SettleInTwo(s: Sys, a: Answer)
    ensures Settle(s, a) == SixTicks(Ticks(s, |s.hs|, a, 2), |s.hs|, a)
  {
    var h := |s.hs|;
    OneMoreTick(s, h, a, 2);
    OneMoreTick(s, h, a, 3);
    OneMoreTick(s, h, a, 4);
    OneMoreTick(s, h, a, 5);
    OneMoreTick(s, h, a, 6);
    OneMoreTick(s, h, a, 7);
  }

  // The status does not depend on what becomes of the refund.
  lemma SettledStatus(s: Sys, a: Answer)
    requires s.doc.status == Processing && s.doc.providerOrderId.Some?
    ensures Settle(s, a).doc.status == StatusAfter(s.doc, a)
  {
    var h := |s.hs|;
    HeardTicks(s, a);
    SettleInTwo(s, a);
    var heard := Ticks(s, h, a, 2);
    var t := Tick(heard, h, a);
    SwapMeans(heard, h, a);
    if t.hs[h].ShareTxn? {
      ShareKept(t, h, a);
      StaysDone(Tick(t, h, a), h, a);
    } else {
      FiveKept(t, h, a);
    }
  }

  // -------------------------------------------------------------------------
  // The adapter
  // -------------------------------------------------------------------------

  // checkOrders: None when the call throws.
  type Adapter = seq<string> -> Option<seq<(string, Answer)>>

  // Whatever the batch, the provider says the same about an id, and lists every
  // id of the batch that it knows.
  ghost predicate Truthful(adapter: Adapter, truth: map<string, Answer>) {
    forall batch :: adapter(batch).Some? ==>
      && (forall i :: 0 <= i < |adapter(batch).value| ==>
            adapter(batch).value[i].0 in truth && adapter(batch).value[i].1 == truth[adapter(batch).value[i].0])
      && (forall id :: id in batch && id in truth ==> Lists(adapter(batch).value, id))
  }

  ghost predicate Lists(items: seq<(string, Answer)>, id: string) {
    exists i :: 0 <= i < |items| && items[i].0 == id
  }

  // new Map(statusResults.map(r => [r.providerOrderId, r]))
  method ResultMap(items: seq<(string, Answer)>, ghost truth: map<string, Answer>) returns (m: map<string, Answer>)
    requires forall i :: 0 <= i < |items| ==> items[i].0 in truth && items[i].1 == truth[items[i].0]
    ensures forall id :: id in m <==> Lists(items, id)
    ensures forall id :: id in m ==> id in truth && m[id] == truth[id]
  {
    m := map[];
    for n := 0 to |items|
      invariant forall id :: id in m <==> exists i :: 0 <= i < n && items[i].0 == id
      invariant forall id :: id in m ==> id in truth && m[id] == truth[id]
    {
      m := m[items[n].0 := items[n].1];
    }
  }

  datatype PollResult = PollResult(checked: nat, completed: nat, failed: nat, pending: nat)

  class Poller {
    var world: World

    constructor (world: World)
      ensures this.world == world
    {
      this.world := world;
    }

    // One order of one batch: processOrderStatusResult if the provider listed
    // it, and the counter its action goes to.
    method PollOne(id: OrderId, key: string, results: map<string, Answer>,
                   ghost w0: World, ghost answers: map<OrderId, Answer>, ghost done: seq<OrderId>)
      returns (slot: Slot)
      requires Polled(world, w0, answers, done)
      requires Distinct(done) && id !in done && id in w0.orders
      requires key in results <==> id in answers
      requires id in answers ==> results[key] == answers[id]
      modifies this
      ensures Polled(world, w0, answers, if id in answers then done + [id] else done)
      ensures slot == SlotOf(w0, answers, id)
    {
      if key in results {
        LoopIsLocal(w0, answers, done, id);
        PollOneMore(w0, answers, done, id);
        var a := results[key];
        var open := world.orders[id].doc.status == Processing && AtSwap !in a.faults;
        world := WorldNext(world, id, Settle(world.orders[id], a));
        if open && VerdictOf(a.ps) == Delivered { return CompletedSlot; }
        if open && VerdictOf(a.ps) != InFlight { return FailedSlot; }
      }
      return PendingSlot;
    }

    // The batch's orders, one by one, against the provider's results.
    method PollBatch(batch: seq<OrderId>, key: OrderId -> string, results: map<string, Answer>,
                     ghost w0: World, ghost answers: map<OrderId, Answer>, ghost before: seq<OrderId>)
      returns (r: PollResult)
      requires Polled(world, w0, answers, before)
      requires Distinct(before + batch)
      requires forall i :: 0 <= i < |batch| ==> Listed(batch[i], key, results, w0, answers)
      modifies this
      ensures Polled(world, w0, answers, before + Answered(batch, answers))
      ensures r == Tally(w0, answers, batch)
    {
      r := PollResult(0, 0, 0, 0);
      ghost var done := before;
      assert before + Answered(batch[..0], answers) == before;
      for n := 0 to |batch|
        invariant done == before + Answered(batch[..n], answers)
        invariant Polled(world, w0, answers, done)
        invariant r == Tally(w0, answers, batch[..n])
      {
        var id := batch[n];
        assert Listed(id, key, results, w0, answers);
        StillToCome(before, batch, n, answers);
        NextInBatch(before, batch, n, w0, answers);
        var slot := PollOne(id, key(id), results, w0, answers, done);
        done := if id in answers then done + [id] else done;
        r := Counted(r, slot);
      }
      assert batch[..|batch|] == batch;
    }

    // One provider's orders, batch by batch.  A batch whose call throws, and
    // every order of a provider that cannot be asked, stays for the next poll.
    method PollProviderGroup(ids: seq<OrderId>, key: OrderId -> string, usable: bool, adapter: Adapter, size: nat,
                             ghost truth: map<string, Answer>, ghost w0: World,
                             ghost answers: map<OrderId, Answer>, ghost before: seq<OrderId>)
      returns (r: PollResult, ghost batches: seq<seq<OrderId>>)
      requires size > 0 && Truthful(adapter, truth)
      requires Polled(world, w0, answers, before) && Distinct(before + ids)
      requires forall i :: 0 <= i < |ids| ==> usable ==> AnswersFor(ids[i], key, truth, w0, answers)
      modifies this
      ensures Flatten(batches) == (if usable then ids else [])
      ensures forall i :: 0 <= i < |batches| ==> 0 < |batches[i]| <= size
      ensures Polled(world, w0, answers, before + Heard(batches, key, adapter, answers))
      ensures r == Tally(w0, Among(answers, Heard(batches, key, adapter, answers)), ids)
    {
      assert before + [] == before;
      if usable {
        r, batches := PollBatches(ids, key, adapter, size, truth, w0, answers, before);
      } else {
        AllPending(w0, ids);
        assert Among(answers, []) == map[];
        r, batches := PollResult(|ids|, 0, 0, |ids|), [];
      }
    }

    method PollBatches(ids: seq<OrderId>, key: OrderId -> string, adapter: Adapter, size: nat,
                       ghost truth: map<string, Answer>, ghost w0: World,
                       ghost answers: map<OrderId, Answer>, ghost before: seq<OrderId>)
      returns (r: PollResult, ghost batches: seq<seq<OrderId>>)
      requires size > 0 && Truthful(adapter, truth)
      requires Polled(world, w0, answers, before) && Distinct(before + ids)
      requires forall i :: 0 <= i < |ids| ==> AnswersFor(ids[i], key, truth, w0, answers)
      modifies this
      ensures Flatten(batches) == ids
      ensures forall i :: 0 <= i < |batches| ==> 0 < |batches[i]| <= size
      ensures SoFar(world, w0, answers, before, batches, key, adapter, r)
    {
      var split := Chunk(ids, size);
      batches, r := [], PollResult(0, 0, 0, 0);
      NothingSoFar(world, w0, answers, before, key, adapter);
      for n := 0 to |split|
        invariant batches == split[..n]
        invariant SoFar(world, w0, answers, before, batches, key, adapter, r)
      {
        FlattenPrefix(split, n);
        TakeNext(split, n);
        r := PollNextBatch(r, ids, split[n], key, adapter, truth, w0, answers, before, batches);
        batches := batches + [split[n]];
      }
      assert split[..|split|] == split;
    }

    method PollNextBatch(r0: PollResult, ghost ids: seq<OrderId>, batch: seq<OrderId>, key: OrderId -> string,
                         adapter: Adapter, ghost truth: map<string, Answer>, ghost w0: World,
                         ghost answers: map<OrderId, Answer>, ghost before: seq<OrderId>,
                         ghost batches: seq<seq<OrderId>>)
      returns (r: PollResult)
      requires Truthful(adapter, truth) && Distinct(before + ids) && Flatten(batches) + batch <= ids
      requires forall i :: 0 <= i < |ids| ==> AnswersFor(ids[i], key, truth, w0, answers)
      requires SoFar(world, w0, answers, before, batches, key, adapter, r0)
      modifies this
      ensures SoFar(world, w0, answers, before, batches + [batch], key, adapter, r)
    {
      BatchToCome(before, ids, batches, batch, key, adapter, answers);
      ghost var heard := Heard(batches, key, adapter, answers);
      var got := PollOneBatch(batch, key, adapter, truth, w0, answers, before + heard);
      BatchDone(world, w0, answers, before, batches, batch, key, adapter, r0, got);
      r := Plus(r0, got);
    }

    method PollOneBatch(batch: seq<OrderId>, key: OrderId -> string, adapter: Adapter, ghost truth: map<string, Answer>,
                        ghost w0: World, ghost answers: map<OrderId, Answer>, ghost before: seq<OrderId>)
      returns (r: PollResult)
      requires Truthful(adapter, truth) && Polled(world, w0, answers, before) && Distinct(before + batch)
      requires forall i :: 0 <= i < |batch| ==> AnswersFor(batch[i], key, truth, w0, answers)
      modifies this
      ensures BatchPolled(world, w0, answers, before, batch, adapter(KeysOf(batch, key)).Some?, r)
    {
      var keys := KeysOf(batch, key);
      match adapter(keys) {
        case None =>
          AllPending(w0, batch);
          r := PollResult(|batch|, 0, 0, |batch|);
        case Some(items) =>
          var results := ResultMap(items, truth);
          forall i | 0 <= i < |batch| ensures Listed(batch[i], key, results, w0, answers) {
            assert AnswersFor(batch[i], key, truth, w0, answers);
            assert keys[i] in keys;
          }
          r := PollBatch(batch, key, results, w0, answers, before);
      }
    }
  }

  ghost predicate SoFar(w: World, w0: World, answers: map<OrderId, Answer>, before: seq<OrderId>,
                        batches: seq<seq<OrderId>>, key: OrderId -> string, adapter: Adapter, r: PollResult) {
    && Polled(w, w0, answers, before + Heard(batches, key, adapter, answers))
    && r == Tally(w0, Among(answers, Heard(batches, key, adapter, answers)), Flatten(batches))
  }

  lemma BatchToCome(before: seq<OrderId>, ids: seq<OrderId>, batches: seq<seq<OrderId>>, batch: seq<OrderId>,
                    key: OrderId -> string, adapter: Adapter, answers: map<OrderId, Answer>)
    requires Distinct(before + ids) && Flatten(batches) + batch <= ids
    ensures Distinct(before + Heard(batches, key, adapter, answers) + batch)
    ensures forall id :: id in Flatten(batches) ==> id !in batch
    ensures forall i :: 0 <= i < |batch| ==> batch[i] == ids[|Flatten(batches)| + i]
  {
    HeardMembers(batches, key, adapter, answers);
    ApartFromBatch(before, ids, Flatten(batches), Heard(batches, key, adapter, answers), batch);
  }

  // Where a poll stands after one more batch.
  ghost predicate BatchPolled(w: World, w0: World, answers: map<OrderId, Answer>, before: seq<OrderId>,
                              batch: seq<OrderId>, answered: bool, r: PollResult) {
    && Polled(w, w0, answers, if answered then before + Answered(batch, answers) else before)
    && r == Tally(w0, if answered then answers else map[], batch)
  }

  lemma BatchDone(w: World, w0: World, answers: map<OrderId, Answer>, before: seq<OrderId>,
                  batches: seq<seq<OrderId>>, batch: seq<OrderId>, key: OrderId -> string, adapter: Adapter,
                  r0: PollResult, got: PollResult)
    requires r0 == Tally(w0, Among(answers, Heard(batches, key, adapter, answers)), Flatten(batches))
    requires forall id :: id in Flatten(batches) ==> id !in batch
    requires BatchPolled(w, w0, answers, before + Heard(batches, key, adapter, answers), batch,
                         adapter(KeysOf(batch, key)).Some?, got)
    ensures SoFar(w, w0, answers, before, batches + [batch], key, adapter, Plus(r0, got))
  {
    HeardNext(before, batches, batch, key, adapter, answers);
    TallyNext(w0, batches, batch, key, adapter, answers);
  }

  lemma HeardNext(before: seq<OrderId>, batches: seq<seq<OrderId>>, batch: seq<OrderId>, key: OrderId -> string,
                  adapter: Adapter, answers: map<OrderId, Answer>)
    ensures before + Heard(batches + [batch], key, adapter, answers) ==
            var sofar := before + Heard(batches, key, adapter, answers);
            if adapter(KeysOf(batch, key)).Some? then sofar + Answered(batch, answers) else sofar
  {
    HeardAppend(batches, batch, key, adapter, answers);
    var heard := Heard(batches, key, adapter, answers);
    assert before + (heard + Answered(batch, answers)) == before + heard + Answered(batch, answers);
    assert before + (heard + []) == before + heard;
  }

  lemma TallyNext(w: World, batches: seq<seq<OrderId>>, batch: seq<OrderId>, key: OrderId -> string,
                  adapter: Adapter, answers: map<OrderId, Answer>)
    requires forall id :: id in Flatten(batches) ==> id !in batch
    ensures var now := if adapter(KeysOf(batch, key)).Some? then answers else map[];
            Tally(w, Among(answers, Heard(batches + [batch], key, adapter, answers)), Flatten(batches + [batch])) ==
            Plus(Tally(w, Among(answers, Heard(batches, key, adapter, answers)), Flatten(batches)),
                 Tally(w, now, batch))
  {
    HeardMembers(batches, key, adapter, answers);
    HeardAppend(batches, batch, key, adapter, answers);
    FlattenAppend(batches, batch);
    BatchHeard(w, answers, Flatten(batches), Heard(batches, key, adapter, answers), batch,
               adapter(KeysOf(batch, key)).Some?);
  }

  lemma NothingSoFar(w: World, w0: World, answers: map<OrderId, Answer>, before: seq<OrderId>,
                     key: OrderId -> string, adapter: Adapter)
    requires Polled(w, w0, answers, before)
    ensures SoFar(w, w0, answers, before, [], key, adapter, PollResult(0, 0, 0, 0))
  {
    assert before + [] == before;
  }

  // The provider knows the order's id exactly when answers has its answer.
  predicate AnswersFor(id: OrderId, key: OrderId -> string, truth: map<string, Answer>,
                       w: World, answers: map<OrderId, Answer>) {
    && id in w.orders
    && (key(id) in truth <==> id in answers)
    && (id in answers ==> truth[key(id)] == answers[id])
  }

  // batch.map(o => o.providerOrderId)
  function KeysOf(batch: seq<OrderId>, key: OrderId -> string): (keys: seq<string>)
    ensures |keys| == |batch| && forall i :: 0 <= i < |batch| ==> keys[i] == key(batch[i])
  {
    seq(|batch|, i requires 0 <= i < |batch| => key(batch[i]))
  }

  // The orders whose batch came back and whose provider answered for them.
  ghost function Heard(batches: seq<seq<OrderId>>, key: OrderId -> string, adapter: Adapter,
                       answers: map<OrderId, Answer>): seq<OrderId> {
    if batches == [] then []
    else
      var init, last := batches[..|batches| - 1], batches[|batches| - 1];
      Heard(init, key, adapter, answers) + if adapter(KeysOf(last, key)).Some? then Answered(last, answers) else []
  }

  lemma HeardAppend(batches: seq<seq<OrderId>>, batch: seq<OrderId>, key: OrderId -> string, adapter: Adapter,
                    answers: map<OrderId, Answer>)
    ensures Heard(batches + [batch], key, adapter, answers) ==
            Heard(batches, key, adapter, answers)
            + if adapter(KeysOf(batch, key)).Some? then Answered(batch, answers) else []
  {
    assert (batches + [batch])[..|batches|] == batches;
  }

  lemma {:induction false} HeardMembers(batches: seq<seq<OrderId>>, key: OrderId -> string, adapter: Adapter,
                                        answers: map<OrderId, Answer>)
    ensures forall id :: id in Heard(batches, key, adapter, answers) ==> id in Flatten(batches) && id in answers
    ensures Distinct(Flatten(batches)) ==> Distinct(Heard(batches, key, adapter, answers))
  {
    if batches != [] {
      var init, last := batches[..|batches| - 1], batches[|batches| - 1];
      HeardMembers(init, key, adapter, answers);
      AnsweredMembers(last, answers);
      var flat, now := Flatten(init), if adapter(KeysOf(last, key)).Some? then Answered(last, answers) else [];
      if Distinct(flat + last) { DistinctParts(flat, last, Heard(init, key, adapter, answers), now); }
    }
  }

  lemma DistinctParts(a: seq<OrderId>, b: seq<OrderId>, x: seq<OrderId>, y: seq<OrderId>)
    requires Distinct(a + b)
    requires forall id :: id in x ==> id in a
    requires forall id :: id in y ==> id in b
    ensures Distinct(a) && Distinct(b)
    ensures forall id :: id in a ==> id !in b
    ensures Distinct(x) && Distinct(y) ==> Distinct(x + y)
  {
    forall i | 0 <= i < |a| ensures a[i] == (a + b)[i] {}
    forall i | 0 <= i < |b| ensures b[i] == (a + b)[|a| + i] {}
    if Distinct(x) && Distinct(y) {
      forall i, j | 0 <= i < j < |x + y| ensures (x + y)[i] != (x + y)[j] {
        if i < |x| <= j { assert x[i] in a && y[j - |x|] in b; }
      }
    }
  }

  // When no call throws, exactly the answered orders are heard of.
  lemma {:induction false} NothingThrown(batches: seq<seq<OrderId>>, key: OrderId -> string, adapter: Adapter,
                                         answers: map<OrderId, Answer>)
    requires forall batch :: adapter(batch).Some?
    ensures Heard(batches, key, adapter, answers) == Answered(Flatten(batches), answers)
  {
    if batches != [] {
      var init, last := batches[..|batches| - 1], batches[|batches| - 1];
      NothingThrown(init, key, adapter, answers);
      AnsweredConcat(Flatten(init), last, answers);
    }
  }

  lemma {:induction false} AnsweredConcat(a: seq<OrderId>, b: seq<OrderId>, answers: map<OrderId, Answer>)
    ensures Answered(a + b, answers) == Answered(a, answers) + Answered(b, answers)
  {
    if b == [] {
      assert a + b == a;
    } else {
      var init, last := b[..|b| - 1], b[|b| - 1];
      var more := if last in answers then [last] else [];
      calc {
        Answered(a + b, answers);
        { assert a + b == (a + init) + [last]; AnsweredAppend(a + init, last, answers); }
        Answered(a + init, answers) + more;
        { AnsweredConcat(a, init, answers); }
        (Answered(a, answers) + Answered(init, answers)) + more;
        Answered(a, answers) + (Answered(init, answers) + more);
        Answered(a, answers) + Answered(b, answers);
      }
    }
  }

  // Only the heard orders' answers.
  function Among(answers: map<OrderId, Answer>, heard: seq<OrderId>): map<OrderId, Answer> {
    map id | id in heard && id in answers :: answers[id]
  }

  function Plus(a: PollResult, b: PollResult): PollResult {
    PollResult(a.checked + b.checked, a.completed + b.completed, a.failed + b.failed, a.pending + b.pending)
  }

  lemma {:induction false} AllPending(w: World, ids: seq<OrderId>)
    ensures Tally(w, map[], ids) == PollResult(|ids|, 0, 0, |ids|)
  {
    if ids != [] { AllPending(w, ids[..|ids| - 1]); }
  }

  lemma PlusCounted(x: PollResult, y: PollResult, slot: Slot)
    ensures Counted(Plus(x, y), slot) == Plus(x, Counted(y, slot))
  {}

  lemma {:induction false} TallyConcat(w: World, answers: map<OrderId, Answer>, a: seq<OrderId>, b: seq<OrderId>)
    ensures Tally(w, answers, a + b) == Plus(Tally(w, answers, a), Tally(w, answers, b))
  {
    if b == [] {
      assert a + b == a;
    } else {
      var init, last := b[..|b| - 1], b[|b| - 1];
      var slot := SlotOf(w, answers, last);
      calc {
        Tally(w, answers, a + b);
        { assert a + b == (a + init) + [last]; TallyAppend(w, answers, a + init, last); }
        Counted(Tally(w, answers, a + init), slot);
        { TallyConcat(w, answers, a, init); }
        Counted(Plus(Tally(w, answers, a), Tally(w, answers, init)), slot);
        { PlusCounted(Tally(w, answers, a), Tally(w, answers, init), slot); }
        Plus(Tally(w, answers, a), Counted(Tally(w, answers, init), slot));
        Plus(Tally(w, answers, a), Tally(w, answers, b));
      }
    }
  }

  lemma {:induction false} TallyDepends(w: World, a: map<OrderId, Answer>, b: map<OrderId, Answer>, ids: seq<OrderId>)
    requires forall i :: 0 <= i < |ids| ==> SlotOf(w, a, ids[i]) == SlotOf(w, b, ids[i])
    ensures Tally(w, a, ids) == Tally(w, b, ids)
  {
    if ids != [] { TallyDepends(w, a, b, ids[..|ids| - 1]); }
  }

  lemma SlotAmong(w: World, answers: map<OrderId, Answer>, a: seq<OrderId>, b: seq<OrderId>, id: OrderId)
    requires id in a <==> id in b
    ensures SlotOf(w, Among(answers, a), id) == SlotOf(w, Among(answers, b), id)
  {
    assert id in Among(answers, a) <==> id in Among(answers, b);
  }

  lemma TallyAmong(w: World, answers: map<OrderId, Answer>, a: seq<OrderId>, b: seq<OrderId>, ids: seq<OrderId>)
    requires forall id :: id in ids ==> (id in a <==> id in b)
    ensures Tally(w, Among(answers, a), ids) == Tally(w, Among(answers, b), ids)
  {
    forall i | 0 <= i < |ids| ensures SlotOf(w, Among(answers, a), ids[i]) == SlotOf(w, Among(answers, b), ids[i]) {
      assert ids[i] in ids;
      SlotAmong(w, answers, a, b, ids[i]);
    }
    TallyDepends(w, Among(answers, a), Among(answers, b), ids);
  }

  lemma TallyUnion(w: World, answers: map<OrderId, Answer>, seen: seq<OrderId>, heard: seq<OrderId>,
                   group: seq<OrderId>, now: seq<OrderId>)
    requires forall id :: id in heard ==> id in seen
    requires forall id :: id in now ==> id in group
    requires forall id :: id in seen ==> id !in group
    ensures Tally(w, Among(answers, heard + now), seen + group) ==
            Plus(Tally(w, Among(answers, heard), seen), Tally(w, Among(answers, now), group))
  {
    TallyConcat(w, Among(answers, heard + now), seen, group);
    TallyAmong(w, answers, heard + now, heard, seen);
    TallyAmong(w, answers, heard + now, now, group);
  }

  // A batch's own answers are all that counts for it.
  lemma TallyOfBatch(w: World, answers: map<OrderId, Answer>, batch: seq<OrderId>, answered: bool)
    ensures var now := if answered then Answered(batch, answers) else [];
            Tally(w, Among(answers, now), batch) == Tally(w, if answered then answers else map[], batch)
  {
    var now := if answered then Answered(batch, answers) else [];
    var some := if answered then answers else map[];
    AnsweredMembers(batch, answers);
    forall i | 0 <= i < |batch| ensures SlotOf(w, Among(answers, now), batch[i]) == SlotOf(w, some, batch[i]) {
      assert batch[i] in batch;
      assert batch[i] in Among(answers, now) <==> batch[i] in some;
    }
    TallyDepends(w, Among(answers, now), some, batch);
  }

  lemma BatchHeard(w: World, answers: map<OrderId, Answer>, seen: seq<OrderId>, heard: seq<OrderId>,
                   batch: seq<OrderId>, answered: bool)
    requires forall id :: id in heard ==> id in seen
    requires forall id :: id in seen ==> id !in batch
    ensures var now := if answered then Answered(batch, answers) else [];
            Tally(w, Among(answers, heard + now), seen + batch) ==
            Plus(Tally(w, Among(answers, heard), seen), Tally(w, if answered then answers else map[], batch))
  {
    AnsweredMembers(batch, answers);
    TallyUnion(w, answers, seen, heard, batch, if answered then Answered(batch, answers) else []);
    TallyOfBatch(w, answers, batch, answered);
  }

  lemma TakeNext<T>(xs: seq<T>, n: nat)
    requires n < |xs|
    ensures xs[..n + 1] == xs[..n] + [xs[n]]
  {}

  lemma {:induction false} FlattenPrefix(chunks: seq<seq<OrderId>>, n: nat)
    requires n < |chunks|
    ensures Flatten(chunks[..n]) + chunks[n] <= Flatten(chunks)
    decreases |chunks|
  {
    var init := chunks[..|chunks| - 1];
    if n == |chunks| - 1 {
      assert chunks[..n] == init;
    } else {
      FlattenPrefix(init, n);
      assert chunks[..n] == init[..n];
    }
  }

  lemma ApartFromBatch(before: seq<OrderId>, ids: seq<OrderId>, seen: seq<OrderId>, heard: seq<OrderId>,
                       batch: seq<OrderId>)
    requires Distinct(before + ids) && seen + batch <= ids
    requires forall id :: id in heard ==> id in seen
    requires Distinct(seen) ==> Distinct(heard)
    ensures Distinct(before + heard + batch)
    ensures forall id :: id in seen ==> id !in batch
    ensures forall i :: 0 <= i < |batch| ==> batch[i] == ids[|seen| + i]
  {
    var rest := ids[|seen| + |batch|..];
    assert ids == seen + batch + rest;
    assert before + ids == (before + seen + batch) + rest;
    DistinctParts(before + seen + batch, rest, [], []);
    DistinctParts(before + seen, batch, [], []);
    DistinctParts(before, seen, before, heard);
    DistinctParts(before + seen, batch, before + heard, batch);
    forall id | id in seen ensures id !in batch { assert id in before + seen; }
  }

  // w is where the plain loop over ids leads from w0.
  ghost predicate Polled(w: World, w0: World, answers: map<OrderId, Answer>, ids: seq<OrderId>) {
    Pollable(w0, answers, ids) && w == PollEach(w0, answers, ids)
  }

  lemma NextInBatch(before: seq<OrderId>, batch: seq<OrderId>, n: nat, w: World, answers: map<OrderId, Answer>)
    requires n < |batch|
    ensures before + Answered(batch[..n + 1], answers) ==
            before + Answered(batch[..n], answers) + if batch[n] in answers then [batch[n]] else []
    ensures Tally(w, answers, batch[..n + 1]) == Counted(Tally(w, answers, batch[..n]), SlotOf(w, answers, batch[n]))
  {
    assert batch[..n + 1] == batch[..n] + [batch[n]];
    TallyAppend(w, answers, batch[..n], batch[n]);
  }

  datatype Slot = CompletedSlot | FailedSlot | PendingSlot

  // The counter an order belongs to, from how it was when the poll began.
  function SlotOf(w: World, answers: map<OrderId, Answer>, id: OrderId): Slot {
    if id !in answers || id !in w.orders || w.orders[id].doc.status != Processing then PendingSlot
    // processOrderStatusResult throws, or only counts the poll.
    else if AtSwap in answers[id].faults || VerdictOf(answers[id].ps) == InFlight then PendingSlot
    else if VerdictOf(answers[id].ps) == Delivered then CompletedSlot
    else FailedSlot
  }

  // Each order is counted once.
  function Tally(w: World, answers: map<OrderId, Answer>, ids: seq<OrderId>): (r: PollResult)
    ensures r.checked == |ids| == r.completed + r.failed + r.pending
  {
    if ids == [] then PollResult(0, 0, 0, 0)
    else
      Counted(Tally(w, answers, ids[..|ids| - 1]), SlotOf(w, answers, ids[|ids| - 1]))
  }

  function Counted(r: PollResult, slot: Slot): PollResult {
    match slot
    case CompletedSlot => PollResult(r.checked + 1, r.completed + 1, r.failed, r.pending)
    case FailedSlot => PollResult(r.checked + 1, r.completed, r.failed + 1, r.pending)
    case PendingSlot => PollResult(r.checked + 1, r.completed, r.failed, r.pending + 1)
  }

  lemma TallyAppend(w: World, answers: map<OrderId, Answer>, ids: seq<OrderId>, id: OrderId)
    ensures Tally(w, answers, ids + [id]) == Counted(Tally(w, answers, ids), SlotOf(w, answers, id))
    ensures Answered(ids + [id], answers) == Answered(ids, answers) + if id in answers then [id] else []
  {
    assert (ids + [id])[..|ids|] == ids;
  }

  // The result map lists the order's provider id exactly when the provider
  // answers for the order.
  predicate Listed(id: OrderId, key: OrderId -> string, results: map<string, Answer>,
                   w: World, answers: map<OrderId, Answer>) {
    && id in w.orders
    && (key(id) in results <==> id in answers)
    && (id in answers ==> results[key(id)] == answers[id])
  }

  ghost function Answered(ids: seq<OrderId>, answers: map<OrderId, Answer>): seq<OrderId> {
    if ids == [] then []
    else Answered(ids[..|ids| - 1], answers) + if ids[|ids| - 1] in answers then [ids[|ids| - 1]] else []
  }

  lemma AnsweredAppend(ids: seq<OrderId>, id: OrderId, answers: map<OrderId, Answer>)
    ensures Answered(ids + [id], answers) == Answered(ids, answers) + if id in answers then [id] else []
  {
    assert (ids + [id])[..|ids|] == ids;
  }

  lemma {:induction false} AnsweredMembers(ids: seq<OrderId>, answers: map<OrderId, Answer>)
    ensures forall id :: id in Answered(ids, answers) <==> id in ids && id in answers
    ensures Distinct(ids) ==> Distinct(Answered(ids, answers))
  {
    if ids != [] {
      var init, last := ids[..|ids| - 1], ids[|ids| - 1];
      AnsweredMembers(init, answers);
      assert ids == init + [last];
    }
  }

  lemma PollOneMore(w: World, answers: map<OrderId, Answer>, ids: seq<OrderId>, id: OrderId)
    requires Pollable(w, answers, ids) && id in w.orders && id in answers
    ensures Pollable(w, answers, ids + [id])
    ensures var before := PollEach(w, answers, ids);
            PollEach(w, answers, ids + [id]) == WorldNext(before, id, Settle(before.orders[id], answers[id]))
  {
    assert (ids + [id])[..|ids|] == ids;
  }

  lemma StillToCome(before: seq<OrderId>, batch: seq<OrderId>, n: nat, answers: map<OrderId, Answer>)
    requires Distinct(before + batch) && n < |batch|
    ensures Distinct(before + Answered(batch[..n], answers))
    ensures batch[n] !in before + Answered(batch[..n], answers)
  {
    var all := before + batch;
    var seen := Answered(batch[..n], answers);
    forall i | 0 <= i < |before| ensures before[i] == all[i] {}
    forall i | 0 <= i < |batch| ensures batch[i] == all[|before| + i] {}
    assert Distinct(batch[..n]);
    AnsweredMembers(batch[..n], answers);
    forall i, j | 0 <= i < j < |before + seen| ensures (before + seen)[i] != (before + seen)[j] {
      if i < |before| <= j {
        assert (before + seen)[j] in seen && seen[j - |before|] in batch[..n];
      }
    }
  }
}
