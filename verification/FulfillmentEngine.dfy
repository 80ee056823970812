// The handlers of orderFulfillment.service.js as sequential code over shared
// documents.  Between any two database operations every other handler may take
// any number of steps; each operation of the code is proved to be one step of
// the state machine, so every property of its runs is a property of this code.

module FulfillmentEngine {
  import opened Options
  import opened OrderModel
  import opened FulfillmentMachine

  ghost function CasResult(s: Sys, h: nat, filter: OrderDoc -> bool, set_: OrderDoc -> OrderDoc,
                           hit: Pc, ev: seq<Event>): Sys
    requires h < |s.hs|
  {
    if filter(s.doc)
    then var t := Goto(s.(doc := set_(s.doc)), h, hit); t.(trace := t.trace + ev)
    else Goto(s, h, Done)
  }

  // What the code reports back about one order.
  datatype Action = DidComplete | DidFail | DidWait | DidEscalate | DidSkip

  // The part of the history that handler h wrote.
  ghost function Mine(t: seq<Event>, h: nat): seq<Event> {
    if t == [] then []
    else
      var last := t[|t| - 1];
      Mine(t[..|t| - 1], h) + if last.h == h then [last] else []
  }

  lemma MineAfter(t: seq<Event>, ev: seq<Event>, h: nat)
    requires |ev| <= 1 && forall e :: e in ev ==> e.h == h
    ensures Mine(t + ev, h) == Mine(t, h) + ev
  {
    if ev == [] { assert t + ev == t; } else { assert (t + ev)[..|t|] == t; }
  }

  lemma MineUntouched(t: seq<Event>, u: seq<Event>, h: nat)
    requires t <= u && |u| <= |t| + 1 && (|u| > |t| ==> u[|t|].h != h)
    ensures Mine(u, h) == Mine(t, h)
  {
    if u != t { assert u[..|u| - 1] == t; }
  }

  // The order was kept open or completed by a placement.
  predicate Places(e: Event) { e.Pended? || (e.Exited? && e.to == Completed) }

  // A refund that executeOrder itself makes, not the one of a status report.
  predicate Repays(e: Event) { e.Credited? && !e.cause.StatusReport? }

  ghost predicate Left(did: seq<Event>, to: set<OrderStatus>) {
    exists i :: 0 <= i < |did| && did[i].Exited? && did[i].to in to
  }

  // The action names the one exit the handler made, and money moves only on a
  // reported failure.
  ghost predicate Concludes(action: Action, did: seq<Event>) {
    && (action.DidComplete? <==> Left(did, {Completed}))
    && (action.DidFail? <==> Left(did, {Partial, Canceled, Failed}))
    && (action.DidEscalate? <==> Left(did, {ManualReview}))
    && (forall i :: 0 <= i < |did| && IsRefund(did[i]) ==> action.DidFail? && did[i].cause.StatusReport?)
    && (forall i :: 0 <= i < |did| ==> !did[i].Dispatched? && !did[i].PlaceThrew? && !did[i].Pended?)
  }

  predicate Notes(e: Event) { e.StatusSeen? || e.Recovered? }

  lemma ConcludesAfter(action: Action, before: seq<Event>, did: seq<Event>)
    requires Concludes(action, did) && forall i :: 0 <= i < |before| ==> Notes(before[i])
    ensures Concludes(action, before + did)
  {
    forall to: set<OrderStatus> ensures Left(before + did, to) <==> Left(did, to) {
      if Left(did, to) {
        var i :| 0 <= i < |did| && did[i].Exited? && did[i].to in to;
        assert (before + did)[|before| + i] == did[i];
      }
    }
  }

  // The refund a report leads to: the undelivered share of the remains it names,
  // the whole of a cancelled order, or everything a failed one was charged.
  predicate ReportRefund(e: Event, h: nat, d: OrderDoc, ps: ProviderStatus, remains: nat) {
    match VerdictOf(ps)
    case PartlyDelivered => IsShare(e, h, StatusReport(ps), d, remains)
    case Cancelled => IsShare(e, h, StatusReport(ps), d, 0)
    case Rejected => e == Credited(h, StatusReport(ps), FullRefund(d.charge))
    case _ => false
  }

  // What a status report on order d amounts to.
  ghost predicate ReportMeans(action: Action, h: nat, d: OrderDoc, retry: nat, ps: ProviderStatus, remains: nat,
                              did: seq<Event>) {
    match action
    case DidComplete => VerdictOf(ps) == Delivered && did == [Exited(h, Completed, false)]
    case DidEscalate =>
      VerdictOf(ps) == InFlight && retry + 1 >= MAX_RETRY_COUNT && did == [Exited(h, ManualReview, false)]
    case DidWait => VerdictOf(ps) == InFlight && retry + 1 < MAX_RETRY_COUNT && did == []
    case DidSkip => did == []
    case DidFail =>
      && 1 <= |did| <= 2
      && did[0] == Exited(h, match VerdictOf(ps)
                             case PartlyDelivered => Partial
                             case Cancelled => Canceled
                             case _ => Failed, false)
      && RequiresRefund(ps)
      && (|did| == 2 ==> (VerdictOf(ps) == Rejected && did[1].Stranded?) || ReportRefund(did[1], h, d, ps, remains))
  }

  // The refund that follows the exit, or nothing, or a lost flag.
  ghost predicate PaysReport(refund: seq<Event>, h: nat, d: OrderDoc, ps: ProviderStatus, remains: nat) {
    || refund == []
    || (|refund| == 1 && ReportRefund(refund[0], h, d, ps, remains))
    || (|refund| == 1 && VerdictOf(ps) == Rejected && refund[0].Stranded?)
  }

  lemma ReportPaid(d: OrderDoc, h: nat, retry: nat, ps: ProviderStatus, remains: nat, did: seq<Event>,
                   refund: seq<Event>)
    requires ReportMeans(DidFail, h, d, retry, ps, remains, did) && |did| == 1
    requires PaysReport(refund, h, d, ps, remains)
    ensures ReportMeans(DidFail, h, d, retry, ps, remains, did + refund)
  {}

  // What a report means depends on the order's charge and quantity alone.
  lemma SameReport(action: Action, d0: OrderDoc, d: OrderDoc, h: nat, retry: nat, ps: ProviderStatus, remains: nat,
                   did: seq<Event>)
    requires ReportMeans(action, h, d0, retry, ps, remains, did)
    requires d.charge == d0.charge && d.quantity == d0.quantity
    ensures ReportMeans(action, h, d, retry, ps, remains, did)
  {}

  // placed and refunded say what the call did, and nothing else did it.
  ghost predicate Persists(h: nat, placed: bool, refunded: bool, did: seq<Event>, total: nat) {
    && (placed <==> exists i :: 0 <= i < |did| && Places(did[i]))
    && (refunded <==> exists i :: 0 <= i < |did| && Repays(did[i]))
    && (forall i :: 0 <= i < |did| && Repays(did[i]) ==> did[i].amount == total)
    && Dispatched(h) !in did && PlaceThrew(h, true) !in did
  }

  // The same of a whole execution; and what was placed has been sent exactly
  // when the request did not throw before the send.
  ghost predicate Reports(h: nat, placed: bool, refunded: bool, did: seq<Event>, total: nat) {
    && (placed <==> exists i :: 0 <= i < |did| && Places(did[i]))
    && (refunded <==> exists i :: 0 <= i < |did| && Repays(did[i]))
    && (forall i :: 0 <= i < |did| && Repays(did[i]) ==> did[i].amount == total)
    && (placed ==> (Dispatched(h) in did <==> PlaceThrew(h, true) !in did))
  }

  lemma SentAndPersisted(h: nat, placed: bool, refunded: bool, sent: seq<Event>, did: seq<Event>, total: nat)
    requires Persists(h, placed, refunded, did, total)
    requires sent == [PlaceThrew(h, true)] || sent == [Dispatched(h), PlaceThrew(h, false)] || sent == [Dispatched(h)]
    ensures Reports(h, placed, refunded, sent + did, total)
  {
    var all := sent + did;
    assert forall i :: 0 <= i < |did| ==> all[|sent| + i] == did[i];
    assert forall i :: 0 <= i < |sent| ==> !Places(all[i]) && !Repays(all[i]);
  }

  lemma PartialPersists(h: nat, action: Action, d: OrderDoc, retry: nat, ps: ProviderStatus, remains: nat,
                        more: seq<Event>, total: nat)
    requires VerdictOf(ps) == PartlyDelivered && ReportMeans(action, h, d, retry, ps, remains, more)
    ensures Persists(h, false, false, [StatusSeen(h, ps)] + more, total)
  {
    var all := [StatusSeen(h, ps)] + more;
    assert forall i :: 0 <= i < |more| ==> !Places(more[i]) && !Repays(more[i]);
    assert forall i :: 0 < i < |all| ==> all[i] == more[i - 1];
  }

  lemma UnresolvedReports(h: nat, refunded: bool, paid: seq<Event>, total: nat)
    requires if refunded then paid == [Credited(h, ResolutionFailed, total)] else paid == [] || paid == [Stranded(h)]
    ensures Reports(h, false, refunded, [Exited(h, Failed, true)] + paid, total)
  {
    assert refunded ==> Repays(([Exited(h, Failed, true)] + paid)[1]);
  }

  lemma RejectedPersists(h: nat, cause: Cause, refunded: bool, before: seq<Event>, paid: seq<Event>, total: nat)
    requires !cause.StatusReport? && |before| == 1 && before[0].Exited? && before[0].to != Completed
    requires if refunded then paid == [Credited(h, cause, total)] else paid == [] || paid == [Stranded(h)]
    ensures Persists(h, false, refunded, before + paid, total)
  {
    assert refunded ==> Repays((before + paid)[1]);
  }

  lemma ReportConcludes(action: Action, h: nat, d: OrderDoc, retry: nat, ps: ProviderStatus, remains: nat,
                        did: seq<Event>)
    requires ReportMeans(action, h, d, retry, ps, remains, did)
    ensures Concludes(action, did) && PaysAsTold(h, d, Some(Told(retry, ps, remains)), did)
  {
    if did != [] { assert did[0].Exited?; }
  }

  // What the provider said about an order, and the retry count it came with.
  datatype Told = Told(retry: nat, ps: ProviderStatus, remains: nat)

  // Every refund is the one that what was told leads to.
  ghost predicate PaysAsTold(h: nat, d: OrderDoc, told: Option<Told>, did: seq<Event>) {
    forall i :: 0 <= i < |did| && IsRefund(did[i]) ==>
      told.Some? && ReportRefund(did[i], h, d, told.value.ps, told.value.remains)
  }

  lemma PaysAfter(h: nat, d: OrderDoc, told: Option<Told>, before: seq<Event>, did: seq<Event>)
    requires PaysAsTold(h, d, told, did) && forall i :: 0 <= i < |before| ==> Notes(before[i])
    ensures PaysAsTold(h, d, told, before + did)
  {}

  lemma EventsCarryTheirHandler(s: Sys, h: nat, c: Choice)
    ensures var n := Next(s, h, c);
            |n.trace| > |s.trace| ==> n.trace[|s.trace|].h == h
  {
    if IsSpawn(c) { if h == |s.hs| { SpawnCarries(s, c); } }
    else if h < |s.hs| {
      if InExecute(s.hs[h]) { ExecuteCarries(s, h, c); }
      else if InRefund(s.hs[h]) { RefundCarries(s, h, c); }
      else { PollCarries(s, h, c); }
    }
  }

  lemma SpawnCarries(s: Sys, c: Choice)
    requires IsSpawn(c)
    ensures var n := Spawn(s, c); |n.trace| > |s.trace| ==> n.trace[|s.trace|].h == |s.hs|
  {}

  lemma ExecuteCarries(s: Sys, h: nat, c: Choice)
    requires h < |s.hs| && InExecute(s.hs[h])
    ensures var n := AdvanceExecute(s, h, c); |n.trace| > |s.trace| ==> n.trace[|s.trace|].h == h
  {}

  lemma RefundCarries(s: Sys, h: nat, c: Choice)
    requires h < |s.hs| && InRefund(s.hs[h])
    ensures var n := AdvanceRefund(s, h, c); |n.trace| > |s.trace| ==> n.trace[|s.trace|].h == h
  {}

  lemma PollCarries(s: Sys, h: nat, c: Choice)
    requires h < |s.hs| && !InExecute(s.hs[h]) && !InRefund(s.hs[h])
    ensures var n := AdvancePoll(s, h, c); |n.trace| > |s.trace| ==> n.trace[|s.trace|].h == h
  {}

  lemma RunOneMore(s: Sys, schedule: seq<Step>, step: Step)
    ensures Run(s, schedule + [step]) == Next(Run(s, schedule), step.h, step.c)
  {
    assert (schedule + [step])[..|schedule|] == schedule;
  }

  class Engine {
    var doc: OrderDoc
    var balance: int
    var quotaUsed: int
    var hs: seq<Pc>
    var trace: seq<Event>
    ghost const origin: Sys
    ghost var history: seq<Step>

    ghost function View(): Sys
      reads this
    {
      Sys(doc, balance, quotaUsed, hs, trace)
    }

    // The current state is the one the machine reaches by the recorded steps.
    ghost predicate Valid()
      reads this
    {
      View() == Run(origin, history)
    }

    // An automatic order that has just been created.
    constructor (quantity: nat, charge: Charge, balance: int, quotaUsed: int)
      requires quantity > 0
      ensures Valid() && Fresh(View()) && origin == View() && history == []
      ensures doc.quantity == quantity && doc.charge == charge
      ensures this.balance == balance && this.quotaUsed == quotaUsed
    {
      doc := OrderDoc(Processing, None, NoStatus, 0, false, None, 0, quantity, charge);
      this.balance := balance;
      this.quotaUsed := quotaUsed;
      hs, trace := [], [];
      history := [];
      origin := Sys(OrderDoc(Processing, None, NoStatus, 0, false, None, 0, quantity, charge),
                    balance, quotaUsed, [], []);
    }

    // Record one step of handler h that the fields already reflect.
    ghost method Record(h: nat, c: Choice)
      requires View() == Next(Run(origin, history), h, c)
      modifies this`history
      ensures Valid() && history == old(history) + [Step(h, c)]
    {
      ghost var more, now := history + [Step(h, c)], View();
      assert Run(origin, more) == now by { RunOneMore(origin, history, Step(h, c)); }
      history := more;
      assert View() == now;
    }

    // Anything the other handlers do while h waits.
    method Interleave(h: nat)
      requires Valid() && h < |hs|
      modifies this
      ensures Valid() && old(history) <= history
      ensures Undisturbed(old(View()), View(), h)
    {
      var steps: int := *;
      while steps > 0
        invariant Valid() && old(history) <= history
        invariant Undisturbed(old(View()), View(), h)
      {
        var g: nat := *;
        var c: Choice := *;
        if g != h {
          ghost var before := View();
          OtherStep(g, c);
          StillUndisturbed(old(View()), before, View(), g, h);
        }
        steps := steps - 1;
      }
    }

    method OtherStep(g: nat, c: Choice)
      requires Valid()
      modifies this
      ensures Valid() && old(history) <= history
      ensures OneStep(old(View()), View(), g)
      ensures |trace| > |old(trace)| ==> trace[|old(trace)|].h == g
      ensures old(trace) <= trace && |trace| <= |old(trace)| + 1
      ensures doc.charge == old(doc.charge) && doc.quantity == old(doc.quantity)
    {
      NextIsOneStep(View(), g, c);
      EventsCarryTheirHandler(View(), g, c);
      ChargeIsFixed(View(), g, c);
      var n := Next(Sys(doc, balance, quotaUsed, hs, trace), g, c);
      doc, balance, quotaUsed, hs, trace := n.doc, n.balance, n.quotaUsed, n.hs, n.trace;
      Record(g, c);
    }

    // Order.findOneAndUpdate: atomic, and null when the filter does not match.
    method FindOneAndUpdate(h: nat, filter: OrderDoc -> bool, set_: OrderDoc -> OrderDoc,
                            hit: Pc, ev: seq<Event>) returns (swapped: bool)
      requires Valid() && h < |hs|
      requires Next(View(), h, Ok) == CasResult(View(), h, filter, set_, hit, ev)
      requires |ev| <= 1 && forall e :: e in ev ==> e.h == h
      modifies this
      ensures Valid() && history == old(history) + [Step(h, Ok)]
      ensures View() == CasResult(old(View()), h, filter, set_, hit, ev)
      ensures swapped == filter(old(doc))
      ensures Mine(trace, h) == Mine(old(trace), h) + if swapped then ev else []
    {
      MineAfter(trace, ev, h);
      swapped := filter(doc);
      if swapped {
        doc := set_(doc);
        trace := trace + ev;
        hs := hs[h := hit];
      } else {
        hs := hs[h := Done];
      }
      Record(h, Ok);
    }

    // transitionFromProcessing(orderId, set, extraFilter)
    method TransitionFromProcessing(h: nat, to: OrderStatus, set_: OrderDoc -> OrderDoc,
                                    extra: OrderDoc -> bool, unresolved: bool, hit: Pc)
      returns (swapped: bool)
      requires Valid() && h < |hs|
      requires Next(View(), h, Ok) ==
                 if doc.status == Processing && extra(doc)
                 then Exit(View(), h, set_(doc), to, unresolved, hit) else Goto(View(), h, Done)
      modifies this
      ensures Valid() && history == old(history) + [Step(h, Ok)]
      ensures swapped == (old(doc).status == Processing && extra(old(doc)))
      ensures View() == if swapped then Exit(old(View()), h, set_(old(doc)), to, unresolved, hit)
                        else Goto(old(View()), h, Done)
      ensures Mine(trace, h) == Mine(old(trace), h) + if swapped then [Exited(h, to, unresolved)] else []
    {
      swapped := FindOneAndUpdate(h,
                                  (d: OrderDoc) => d.status == Processing && extra(d),
                                  (d: OrderDoc) => set_(d).(status := to),
                                  hit, [Exited(h, to, unresolved)]);
    }

    // A database call of handler h that throws before having any effect.
    method Throws(h: nat, next: Pc, ev: seq<Event>)
      requires Valid() && h < |hs|
      requires var t := Goto(View(), h, next); Next(View(), h, Throw) == t.(trace := t.trace + ev)
      requires |ev| <= 1 && forall e :: e in ev ==> e.h == h
      modifies this
      ensures Valid() && history == old(history) + [Step(h, Throw)]
      ensures var t := Goto(old(View()), h, next); View() == t.(trace := t.trace + ev)
      ensures Mine(trace, h) == Mine(old(trace), h) + ev
    {
      MineAfter(trace, ev, h);
      hs := hs[h := next];
      trace := trace + ev;
      Record(h, Throw);
    }

    // Wait for a database call that may throw before having any effect.
    method Attempt(h: nat) returns (fails: bool)
      requires Valid() && h < |hs| && MayThrow(hs[h])
      modifies this
      ensures Valid() && old(history) <= history
      ensures h < |hs| && hs[h] == if fails then OnThrow(old(hs)[h]) else old(hs)[h]
      ensures Mine(trace, h) == Mine(old(trace), h)
      ensures doc.charge == old(doc).charge && doc.quantity == old(doc).quantity
    {
      Interleave(h);
      fails := *;
      if fails {
        ThrowStep(View(), h);
        Throws(h, OnThrow(hs[h]), []);
      }
    }

    // A step in which handler h only learns something.
    method Learns(h: nat, c: Choice, next: Pc, ev: seq<Event>)
      requires Valid() && h < |hs|
      requires var t := Goto(View(), h, next); Next(View(), h, c) == t.(trace := t.trace + ev)
      requires |ev| <= 1 && forall e :: e in ev ==> e.h == h
      modifies this
      ensures Valid() && history == old(history) + [Step(h, c)]
      ensures var t := Goto(old(View()), h, next); View() == t.(trace := t.trace + ev)
      ensures Mine(trace, h) == Mine(old(trace), h) + ev
    {
      MineAfter(trace, ev, h);
      hs := hs[h := next];
      trace := trace + ev;
      Record(h, c);
    }

    // -----------------------------------------------------------------------
    // refundFailedOrder
    // -----------------------------------------------------------------------

    // Returns whether this call credited the wallet; a thrown error is caught
    // by every caller and reads as false.
    method RefundFailedOrder(h: nat, cause: Cause) returns (refunded: bool, ghost did: seq<Event>)
      requires Valid() && h < |hs| && hs[h] == RefundSwap(cause)
      modifies this
      ensures Valid() && old(history) <= history
      ensures h < |hs| && hs[h] == Done
      ensures Mine(trace, h) == Mine(old(trace), h) + did
      ensures refunded ==> did == [Credited(h, cause, FullRefund(old(doc).charge))]
      ensures !refunded ==> did == [] || did == [Stranded(h)]
    {
      var swapped := SwapRefundFlag(h, cause);
      if !swapped { return false, []; }
      var started := OpenRefundSession(h, cause);
      if !started { return false, [Stranded(h)]; }
      refunded := CreditRefund(h, cause);
      did := if refunded then [Credited(h, cause, FullRefund(old(doc).charge))] else [];
      if !refunded {
        did := UndoRefundFlag(h, cause, hs[h].again);
      }
    }

    method SwapRefundFlag(h: nat, cause: Cause) returns (swapped: bool)
      requires Valid() && h < |hs| && hs[h] == RefundSwap(cause)
      modifies this
      ensures Valid() && old(history) <= history
      ensures h < |hs| && hs[h] == if swapped then RefundSession(cause) else Done
      ensures swapped ==> doc.refunded
      ensures Mine(trace, h) == Mine(old(trace), h) && doc.charge == old(doc).charge
    {
      var fails := Attempt(h);
      if fails { return false; }
      var now := |trace|;
      swapped := FindOneAndUpdate(h,
                                  (d: OrderDoc) => !d.refunded,
                                  (d: OrderDoc) => d.(refunded := true, refundedAt := Some(now)),
                                  RefundSession(cause), []);
    }

    // startSession, outside the try block: nothing undoes the flag if it throws.
    method OpenRefundSession(h: nat, cause: Cause) returns (started: bool)
      requires Valid() && h < |hs| && hs[h] == RefundSession(cause)
      modifies this
      ensures Valid() && old(history) <= history
      ensures h < |hs| && hs[h] == if started then RefundCredit(cause) else Done
      ensures Mine(trace, h) == Mine(old(trace), h) + if started then [] else [Stranded(h)]
      ensures doc.charge == old(doc).charge
    {
      Interleave(h);
      var fails: bool := *;
      if fails {
        Throws(h, Done, [Stranded(h)]);
        return false;
      }
      Learns(h, Ok, RefundCredit(cause), []);
      return true;
    }

    // The wallet transaction.
    method CreditRefund(h: nat, cause: Cause) returns (paid: bool)
      requires Valid() && h < |hs| && hs[h] == RefundCredit(cause)
      modifies this
      ensures Valid() && old(history) <= history && h < |hs|
      ensures if paid then hs[h] == Done else hs[h].RefundUndo? && hs[h].cause == cause
      ensures Mine(trace, h) == Mine(old(trace), h)
                                + if paid then [Credited(h, cause, FullRefund(old(doc).charge))] else []
    {
      var fails := Attempt(h);
      if fails { return false; }
      var total := FullRefund(doc.charge);
      if total == 0 {
        Learns(h, Commit(false), RefundUndo(cause, true), []);
        return false;
      }
      PayRefund(h, cause, total);
      return true;
    }

    method PayRefund(h: nat, cause: Cause, total: nat)
      requires Valid() && h < |hs| && hs[h] == RefundCredit(cause) && total == FullRefund(doc.charge) > 0
      modifies this
      ensures Valid() && history == old(history) + [Step(h, Commit(false))]
      ensures balance == old(balance) + total && doc == old(doc) && quotaUsed == old(quotaUsed)
      ensures hs == old(hs)[h := Done]
      ensures Mine(trace, h) == Mine(old(trace), h) + [Credited(h, cause, total)]
    {
      CreditStep(View(), h);
      MineAfter(trace, [Credited(h, cause, total)], h);
      balance := balance + total;
      hs := hs[h := Done];
      trace := trace + [Credited(h, cause, total)];
      Record(h, Commit(false));
    }

    // Clear the flag; tried again by the catch block when the first try was
    // inside the try block.
    method UndoRefundFlag(h: nat, cause: Cause, again: bool) returns (ghost did: seq<Event>)
      requires Valid() && h < |hs| && hs[h] == RefundUndo(cause, again)
      modifies this
      ensures Valid() && old(history) <= history
      ensures h < |hs| && hs[h] == Done
      ensures Mine(trace, h) == Mine(old(trace), h) + did
      ensures did == [] || did == [Stranded(h)]
      decreases again
    {
      Interleave(h);
      var fails: bool := *;
      if !fails {
        ClearFlag(h, cause, again);
        did := [];
      } else if again {
        Throws(h, RefundUndo(cause, false), []);
        did := UndoRefundFlag(h, cause, false);
      } else {
        Throws(h, Done, [Stranded(h)]);
        did := [Stranded(h)];
      }
    }

    method ClearFlag(h: nat, cause: Cause, again: bool)
      requires Valid() && h < |hs| && hs[h] == RefundUndo(cause, again)
      modifies this
      ensures Valid() && history == old(history) + [Step(h, Ok)]
      ensures doc == old(doc).(refunded := false, refundedAt := None) && hs == old(hs)[h := Done]
      ensures balance == old(balance) && quotaUsed == old(quotaUsed) && trace == old(trace)
    {
      doc := doc.(refunded := false, refundedAt := None);
      hs := hs[h := Done];
      Record(h, Ok);
    }

    // -----------------------------------------------------------------------
    // processOrderRefund
    // -----------------------------------------------------------------------

    // Either nothing happens, or exactly one refund of the order's share is
    // recorded - money, or for an order without a charge units - and the order
    // is flagged.
    method ProcessOrderRefund(h: nat, cause: Cause, remains: nat) returns (paid: bool, ghost did: seq<Event>)
      requires Valid() && h < |hs| && hs[h] == ShareTxn(cause, remains)
      modifies this
      ensures Valid() && old(history) <= history
      ensures h < |hs| && hs[h] == Done
      ensures Mine(trace, h) == Mine(old(trace), h) + did
      ensures !paid ==> did == []
      ensures paid ==> doc.refunded && |did| == 1 && IsShare(did[0], h, cause, old(doc), remains)
      ensures paid && 0 < remains < old(doc).quantity ==> doc.remains == remains
    {
      var aborts := Attempt(h);
      if aborts { return false, []; }
      var quantityBilled: bool := *;
      ghost var before := View();
      paid := CommitShareRefund(h, cause, remains, quantityBilled);
      did := ShareWrites(before, h, cause, remains, quantityBilled);
    }

    method CommitShareRefund(h: nat, cause: Cause, remains: nat, quantityBilled: bool) returns (paid: bool)
      requires Valid() && h < |hs| && hs[h] == ShareTxn(cause, remains)
      modifies this
      ensures Valid() && history == old(history) + [Step(h, Commit(quantityBilled))]
      ensures View() == ShareRefundTxn(Goto(old(View()), h, Done), h, cause, remains, quantityBilled)
      ensures paid == IsOwed(old(doc), remains, quantityBilled)
    {
      ShareStep(View(), h, quantityBilled);
      hs := hs[h := Done];
      var basis := ChargedBasis(doc.charge);
      var returnsQuota := basis == 0 && doc.quantity > 0 && quantityBilled;
      var partly := IsPartialDelivery(remains, doc.quantity);
      var amount := if partly then 100 * FloorDiv(remains * basis, 100 * doc.quantity) else basis;
      paid := !doc.refunded && (amount > 0 || returnsQuota);
      if paid {
        doc := doc.(refunded := true, refundedAt := Some(|trace|));
        if partly { doc := doc.(remains := remains); }
        if returnsQuota {
          var units := if partly then remains else doc.quantity;
          quotaUsed := quotaUsed - units;
          trace := trace + [QuotaReturned(h, cause, units)];
        } else {
          balance := balance + amount;
          trace := trace + [Credited(h, cause, amount)];
        }
      }
      Record(h, Commit(quantityBilled));
    }

    // -----------------------------------------------------------------------
    // processOrderStatusResult
    // -----------------------------------------------------------------------

    // Handler h is at its one compare-and-swap, with the retry count it read
    // earlier.  The action returned is exactly the exit it performed, and an
    // order that keeps waiting has one more retry.
    method ProcessOrderStatusResult(h: nat, retry: nat, ps: ProviderStatus, remains: nat)
      returns (action: Action, ghost did: seq<Event>)
      requires Valid() && h < |hs| && hs[h] == ApplyStatus(retry, ps, remains)
      modifies this
      ensures Valid() && old(history) <= history
      ensures h < |hs| && hs[h] == Done
      ensures Mine(trace, h) == Mine(old(trace), h) + did
      ensures ReportMeans(action, h, old(doc), retry, ps, remains, did)
      ensures action.DidWait? ==>
                doc.status == Processing && doc.retryCount == retry + 1 && doc.providerStatus == ps
    {
      var fails := Attempt(h);
      if fails { return DidSkip, []; }
      ghost var d := doc;
      action, did := ApplyResult(h, retry, ps, remains);
      SameReport(action, d, old(doc), h, retry, ps, remains, did);
    }

    // The compare-and-swap, and the refund it calls for.
    method ApplyResult(h: nat, retry: nat, ps: ProviderStatus, remains: nat)
      returns (action: Action, ghost did: seq<Event>)
      requires Valid() && h < |hs| && hs[h] == ApplyStatus(retry, ps, remains)
      modifies this
      ensures Valid() && old(history) <= history
      ensures h < |hs| && hs[h] == Done
      ensures Mine(trace, h) == Mine(old(trace), h) + did
      ensures ReportMeans(action, h, old(doc), retry, ps, remains, did)
      ensures action.DidWait? ==>
                doc.status == Processing && doc.retryCount == retry + 1 && doc.providerStatus == ps
    {
      action, did := SwapStatus(h, retry, ps, remains);
      if !action.DidFail? { return; }
      ghost var exit := did;
      ghost var refund := PayReport(h, old(doc), ps, remains);
      Joined(Mine(old(trace), h), exit, refund);
      ReportPaid(old(doc), h, retry, ps, remains, exit, refund);
      did := exit + refund;
    }

    // The refund of a closed order, as far as it goes through.
    method PayReport(h: nat, ghost d: OrderDoc, ghost ps: ProviderStatus, ghost remains: nat)
      returns (ghost refund: seq<Event>)
      requires Valid() && h < |hs| && RequiresRefund(ps) && hs[h] == RefundPc(ps, remains)
      requires doc.charge == d.charge && doc.quantity == d.quantity
      modifies this
      ensures Valid() && old(history) <= history
      ensures h < |hs| && hs[h] == Done
      ensures Mine(trace, h) == Mine(old(trace), h) + refund
      ensures PaysReport(refund, h, d, ps, remains)
    {
      if hs[h].ShareTxn? {
        var paid;
        paid, refund := ProcessOrderRefund(h, hs[h].cause, hs[h].remains);
      } else {
        var refunded;
        refunded, refund := RefundFailedOrder(h, hs[h].cause);
      }
    }

    method SwapStatus(h: nat, retry: nat, ps: ProviderStatus, remains: nat)
      returns (action: Action, ghost did: seq<Event>)
      requires Valid() && h < |hs| && hs[h] == ApplyStatus(retry, ps, remains)
      modifies this
      ensures Valid() && history == old(history) + [Step(h, Ok)] && h < |hs|
      ensures View() == ApplyReport(old(View()), h, retry, ps, remains)
      ensures action == if old(doc).status != Processing then DidSkip
                        else match VerdictOf(ps)
                          case InFlight => if retry + 1 >= MAX_RETRY_COUNT then DidEscalate else DidWait
                          case Delivered => DidComplete
                          case _ => DidFail
      ensures Mine(trace, h) == Mine(old(trace), h) + did
      ensures ReportMeans(action, h, old(doc), retry, ps, remains, did) && |did| <= 1
      ensures doc.charge == old(doc).charge && doc.quantity == old(doc).quantity
      ensures action.DidFail? ==> RequiresRefund(ps)
      ensures hs[h] == if action.DidFail? then RefundPc(ps, remains) else Done
    {
      ReportStep(View(), h);
      var any := (d: OrderDoc) => true;
      var written := (d: OrderDoc) => d.(providerStatus := ps);
      var counted := (d: OrderDoc) => d.(providerStatus := ps, retryCount := retry + 1);
      var swapped;
      match VerdictOf(ps) {
        case InFlight =>
          if retry + 1 >= MAX_RETRY_COUNT {
            swapped := TransitionFromProcessing(h, ManualReview, counted, any, false, Done);
            return if swapped then DidEscalate else DidSkip, if swapped then [Exited(h, ManualReview, false)] else [];
          }
          swapped := FindOneAndUpdate(h, (d: OrderDoc) => d.status == Processing, counted, Done, []);
          return if swapped then DidWait else DidSkip, [];
        case Delivered =>
          swapped := TransitionFromProcessing(h, Completed, written, any, false, Done);
          return if swapped then DidComplete else DidSkip, if swapped then [Exited(h, Completed, false)] else [];
        case PartlyDelivered =>
          var withRemains := (d: OrderDoc) => d.(providerStatus := ps, remains := remains);
          swapped := TransitionFromProcessing(h, Partial, withRemains, any, false,
                                              ShareTxn(StatusReport(ps), remains));
        case Cancelled =>
          swapped := TransitionFromProcessing(h, Canceled, written, any, false,
                                              ShareTxn(StatusReport(ps), 0));
        case Rejected =>
          swapped := TransitionFromProcessing(h, Failed, written, any, false,
                                              RefundSwap(StatusReport(ps)));
      }
      action := if swapped then DidFail else DidSkip;
      did := if swapped then [Exited(h, doc.status, false)] else [];
    }

    // -----------------------------------------------------------------------
    // executeOrder
    // -----------------------------------------------------------------------

    // placed means that this call kept the order open or completed it on the
    // reply - which after a throw before the send it does although nothing was
    // sent; refunded means that it paid the full refund itself.
    method ExecuteOrder() returns (h: nat, placed: bool, refunded: bool, ghost did: seq<Event>)
      requires Valid()
      modifies this
      ensures Valid() && old(history) < history
      ensures h == |old(hs)| && h < |hs| && hs[h] == Done
      ensures Mine(trace, h) == Mine(old(trace), h) + did
      ensures Reports(h, placed, refunded, did, FullRefund(old(doc).charge))
      ensures old(doc).status != Processing ==> !placed && !refunded && did == []
    {
      h := |hs|;
      var open := doc.status == Processing;
      hs := hs + [if open then ExecResolve else Done];
      Record(h, SpawnExecute);
      if !open { return h, false, false, []; }
      placed, refunded, did := RunExecution(h);
    }

    method RunExecution(h: nat) returns (placed: bool, refunded: bool, ghost did: seq<Event>)
      requires Valid() && h < |hs| && hs[h] == ExecResolve
      modifies this
      ensures Valid() && old(history) <= history
      ensures h < |hs| && hs[h] == Done
      ensures Mine(trace, h) == Mine(old(trace), h) + did
      ensures Reports(h, placed, refunded, did, FullRefund(old(doc).charge))
    {
      var found := ResolveProvider(h);
      if found {
        placed, refunded, did := ClaimAndPlace(h);
      } else {
        placed := false;
        refunded, did := FailUnresolved(h);
      }
    }

    method ClaimAndPlace(h: nat) returns (placed: bool, refunded: bool, ghost did: seq<Event>)
      requires Valid() && h < |hs| && hs[h] == ExecClaim
      modifies this
      ensures Valid() && old(history) <= history
      ensures h < |hs| && hs[h] == Done
      ensures Mine(trace, h) == Mine(old(trace), h) + did
      ensures Reports(h, placed, refunded, did, FullRefund(old(doc).charge))
    {
      var claimed;
      claimed, did := ClaimDispatch(h);
      if !claimed { return false, false, did; }
      ghost var sent: seq<Event>;
      var reply;
      reply, sent := PlaceOrder(h);
      placed, refunded, did := PersistReply(h, reply);
      SentAndPersisted(h, placed, refunded, sent, did, FullRefund(old(doc).charge));
      Joined(Mine(old(trace), h), sent, did);
      did := sent + did;
    }

    method ResolveProvider(h: nat) returns (found: bool)
      requires Valid() && h < |hs| && hs[h] == ExecResolve
      modifies this
      ensures Valid() && old(history) <= history
      ensures Mine(trace, h) == Mine(old(trace), h) && doc.charge == old(doc).charge
      ensures h < |hs| && hs[h] == if found then ExecClaim else ExecUnresolved
    {
      Interleave(h);
      found := *;
      Learns(h, Resolve(found), if found then ExecClaim else ExecUnresolved, []);
    }

    // The top-level crash guard: preserve the funds and ask for review.
    method CrashGuard(h: nat) returns (ghost did: seq<Event>)
      requires Valid() && h < |hs| && hs[h] == ExecFatal
      modifies this
      ensures Valid() && old(history) <= history
      ensures h < |hs| && hs[h] == Done
      ensures Mine(trace, h) == Mine(old(trace), h) + did
      ensures did == [] || did == [Exited(h, ManualReview, false)]
    {
      did := [];
      var fails := Attempt(h);
      if fails { return; }
      var moved := TransitionFromProcessing(h, ManualReview, (d: OrderDoc) => d, (d: OrderDoc) => true, false, Done);
      if moved { did := [Exited(h, ManualReview, false)]; }
    }

    method FailUnresolved(h: nat) returns (refunded: bool, ghost did: seq<Event>)
      requires Valid() && h < |hs| && hs[h] == ExecUnresolved
      modifies this
      ensures Valid() && old(history) <= history
      ensures h < |hs| && hs[h] == Done
      ensures Mine(trace, h) == Mine(old(trace), h) + did
      ensures Reports(h, false, refunded, did, FullRefund(old(doc).charge))
    {
      var crashes := Attempt(h);
      if crashes {
        did := CrashGuard(h);
        return false, did;
      }
      var failed := LeaveUnresolved(h);
      if !failed { return false, []; }
      refunded, did := RefundFailedOrder(h, ResolutionFailed);
      UnresolvedReports(h, refunded, did, FullRefund(old(doc).charge));
      Joined(Mine(old(trace), h), [Exited(h, Failed, true)], did);
      did := [Exited(h, Failed, true)] + did;
    }

    method LeaveUnresolved(h: nat) returns (failed: bool)
      requires Valid() && h < |hs| && hs[h] == ExecUnresolved
      modifies this
      ensures Valid() && old(history) <= history && h < |hs|
      ensures hs[h] == if failed then RefundSwap(ResolutionFailed) else Done
      ensures Mine(trace, h) == Mine(old(trace), h) + if failed then [Exited(h, Failed, true)] else []
      ensures doc.charge == old(doc).charge
    {
      failed := TransitionFromProcessing(
        h, Failed, (d: OrderDoc) => d,
        (d: OrderDoc) => d.providerOrderId == None && d.providerStatus == NoStatus,
        true, RefundSwap(ResolutionFailed));
    }

    method ClaimDispatch(h: nat) returns (claimed: bool, ghost did: seq<Event>)
      requires Valid() && h < |hs| && hs[h] == ExecClaim
      modifies this
      ensures Valid() && old(history) <= history
      ensures h < |hs| && hs[h] == if claimed then ExecCall else Done
      ensures Mine(trace, h) == Mine(old(trace), h) + did
      ensures did == [] || (!claimed && did == [Exited(h, ManualReview, false)])
      ensures claimed ==> did == [] && doc.charge == old(doc).charge
    {
      var crashes := Attempt(h);
      if crashes {
        did := CrashGuard(h);
        return false, did;
      }
      claimed := FindOneAndUpdate(h, (d: OrderDoc) => Unclaimed(d),
                                  (d: OrderDoc) => d.(providerStatus := Uncertain), ExecCall, []);
      did := [];
    }

    // The outbound request.  A throw has no trustworthy outcome.
    method PlaceOrder(h: nat) returns (reply: Reply, ghost did: seq<Event>)
      requires Valid() && h < |hs| && hs[h] == ExecCall
      modifies this
      ensures Valid() && old(history) <= history && doc.charge == old(doc).charge
      ensures h < |hs| && hs[h] == ExecApply(reply)
      ensures Mine(trace, h) == Mine(old(trace), h) + did
      ensures || (did == [PlaceThrew(h, true)] && reply == AMBIGUOUS)
              || (did == [Dispatched(h), PlaceThrew(h, false)] && reply == AMBIGUOUS)
              || did == [Dispatched(h)]
    {
      var sent := SendRequest(h);
      if !sent { return AMBIGUOUS, [PlaceThrew(h, true)]; }
      reply, did := AwaitReply(h);
      Joined(Mine(old(trace), h), [Dispatched(h)], did);
      did := [Dispatched(h)] + did;
    }

    method SendRequest(h: nat) returns (sent: bool)
      requires Valid() && h < |hs| && hs[h] == ExecCall
      modifies this
      ensures Valid() && old(history) <= history && doc.charge == old(doc).charge
      ensures h < |hs| && hs[h] == if sent then ExecAwait else ExecApply(AMBIGUOUS)
      ensures Mine(trace, h) == Mine(old(trace), h) + if sent then [Dispatched(h)] else [PlaceThrew(h, true)]
    {
      Interleave(h);
      sent := *;
      if sent { Learns(h, Ok, ExecAwait, [Dispatched(h)]); }
      else { Throws(h, ExecApply(AMBIGUOUS), [PlaceThrew(h, true)]); }
    }

    method AwaitReply(h: nat) returns (reply: Reply, ghost did: seq<Event>)
      requires Valid() && h < |hs| && hs[h] == ExecAwait
      modifies this
      ensures Valid() && old(history) <= history && doc.charge == old(doc).charge
      ensures h < |hs| && hs[h] == ExecApply(reply)
      ensures Mine(trace, h) == Mine(old(trace), h) + did
      ensures did == [] || (did == [PlaceThrew(h, false)] && reply == AMBIGUOUS)
    {
      Interleave(h);
      var throwsLate: bool := *;
      if throwsLate {
        Throws(h, ExecApply(AMBIGUOUS), [PlaceThrew(h, false)]);
        return AMBIGUOUS, [PlaceThrew(h, false)];
      }
      reply := *;
      Learns(h, Answer(reply), ExecApply(reply), []);
      did := [];
    }

    method PersistReply(h: nat, reply: Reply) returns (placed: bool, refunded: bool, ghost did: seq<Event>)
      requires Valid() && h < |hs| && hs[h] == ExecApply(reply)
      modifies this
      ensures Valid() && old(history) <= history
      ensures h < |hs| && hs[h] == Done
      ensures Mine(trace, h) == Mine(old(trace), h) + did
      ensures Persists(h, placed, refunded, did, FullRefund(old(doc).charge))
      ensures placed ==> ReplyVerdict(reply) in {InFlight, Delivered}
    {
      refunded := false;
      var crashes := Attempt(h);
      if crashes {
        did := CrashGuard(h);
        return false, false, did;
      }
      var hit;
      hit, did := StoreReply(h, reply);
      ReplyPersists(h, reply, FullRefund(old(doc).charge));
      if !hit { return false, false, did; }
      if ReplyVerdict(reply) in {InFlight, Delivered} { return true, false, did; }
      ghost var more: seq<Event>;
      refunded, more := CloseRejected(h, reply, did, FullRefund(old(doc).charge));
      Joined(Mine(old(trace), h), did, more);
      return false, refunded, did + more;
    }

    method StoreReply(h: nat, reply: Reply) returns (hit: bool, ghost did: seq<Event>)
      requires Valid() && h < |hs| && hs[h] == ExecApply(reply)
      modifies this
      ensures Valid() && old(history) <= history && h < |hs| && doc.charge == old(doc).charge
      ensures Mine(trace, h) == Mine(old(trace), h) + did
      ensures !hit ==> did == [] && hs[h] == Done
      ensures hit ==> did == [ReplyEvent(h, reply)] && hs[h] == ReplyGoesTo(reply, hs[h])
    {
      hit := SwapReply(h, reply);
      ReplyWrites(old(View()), h, reply);
      did := if hit then [ReplyEvent(h, reply)] else [];
    }

    method CloseRejected(h: nat, reply: Reply, ghost before: seq<Event>, ghost total: nat)
      returns (refunded: bool, ghost more: seq<Event>)
      requires Valid() && h < |hs| && total == FullRefund(doc.charge)
      requires if ReplyVerdict(reply) == PartlyDelivered
               then hs[h].ApplyStatus? && hs[h].ps == reply.ps && hs[h].remains == reply.remains
                    && before == [StatusSeen(h, reply.ps)]
               else hs[h].RefundSwap? && !hs[h].cause.StatusReport?
                    && |before| == 1 && before[0].Exited? && before[0].to != Completed
      modifies this
      ensures Valid() && old(history) <= history
      ensures h < |hs| && hs[h] == Done
      ensures Mine(trace, h) == Mine(old(trace), h) + more
      ensures Persists(h, false, refunded, before + more, total)
    {
      if ReplyVerdict(reply) == PartlyDelivered {
        more := ApplyPartial(h, reply.ps, reply.remains, total);
        refunded := false;
      } else {
        refunded, more := RefundRejected(h, before, total);
      }
    }

    method ApplyPartial(h: nat, ps: ProviderStatus, remains: nat, ghost total: nat) returns (ghost more: seq<Event>)
      requires Valid() && h < |hs| && hs[h].ApplyStatus? && hs[h].ps == ps && hs[h].remains == remains
      requires VerdictOf(ps) == PartlyDelivered
      modifies this
      ensures Valid() && old(history) <= history
      ensures h < |hs| && hs[h] == Done
      ensures Mine(trace, h) == Mine(old(trace), h) + more
      ensures Persists(h, false, false, [StatusSeen(h, ps)] + more, total)
    {
      var retry := hs[h].retry;
      var action;
      action, more := ProcessOrderStatusResult(h, retry, ps, remains);
      PartialPersists(h, action, old(doc), retry, ps, remains, more, total);
    }

    // The refund of a placement the provider rejected or cancelled.
    method RefundRejected(h: nat, ghost before: seq<Event>, ghost total: nat)
      returns (refunded: bool, ghost more: seq<Event>)
      requires Valid() && h < |hs| && hs[h].RefundSwap? && !hs[h].cause.StatusReport?
      requires |before| == 1 && before[0].Exited? && before[0].to != Completed && total == FullRefund(doc.charge)
      modifies this
      ensures Valid() && old(history) <= history
      ensures h < |hs| && hs[h] == Done
      ensures Mine(trace, h) == Mine(old(trace), h) + more
      ensures Persists(h, false, refunded, before + more, total)
    {
      ghost var cause := hs[h].cause;
      refunded, more := RefundFailedOrder(h, hs[h].cause);
      RejectedPersists(h, cause, refunded, before, more, total);
    }

    method SwapReply(h: nat, reply: Reply) returns (hit: bool)
      requires Valid() && h < |hs| && hs[h] == ExecApply(reply)
      modifies this
      ensures Valid() && history == old(history) + [Step(h, Ok)]
      ensures View() == ApplyReply(old(View()), h, reply)
      ensures hit == Taken(old(doc), reply)
    {
      ReplyStep(View(), h);
      var written := (d: OrderDoc) => d.(providerOrderId := reply.providerOrderId, providerStatus := reply.ps);
      var claim := (d: OrderDoc) => d.providerOrderId == None && d.providerStatus == Uncertain;
      match ReplyVerdict(reply) {
        case Rejected =>
          hit := TransitionFromProcessing(h, Failed, written, claim, false, RefundSwap(PlacementRejected));
        case Cancelled =>
          hit := TransitionFromProcessing(h, Canceled, written, claim, false, RefundSwap(PlacementCancelled));
        case Delivered =>
          hit := TransitionFromProcessing(h, Completed, written, (d: OrderDoc) => true, false, Done);
        case InFlight =>
          hit := FindOneAndUpdate(h, (d: OrderDoc) => ClaimStands(d), written, Done, [Pended(h)]);
        case PartlyDelivered =>
          hit := FindOneAndUpdate(h, (d: OrderDoc) => ClaimStands(d), written,
                                  ApplyStatus(doc.retryCount, reply.ps, reply.remains),
                                  [StatusSeen(h, reply.ps)]);
      }
    }

    // -----------------------------------------------------------------------
    // recoverUncertainPlacement
    // -----------------------------------------------------------------------

    // The order is closed only by a recovered status or by running out of
    // retries, it is repaid only as the recovered status and remains say, and
    // one that keeps waiting has been recovered or has one more retry.
    method RecoverUncertainPlacement(h: nat, retry: nat)
      returns (action: Action, ghost told: Option<Told>, ghost did: seq<Event>)
      requires Valid() && h < |hs| && hs[h] == RecoverLookup(retry)
      modifies this
      ensures Valid() && old(history) <= history
      ensures h < |hs| && hs[h] == Done
      ensures Mine(trace, h) == Mine(old(trace), h) + did
      ensures Concludes(action, did)
      ensures action.DidComplete? || action.DidFail? ==> Recovered(h) in did
      ensures action.DidWait? ==>
                && doc.status == Processing
                && (Recovered(h) in did || (ClaimStands(doc) && doc.retryCount == retry + 1 < MAX_RETRY_COUNT))
      ensures action.DidEscalate? ==> Recovered(h) in did || retry + 1 >= MAX_RETRY_COUNT
      ensures told.Some? <==> Recovered(h) in did
      ensures told.Some? ==>
                && [StatusSeen(h, told.value.ps), Recovered(h)] <= did
                && ReportMeans(action, h, old(doc), told.value.retry, told.value.ps, told.value.remains, did[2..])
      ensures PaysAsTold(h, old(doc), told, did)
    {
      var recovered;
      recovered, told, did := RecoverReference(h, retry);
      ghost var more: seq<Event>;
      action, more := ConcludeRecovery(h, retry, recovered, told);
      ConcludesAfter(action, did, more);
      PaysAfter(h, old(doc), told, did, more);
      Joined(Mine(old(trace), h), did, more);
      did := did + more;
    }

    // The status and the remains that were stored are those of the lookup.
    method RecoverReference(h: nat, retry: nat)
      returns (recovered: bool, ghost told: Option<Told>, ghost did: seq<Event>)
      requires Valid() && h < |hs| && hs[h] == RecoverLookup(retry)
      modifies this
      ensures Valid() && old(history) <= history && h < |hs|
      ensures if recovered then told.Some? && hs[h] == ToldPc(told.value)
              else told.None? && (hs[h] == Done || hs[h] == RecoverDefer(retry))
      ensures doc.charge == old(doc).charge && doc.quantity == old(doc).quantity
      ensures Mine(trace, h) == Mine(old(trace), h) + did
      ensures forall i :: 0 <= i < |did| ==> Notes(did[i])
      ensures recovered <==> Recovered(h) in did
      ensures recovered ==> did == [StatusSeen(h, told.value.ps), Recovered(h)]
    {
      told := None;
      recovered, did := LookUpReference(h, retry);
      if recovered {
        ghost var stored: seq<Event>;
        recovered, stored := StoreRecovered(h);
        Joined(Mine(old(trace), h), did, stored);
        did := did + stored;
        if recovered { told := Some(Told(hs[h].retry, hs[h].ps, hs[h].remains)); }
      }
    }

    method ConcludeRecovery(h: nat, retry: nat, recovered: bool, ghost told: Option<Told>)
      returns (action: Action, ghost did: seq<Event>)
      requires Valid() && h < |hs|
      requires if recovered then told.Some? && hs[h] == ToldPc(told.value)
               else told.None? && (hs[h] == Done || hs[h] == RecoverDefer(retry))
      modifies this
      ensures Valid() && old(history) <= history
      ensures h < |hs| && hs[h] == Done
      ensures Mine(trace, h) == Mine(old(trace), h) + did
      ensures Concludes(action, did)
      ensures action.DidComplete? || action.DidFail? ==> recovered
      ensures action.DidWait? ==>
                && doc.status == Processing
                && (recovered || (ClaimStands(doc) && doc.retryCount == retry + 1 < MAX_RETRY_COUNT))
      ensures action.DidEscalate? ==> recovered || retry + 1 >= MAX_RETRY_COUNT
      ensures recovered ==>
                ReportMeans(action, h, old(doc), told.value.retry, told.value.ps, told.value.remains, did)
      ensures PaysAsTold(h, old(doc), told, did)
      ensures !recovered ==> Recovered(h) !in did
    {
      if recovered {
        action, did := ProcessOrderStatusResult(h, hs[h].retry, hs[h].ps, hs[h].remains);
        ReportConcludes(action, h, old(doc), told.value.retry, told.value.ps, told.value.remains, did);
      } else if hs[h].RecoverDefer? {
        action, did := DeferRecovery(h, retry);
        DeferralConcludes(action, h, did);
      } else {
        action, did := DidSkip, [];
      }
    }

    // checkOrderByReference; an adapter without it, a miss and a throw all defer.
    method LookUpReference(h: nat, retry: nat) returns (found: bool, ghost did: seq<Event>)
      requires Valid() && h < |hs| && hs[h] == RecoverLookup(retry)
      modifies this
      ensures Valid() && old(history) <= history && h < |hs|
      ensures if found then hs[h].RecoverWrite? && hs[h].retry == retry else hs[h] == RecoverDefer(retry)
      ensures Mine(trace, h) == Mine(old(trace), h) + did
      ensures did == if found then [StatusSeen(h, hs[h].ps)] else []
      ensures doc.charge == old(doc).charge && doc.quantity == old(doc).quantity
    {
      Interleave(h);
      var supported: bool, fails: bool, id: Option<string> := *, *, *;
      var ps: ProviderStatus, remains: nat := *, *;
      if fails {
        Throws(h, RecoverDefer(retry), []);
        return false, [];
      }
      if !supported || id == None || id == Some("") {
        Learns(h, NotFound, RecoverDefer(retry), []);
        return false, [];
      }
      Learns(h, Found(id.value, ps, remains), RecoverWrite(retry, id.value, ps, remains), [StatusSeen(h, ps)]);
      return true, [StatusSeen(h, ps)];
    }

    method StoreRecovered(h: nat) returns (stored: bool, ghost did: seq<Event>)
      requires Valid() && h < |hs| && hs[h].RecoverWrite?
      modifies this
      ensures Valid() && old(history) <= history && h < |hs|
      ensures stored ==>
                && hs[h] == ApplyStatus(doc.retryCount, old(hs)[h].ps, old(hs)[h].remains)
                && doc.status == Processing && doc.providerOrderId == Some(old(hs)[h].id)
                && doc.providerStatus == old(hs)[h].ps
      ensures !stored ==> hs[h] == Done || hs[h] == RecoverDefer(old(hs)[h].retry)
      ensures doc.charge == old(doc).charge && doc.quantity == old(doc).quantity
      ensures Mine(trace, h) == Mine(old(trace), h) + did
      ensures did == if stored then [Recovered(h)] else []
    {
      var pc := hs[h];
      var fails := Attempt(h);
      if fails { return false, []; }
      stored := FindOneAndUpdate(
        h, (d: OrderDoc) => ClaimStands(d),
        (d: OrderDoc) => d.(providerOrderId := Some(pc.id), providerStatus := pc.ps),
        ApplyStatus(doc.retryCount, pc.ps, pc.remains), [Recovered(h)]);
      did := if stored then [Recovered(h)] else [];
    }

    method DeferRecovery(h: nat, retry: nat) returns (action: Action, ghost did: seq<Event>)
      requires Valid() && h < |hs| && hs[h] == RecoverDefer(retry)
      modifies this
      ensures Valid() && old(history) <= history
      ensures h < |hs| && hs[h] == Done
      ensures Mine(trace, h) == Mine(old(trace), h) + did
      ensures did == if action.DidEscalate? then [Exited(h, ManualReview, false)] else []
      ensures action in {DidEscalate, DidWait, DidSkip}
      ensures action.DidEscalate? ==> retry + 1 >= MAX_RETRY_COUNT
      ensures action.DidWait? ==> ClaimStands(doc) && doc.retryCount == retry + 1 < MAX_RETRY_COUNT
    {
      did := [];
      var fails := Attempt(h);
      if fails { return DidSkip, []; }
      var counted := (d: OrderDoc) => d.(retryCount := retry + 1);
      var claim := (d: OrderDoc) => d.providerOrderId == None && d.providerStatus == Uncertain;
      var updated;
      if retry + 1 >= MAX_RETRY_COUNT {
        updated := TransitionFromProcessing(h, ManualReview, counted, claim, false, Done);
        return if updated then DidEscalate else DidSkip, if updated then [Exited(h, ManualReview, false)] else [];
      }
      updated := FindOneAndUpdate(h, (d: OrderDoc) => ClaimStands(d), counted, Done, []);
      return if updated then DidWait else DidSkip, [];
    }

    // -----------------------------------------------------------------------
    // One order of pollProcessingOrders
    // -----------------------------------------------------------------------

    // An order that is not to be polled is left alone, one out of retries can
    // only be escalated, without asking the provider, and only one without an
    // id is recovered.
    method PollOrder() returns (h: nat, action: Action, ghost told: Option<Told>, ghost did: seq<Event>)
      requires Valid()
      modifies this
      ensures Valid() && old(history) < history
      ensures h == |old(hs)| && h < |hs| && hs[h] == Done
      ensures Mine(trace, h) == Mine(old(trace), h) + did
      ensures Concludes(action, did)
      ensures !Polled(old(doc)) ==> did == [] && action.DidSkip? && doc == old(doc)
      ensures old(doc).retryCount >= MAX_RETRY_COUNT ==>
                action in {DidEscalate, DidSkip} && forall i :: 0 <= i < |did| ==> did[i].Exited?
      ensures old(doc).providerOrderId.Some? ==> Recovered(h) !in did
      ensures old(doc).providerOrderId.None? && (action.DidComplete? || action.DidFail?) ==> Recovered(h) in did
      ensures PaysAsTold(h, old(doc), told, did)
    {
      var retry, uncertain, at := doc.retryCount, doc.providerOrderId.None?, Done;
      h, at := StartPoll();
      told := None;
      if at.Done? { return h, DidSkip, told, []; }
      if at.KillSwitch? {
        action, did := TripKillSwitch(h);
      } else if uncertain {
        action, told, did := RecoverUncertainPlacement(h, retry);
      } else {
        action, told, did := CheckOrder(h, retry);
      }
    }

    // What the fetch of the poll and its partition by retries make of the order.
    method StartPoll() returns (h: nat, at: Pc)
      requires Valid()
      modifies this
      ensures Valid() && history == old(history) + [Step(h, SpawnFulfillmentPoll)]
      ensures h == |old(hs)| && hs == old(hs) + [at]
      ensures doc == old(doc) && trace == old(trace)
      ensures at == if !Polled(doc) then Done
                    else if doc.retryCount >= MAX_RETRY_COUNT then KillSwitch
                    else if doc.providerOrderId.None? then RecoverLookup(doc.retryCount)
                    else PollCheck(doc.retryCount)
    {
      h := |hs|;
      var eligible := doc.status == Processing && (doc.providerOrderId.Some? || doc.providerStatus == Uncertain);
      at := if !eligible then Done
            else if doc.retryCount >= MAX_RETRY_COUNT then KillSwitch
            else if doc.providerOrderId.None? then RecoverLookup(doc.retryCount)
            else PollCheck(doc.retryCount);
      hs := hs + [at];
      Record(h, SpawnFulfillmentPoll);
    }

    method TripKillSwitch(h: nat) returns (action: Action, ghost did: seq<Event>)
      requires Valid() && h < |hs| && hs[h] == KillSwitch
      modifies this
      ensures Valid() && old(history) <= history
      ensures h < |hs| && hs[h] == Done
      ensures Mine(trace, h) == Mine(old(trace), h) + did
      ensures action in {DidEscalate, DidSkip}
      ensures did == if action.DidEscalate? then [Exited(h, ManualReview, false)] else []
      ensures Concludes(action, did)
    {
      did := [];
      var fails := Attempt(h);
      if fails { return DidSkip, []; }
      var moved := TransitionFromProcessing(h, ManualReview, (d: OrderDoc) => d,
                                            (d: OrderDoc) => d.retryCount >= MAX_RETRY_COUNT, false, Done);
      if moved { did := [Exited(h, ManualReview, false)]; }
      action := if moved then DidEscalate else DidSkip;
      DeferralConcludes(action, h, did);
    }

    method CheckOrder(h: nat, retry: nat)
      returns (action: Action, ghost told: Option<Told>, ghost did: seq<Event>)
      requires Valid() && h < |hs| && hs[h] == PollCheck(retry)
      modifies this
      ensures Valid() && old(history) <= history
      ensures h < |hs| && hs[h] == Done
      ensures Mine(trace, h) == Mine(old(trace), h) + did
      ensures Concludes(action, did) && Recovered(h) !in did && PaysAsTold(h, old(doc), told, did)
      ensures told.Some? ==>
                && told.value.retry == retry && [StatusSeen(h, told.value.ps)] <= did
                && ReportMeans(action, h, old(doc), retry, told.value.ps, told.value.remains, did[1..])
      ensures told.None? ==> did == []
    {
      var answered := AskProvider(h, retry);
      if !answered { return DidWait, None, []; }
      ghost var ps, remains := hs[h].ps, hs[h].remains;
      told := Some(Told(retry, ps, remains));
      action, did := ProcessOrderStatusResult(h, retry, hs[h].ps, hs[h].remains);
      ReportConcludes(action, h, old(doc), retry, ps, remains, did);
      ConcludesAfter(action, [StatusSeen(h, ps)], did);
      PaysAfter(h, old(doc), told, [StatusSeen(h, ps)], did);
      Joined(Mine(old(trace), h), [StatusSeen(h, ps)], did);
      did := [StatusSeen(h, ps)] + did;
    }

    method AskProvider(h: nat, retry: nat) returns (answered: bool)
      requires Valid() && h < |hs| && hs[h] == PollCheck(retry)
      modifies this
      ensures Valid() && old(history) <= history && h < |hs|
      ensures if answered then hs[h].ApplyStatus? && hs[h].retry == retry else hs[h] == Done
      ensures doc.charge == old(doc).charge && doc.quantity == old(doc).quantity
      ensures Mine(trace, h) == Mine(old(trace), h) + if answered then [StatusSeen(h, hs[h].ps)] else []
    {
      Interleave(h);
      answered := *;
      var ps: ProviderStatus, remains: nat := *, *;
      if answered {
        Learns(h, Report(ps, remains), ApplyStatus(retry, ps, remains), [StatusSeen(h, ps)]);
      } else {
        Learns(h, NotFound, Done, []);
      }
    }
  }

  // Where the refund of a closed order begins.
  function RefundPc(ps: ProviderStatus, remains: nat): Pc {
    match VerdictOf(ps)
    case PartlyDelivered => ShareTxn(StatusReport(ps), remains)
    case Cancelled => ShareTxn(StatusReport(ps), 0)
    case _ => RefundSwap(StatusReport(ps))
  }

  function ToldPc(told: Told): Pc { ApplyStatus(told.retry, told.ps, told.remains) }

  lemma DeferralConcludes(action: Action, h: nat, did: seq<Event>)
    requires action in {DidEscalate, DidWait, DidSkip}
    requires did == if action.DidEscalate? then [Exited(h, ManualReview, false)] else []
    ensures Concludes(action, did)
  {
    if did != [] { assert did[0].Exited?; }
  }

  predicate Polled(d: OrderDoc) {
    d.status == Processing && (d.providerOrderId.Some? || d.providerStatus == Uncertain)
  }

  // Something is left to give back, and nothing has been.
  predicate IsOwed(d: OrderDoc, remains: nat, quantityBilled: bool) {
    && !d.refunded
    && (ShareRefund(d.charge, remains, d.quantity) > 0
        || (ChargedBasis(d.charge) == 0 && d.quantity > 0 && quantityBilled))
  }

  lemma ShareWrites(s: Sys, h: nat, cause: Cause, remains: nat, quantityBilled: bool) returns (did: seq<Event>)
    requires h < |s.hs|
    ensures var n := ShareRefundTxn(Goto(s, h, Done), h, cause, remains, quantityBilled);
            && Mine(n.trace, h) == Mine(s.trace, h) + did
            && n.hs == s.hs[h := Done]
            && if IsOwed(s.doc, remains, quantityBilled)
               then
                 && n.doc.refunded && |did| == 1 && IsShare(did[0], h, cause, s.doc, remains)
                 && n.doc.remains == if IsPartialDelivery(remains, s.doc.quantity) then remains else s.doc.remains
               else did == []
  {
    if IsOwed(s.doc, remains, quantityBilled) {
      var units := if IsPartialDelivery(remains, s.doc.quantity) then remains else s.doc.quantity;
      var e := if ChargedBasis(s.doc.charge) == 0 && s.doc.quantity > 0 && quantityBilled
               then QuotaReturned(h, cause, units)
               else Credited(h, cause, ShareRefund(s.doc.charge, remains, s.doc.quantity));
      did := [e];
      MineAfter(s.trace, did, h);
    } else {
      did := [];
    }
  }

  // The refund of the order's undelivered share.
  predicate IsShare(e: Event, h: nat, cause: Cause, d: OrderDoc, remains: nat) {
    || e == Credited(h, cause, ShareRefund(d.charge, remains, d.quantity))
    || (ChargedBasis(d.charge) == 0
        && e == QuotaReturned(h, cause, if IsPartialDelivery(remains, d.quantity) then remains else d.quantity))
  }

  // Nothing of handler h has changed, and the charge is frozen.
  ghost predicate Undisturbed(s: Sys, n: Sys, h: nat) {
    && h < |s.hs| && h < |n.hs| && n.hs[h] == s.hs[h]
    && Mine(n.trace, h) == Mine(s.trace, h)
    && n.doc.charge == s.doc.charge && n.doc.quantity == s.doc.quantity
  }

  lemma StillUndisturbed(s: Sys, m: Sys, n: Sys, g: nat, h: nat)
    requires Undisturbed(s, m, h) && OneStep(m, n, g) && g != h
    requires m.trace <= n.trace && |n.trace| <= |m.trace| + 1
    requires |n.trace| > |m.trace| ==> n.trace[|m.trace|].h == g
    requires n.doc.charge == m.doc.charge && n.doc.quantity == m.doc.quantity
    ensures Undisturbed(s, n, h)
  {
    MineUntouched(m.trace, n.trace, h);
  }

  // The steps at which a throw has had no effect, and where it leads.
  predicate MayThrow(pc: Pc) {
    || pc.ExecUnresolved? || pc.ExecClaim? || pc.ExecApply? || pc.ExecFatal?
    || pc.RefundSwap? || pc.RefundCredit? || pc.ShareTxn?
    || pc.ApplyStatus? || pc.RecoverWrite? || pc.RecoverDefer? || pc.KillSwitch?
  }

  function OnThrow(pc: Pc): Pc {
    if pc.ExecUnresolved? || pc.ExecClaim? || pc.ExecApply? then ExecFatal
    else if pc.RefundCredit? then RefundUndo(pc.cause, false)
    else if pc.RecoverWrite? then RecoverDefer(pc.retry)
    else Done
  }

  lemma ThrowStep(s: Sys, h: nat)
    requires h < |s.hs| && MayThrow(s.hs[h])
    ensures Next(s, h, Throw) == Goto(s, h, OnThrow(s.hs[h]))
  {}

  lemma Joined(before: seq<Event>, a: seq<Event>, b: seq<Event>)
    ensures before + a + b == before + (a + b)
  {}

  // Whether a placement reply still finds the order it may change, what it
  // writes to the history, and where its handler goes.
  predicate Taken(d: OrderDoc, r: Reply) {
    if ReplyVerdict(r) == Delivered then d.status == Processing else ClaimStands(d)
  }

  function ReplyEvent(h: nat, r: Reply): Event {
    match ReplyVerdict(r)
    case Rejected => Exited(h, Failed, false)
    case Cancelled => Exited(h, Canceled, false)
    case Delivered => Exited(h, Completed, false)
    case InFlight => Pended(h)
    case PartlyDelivered => StatusSeen(h, r.ps)
  }

  function ReplyGoesTo(r: Reply, at: Pc): Pc {
    match ReplyVerdict(r)
    case Rejected => RefundSwap(PlacementRejected)
    case Cancelled => RefundSwap(PlacementCancelled)
    case PartlyDelivered => ApplyStatus(if at.ApplyStatus? then at.retry else 0, r.ps, r.remains)
    case _ => Done
  }

  lemma ReplyMisses(s: Sys, h: nat, r: Reply)
    requires h < |s.hs| && !Taken(s.doc, r)
    ensures ApplyReply(s, h, r) == Goto(s, h, Done)
  {}

  lemma ReplyHits(s: Sys, h: nat, r: Reply)
    requires h < |s.hs| && Taken(s.doc, r)
    ensures var n := ApplyReply(s, h, r);
            && n.doc.charge == s.doc.charge && h < |n.hs|
            && n.hs[h] == ReplyGoesTo(r, n.hs[h])
            && n.trace == s.trace + [ReplyEvent(h, r)]
  {}

  lemma ReplyWrites(s: Sys, h: nat, r: Reply)
    requires h < |s.hs|
    ensures var n := ApplyReply(s, h, r);
            && n.doc.charge == s.doc.charge && h < |n.hs|
            && n.hs[h] == (if Taken(s.doc, r) then ReplyGoesTo(r, n.hs[h]) else Done)
            && Mine(n.trace, h) == Mine(s.trace, h) + if Taken(s.doc, r) then [ReplyEvent(h, r)] else []
  {
    if Taken(s.doc, r) {
      ReplyHits(s, h, r);
      MineAfter(s.trace, [ReplyEvent(h, r)], h);
    } else {
      ReplyMisses(s, h, r);
    }
  }

  lemma ReplyPersists(h: nat, r: Reply, total: nat)
    ensures Persists(h, false, false, [], total)
    ensures ReplyVerdict(r) in {InFlight, Delivered} ==> Persists(h, true, false, [ReplyEvent(h, r)], total)
  {
    assert ReplyVerdict(r) in {InFlight, Delivered} ==> Places([ReplyEvent(h, r)][0]);
  }

  lemma CreditStep(s: Sys, h: nat)
    requires h < |s.hs| && s.hs[h].RefundCredit? && FullRefund(s.doc.charge) > 0
    ensures var total := FullRefund(s.doc.charge);
            Next(s, h, Commit(false)) ==
            s.(balance := s.balance + total, hs := s.hs[h := Done],
               trace := s.trace + [Credited(h, s.hs[h].cause, total)])
  {}

  lemma ReportStep(s: Sys, h: nat)
    requires h < |s.hs| && s.hs[h].ApplyStatus?
    ensures Next(s, h, Ok) == ApplyReport(s, h, s.hs[h].retry, s.hs[h].ps, s.hs[h].remains)
  {}

  lemma ReplyStep(s: Sys, h: nat)
    requires h < |s.hs| && s.hs[h].ExecApply?
    ensures Next(s, h, Ok) == ApplyReply(s, h, s.hs[h].reply)
  {}

  lemma ShareStep(s: Sys, h: nat, quantityBilled: bool)
    requires h < |s.hs| && s.hs[h].ShareTxn?
    ensures Next(s, h, Commit(quantityBilled)) ==
            ShareRefundTxn(Goto(s, h, Done), h, s.hs[h].cause, s.hs[h].remains, quantityBilled)
  {}

  lemma ChargeIsFixed(s: Sys, h: nat, c: Choice)
    ensures Next(s, h, c).doc.charge == s.doc.charge && Next(s, h, c).doc.quantity == s.doc.quantity
  {
    if IsSpawn(c) { if h == |s.hs| { SpawnKeepsCharge(s, c); } }
    else if h < |s.hs| {
      if InExecute(s.hs[h]) { ExecuteKeepsCharge(s, h, c); }
      else if InRefund(s.hs[h]) { RefundKeepsCharge(s, h, c); }
      else { PollKeepsCharge(s, h, c); }
    }
  }

  predicate SameCharge(s: Sys, n: Sys) { n.doc.charge == s.doc.charge && n.doc.quantity == s.doc.quantity }

  lemma SpawnKeepsCharge(s: Sys, c: Choice)
    requires IsSpawn(c)
    ensures SameCharge(s, Spawn(s, c))
  {}

  lemma ExecuteKeepsCharge(s: Sys, h: nat, c: Choice)
    requires h < |s.hs| && InExecute(s.hs[h])
    ensures SameCharge(s, AdvanceExecute(s, h, c))
  {}

  lemma RefundKeepsCharge(s: Sys, h: nat, c: Choice)
    requires h < |s.hs| && InRefund(s.hs[h])
    ensures SameCharge(s, AdvanceRefund(s, h, c))
  {}

  lemma PollKeepsCharge(s: Sys, h: nat, c: Choice)
    requires h < |s.hs| && !InExecute(s.hs[h]) && !InRefund(s.hs[h])
    ensures SameCharge(s, AdvancePoll(s, h, c))
  {}
}
