// The properties of the fulfilment engine, each over every schedule of any
// number of handlers.

module FulfillmentTheorems {
  import opened Options
  import opened OrderModel
  import opened RefundAmounts
  import opened FulfillmentMachine
  import opened RefundSafety
  import opened DispatchSafety
  import FulfillmentEngine

  // -------------------------------------------------------------------------
  // Exactly-once refund
  // -------------------------------------------------------------------------

  lemma {:induction false} TotalsBounded(d: OrderDoc, t: seq<Event>)
    requires forall i :: 0 <= i < |t| ==> EventWithin(d, t[i])
    ensures Count(t, Refunding) == 0 ==> CreditTotal(t) == 0 && QuotaTotal(t) == 0
    ensures Count(t, Refunding) == 1 ==>
              || (0 < CreditTotal(t) <= Cap(d.charge) && QuotaTotal(t) == 0)
              || (CreditTotal(t) == 0 && 0 < QuotaTotal(t) <= d.quantity)
  {
    if t != [] {
      TotalsBounded(d, t[..|t| - 1]);
      assert EventWithin(d, t[|t| - 1]);
    }
  }

  // The steps that strand the flag: opening the session throws, or the last try
  // to clear the flag does.
  predicate Strands(s: Sys, step: Step) {
    && step.h < |s.hs| && step.c.Throw?
    && (s.hs[step.h].RefundSession? || (s.hs[step.h].RefundUndo? && !s.hs[step.h].again))
  }

  // Some step of the run is one.
  ghost predicate RefundLost(start: Sys, schedule: seq<Step>) {
    schedule != []
    && (RefundLost(start, schedule[..|schedule| - 1])
        || Strands(Run(start, schedule[..|schedule| - 1]), schedule[|schedule| - 1]))
  }

  lemma StrandSpawn(s: Sys, c: Choice)
    requires IsSpawn(c)
    ensures !Appends(s, Spawn(s, c), Stranding)
  {}

  lemma StrandExecute(s: Sys, h: nat, c: Choice)
    requires h < |s.hs| && InExecute(s.hs[h])
    ensures !Appends(s, AdvanceExecute(s, h, c), Stranding)
  {}

  lemma StrandRefund(s: Sys, h: nat, c: Choice)
    requires h < |s.hs| && InRefund(s.hs[h])
    ensures Appends(s, AdvanceRefund(s, h, c), Stranding) <==> Strands(s, Step(h, c))
  {}

  lemma StrandPoll(s: Sys, h: nat, c: Choice)
    requires h < |s.hs| && !InExecute(s.hs[h]) && !InRefund(s.hs[h])
    ensures !Appends(s, AdvancePoll(s, h, c), Stranding)
  {}

  lemma StrandStep(s: Sys, step: Step)
    ensures var n := Next(s, step.h, step.c);
            Strandings(n) == Strandings(s) + if Strands(s, step) then 1 else 0
  {
    var h, c := step.h, step.c;
    NextIsOneStep(s, h, c);
    CountAfter(s, Next(s, h, c), h, Stranding);
    if IsSpawn(c) {
      if h == |s.hs| { StrandSpawn(s, c); }
    } else if h < |s.hs| {
      if InExecute(s.hs[h]) { StrandExecute(s, h, c); }
      else if InRefund(s.hs[h]) { StrandRefund(s, h, c); }
      else { StrandPoll(s, h, c); }
    }
  }

  lemma {:induction false} StrandedExactlyWhen(start: Sys, schedule: seq<Step>)
    requires start.trace == []
    ensures Strandings(Run(start, schedule)) > 0 <==> RefundLost(start, schedule)
  {
    if schedule != [] {
      var init, last := schedule[..|schedule| - 1], schedule[|schedule| - 1];
      StrandedExactlyWhen(start, init);
      StrandStep(Run(start, init), last);
    }
  }

  // At most one refund is ever paid, and none once one has been lost.  When no
  // handler is between setting the flag and settling it, the flag is set
  // exactly when the refund has been paid or was lost: the session could not be
  // opened, or the last undo threw.
  lemma RefundedExactlyOnce(start: Sys, schedule: seq<Step>)
    requires Fresh(start)
    ensures var s := Run(start, schedule);
            && Refunds(s) <= 1
            && (s.doc.refunded <==> s.doc.refundedAt.Some?)
            && (!Held(s) ==> (s.doc.refunded <==> Refunds(s) == 1 || RefundLost(start, schedule)))
            && (RefundLost(start, schedule) ==> s.doc.refunded && Refunds(s) == 0)
  {
    SafeAlways(start, schedule);
    StrandedExactlyWhen(start, schedule);
  }

  // The user's balance moves by nothing, or by one refund that is positive and
  // within the charge; quota moves by nothing, or by at most the units taken.
  lemma MoneyMovesOnce(start: Sys, schedule: seq<Step>)
    requires Fresh(start) && WellFormedCharge(start.doc.charge)
    ensures var s := Run(start, schedule);
            && (Refunds(s) == 0 ==> s.balance == start.balance && s.quotaUsed == start.quotaUsed)
            && (Refunds(s) == 1 ==>
                  || (start.balance < s.balance <= start.balance + start.doc.charge.charged
                      && s.quotaUsed == start.quotaUsed)
                  || (s.balance == start.balance
                      && start.quotaUsed - start.doc.quantity <= s.quotaUsed < start.quotaUsed))
  {
    var s := Run(start, schedule);
    SafeAlways(start, schedule);
    TotalsBounded(s.doc, s.trace);
    FullRefundIsTheCharge(start.doc.charge);
  }

  // Orders that ended COMPLETED or in MANUAL_REVIEW were never given money back.
  lemma RefundedOrdersFailed(start: Sys, schedule: seq<Step>)
    requires Fresh(start)
    ensures var s := Run(start, schedule);
            && (s.doc.refunded ==> s.doc.status in {Failed, Canceled, Partial})
            && (Refunds(s) > 0 ==> s.doc.status in {Failed, Canceled, Partial})
  {
    SafeAlways(start, schedule);
  }

  // -------------------------------------------------------------------------
  // Single exit
  // -------------------------------------------------------------------------

  ghost predicate EngineOnly(schedule: seq<Step>) {
    forall i :: 0 <= i < |schedule| ==> !schedule[i].c.SpawnMarkFailed?
  }

  lemma ClosedSpawn(s: Sys, c: Choice)
    requires IsSpawn(c) && !c.SpawnMarkFailed?
    ensures Spawn(s, c).doc == s.doc
  {}

  lemma ClosedExecute(s: Sys, h: nat, c: Choice)
    requires h < |s.hs| && InExecute(s.hs[h]) && s.doc.status != Processing
    ensures AdvanceExecute(s, h, c).doc == s.doc
  {}

  lemma ClosedRefund(s: Sys, h: nat, c: Choice)
    requires h < |s.hs| && InRefund(s.hs[h])
    ensures AdvanceRefund(s, h, c).doc.status == s.doc.status
  {}

  lemma ClosedPoll(s: Sys, h: nat, c: Choice)
    requires h < |s.hs| && !InExecute(s.hs[h]) && !InRefund(s.hs[h]) && s.doc.status != Processing
    ensures AdvancePoll(s, h, c).doc == s.doc
  {}

  lemma ClosedStep(s: Sys, h: nat, c: Choice)
    requires s.doc.status != Processing && !c.SpawnMarkFailed?
    ensures Next(s, h, c).doc.status == s.doc.status
  {
    if IsSpawn(c) {
      ClosedSpawn(s, c);
    } else if h < |s.hs| {
      if InExecute(s.hs[h]) { ClosedExecute(s, h, c); }
      else if InRefund(s.hs[h]) { ClosedRefund(s, h, c); }
      else { ClosedPoll(s, h, c); }
    }
  }

  lemma {:induction false} ClosedRun(s: Sys, schedule: seq<Step>)
    requires s.doc.status != Processing && EngineOnly(schedule)
    ensures Run(s, schedule).doc.status == s.doc.status
  {
    if schedule != [] {
      var init, last := schedule[..|schedule| - 1], schedule[|schedule| - 1];
      ClosedRun(s, init);
      assert !schedule[|schedule| - 1].c.SpawnMarkFailed?;
      ClosedStep(Run(s, init), last.h, last.c);
    }
  }

  // The engine takes an order out of PROCESSING at most once, and whatever
  // closed it, no engine step changes its status afterwards.
  lemma SingleExit(start: Sys, before: seq<Step>, after: seq<Step>)
    requires Fresh(start) && EngineOnly(after)
    ensures Exits(Run(start, before)) <= 1
    ensures Run(start, before).doc.status != Processing ==>
              Run(Run(start, before), after).doc.status == Run(start, before).doc.status
  {
    SafeAlways(start, before);
    if Run(start, before).doc.status != Processing { ClosedRun(Run(start, before), after); }
  }

  // -------------------------------------------------------------------------
  // At-most-once dispatch
  // -------------------------------------------------------------------------

  // placeOrder is called at most once, whether the call sends the request or
  // throws before it does, and never for an order that failed because its
  // provider could not be resolved.
  lemma PlacedAtMostOnce(start: Sys, schedule: seq<Step>)
    requires Fresh(start) && Marked(schedule)
    ensures var s := Run(start, schedule);
            && Placements(s) <= 1 && Dispatches(s) <= Placements(s)
            && (Unresolved(s) > 0 ==> Placements(s) == 0)
  {
    CallsAlways(start, schedule);
    DispatchesAreCalls(Run(start, schedule).trace);
  }

  lemma RunAppend(s: Sys, schedule: seq<Step>, step: Step)
    ensures Run(s, schedule + [step]) == Next(Run(s, schedule), step.h, step.c)
  {
    assert (schedule + [step])[..|schedule|] == schedule;
  }

  // Every Answer in the schedule is one the provider may give.
  ghost predicate Answers(schedule: seq<Step>, allowed: iset<Reply>) {
    forall i :: 0 <= i < |schedule| && schedule[i].c.Answer? ==> schedule[i].c.reply in allowed
  }

  function SendOnce(h: nat): seq<Step> {
    [Step(h, SpawnExecute), Step(h, Resolve(true)), Step(h, Ok), Step(h, Ok)]
  }

  function SendTwice(r: Reply): seq<Step> {
    SendOnce(0) + [Step(0, Answer(r)), Step(0, Ok)] + SendOnce(1)
  }

  lemma TwoSteps(s: Sys, schedule: seq<Step>, a: Step, b: Step)
    ensures Run(s, schedule + [a, b]) == Next(Next(Run(s, schedule), a.h, a.c), b.h, b.c)
  {
    RunAppend(s, schedule, a);
    assert Run(s, schedule + [a, b]) == Next(Run(s, schedule + [a]), b.h, b.c) by {
      assert schedule + [a, b] == schedule + [a] + [b];
      RunAppend(s, schedule + [a], b);
    }
  }

  lemma FourSteps(s: Sys, schedule: seq<Step>, a: Step, b: Step, c: Step, d: Step)
    ensures Run(s, schedule + [a, b, c, d]) ==
            Next(Next(Next(Next(Run(s, schedule), a.h, a.c), b.h, b.c), c.h, c.c), d.h, d.c)
  {
    TwoSteps(s, schedule, a, b);
    TwoSteps(s, schedule + [a, b], c, d);
    assert schedule + [a, b, c, d] == schedule + [a, b] + [c, d];
  }

  lemma LastMoves(hs: seq<Pc>, a: Pc, b: Pc)
    ensures (hs + [a])[|hs| := b] == hs + [b]
  {}

  lemma SendRuns(s: Sys, schedule: seq<Step>, t: Sys)
    requires t == Run(s, schedule) && Unclaimed(t.doc)
    ensures Run(s, schedule + SendOnce(|t.hs|)) ==
            t.(doc := t.doc.(providerStatus := Uncertain), hs := t.hs + [ExecAwait],
               trace := t.trace + [Dispatched(|t.hs|)])
  {
    var h := |t.hs|;
    FourSteps(s, schedule, Step(h, SpawnExecute), Step(h, Resolve(true)), Step(h, Ok), Step(h, Ok));
    var a := Next(t, h, SpawnExecute);
    assert a == t.(hs := t.hs + [ExecResolve]);
    var b := Next(a, h, Resolve(true));
    LastMoves(t.hs, ExecResolve, ExecClaim);
    assert b == t.(hs := t.hs + [ExecClaim]);
    var c := Next(b, h, Ok);
    LastMoves(t.hs, ExecClaim, ExecCall);
    assert c == t.(doc := t.doc.(providerStatus := Uncertain), hs := t.hs + [ExecCall]);
    LastMoves(t.hs, ExecCall, ExecAwait);
  }

  // The reply is answered and stored, and the order is unclaimed again.
  lemma UnmarkedReplyReopens(t: Sys, r: Reply)
    requires ClaimStands(t.doc) && t.hs == [ExecAwait] && !MarkedReply(r)
    ensures Next(Next(t, 0, Answer(r)), 0, Ok) ==
            t.(doc := t.doc.(providerStatus := NoStatus), hs := [Done], trace := t.trace + [Pended(0)])
  {
    assert Next(t, 0, Answer(r)) == t.(hs := [ExecApply(r)]);
    assert [ExecApply(r)][0 := Done] == [Done];
  }

  lemma CountOfThree(a: Event, b: Event, c: Event, k: Kind)
    ensures Count([a, b, c], k) ==
            (if KindOf(a) == k then 1 else 0) + (if KindOf(b) == k then 1 else 0) + (if KindOf(c) == k then 1 else 0)
  {
    var one: seq<Event> := [a];
    assert one[..0] == [] && [a, b][..1] == one && [a, b, c][..2] == [a, b];
    assert Count(one, k) == if KindOf(a) == k then 1 else 0;
    assert Count([a, b], k) == Count(one, k) + if KindOf(b) == k then 1 else 0;
  }

  // An unmarked reply puts the order back where it was before the claim.
  lemma UnmarkedReplyUnclaims(start: Sys, r: Reply)
    requires Fresh(start) && !MarkedReply(r)
    ensures Run(start, SendOnce(0) + [Step(0, Answer(r)), Step(0, Ok)]) ==
            start.(hs := [Done], trace := [Dispatched(0), Pended(0)])
  {
    var a := SendOnce(0);
    assert [] + a == a;
    SendRuns(start, [], start);
    TwoSteps(start, a, Step(0, Answer(r)), Step(0, Ok));
    UnmarkedReplyReopens(Run(start, a), r);
  }

  // There a second executeOrder claims and sends it again,
  lemma UnmarkedReplySendsTwice(start: Sys, r: Reply)
    requires Fresh(start) && !MarkedReply(r)
    ensures Dispatches(Run(start, SendTwice(r))) == 2
  {
    var c := SendOnce(0) + [Step(0, Answer(r)), Step(0, Ok)];
    UnmarkedReplyUnclaims(start, r);
    SendRuns(start, c, Run(start, c));
    assert c + SendOnce(1) == SendTwice(r);
    assert Run(start, SendTwice(r)).trace == [Dispatched(0), Pended(0), Dispatched(1)];
    CountOfThree(Dispatched(0), Pended(0), Dispatched(1), Dispatching);
  }

  function FailAfterSending(r: Reply): seq<Step> {
    SendOnce(0) + [Step(0, Answer(r)), Step(0, Ok)] + [Step(1, SpawnExecute), Step(1, Resolve(false))] + [Step(1, Ok)]
  }

  // or fails it as never sent.
  lemma UnmarkedReplyFailsSent(start: Sys, r: Reply)
    requires Fresh(start) && !MarkedReply(r)
    ensures Unresolved(Run(start, FailAfterSending(r))) == 1 && Dispatches(Run(start, FailAfterSending(r))) == 1
  {
    var c, d := SendOnce(0) + [Step(0, Answer(r)), Step(0, Ok)], [Step(1, SpawnExecute), Step(1, Resolve(false))];
    UnmarkedReplyUnclaims(start, r);
    TwoSteps(start, c, d[0], d[1]);
    var t := Run(start, c);
    assert Next(t, 1, SpawnExecute) == t.(hs := [Done, ExecResolve]);
    assert Run(start, c + d) == t.(hs := [Done, ExecUnresolved]);
    RunAppend(start, c + d, Step(1, Ok));
    assert c + d + [Step(1, Ok)] == FailAfterSending(r);
    assert Run(start, FailAfterSending(r)).trace == [Dispatched(0), Pended(0), Exited(1, Failed, true)];
    CountOfThree(Dispatched(0), Pended(0), Exited(1, Failed, true), Dispatching);
    CountOfThree(Dispatched(0), Pended(0), Exited(1, Failed, true), LeavingUnresolved);
  }

  ghost predicate NeverTwice(allowed: iset<Reply>) {
    forall start, schedule ::
      Fresh(start) && Answers(schedule, allowed) ==> Placements(Run(start, schedule)) <= 1
  }

  ghost predicate UnresolvedNeverSent(allowed: iset<Reply>) {
    forall start, schedule ::
      Fresh(start) && Answers(schedule, allowed) && Unresolved(Run(start, schedule)) > 0 ==>
        Placements(Run(start, schedule)) == 0
  }

  const PLAIN: Sys :=
    Sys(OrderDoc(Processing, None, NoStatus, 0, false, None, 0, 1, Charge(1, 0, 1)), 0, 0, [], [])

  // The claim makes placement at-most-once exactly for those providers whose
  // replies never leave an open order without both an id and a status,
  lemma AtMostOnceExactlyWhenMarked(allowed: iset<Reply>)
    ensures NeverTwice(allowed) <==> forall r | r in allowed :: MarkedReply(r)
  {
    if forall r | r in allowed :: MarkedReply(r) {
      forall start, schedule | Fresh(start) && Answers(schedule, allowed)
        ensures Placements(Run(start, schedule)) <= 1
      {
        assert Marked(schedule);
        PlacedAtMostOnce(start, schedule);
      }
    } else {
      var r :| r in allowed && !MarkedReply(r);
      UnmarkedReplySendsTwice(PLAIN, r);
      DispatchesAreCalls(Run(PLAIN, SendTwice(r)).trace);
      assert Answers(SendTwice(r), allowed);
      assert Fresh(PLAIN) && !(Placements(Run(PLAIN, SendTwice(r))) <= 1);
    }
  }

  // and exactly for those an order failed as unresolved was never sent.
  lemma UnresolvedNeverSentExactlyWhenMarked(allowed: iset<Reply>)
    ensures UnresolvedNeverSent(allowed) <==> forall r | r in allowed :: MarkedReply(r)
  {
    if forall r | r in allowed :: MarkedReply(r) {
      forall start, schedule | Fresh(start) && Answers(schedule, allowed) && Unresolved(Run(start, schedule)) > 0
        ensures Placements(Run(start, schedule)) == 0
      {
        assert Marked(schedule);
        PlacedAtMostOnce(start, schedule);
      }
    } else {
      var r :| r in allowed && !MarkedReply(r);
      UnmarkedReplyFailsSent(PLAIN, r);
      DispatchesAreCalls(Run(PLAIN, FailAfterSending(r)).trace);
      assert Answers(FailAfterSending(r), allowed);
      assert Fresh(PLAIN) && Unresolved(Run(PLAIN, FailAfterSending(r))) > 0;
    }
  }

  // executeOrder reports an order as placed once it is kept open.  After a
  // throw before the send it does so although nothing was sent.
  lemma PlacedWithoutSending(start: Sys)
    requires Fresh(start)
    ensures var s := Run(start, [Step(0, SpawnExecute), Step(0, Resolve(true)), Step(0, Ok), Step(0, Throw)]
                                + [Step(0, Ok)]);
            && s.trace == [PlaceThrew(0, true), Pended(0)] && s.hs == [Done]
            && ClaimStands(s.doc) && Dispatches(s) == 0
  {
    var a := [Step(0, SpawnExecute), Step(0, Resolve(true)), Step(0, Ok), Step(0, Throw)];
    FourSteps(start, [], a[0], a[1], a[2], a[3]);
    assert [] + a == a;
    assert Next(start, 0, SpawnExecute) == start.(hs := [ExecResolve]);
    assert Next(start.(hs := [ExecResolve]), 0, Resolve(true)) == start.(hs := [ExecClaim]);
    var claimed := start.(doc := start.doc.(providerStatus := Uncertain), hs := [ExecCall]);
    assert Next(start.(hs := [ExecClaim]), 0, Ok) == claimed;
    var threw := claimed.(hs := [ExecApply(AMBIGUOUS)], trace := [PlaceThrew(0, true)]);
    assert Next(claimed, 0, Throw) == threw;
    RunAppend(start, a, Step(0, Ok));
    assert Next(threw, 0, Ok) == threw.(hs := [Done], trace := [PlaceThrew(0, true), Pended(0)]);
    var one: seq<Event> := [PlaceThrew(0, true)];
    assert [PlaceThrew(0, true), Pended(0)][..1] == one && one[..0] == [];
  }

  // -------------------------------------------------------------------------
  // Uncertain placement keeps the money
  // -------------------------------------------------------------------------

  // If placeOrder threw, everything the engine ever refunds on that order was
  // first reported by the provider as finished and refundable.
  lemma UncertainKeepsMoney(start: Sys, schedule: seq<Step>)
    requires Fresh(start)
    ensures var s := Run(start, schedule);
            Throws(s) > 0 ==>
              forall i :: 0 <= i < |s.trace| && IsRefund(s.trace[i]) && !s.trace[i].cause.AdminAction? ==>
                && s.trace[i].cause.StatusReport?
                && RequiresRefund(s.trace[i].cause.ps)
                && SeenBefore(s.trace, s.trace[i].cause.ps, i)
  {
    ClaimAlways(start, schedule);
  }

  predicate Settled(d: OrderDoc) { d.status != Processing || d.providerOrderId.Some? }

  ghost predicate PlacementRefund(s: Sys) {
    || (exists i :: 0 <= i < |s.hs| && InRefund(s.hs[i]) && PlacementCause(s.hs[i].cause))
    || (exists i :: 0 <= i < |s.trace| && IsRefund(s.trace[i]) && PlacementCause(s.trace[i].cause))
  }

  ghost predicate RecoveryInv(s: Sys) {
    && (Count(s.trace, Recovering) > 0 ==> Settled(s.doc) && !PlacementRefund(s))
    && (PlacementRefund(s) ==> s.doc.status != Processing)
    && (forall i :: 0 <= i < |s.hs| && InRefund(s.hs[i]) ==> !s.hs[i].cause.AdminAction?)
  }

  predicate RecoveryEffect(s: Sys, n: Sys, h: nat) {
    && (Settled(s.doc) ==> Settled(n.doc))
    && (s.doc.status != Processing ==> n.doc.status != Processing)
    && (Appends(s, n, Recovering) ==> !Settled(s.doc) && Settled(n.doc) && s.doc.status == Processing)
    && (RefundingAt(n, h) ==> !n.hs[h].cause.AdminAction? || RefundingAt(s, h))
    && (RefundingAt(n, h) && PlacementCause(n.hs[h].cause) ==>
          || SameCause(s, h, n.hs[h].cause)
          || (!Settled(s.doc) && n.doc.status != Processing && !Appends(s, n, Recovering)))
    && (Appends(s, n, Refunding) ==>
          Appended(s, n).value.cause.AdminAction? || SameCause(s, h, Appended(s, n).value.cause))
    && (RefundingAt(n, h) && RefundingAt(s, h) ==> n.hs[h].cause == s.hs[h].cause)
  }

  lemma RecoverySpawn(s: Sys, c: Choice)
    requires IsSpawn(c)
    ensures RecoveryEffect(s, Spawn(s, c), |s.hs|)
  {}

  lemma RecoveryExecute(s: Sys, h: nat, c: Choice)
    requires h < |s.hs| && InExecute(s.hs[h])
    ensures RecoveryEffect(s, AdvanceExecute(s, h, c), h)
  {
    if s.hs[h].ExecApply? { RecoveryApply(s, h, c); } else { RecoveryOtherExecute(s, h, c); }
  }

  lemma RecoveryApply(s: Sys, h: nat, c: Choice)
    requires h < |s.hs| && InExecute(s.hs[h])
    requires s.hs[h].ExecApply?
    ensures RecoveryEffect(s, AdvanceExecute(s, h, c), h)
  {}

  lemma RecoveryOtherExecute(s: Sys, h: nat, c: Choice)
    requires h < |s.hs| && InExecute(s.hs[h])
    requires !s.hs[h].ExecApply?
    ensures RecoveryEffect(s, AdvanceExecute(s, h, c), h)
  {}

  lemma RecoveryRefund(s: Sys, h: nat, c: Choice)
    requires h < |s.hs| && InRefund(s.hs[h])
    ensures RecoveryEffect(s, AdvanceRefund(s, h, c), h)
  {}

  lemma RecoveryPoll(s: Sys, h: nat, c: Choice)
    requires h < |s.hs| && !InExecute(s.hs[h]) && !InRefund(s.hs[h])
    ensures RecoveryEffect(s, AdvancePoll(s, h, c), h)
  {
    if s.hs[h].ApplyStatus? { RecoveryReported(s, h, c); } else { RecoveryOtherPoll(s, h, c); }
  }

  lemma RecoveryReported(s: Sys, h: nat, c: Choice)
    requires h < |s.hs| && !InExecute(s.hs[h]) && !InRefund(s.hs[h])
    requires s.hs[h].ApplyStatus?
    ensures RecoveryEffect(s, AdvancePoll(s, h, c), h)
  {}

  lemma RecoveryOtherPoll(s: Sys, h: nat, c: Choice)
    requires h < |s.hs| && !InExecute(s.hs[h]) && !InRefund(s.hs[h])
    requires !s.hs[h].ApplyStatus?
    ensures RecoveryEffect(s, AdvancePoll(s, h, c), h)
  {}

  lemma RecoveryStep(s: Sys, h: nat, c: Choice)
    requires RecoveryInv(s)
    ensures RecoveryInv(Next(s, h, c))
  {
    var n := Next(s, h, c);
    NextIsOneStep(s, h, c);
    CountAfter(s, n, h, Recovering);
    if IsSpawn(c) {
      if h == |s.hs| { RecoverySpawn(s, c); }
    } else if h < |s.hs| {
      if InExecute(s.hs[h]) { RecoveryExecute(s, h, c); }
      else if InRefund(s.hs[h]) { RecoveryRefund(s, h, c); }
      else { RecoveryPoll(s, h, c); }
    }
    RecoveryKept(s, n, h);
  }

  lemma RecoveryKept(s: Sys, n: Sys, h: nat)
    requires RecoveryInv(s) && OneStep(s, n, h) && RecoveryEffect(s, n, h)
    requires Count(n.trace, Recovering) == Count(s.trace, Recovering) + if Appends(s, n, Recovering) then 1 else 0
    ensures RecoveryInv(n)
  {
    RefundersKept(s, n, h);
    forall i | 0 <= i < |n.trace| && IsRefund(n.trace[i]) && PlacementCause(n.trace[i].cause)
      ensures PlacementRefund(s)
    {
      if i < |s.trace| { assert n.trace[i] == s.trace[i]; }
      else { assert Appends(s, n, Refunding); }
    }
  }

  lemma RefundersKept(s: Sys, n: Sys, h: nat)
    requires RecoveryInv(s) && OneStep(s, n, h) && RecoveryEffect(s, n, h)
    ensures forall i :: 0 <= i < |n.hs| && InRefund(n.hs[i]) ==>
              && !n.hs[i].cause.AdminAction?
              && (PlacementCause(n.hs[i].cause) ==>
                    PlacementRefund(s) || (!Settled(s.doc) && n.doc.status != Processing && !Appends(s, n, Recovering)))
  {
    forall i | 0 <= i < |n.hs| && InRefund(n.hs[i])
      ensures !n.hs[i].cause.AdminAction?
      ensures PlacementCause(n.hs[i].cause) ==>
                PlacementRefund(s) || (!Settled(s.doc) && n.doc.status != Processing && !Appends(s, n, Recovering))
    {
      if i != h { assert InRefund(s.hs[i]); }
    }
  }

  lemma {:induction false} RecoveryAlways(start: Sys, schedule: seq<Step>)
    requires Fresh(start)
    ensures RecoveryInv(Run(start, schedule))
  {
    if schedule != [] {
      var init, last := schedule[..|schedule| - 1], schedule[|schedule| - 1];
      RecoveryAlways(start, init);
      RecoveryStep(Run(start, init), last.h, last.c);
    }
  }

  // Once recovery has stored a provider id, a late rejection or cancellation
  // from placement neither writes to the order nor ever leads to a refund.
  lemma LateRejectionIsIgnored(start: Sys, schedule: seq<Step>, h: nat, r: Reply)
    requires Fresh(start)
    requires Count(Run(start, schedule).trace, Recovering) > 0
    requires h < |Run(start, schedule).hs| && Run(start, schedule).hs[h] == ExecApply(r)
    requires ReplyVerdict(r) in {Rejected, Cancelled}
    ensures var s := Run(start, schedule);
            && Next(s, h, Ok) == Goto(s, h, Done)
            && forall i :: 0 <= i < |s.trace| && IsRefund(s.trace[i]) ==> !PlacementCause(s.trace[i].cause)
  {
    RecoveryAlways(start, schedule);
  }

  // -------------------------------------------------------------------------
  // The handlers' code inherits all of it
  // -------------------------------------------------------------------------

  // Whatever mix of executeOrder, polls, recoveries and admin failures has run
  // against the shared documents, the state they left is one of the above.
  lemma EngineStatesAreSafe(e: FulfillmentEngine.Engine)
    requires e.Valid() && Fresh(e.origin) && WellFormedCharge(e.origin.doc.charge)
    ensures Refunds(e.View()) <= 1 && Exits(e.View()) <= 1
    ensures !Held(e.View()) ==>
              (e.doc.refunded <==> Refunds(e.View()) == 1 || RefundLost(e.origin, e.history))
    ensures e.doc.refunded ==> e.doc.status in {Failed, Canceled, Partial}
    ensures e.origin.balance <= e.balance <= e.origin.balance + e.origin.doc.charge.charged
    ensures Marked(e.history) ==> Placements(e.View()) <= 1
  {
    RefundedExactlyOnce(e.origin, e.history);
    MoneyMovesOnce(e.origin, e.history);
    RefundedOrdersFailed(e.origin, e.history);
    SingleExit(e.origin, e.history, []);
    if Marked(e.history) { PlacedAtMostOnce(e.origin, e.history); }
  }

  // -------------------------------------------------------------------------
  // A lost refund stays lost
  // -------------------------------------------------------------------------

  const LOST: seq<Step> :=
    [Step(0, SpawnExecute), Step(0, Resolve(false)), Step(0, Ok), Step(0, Ok), Step(0, Throw)]

  lemma FailedAndFlagged(start: Sys)
    requires Fresh(start)
    ensures var s := Next(Next(Next(Next(start, 0, SpawnExecute), 0, Resolve(false)), 0, Ok), 0, Ok);
            && s.hs == [RefundSession(ResolutionFailed)] && s.trace == [Exited(0, Failed, true)]
            && s.balance == start.balance && s.doc.refunded
  {
    var a := Next(start, 0, SpawnExecute);
    assert a == start.(hs := [ExecResolve]);
    var b := Next(a, 0, Resolve(false));
    assert b == start.(hs := [ExecUnresolved]);
    var c := Next(b, 0, Ok);
    assert c.hs == [RefundSwap(ResolutionFailed)] && c.trace == [Exited(0, Failed, true)] && !c.doc.refunded;
  }

  lemma OnlyStranded()
    ensures Count([Exited(0, Failed, true), Stranded(0)], Refunding) == 0
  {
    var trace := [Exited(0, Failed, true), Stranded(0)];
    assert trace[..1] == [Exited(0, Failed, true)] && trace[..1][..0] == [];
  }

  lemma LostRun(start: Sys)
    requires Fresh(start)
    ensures var s := Run(start, LOST);
            && s.hs == [Done] && s.trace == [Exited(0, Failed, true), Stranded(0)]
            && s.balance == start.balance && s.doc.refunded
  {
    var failed := [Step(0, SpawnExecute), Step(0, Resolve(false)), Step(0, Ok), Step(0, Ok)];
    FourSteps(start, [], failed[0], failed[1], failed[2], failed[3]);
    assert [] + failed == failed && failed + [Step(0, Throw)] == LOST;
    RunAppend(start, failed, Step(0, Throw));
    FailedAndFlagged(start);
  }

  // The exception in RefundedExactlyOnce is real: one run in which the order
  // ends up flagged as refunded and the customer has received nothing.
  lemma RefundCanBeLost(start: Sys)
    requires Fresh(start)
    ensures var s := Run(start, LOST);
            s.doc.refunded && !Held(s) && Refunds(s) == 0 && s.balance == start.balance
    ensures RefundLost(start, LOST)
  {
    LostRun(start);
    OnlyStranded();
    StrandedExactlyWhen(start, LOST);
    RefundedExactlyOnce(start, LOST);
  }

  ghost predicate Abandoned(s: Sys) {
    s.doc.status == Failed && !s.doc.refunded && forall i :: 0 <= i < |s.hs| ==> !InRefund(s.hs[i])
  }

  lemma AbandonedStep(s: Sys, h: nat, c: Choice)
    requires Abandoned(s)
    ensures Abandoned(Next(s, h, c))
    ensures Next(s, h, c).balance == s.balance && Next(s, h, c).quotaUsed == s.quotaUsed
  {
    var n := Next(s, h, c);
    NextIsOneStep(s, h, c);
    if IsSpawn(c) {
      if h == |s.hs| { StatusSpawn(s, c); LedgerSpawn(s, c); }
    } else if h < |s.hs| {
      if InExecute(s.hs[h]) {
        ClosedExecute(s, h, c);
        StatusExecute(s, h, c);
        AbandonedExecute(s, h, c);
      } else {
        ClosedPoll(s, h, c);
        StatusPoll(s, h, c);
        AbandonedPoll(s, h, c);
      }
    }
  }

  lemma AbandonedExecute(s: Sys, h: nat, c: Choice)
    requires h < |s.hs| && InExecute(s.hs[h]) && s.doc.status != Processing
    ensures !RefundingAt(AdvanceExecute(s, h, c), h)
    ensures AdvanceExecute(s, h, c).balance == s.balance && AdvanceExecute(s, h, c).quotaUsed == s.quotaUsed
  {}

  lemma AbandonedPoll(s: Sys, h: nat, c: Choice)
    requires h < |s.hs| && !InExecute(s.hs[h]) && !InRefund(s.hs[h]) && s.doc.status != Processing
    ensures !RefundingAt(AdvancePoll(s, h, c), h)
    ensures AdvancePoll(s, h, c).balance == s.balance && AdvancePoll(s, h, c).quotaUsed == s.quotaUsed
  {}

  // refundFailedOrder clears its flag on error "so the next retry can attempt
  // again", but no handler retries: a FAILED order with the flag cleared and no
  // refund in progress is refunded by no step of the engine and by no
  // markOrderAsFailed.  Only the admin's partial refund can still pay it.
  lemma {:induction false} AbandonedForever(s: Sys, schedule: seq<Step>)
    requires Abandoned(s)
    ensures Abandoned(Run(s, schedule))
    ensures Run(s, schedule).balance == s.balance && Run(s, schedule).quotaUsed == s.quotaUsed
  {
    if schedule != [] {
      var init, last := schedule[..|schedule| - 1], schedule[|schedule| - 1];
      AbandonedForever(s, init);
      AbandonedStep(Run(s, init), last.h, last.c);
    }
  }

  // -------------------------------------------------------------------------
  // Retries
  // -------------------------------------------------------------------------

  // The counter of an open order is always below the limit, so the kill switch
  // of the fulfilment poller never finds an order to act on.
  lemma RetriesStayBelowLimit(start: Sys, schedule: seq<Step>)
    requires Fresh(start)
    ensures var s := Run(start, schedule);
            && (s.doc.status == Processing ==> s.doc.retryCount < MAX_RETRY_COUNT)
            && forall i :: 0 <= i < |s.hs| ==> !s.hs[i].KillSwitch?
  {
    SafeAlways(start, schedule);
    assert forall i :: 0 <= i < |Run(start, schedule).hs| ==> RetryOf(Run(start, schedule).hs[i]);
  }

  // What one poll of the order, by a handler of its own, meets.
  datatype Round =
    // The provider answers that it is still working on the order.
    | StillPending(ps: ProviderStatus)
    // It does not know the order, or the lookup throws; deferred: the write that
    // counts a recovery round goes through.
    | Unknown(deferred: bool)
    | Unreachable(deferred: bool)
    // It answers, and storing the answer throws.
    | NotStored(ps: ProviderStatus, remains: nat, deferred: bool)
    // It answers, the id is stored, and storing the status throws.
    | HalfStored(ps: ProviderStatus, remains: nat)

  ghost function ById(s: Sys, h: nat, r: Round): Sys {
    match r
    case StillPending(ps) => Next(Next(s, h, Report(ps, 0)), h, Ok)
    case Unknown(_) => Next(s, h, NotFound)
    case Unreachable(_) => Next(s, h, Throw)
    case NotStored(ps, remains, _) => Next(Next(s, h, Report(ps, remains)), h, Throw)
    case HalfStored(ps, remains) => Next(Next(s, h, Report(ps, remains)), h, Throw)
  }

  function Deferral(deferred: bool): Choice { if deferred then Ok else Throw }

  ghost function ByReference(s: Sys, h: nat, r: Round, id: string): Sys {
    match r
    case StillPending(ps) => Next(Next(Next(s, h, Found(id, ps, 0)), h, Ok), h, Ok)
    case Unknown(deferred) => Next(Next(s, h, NotFound), h, Deferral(deferred))
    case Unreachable(deferred) => Next(Next(s, h, Throw), h, Deferral(deferred))
    case NotStored(ps, remains, deferred) =>
      Next(Next(Next(s, h, Found(id, ps, remains)), h, Throw), h, Deferral(deferred))
    case HalfStored(ps, remains) => Next(Next(Next(s, h, Found(id, ps, remains)), h, Ok), h, Throw)
  }

  ghost function Poll(s: Sys, r: Round, id: string): Sys {
    var h := |s.hs|;
    var t := Next(s, h, SpawnFulfillmentPoll);
    if s.doc.status != Processing then t
    else if s.doc.providerOrderId.Some? then ById(t, h, r)
    else ByReference(t, h, r, id)
  }

  ghost function Polls(s: Sys, rounds: seq<Round>, id: string): Sys {
    if rounds == [] then s else Poll(Polls(s, rounds[..|rounds| - 1], id), rounds[|rounds| - 1], id)
  }

  // With an id only a stored answer counts as a retry; without one every round
  // whose last write goes through does.
  function Counts(known: bool, r: Round): nat {
    match r
    case StillPending(_) => 1
    case HalfStored(_, _) => 0
    case _ => if !known && r.deferred then 1 else 0
  }

  // The round leaves the order with an id.
  predicate Identifies(r: Round) { r.StillPending? || r.HalfStored? }

  predicate Known(known: bool, rounds: seq<Round>) {
    known || exists i :: 0 <= i < |rounds| && Identifies(rounds[i])
  }

  function Counted(known: bool, rounds: seq<Round>): nat {
    if rounds == [] then 0
    else
      var init := rounds[..|rounds| - 1];
      Counted(known, init) + Counts(Known(known, init), rounds[|rounds| - 1])
  }

  predicate Waiting(d: OrderDoc) {
    d.status == Processing && (d.providerOrderId.Some? || d.providerStatus == Uncertain)
  }

  // One more retry, and review when it is the last.
  predicate Retried(s: Sys, n: Sys, counted: nat) {
    && n.balance == s.balance && n.quotaUsed == s.quotaUsed
    && n.doc.retryCount == s.doc.retryCount + counted
    && n.doc.status == (if n.doc.retryCount >= MAX_RETRY_COUNT then ManualReview else Processing)
  }

  lemma ByIdMeans(s: Sys, h: nat, r: Round)
    requires h < |s.hs| && s.hs[h] == PollCheck(s.doc.retryCount)
    requires s.doc.status == Processing && s.doc.providerOrderId.Some? && s.doc.retryCount < MAX_RETRY_COUNT
    requires r.StillPending? ==> !IsTerminal(r.ps)
    ensures var n := ById(s, h, r);
            Retried(s, n, Counts(true, r)) && n.doc.providerOrderId == s.doc.providerOrderId
  {
    if r.StillPending? || r.NotStored? || r.HalfStored? {
      var heard := Next(s, h, Report(r.ps, if r.StillPending? then 0 else r.remains));
      assert heard.hs[h].ApplyStatus? && heard.doc == s.doc;
    }
  }

  lemma DeferMeans(s: Sys, h: nat, deferred: bool)
    requires h < |s.hs| && s.hs[h] == RecoverDefer(s.doc.retryCount)
    requires ClaimStands(s.doc) && s.doc.retryCount < MAX_RETRY_COUNT
    ensures var n := Next(s, h, Deferral(deferred));
            && Retried(s, n, if deferred then 1 else 0)
            && n.doc.providerOrderId == None && n.doc.providerStatus == Uncertain
  {}

  lemma HalfMeans(s: Sys, h: nat, ps: ProviderStatus, remains: nat, id: string)
    requires h < |s.hs| && s.hs[h] == RecoverLookup(s.doc.retryCount)
    requires ClaimStands(s.doc) && s.doc.retryCount < MAX_RETRY_COUNT
    ensures var n := Next(Next(Next(s, h, Found(id, ps, remains)), h, Ok), h, Throw);
            Retried(s, n, 0) && n.doc.providerOrderId == Some(id)
  {
    var a := Next(s, h, Found(id, ps, remains));
    assert a.hs[h] == RecoverWrite(s.doc.retryCount, id, ps, remains) && a.doc == s.doc;
    var b := Next(a, h, Ok);
    assert b.hs[h] == ApplyStatus(s.doc.retryCount, ps, remains);
    assert b.doc == s.doc.(providerOrderId := Some(id), providerStatus := ps);
  }

  lemma RecoverMeans(s: Sys, h: nat, ps: ProviderStatus, id: string)
    requires h < |s.hs| && s.hs[h] == RecoverLookup(s.doc.retryCount)
    requires ClaimStands(s.doc) && s.doc.retryCount < MAX_RETRY_COUNT && !IsTerminal(ps)
    ensures var n := Next(Next(Next(s, h, Found(id, ps, 0)), h, Ok), h, Ok);
            Retried(s, n, 1) && n.doc.providerOrderId == Some(id)
  {
    var a := Next(s, h, Found(id, ps, 0));
    assert a.hs[h] == RecoverWrite(s.doc.retryCount, id, ps, 0) && a.doc == s.doc;
    var b := Next(a, h, Ok);
    assert b.hs[h] == ApplyStatus(s.doc.retryCount, ps, 0);
    assert b.doc == s.doc.(providerOrderId := Some(id), providerStatus := ps);
  }

  lemma ByReferenceMeans(s: Sys, h: nat, r: Round, id: string)
    requires h < |s.hs| && s.hs[h] == RecoverLookup(s.doc.retryCount)
    requires ClaimStands(s.doc) && s.doc.retryCount < MAX_RETRY_COUNT
    requires r.StillPending? ==> !IsTerminal(r.ps)
    ensures var n := ByReference(s, h, r, id);
            && Retried(s, n, Counts(false, r))
            && n.doc.providerOrderId == (if Identifies(r) then Some(id) else None)
            && (Identifies(r) || n.doc.providerStatus == Uncertain)
  {
    match r {
      case StillPending(ps) => RecoverMeans(s, h, ps, id);
      case Unknown(deferred) => DeferMeans(Next(s, h, NotFound), h, deferred);
      case Unreachable(deferred) => DeferMeans(Next(s, h, Throw), h, deferred);
      case HalfStored(ps, remains) => HalfMeans(s, h, ps, remains, id);
      case NotStored(ps, remains, deferred) =>
        var a := Next(s, h, Found(id, ps, remains));
        assert a.hs[h] == RecoverWrite(s.doc.retryCount, id, ps, remains) && a.doc == s.doc;
        DeferMeans(Next(a, h, Throw), h, deferred);
    }
  }

  lemma PollMeans(s: Sys, r: Round, id: string)
    requires Waiting(s.doc) && s.doc.retryCount < MAX_RETRY_COUNT
    requires r.StillPending? ==> !IsTerminal(r.ps)
    ensures var n := Poll(s, r, id);
            && Retried(s, n, Counts(s.doc.providerOrderId.Some?, r))
            && n.doc.providerOrderId.Some? == (s.doc.providerOrderId.Some? || Identifies(r))
            && (n.doc.providerOrderId.Some? || n.doc.providerStatus == Uncertain)
  {
    var h := |s.hs|;
    var t := Next(s, h, SpawnFulfillmentPoll);
    assert t == s.(hs := s.hs + [if s.doc.providerOrderId.Some? then PollCheck(s.doc.retryCount)
                                 else RecoverLookup(s.doc.retryCount)]);
    if s.doc.providerOrderId.Some? { ByIdMeans(t, h, r); } else { ByReferenceMeans(t, h, r, id); }
  }

  lemma KnownAfter(known: bool, rounds: seq<Round>)
    requires rounds != []
    ensures Known(known, rounds) <==>
            Known(known, rounds[..|rounds| - 1]) || Identifies(rounds[|rounds| - 1])
  {}

  ghost predicate PolledFor(s: Sys, n: Sys, rounds: seq<Round>) {
    var known := s.doc.providerOrderId.Some?;
    && n.balance == s.balance && n.quotaUsed == s.quotaUsed
    && n.doc.retryCount == (if Counted(known, rounds) < MAX_RETRY_COUNT then Counted(known, rounds) else MAX_RETRY_COUNT)
    && n.doc.status == (if Counted(known, rounds) < MAX_RETRY_COUNT then Processing else ManualReview)
    && (n.doc.status == Processing ==>
          && n.doc.providerOrderId.Some? == Known(known, rounds)
          && (n.doc.providerOrderId.Some? || n.doc.providerStatus == Uncertain))
  }

  // With a single poller, an order that was placed or whose placement is
  // uncertain stays open for exactly MAX_RETRY_COUNT - 1 counted rounds, in any
  // mix of pending answers, misses, failed lookups and failed writes, and is
  // handed to manual review by the next one, with its money untouched.
  lemma {:induction false} PendingUntilReview(s: Sys, rounds: seq<Round>, id: string)
    requires Waiting(s.doc) && s.doc.retryCount == 0
    requires forall i :: 0 <= i < |rounds| && rounds[i].StillPending? ==> !IsTerminal(rounds[i].ps)
    ensures PolledFor(s, Polls(s, rounds, id), rounds)
  {
    if rounds != [] {
      var init, last := rounds[..|rounds| - 1], rounds[|rounds| - 1];
      var before := Polls(s, init, id);
      PendingUntilReview(s, init, id);
      KnownAfter(s.doc.providerOrderId.Some?, rounds);
      if before.doc.status == Processing {
        PollMeans(before, last, id);
      } else {
        ClosedPollChangesNothing(before, last, id);
      }
    }
  }

  lemma ClosedPollChangesNothing(s: Sys, r: Round, id: string)
    requires s.doc.status != Processing
    ensures Poll(s, r, id) == s.(hs := s.hs + [Done])
  {}
}
