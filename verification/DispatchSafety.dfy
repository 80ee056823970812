// Every interleaving: how often placeOrder is called, and what must have been
// seen before the engine gives money back.

module DispatchSafety {
  import opened Options
  import opened OrderModel
  import opened FulfillmentMachine
  import opened RefundSafety

  // A reply that leaves the order open must leave a mark on it: an id or a
  // status.  AMBIGUOUS does.
  predicate MarkedReply(r: Reply) {
    ReplyVerdict(r) == InFlight ==> r.providerOrderId.Some? || r.ps != NoStatus
  }

  predicate MarkedChoice(c: Choice) { c.Answer? ==> MarkedReply(c.reply) }

  // Between winning the dispatch claim and persisting the outcome.
  predicate Owns(pc: Pc) { pc.ExecCall? || pc.ExecAwait? || pc.ExecApply? }

  predicate OwnsAt(s: Sys, h: nat) { h < |s.hs| && Owns(s.hs[h]) }

  ghost predicate Owned(s: Sys) { exists i :: 0 <= i < |s.hs| && Owns(s.hs[i]) }

  function Dispatches(s: Sys): nat { Count(s.trace, Dispatching) }
  function Placements(s: Sys): nat { Calls(s.trace) }
  function Throws(s: Sys): nat { Count(s.trace, Throwing) }
  function Unresolved(s: Sys): nat { Count(s.trace, LeavingUnresolved) }

  ghost predicate SeenBefore(t: seq<Event>, ps: ProviderStatus, n: nat) {
    exists j :: 0 <= j < n <= |t| && t[j].StatusSeen? && t[j].ps == ps
  }

  predicate PlacementCause(k: Cause) { k.PlacementRejected? || k.PlacementCancelled? }

  // No placement is pending and none can start; none has thrown.
  ghost predicate PlacementOver(s: Sys) {
    Throws(s) == 0 && !Owned(s) && !Unclaimed(s.doc)
  }

  ghost predicate CauseOk(s: Sys, k: Cause, n: nat) {
    && (k.ResolutionFailed? ==> Unresolved(s) > 0)
    && (PlacementCause(k) ==> PlacementOver(s))
    && (k.StatusReport? ==> RequiresRefund(k.ps) && SeenBefore(s.trace, k.ps, n))
  }

  // The status a handler carries has been reported by the provider, and the
  // order it is about to reopen has an id.
  ghost predicate HandlerOk(s: Sys, pc: Pc) {
    && (pc.ExecCall? || pc.ExecAwait? ==> Throws(s) == 0)
    && (pc.ExecApply? && Throws(s) > 0 ==> pc.reply == AMBIGUOUS)
    && (pc.PollCheck? && s.doc.status == Processing ==> s.doc.providerOrderId.Some?)
    && (pc.ApplyStatus? && s.doc.status == Processing && !IsTerminal(pc.ps) ==> s.doc.providerOrderId.Some?)
    && (pc.ApplyStatus? ==> SeenBefore(s.trace, pc.ps, |s.trace|))
    && (pc.RecoverWrite? ==> SeenBefore(s.trace, pc.ps, |s.trace|))
    && (InRefund(pc) ==> !pc.cause.AdminAction? && CauseOk(s, pc.cause, |s.trace|))
  }

  ghost predicate ClaimInv(s: Sys) {
    && (forall i, j :: 0 <= i < |s.hs| && 0 <= j < |s.hs| && Owns(s.hs[i]) && Owns(s.hs[j]) ==> i == j)
    && (Unclaimed(s.doc) ==> !Owned(s) && Throws(s) == 0)
    && (Unresolved(s) > 0 ==> Throws(s) == 0 && !Owned(s) && s.doc.status != Processing)
    && (forall i :: 0 <= i < |s.hs| ==> HandlerOk(s, s.hs[i]))
  }

  ghost predicate HistoryInv(s: Sys) {
    forall i :: 0 <= i < |s.trace| && IsRefund(s.trace[i]) ==> CauseOk(s, s.trace[i].cause, i)
  }

  // -------------------------------------------------------------------------
  // One step
  // -------------------------------------------------------------------------

  predicate SameCause(s: Sys, h: nat, k: Cause) { RefundingAt(s, h) && s.hs[h].cause == k }

  predicate CarriedStatus(s: Sys, n: Sys, h: nat, ps: ProviderStatus) {
    || (h < |s.hs| && s.hs[h].ApplyStatus? && s.hs[h].ps == ps)
    || (h < |s.hs| && s.hs[h].RecoverWrite? && s.hs[h].ps == ps)
    || Appended(s, n) == Some(StatusSeen(h, ps))
  }

  predicate ClaimEffect(s: Sys, n: Sys, h: nat) {
    && (Unclaimed(n.doc) ==> Unclaimed(s.doc) || Reopens(s, n, h))
    && (s.doc.status != Processing ==> n.doc.status != Processing)
    && (n.doc.status == Processing && s.doc.providerOrderId.Some? ==> n.doc.providerOrderId.Some?)
    && (OwnsAt(n, h) && !OwnsAt(s, h) ==>
          Unclaimed(s.doc) && !Unclaimed(n.doc) && n.hs[h].ExecCall? && n.trace == s.trace)
    && (OwnsAt(s, h) && OwnsAt(n, h) && n.hs[h].ExecCall? ==> s.hs[h].ExecCall? && n.trace == s.trace)
    && (OwnsAt(s, h) && OwnsAt(n, h) && n.hs[h].ExecAwait? ==>
          !s.hs[h].ExecApply? && !Appends(s, n, Throwing))
    && (OwnsAt(s, h) && OwnsAt(n, h) && s.hs[h].ExecApply? ==> n.hs[h] == s.hs[h])
    && (OwnsAt(n, h) && n.hs[h].ExecApply? ==>
          n.hs[h] == s.hs[h] || n.hs[h].reply == AMBIGUOUS || s.hs[h].ExecAwait?)
    && (Appends(s, n, Dispatching) ==> OwnsAt(s, h) && s.hs[h].ExecCall?)
    && (Appends(s, n, Throwing) ==> OwnsAt(s, h) && OwnsAt(n, h) && n.hs[h] == ExecApply(AMBIGUOUS))
    && (Appends(s, n, LeavingUnresolved) ==>
          Unclaimed(s.doc) && n.doc.status != Processing && !OwnsAt(n, h))
  }

  // Its owner applies a reply that puts the order back as it was.
  predicate Reopens(s: Sys, n: Sys, h: nat) {
    && OwnsAt(s, h) && s.hs[h].ExecApply? && !MarkedReply(s.hs[h].reply)
    && !OwnsAt(n, h) && !RefundingAt(n, h) && !Appends(s, n, Throwing) && !Appends(s, n, LeavingUnresolved)
  }

  predicate CauseEffect(s: Sys, n: Sys, h: nat) {
    && (RefundingAt(n, h) ==>
          || SameCause(s, h, n.hs[h].cause)
          || (n.hs[h].cause.ResolutionFailed? && Appends(s, n, LeavingUnresolved))
          || (PlacementCause(n.hs[h].cause) && OwnsAt(s, h) && s.hs[h].ExecApply?
              && s.hs[h].reply != AMBIGUOUS && n.doc.status != Processing)
          || (n.hs[h].cause.StatusReport? && RequiresRefund(n.hs[h].cause.ps)
              && CarriedStatus(s, n, h, n.hs[h].cause.ps)))
    && (Appends(s, n, Refunding) ==>
          var k := Appended(s, n).value.cause;
          k.AdminAction? || SameCause(s, h, k))
    && (h < |n.hs| && n.hs[h].ApplyStatus? ==>
          CarriedStatus(s, n, h, n.hs[h].ps)
          && (n.doc.status == Processing && !IsTerminal(n.hs[h].ps) ==> n.doc.providerOrderId.Some?))
    && (h < |n.hs| && n.hs[h].RecoverWrite? ==> CarriedStatus(s, n, h, n.hs[h].ps))
    && (h < |n.hs| && n.hs[h].PollCheck? && n.doc.status == Processing ==> n.doc.providerOrderId.Some?)
  }

  // The part of HandlerOk that one step needs of the handler it moves.
  predicate Ready(s: Sys, h: nat) {
    h < |s.hs| ==>
      var pc := s.hs[h];
      && (pc.PollCheck? && s.doc.status == Processing ==> s.doc.providerOrderId.Some?)
      && (pc.ApplyStatus? && s.doc.status == Processing && !IsTerminal(pc.ps) ==> s.doc.providerOrderId.Some?)
      && (InRefund(pc) ==> !pc.cause.AdminAction?)
  }

  lemma ClaimSpawn(s: Sys, c: Choice)
    requires IsSpawn(c)
    ensures ClaimEffect(s, Spawn(s, c), |s.hs|) && CauseEffect(s, Spawn(s, c), |s.hs|)
  {}

  lemma ClaimExecute(s: Sys, h: nat, c: Choice)
    requires h < |s.hs| && InExecute(s.hs[h]) && Ready(s, h)
    ensures ClaimEffect(s, AdvanceExecute(s, h, c), h)
  {
    if s.hs[h].ExecApply? { ClaimApply(s, h, c); }
    else if s.hs[h].ExecCall? || s.hs[h].ExecAwait? { ClaimCall(s, h, c); }
    else { ClaimOtherExecute(s, h, c); }
  }

  lemma ClaimApply(s: Sys, h: nat, c: Choice)
    requires h < |s.hs| && s.hs[h].ExecApply?
    ensures ClaimEffect(s, AdvanceExecute(s, h, c), h)
  {
    var rejected := ReplyVerdict(s.hs[h].reply) in {Rejected, Cancelled};
    if c.Ok? && rejected { ClaimRejected(s, h, c); } else { ClaimAccepted(s, h, c); }
  }

  lemma ClaimRejected(s: Sys, h: nat, c: Choice)
    requires h < |s.hs| && s.hs[h].ExecApply?
    requires c.Ok? && ReplyVerdict(s.hs[h].reply) in {Rejected, Cancelled}
    ensures ClaimEffect(s, AdvanceExecute(s, h, c), h)
  {}

  lemma ClaimAccepted(s: Sys, h: nat, c: Choice)
    requires h < |s.hs| && s.hs[h].ExecApply?
    requires !(c.Ok? && ReplyVerdict(s.hs[h].reply) in {Rejected, Cancelled})
    ensures ClaimEffect(s, AdvanceExecute(s, h, c), h)
  {}

  lemma ClaimCall(s: Sys, h: nat, c: Choice)
    requires h < |s.hs| && (s.hs[h].ExecCall? || s.hs[h].ExecAwait?)
    ensures ClaimEffect(s, AdvanceExecute(s, h, c), h)
  {}

  lemma ClaimOtherExecute(s: Sys, h: nat, c: Choice)
    requires h < |s.hs| && InExecute(s.hs[h]) && !Owns(s.hs[h])
    ensures ClaimEffect(s, AdvanceExecute(s, h, c), h)
  {}

  lemma CauseExecute(s: Sys, h: nat, c: Choice)
    requires h < |s.hs| && InExecute(s.hs[h]) && Ready(s, h)
    ensures CauseEffect(s, AdvanceExecute(s, h, c), h)
  {
    if s.hs[h].ExecApply? { CauseApply(s, h, c); } else { CauseOtherExecute(s, h, c); }
  }

  lemma CauseApply(s: Sys, h: nat, c: Choice)
    requires h < |s.hs| && InExecute(s.hs[h]) && Ready(s, h)
    requires s.hs[h].ExecApply?
    ensures CauseEffect(s, AdvanceExecute(s, h, c), h)
  {}

  lemma CauseOtherExecute(s: Sys, h: nat, c: Choice)
    requires h < |s.hs| && InExecute(s.hs[h]) && Ready(s, h)
    requires !s.hs[h].ExecApply?
    ensures CauseEffect(s, AdvanceExecute(s, h, c), h)
  {}

  lemma ClaimRefund(s: Sys, h: nat, c: Choice)
    requires h < |s.hs| && InRefund(s.hs[h])
    ensures ClaimEffect(s, AdvanceRefund(s, h, c), h)
  {}

  lemma CauseRefund(s: Sys, h: nat, c: Choice)
    requires h < |s.hs| && InRefund(s.hs[h])
    ensures CauseEffect(s, AdvanceRefund(s, h, c), h)
  {}

  lemma ClaimPoll(s: Sys, h: nat, c: Choice)
    requires h < |s.hs| && !InExecute(s.hs[h]) && !InRefund(s.hs[h]) && Ready(s, h)
    ensures ClaimEffect(s, AdvancePoll(s, h, c), h) && CauseEffect(s, AdvancePoll(s, h, c), h)
  {
    if s.hs[h].ApplyStatus? {
      ClaimReport(s, h, c);
      CauseReport(s, h, c);
    } else {
      ClaimOtherPoll(s, h, c);
      CauseOtherPoll(s, h, c);
    }
  }

  lemma ClaimReport(s: Sys, h: nat, c: Choice)
    requires h < |s.hs| && s.hs[h].ApplyStatus? && Ready(s, h)
    ensures ClaimEffect(s, AdvancePoll(s, h, c), h)
  {}

  lemma CauseReport(s: Sys, h: nat, c: Choice)
    requires h < |s.hs| && s.hs[h].ApplyStatus? && Ready(s, h)
    ensures CauseEffect(s, AdvancePoll(s, h, c), h)
  {}

  lemma ClaimOtherPoll(s: Sys, h: nat, c: Choice)
    requires h < |s.hs| && !InExecute(s.hs[h]) && !InRefund(s.hs[h]) && !s.hs[h].ApplyStatus? && Ready(s, h)
    ensures ClaimEffect(s, AdvancePoll(s, h, c), h)
  {}

  lemma CauseOtherPoll(s: Sys, h: nat, c: Choice)
    requires h < |s.hs| && !InExecute(s.hs[h]) && !InRefund(s.hs[h]) && !s.hs[h].ApplyStatus? && Ready(s, h)
    ensures CauseEffect(s, AdvancePoll(s, h, c), h)
  {}

  // -------------------------------------------------------------------------
  // Preservation
  // -------------------------------------------------------------------------

  lemma NextClaimEffect(s: Sys, h: nat, c: Choice)
    requires Ready(s, h)
    ensures ClaimEffect(s, Next(s, h, c), h) && CauseEffect(s, Next(s, h, c), h)
  {
    if IsSpawn(c) {
      if h == |s.hs| { ClaimSpawn(s, c); }
    } else if h < |s.hs| {
      if InExecute(s.hs[h]) { ClaimExecute(s, h, c); CauseExecute(s, h, c); }
      else if InRefund(s.hs[h]) { ClaimRefund(s, h, c); CauseRefund(s, h, c); }
      else { ClaimPoll(s, h, c); }
    }
  }

  lemma OwnedAfter(s: Sys, n: Sys, h: nat)
    requires OneStep(s, n, h)
    requires forall i, j :: 0 <= i < |s.hs| && 0 <= j < |s.hs| && Owns(s.hs[i]) && Owns(s.hs[j]) ==> i == j
    requires OwnsAt(n, h) ==> OwnsAt(s, h) || !Owned(s)
    ensures forall i, j :: 0 <= i < |n.hs| && 0 <= j < |n.hs| && Owns(n.hs[i]) && Owns(n.hs[j]) ==> i == j
    ensures OwnsAt(n, h) ==> Owned(n)
    ensures !OwnsAt(n, h) && OwnsAt(s, h) ==> !Owned(n)
    ensures !OwnsAt(n, h) && !Owned(s) ==> !Owned(n)
    ensures Owned(n) && !OwnsAt(n, h) ==> Owned(s)
  {
    forall i | 0 <= i < |n.hs| && i != h && Owns(n.hs[i])
      ensures i < |s.hs| && Owns(s.hs[i])
    {}
  }

  lemma SeenGrows(s: Sys, n: Sys, h: nat, ps: ProviderStatus, k: nat)
    requires OneStep(s, n, h) && SeenBefore(s.trace, ps, k)
    ensures SeenBefore(n.trace, ps, k) && SeenBefore(n.trace, ps, |n.trace|)
  {
    var j :| 0 <= j < k <= |s.trace| && s.trace[j].StatusSeen? && s.trace[j].ps == ps;
    assert n.trace[j] == s.trace[j];
  }

  lemma CarriedWasSeen(s: Sys, n: Sys, h: nat, ps: ProviderStatus)
    requires OneStep(s, n, h) && CarriedStatus(s, n, h, ps)
    requires h < |s.hs| ==> HandlerOk(s, s.hs[h])
    ensures SeenBefore(n.trace, ps, |n.trace|)
  {
    if Appended(s, n) == Some(StatusSeen(h, ps)) {
      assert n.trace[|s.trace|] == StatusSeen(h, ps);
    } else {
      SeenGrows(s, n, h, ps, |s.trace|);
    }
  }

  lemma CauseStaysOk(s: Sys, n: Sys, h: nat, k: Cause, at: nat)
    requires OneStep(s, n, h) && ClaimInv(s) && ClaimEffect(s, n, h) && CauseOk(s, k, at)
    ensures CauseOk(n, k, at) && (at == |s.trace| ==> CauseOk(n, k, |n.trace|))
  {
    CountAfter(s, n, h, LeavingUnresolved);
    CountAfter(s, n, h, Throwing);
    OwnedAfter(s, n, h);
    if k.StatusReport? { SeenGrows(s, n, h, k.ps, at); }
  }

  // The counters and the claim, without the handlers' own facts.
  lemma ClaimCounters(s: Sys, n: Sys, h: nat)
    requires OneStep(s, n, h) && ClaimInv(s) && ClaimEffect(s, n, h)
    ensures Unclaimed(n.doc) ==> !Owned(n) && Throws(n) == 0
    ensures Unresolved(n) > 0 ==> Throws(n) == 0 && !Owned(n) && n.doc.status != Processing
  {
    CountAfter(s, n, h, Throwing);
    CountAfter(s, n, h, LeavingUnresolved);
    OwnedAfter(s, n, h);
    if h < |s.hs| { assert HandlerOk(s, s.hs[h]); }
  }

  lemma OwnerStaysOk(s: Sys, n: Sys, h: nat)
    requires OneStep(s, n, h) && ClaimInv(s) && ClaimEffect(s, n, h) && OwnsAt(n, h)
    ensures HandlerOk(n, n.hs[h])
  {
    CountAfter(s, n, h, Throwing);
    if h < |s.hs| { assert HandlerOk(s, s.hs[h]); }
  }

  lemma MovedStaysOk(s: Sys, n: Sys, h: nat)
    requires OneStep(s, n, h) && ClaimInv(s) && ClaimEffect(s, n, h) && CauseEffect(s, n, h)
    requires h < |n.hs| && !OwnsAt(n, h)
    ensures HandlerOk(n, n.hs[h])
  {
    var pc := n.hs[h];
    if h < |s.hs| { assert HandlerOk(s, s.hs[h]); }
    if pc.ApplyStatus? || pc.RecoverWrite? {
      CarriedWasSeen(s, n, h, pc.ps);
    } else if InRefund(pc) {
      if SameCause(s, h, pc.cause) {
        CauseStaysOk(s, n, h, pc.cause, |s.trace|);
      } else {
        CountAfter(s, n, h, LeavingUnresolved);
        CountAfter(s, n, h, Throwing);
        OwnedAfter(s, n, h);
        if pc.cause.StatusReport? { CarriedWasSeen(s, n, h, pc.cause.ps); }
      }
    }
  }

  lemma OtherStaysOk(s: Sys, n: Sys, h: nat, i: nat)
    requires OneStep(s, n, h) && ClaimInv(s) && ClaimEffect(s, n, h)
    requires i < |s.hs| && i != h
    ensures HandlerOk(n, n.hs[i])
  {
    var pc := s.hs[i];
    assert HandlerOk(s, pc);
    CountAfter(s, n, h, Throwing);
    if pc.ApplyStatus? || pc.RecoverWrite? {
      SeenGrows(s, n, h, pc.ps, |s.trace|);
    } else if InRefund(pc) {
      CauseStaysOk(s, n, h, pc.cause, |s.trace|);
    }
  }

  lemma ClaimStep(s: Sys, h: nat, c: Choice)
    requires ClaimInv(s) && HistoryInv(s)
    ensures ClaimInv(Next(s, h, c)) && HistoryInv(Next(s, h, c))
  {
    var n := Next(s, h, c);
    NextIsOneStep(s, h, c);
    if h < |s.hs| { assert HandlerOk(s, s.hs[h]); }
    NextClaimEffect(s, h, c);
    OwnedAfter(s, n, h);
    ClaimCounters(s, n, h);
    forall i | 0 <= i < |n.hs| ensures HandlerOk(n, n.hs[i]) {
      if i != h { OtherStaysOk(s, n, h, i); }
      else if OwnsAt(n, h) { OwnerStaysOk(s, n, h); }
      else { MovedStaysOk(s, n, h); }
    }
    forall i | 0 <= i < |n.trace| && IsRefund(n.trace[i]) ensures CauseOk(n, n.trace[i].cause, i) {
      if i < |s.trace| {
        assert n.trace[i] == s.trace[i];
        CauseStaysOk(s, n, h, s.trace[i].cause, i);
      } else {
        var k := n.trace[i].cause;
        assert Appends(s, n, Refunding);
        if !k.AdminAction? { CauseStaysOk(s, n, h, k, |s.trace|); }
      }
    }
  }

  lemma {:induction false} ClaimAlways(start: Sys, schedule: seq<Step>)
    requires Fresh(start)
    ensures ClaimInv(Run(start, schedule)) && HistoryInv(Run(start, schedule))
  {
    if schedule != [] {
      var init, last := schedule[..|schedule| - 1], schedule[|schedule| - 1];
      ClaimAlways(start, init);
      ClaimStep(Run(start, init), last.h, last.c);
    }
  }

  // -------------------------------------------------------------------------
  // How often placeOrder is called when every reply leaves a mark
  // -------------------------------------------------------------------------

  ghost predicate CallInv(s: Sys) {
    && Placements(s) <= 1
    && (Unclaimed(s.doc) || Unresolved(s) > 0 ==> Placements(s) == 0)
    && (forall i :: 0 <= i < |s.hs| && s.hs[i].ExecCall? ==> Placements(s) == 0)
    && (forall i :: 0 <= i < |s.hs| && s.hs[i].ExecApply? ==> MarkedReply(s.hs[i].reply))
  }

  predicate CallEffect(s: Sys, n: Sys, h: nat) {
    && (AppendsCall(s, n) ==> h < |s.hs| && s.hs[h].ExecCall? && !Unclaimed(n.doc) && !Appends(s, n, LeavingUnresolved))
    && (h < |n.hs| && n.hs[h].ExecCall? ==>
          !AppendsCall(s, n) && (Unclaimed(s.doc) || (h < |s.hs| && s.hs[h].ExecCall?)))
    && (Appends(s, n, LeavingUnresolved) ==> Unclaimed(s.doc) && !AppendsCall(s, n))
  }

  lemma CallSpawn(s: Sys, c: Choice)
    requires IsSpawn(c)
    ensures CallEffect(s, Spawn(s, c), |s.hs|)
    ensures !Spawn(s, c).hs[|s.hs|].ExecApply?
  {}

  lemma CallExecute(s: Sys, h: nat, c: Choice)
    requires h < |s.hs| && InExecute(s.hs[h]) && !(s.hs[h].ExecCall? && Unclaimed(s.doc))
    ensures CallEffect(s, AdvanceExecute(s, h, c), h)
  {}

  lemma AppliesMarked(s: Sys, h: nat, c: Choice)
    requires h < |s.hs| && InExecute(s.hs[h]) && MarkedChoice(c)
    requires s.hs[h].ExecApply? ==> MarkedReply(s.hs[h].reply)
    ensures var n := AdvanceExecute(s, h, c); h < |n.hs| && (n.hs[h].ExecApply? ==> MarkedReply(n.hs[h].reply))
  {}

  lemma CallRefund(s: Sys, h: nat, c: Choice)
    requires h < |s.hs| && InRefund(s.hs[h])
    ensures var n := AdvanceRefund(s, h, c); CallEffect(s, n, h) && (h < |n.hs| ==> !n.hs[h].ExecApply?)
  {}

  lemma CallPoll(s: Sys, h: nat, c: Choice)
    requires h < |s.hs| && !InExecute(s.hs[h]) && !InRefund(s.hs[h])
    ensures var n := AdvancePoll(s, h, c); CallEffect(s, n, h) && (h < |n.hs| ==> !n.hs[h].ExecApply?)
  {}

  lemma NextCallEffect(s: Sys, h: nat, c: Choice)
    requires ClaimInv(s) && CallInv(s) && MarkedChoice(c)
    ensures var n := Next(s, h, c);
            CallEffect(s, n, h) && (h < |n.hs| && n.hs[h].ExecApply? ==> MarkedReply(n.hs[h].reply))
  {
    if IsSpawn(c) {
      if h == |s.hs| { CallSpawn(s, c); }
    } else if h < |s.hs| {
      if InExecute(s.hs[h]) {
        assert s.hs[h].ExecCall? ==> Owned(s);
        CallExecute(s, h, c);
        AppliesMarked(s, h, c);
      }
      else if InRefund(s.hs[h]) { CallRefund(s, h, c); }
      else { CallPoll(s, h, c); }
    }
  }

  lemma CallStep(s: Sys, h: nat, c: Choice)
    requires ClaimInv(s) && CallInv(s) && MarkedChoice(c)
    ensures CallInv(Next(s, h, c))
  {
    var n := Next(s, h, c);
    NextIsOneStep(s, h, c);
    if h < |s.hs| { assert HandlerOk(s, s.hs[h]); }
    NextClaimEffect(s, h, c);
    NextCallEffect(s, h, c);
    CallsAfter(s, n, h);
    CountAfter(s, n, h, LeavingUnresolved);
    CallKept(s, n, h);
  }

  lemma CallKept(s: Sys, n: Sys, h: nat)
    requires ClaimInv(s) && CallInv(s) && OneStep(s, n, h) && ClaimEffect(s, n, h) && CallEffect(s, n, h)
    requires h < |n.hs| && n.hs[h].ExecApply? ==> MarkedReply(n.hs[h].reply)
    requires Placements(n) == Placements(s) + if AppendsCall(s, n) then 1 else 0
    requires Unresolved(n) == Unresolved(s) + if Appends(s, n, LeavingUnresolved) then 1 else 0
    ensures CallInv(n)
  {
    if h < |s.hs| && s.hs[h].ExecCall? { assert Owned(s) && Placements(s) == 0; }
    if h < |s.hs| && s.hs[h].ExecApply? { assert MarkedReply(s.hs[h].reply); }
    forall i | 0 <= i < |n.hs| && n.hs[i].ExecCall? ensures Placements(n) == 0 {
      if i != h {
        assert s.hs[i].ExecCall? && Owns(s.hs[i]);
      }
    }
  }

  ghost predicate Marked(schedule: seq<Step>) {
    forall i :: 0 <= i < |schedule| ==> MarkedChoice(schedule[i].c)
  }

  lemma {:induction false} CallsAlways(start: Sys, schedule: seq<Step>)
    requires Fresh(start) && Marked(schedule)
    ensures CallInv(Run(start, schedule))
  {
    if schedule != [] {
      var init, last := schedule[..|schedule| - 1], schedule[|schedule| - 1];
      assert MarkedChoice(last.c);
      CallsAlways(start, init);
      ClaimAlways(start, init);
      CallStep(Run(start, init), last.h, last.c);
    }
  }
}
