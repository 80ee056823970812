// One run of the multi-provider poller, against the plain loop over the orders
// that were answered.

module PollingRun {
  import opened Options
  import opened OrderModel
  import opened OrderWorld
  import opened OrderPolling
  import opened ProviderPoll

  // usable: the document exists, is active, and an adapter could be built.
  datatype Provider = Provider(usable: bool, adapter: Adapter)

  type Providers = map<string, Provider>

  datatype PollStats = PollStats(checkedOrders: nat, completed: nat, failed: nat, stillProcessing: nat,
                                 skippedOrders: nat)

  predicate Askable(providers: Providers, p: Option<string>) {
    p.Some? && p.value in providers && providers[p.value].usable
  }

  // The orders found: PROCESSING with a provider id, and grouped by provider.
  ghost predicate Loaded(w: World, ids: seq<OrderId>, key: OrderId -> string,
                         providerOf: map<OrderId, Option<string>>) {
    && WellFormed(w) && Distinct(ids)
    && forall i :: 0 <= i < |ids| ==>
         && ids[i] in w.orders && w.orders[ids[i]].doc.status == Processing
         && w.orders[ids[i]].doc.providerOrderId == Some(key(ids[i]))
         && ids[i] in providerOf
  }

  ghost predicate AllTruthful(providers: Providers, truths: map<string, map<string, Answer>>) {
    forall p :: p in providers && providers[p].usable ==> p in truths && Truthful(providers[p].adapter, truths[p])
  }

  // Only usable providers answer for an order, each from its own ids.
  ghost function TruthOf(p: Option<string>, providers: Providers,
                         truths: map<string, map<string, Answer>>): map<string, Answer> {
    if Askable(providers, p) && p.value in truths then truths[p.value] else map[]
  }

  ghost function AnswersOf(ids: seq<OrderId>, key: OrderId -> string, providerOf: map<OrderId, Option<string>>,
                           providers: Providers, truths: map<string, map<string, Answer>>): map<OrderId, Answer> {
    map id | id in ids && id in providerOf && key(id) in TruthOf(providerOf[id], providers, truths)
      :: TruthOf(providerOf[id], providers, truths)[key(id)]
  }

  ghost predicate NeverThrows(providers: Providers) {
    forall p, batch :: p in providers && providers[p].usable ==> providers[p].adapter(batch).Some?
  }

  ghost predicate SameMembers(a: seq<OrderId>, b: seq<OrderId>) { forall id :: id in a <==> id in b }

  // -------------------------------------------------------------------------
  // Counting does not depend on the order of polling
  // -------------------------------------------------------------------------

  function InSlot(w: World, answers: map<OrderId, Answer>, ids: seq<OrderId>, slot: Slot): set<OrderId> {
    set id | id in ids && SlotOf(w, answers, id) == slot
  }

  lemma {:induction false} TallyIsCardinality(w: World, answers: map<OrderId, Answer>, ids: seq<OrderId>)
    requires Distinct(ids)
    ensures Tally(w, answers, ids) ==
            PollResult(|ids|, |InSlot(w, answers, ids, CompletedSlot)|,
                       |InSlot(w, answers, ids, FailedSlot)|, |InSlot(w, answers, ids, PendingSlot)|)
  {
    if ids != [] {
      var init, last := ids[..|ids| - 1], ids[|ids| - 1];
      TallyIsCardinality(w, answers, init);
      OneMoreInSlot(w, answers, init, last, CompletedSlot);
      OneMoreInSlot(w, answers, init, last, FailedSlot);
      OneMoreInSlot(w, answers, init, last, PendingSlot);
      assert ids == init + [last];
    }
  }

  lemma OneMoreInSlot(w: World, answers: map<OrderId, Answer>, ids: seq<OrderId>, id: OrderId, slot: Slot)
    requires id !in ids
    ensures |InSlot(w, answers, ids + [id], slot)| ==
            |InSlot(w, answers, ids, slot)| + if SlotOf(w, answers, id) == slot then 1 else 0
  {
    if SlotOf(w, answers, id) == slot {
      assert InSlot(w, answers, ids + [id], slot) == InSlot(w, answers, ids, slot) + {id};
    } else {
      assert InSlot(w, answers, ids + [id], slot) == InSlot(w, answers, ids, slot);
    }
  }

  lemma TallyOfSameMembers(w: World, answers: map<OrderId, Answer>, a: seq<OrderId>, b: seq<OrderId>)
    requires Distinct(a) && Distinct(b) && SameMembers(a, b)
    ensures Tally(w, answers, a) == Tally(w, answers, b)
  {
    TallyIsCardinality(w, answers, a);
    TallyIsCardinality(w, answers, b);
    forall slot ensures InSlot(w, answers, a, slot) == InSlot(w, answers, b, slot) {}
    var x, y := Tally(w, answers, a), Tally(w, answers, b);
    assert x.completed == y.completed && x.failed == y.failed && x.pending == y.pending;
  }

  // -------------------------------------------------------------------------
  // The counters, from how the orders ended
  // -------------------------------------------------------------------------

  function EndedIn(w: World, ids: seq<OrderId>, to: set<OrderStatus>): set<OrderId> {
    set id | id in ids && id in w.orders && w.orders[id].doc.status in to
  }

  function Unassigned(ids: seq<OrderId>, providerOf: map<OrderId, Option<string>>): set<OrderId> {
    set id | id in ids && id in providerOf && providerOf[id] == None
  }

  // The slot of an order that ended in a status.
  function OutcomeSlot(status: OrderStatus): Slot {
    match status
    case Completed => CompletedSlot
    case Partial => FailedSlot
    case Canceled => FailedSlot
    case Failed => FailedSlot
    case _ => PendingSlot
  }

  function StatusesOf(slot: Slot): set<OrderStatus> {
    match slot
    case CompletedSlot => {Completed}
    case FailedSlot => {Partial, Canceled, Failed}
    case PendingSlot => {Pending, Processing, ManualReview}
  }

  // An open order's slot is that of the status the run left it with.
  lemma SlotIsOutcome(w: World, w0: World, answers: map<OrderId, Answer>, heard: seq<OrderId>, id: OrderId)
    requires Polled(w, w0, answers, heard) && Distinct(heard) && id in w0.orders
    requires w0.orders[id].doc.status == Processing && w0.orders[id].doc.providerOrderId.Some?
    ensures id in w.orders && SlotOf(w0, Among(answers, heard), id) == OutcomeSlot(w.orders[id].doc.status)
  {
    LoopIsLocal(w0, answers, heard, id);
    if id in heard {
      assert id in answers && Among(answers, heard)[id] == answers[id];
      SettledStatus(w0.orders[id], answers[id]);
      AnswerSlot(w0.orders[id].doc, answers[id]);
    } else {
      assert id !in Among(answers, heard);
    }
  }

  lemma AnswerSlot(d: OrderDoc, a: Answer)
    ensures OutcomeSlot(StatusAfter(d, a)) ==
            if AtSwap in a.faults || VerdictOf(a.ps) == InFlight then PendingSlot
            else if VerdictOf(a.ps) == Delivered then CompletedSlot
            else FailedSlot
  {}

  // As they were loaded.
  ghost predicate AllOpen(w: World, ids: seq<OrderId>) {
    forall id :: id in ids ==>
      && id in w.orders && w.orders[id].doc.status == Processing && w.orders[id].doc.providerOrderId.Some?
  }

  lemma SlotsAreOutcomes(w: World, w0: World, answers: map<OrderId, Answer>, heard: seq<OrderId>, ids: seq<OrderId>,
                         slot: Slot)
    requires Polled(w, w0, answers, heard) && Distinct(heard)
    requires AllOpen(w0, ids)
    ensures |InSlot(w0, Among(answers, heard), ids, slot)| == |EndedIn(w, ids, StatusesOf(slot))|
  {
    var some, to := Among(answers, heard), StatusesOf(slot);
    forall id | id in ids ensures id in InSlot(w0, some, ids, slot) <==> id in EndedIn(w, ids, to) {
      SlotIsOutcome(w, w0, answers, heard, id);
    }
    assert InSlot(w0, some, ids, slot) == EndedIn(w, ids, to);
  }

  lemma TallyByOutcome(w: World, w0: World, answers: map<OrderId, Answer>, heard: seq<OrderId>, ids: seq<OrderId>)
    requires Polled(w, w0, answers, heard) && Distinct(heard) && Distinct(ids) && AllOpen(w0, ids)
    ensures Tally(w0, Among(answers, heard), ids) ==
            PollResult(|ids|, |EndedIn(w, ids, {Completed})|, |EndedIn(w, ids, {Partial, Canceled, Failed})|,
                       |EndedIn(w, ids, {Pending, Processing, ManualReview})|)
  {
    TallyIsCardinality(w0, Among(answers, heard), ids);
    SlotsAreOutcomes(w, w0, answers, heard, ids, CompletedSlot);
    SlotsAreOutcomes(w, w0, answers, heard, ids, FailedSlot);
    SlotsAreOutcomes(w, w0, answers, heard, ids, PendingSlot);
  }

  function Members(ids: seq<OrderId>): set<OrderId> { set id | id in ids }

  lemma {:induction false} DistinctCardinality(ids: seq<OrderId>)
    requires Distinct(ids)
    ensures |Members(ids)| == |ids|
  {
    if ids != [] {
      var init, last := ids[..|ids| - 1], ids[|ids| - 1];
      DistinctCardinality(init);
      LastIsNew(ids);
      assert Members(ids) == Members(init) + {last};
    }
  }

  lemma SkippedAreUnassigned(ids: seq<OrderId>, providerOf: map<OrderId, Option<string>>)
    requires Distinct(ids)
    ensures |Select(ids, providerOf, None)| == |Unassigned(ids, providerOf)|
  {
    SelectMembers(ids, providerOf, None);
    DistinctCardinality(Select(ids, providerOf, None));
    assert Members(Select(ids, providerOf, None)) == Unassigned(ids, providerOf);
  }

  // -------------------------------------------------------------------------
  // The run
  // -------------------------------------------------------------------------

  // After the groups of the providers outside left have been polled.
  ghost predicate GroupsPolled(w: World, w0: World, answers: map<OrderId, Answer>, ids: seq<OrderId>,
                               providerOf: map<OrderId, Option<string>>, left: set<Option<string>>,
                               seen: seq<OrderId>, heard: seq<OrderId>, r: PollResult) {
    && Polled(w, w0, answers, heard) && r == Tally(w0, Among(answers, heard), seen)
    && Distinct(seen) && Distinct(heard)
    && (forall id :: id in heard ==> id in seen && id in answers)
    && (forall id :: id in seen <==> id in ids && id in providerOf && providerOf[id] !in left)
  }

  lemma GroupDone(w: World, w1: World, w0: World, answers: map<OrderId, Answer>, ids: seq<OrderId>,
                  providerOf: map<OrderId, Option<string>>, left: set<Option<string>>, k: Option<string>,
                  seen: seq<OrderId>, heard: seq<OrderId>, now: seq<OrderId>, r: PollResult)
    requires GroupsPolled(w, w0, answers, ids, providerOf, left, seen, heard, r) && k in left && Distinct(ids)
    requires Polled(w1, w0, answers, heard + now) && Distinct(now)
    requires forall id :: id in now ==> id in Select(ids, providerOf, k) && id in answers
    ensures var group := Select(ids, providerOf, k);
            GroupsPolled(w1, w0, answers, ids, providerOf, left - {k}, seen + group, heard + now,
                         Plus(r, Tally(w0, Among(answers, now), group)))
  {
    var group := Select(ids, providerOf, k);
    SelectMembers(ids, providerOf, k);
    TallyUnion(w0, answers, seen, heard, group, now);
    Disjoint(seen, group);
    Disjoint(heard, now);
  }

  lemma Disjoint(a: seq<OrderId>, b: seq<OrderId>)
    requires Distinct(a) && Distinct(b) && forall id :: id in a ==> id !in b
    ensures Distinct(a + b)
  {
    forall i, j | 0 <= i < j < |a + b| ensures (a + b)[i] != (a + b)[j] {
      if i < |a| <= j { assert a[i] in a && b[j - |a|] in b; }
    }
  }

  // One provider's task of the run.  The group without a provider is skipped.
  method PollGroup(poller: Poller, k: Option<string>, group: seq<OrderId>, key: OrderId -> string,
                   providers: Providers, size: nat, ghost truths: map<string, map<string, Answer>>,
                   ghost w0: World, ghost answers: map<OrderId, Answer>, ghost before: seq<OrderId>)
    returns (r: PollResult, ghost now: seq<OrderId>)
    requires size > 0 && AllTruthful(providers, truths)
    requires Polled(poller.world, w0, answers, before) && Distinct(before + group)
    requires forall i :: 0 <= i < |group| ==>
               AnswersFor(group[i], key, TruthOf(k, providers, truths), w0, answers)
    modifies poller
    ensures Polled(poller.world, w0, answers, before + now)
    ensures r == Tally(w0, Among(answers, now), group)
    ensures Distinct(now) && forall id :: id in now ==> id in group && id in answers
    ensures NeverThrows(providers) ==> forall id :: id in group && id in answers ==> id in now
  {
    DistinctParts(before, group, before, group);
    var usable := Askable(providers, k);
    var adapter: Adapter := if usable then providers[k.value].adapter else (batch => None);
    ghost var batches;
    r, batches := poller.PollProviderGroup(group, key, usable, adapter, size, TruthOf(k, providers, truths),
                                           w0, answers, before);
    now := Heard(batches, key, adapter, answers);
    HeardMembers(batches, key, adapter, answers);
    if NeverThrows(providers) {
      if usable {
        NothingThrown(batches, key, adapter, answers);
        AnsweredMembers(group, answers);
      } else {
        forall id | id in group ensures id !in answers {
          var i :| 0 <= i < |group| && group[i] == id;
          assert AnswersFor(group[i], key, map[], w0, answers);
        }
      }
    }
  }

  // The run left every order and wallet where the plain loop over the orders it
  // heard of leaves them; when no call throws, those are the answered orders.
  ghost predicate AsTheLoop(w: World, w0: World, answers: map<OrderId, Answer>, ids: seq<OrderId>,
                            heard: seq<OrderId>, never: bool) {
    && Polled(w, w0, answers, heard) && Distinct(heard)
    && (forall id :: id in heard ==> id in ids && id in answers)
    && (never ==> Polled(w, w0, answers, Answered(ids, answers)))
  }

  // Every heard order is counted by its outcome, every other one as processing.
  ghost predicate CountsAsLoop(stats: PollStats, w0: World, answers: map<OrderId, Answer>, ids: seq<OrderId>,
                               providerOf: map<OrderId, Option<string>>, heard: seq<OrderId>) {
    var r := Tally(w0, Among(answers, heard), ids);
    stats == PollStats(|ids|, r.completed, r.failed, r.pending, |Select(ids, providerOf, None)|)
  }

  // Each loaded order is counted once, by the status the run left it with.
  ghost predicate CountsOutcomes(stats: PollStats, w: World, ids: seq<OrderId>,
                                 providerOf: map<OrderId, Option<string>>) {
    && stats.checkedOrders == |ids|
    && stats.completed == |EndedIn(w, ids, {Completed})|
    && stats.failed == |EndedIn(w, ids, {Partial, Canceled, Failed})|
    && stats.stillProcessing == |EndedIn(w, ids, {Pending, Processing, ManualReview})|
    && stats.checkedOrders == stats.completed + stats.failed + stats.stillProcessing
    && stats.skippedOrders == |Unassigned(ids, providerOf)|
  }

  lemma CountedByOutcome(stats: PollStats, w: World, w0: World, answers: map<OrderId, Answer>, ids: seq<OrderId>,
                         key: OrderId -> string, providerOf: map<OrderId, Option<string>>, heard: seq<OrderId>)
    requires Loaded(w0, ids, key, providerOf) && Polled(w, w0, answers, heard) && Distinct(heard)
    requires CountsAsLoop(stats, w0, answers, ids, providerOf, heard)
    ensures CountsOutcomes(stats, w, ids, providerOf)
  {
    assert AllOpen(w0, ids);
    TallyByOutcome(w, w0, answers, heard, ids);
    SkippedAreUnassigned(ids, providerOf);
  }

  method PollNextGroup(poller: Poller, k: Option<string>, group: seq<OrderId>, r0: PollResult,
                       key: OrderId -> string, providers: Providers, size: nat,
                       ghost truths: map<string, map<string, Answer>>, ghost w0: World,
                       ghost answers: map<OrderId, Answer>, ghost ids: seq<OrderId>,
                       ghost providerOf: map<OrderId, Option<string>>, ghost left: set<Option<string>>,
                       ghost seen: seq<OrderId>, ghost heard: seq<OrderId>)
    returns (r: PollResult, ghost now: seq<OrderId>)
    requires size > 0 && AllTruthful(providers, truths) && Loaded(w0, ids, key, providerOf)
    requires answers == AnswersOf(ids, key, providerOf, providers, truths)
    requires GroupsPolled(poller.world, w0, answers, ids, providerOf, left, seen, heard, r0)
    requires k in left && group == Select(ids, providerOf, k)
    modifies poller
    ensures GroupsPolled(poller.world, w0, answers, ids, providerOf, left - {k}, seen + group, heard + now, r)
    ensures NeverThrows(providers) ==> forall id :: id in group && id in answers ==> id in now
  {
    SelectMembers(ids, providerOf, k);
    Disjoint(heard, group);
    AskedOf(w0, ids, key, providerOf, providers, truths, k);
    ghost var w := poller.world;
    var got;
    got, now := PollGroup(poller, k, group, key, providers, size, truths, w0, answers, heard);
    GroupDone(w, poller.world, w0, answers, ids, providerOf, left, k, seen, heard, now, r0);
    r := Plus(r0, got);
  }

  // Groups finish in any order.
  method PollPendingOrders(poller: Poller, ids: seq<OrderId>, key: OrderId -> string,
                           providerOf: map<OrderId, Option<string>>, providers: Providers, size: nat,
                           ghost truths: map<string, map<string, Answer>>)
    returns (stats: PollStats, ghost heard: seq<OrderId>)
    requires size > 0 && AllTruthful(providers, truths) && Loaded(poller.world, ids, key, providerOf)
    modifies poller
    ensures AsTheLoop(poller.world, old(poller.world), AnswersOf(ids, key, providerOf, providers, truths),
                      ids, heard, NeverThrows(providers))
    ensures CountsAsLoop(stats, old(poller.world), AnswersOf(ids, key, providerOf, providers, truths),
                         ids, providerOf, heard)
    ensures CountsOutcomes(stats, poller.world, ids, providerOf)
  {
    var keys, groups := GroupOrdersByProvider(ids, providerOf);
    GroupsPartition(ids, providerOf);
    ghost var w0, answers := poller.world, AnswersOf(ids, key, providerOf, providers, truths);
    NothingPolled(w0, answers, ids, providerOf, groups.Keys);
    var r; ghost var seen;
    r, seen, heard := PollGroups(poller, groups, key, providers, size, truths, w0, answers, ids, providerOf);
    RunEnds(poller.world, w0, answers, ids, providerOf, seen, heard, r, NeverThrows(providers));
    var skipped := if None in groups then |groups[None]| else 0;
    stats := PollStats(|ids|, r.completed, r.failed, r.pending, skipped);
    CountedByOutcome(stats, poller.world, w0, answers, ids, key, providerOf, heard);
  }

  method PollGroups(poller: Poller, groups: Groups, key: OrderId -> string, providers: Providers, size: nat,
                    ghost truths: map<string, map<string, Answer>>, ghost w0: World,
                    ghost answers: map<OrderId, Answer>, ghost ids: seq<OrderId>,
                    ghost providerOf: map<OrderId, Option<string>>)
    returns (r: PollResult, ghost seen: seq<OrderId>, ghost heard: seq<OrderId>)
    requires size > 0 && AllTruthful(providers, truths) && Loaded(w0, ids, key, providerOf)
    requires answers == AnswersOf(ids, key, providerOf, providers, truths)
    requires forall k :: k in groups ==> groups[k] == Select(ids, providerOf, k)
    requires GroupsPolled(poller.world, w0, answers, ids, providerOf, groups.Keys, [], [], PollResult(0, 0, 0, 0))
    modifies poller
    ensures GroupsPolled(poller.world, w0, answers, ids, providerOf, {}, seen, heard, r)
    ensures NeverThrows(providers) ==> forall id :: id in seen && id in answers ==> id in heard
  {
    var left := groups.Keys;
    r, seen, heard := PollResult(0, 0, 0, 0), [], [];
    while left != {}
      invariant left <= groups.Keys
      invariant GroupsPolled(poller.world, w0, answers, ids, providerOf, left, seen, heard, r)
      invariant NeverThrows(providers) ==> forall id :: id in seen && id in answers ==> id in heard
      decreases |left|
    {
      var k :| k in left;
      ghost var now;
      r, now := PollNextGroup(poller, k, groups[k], r, key, providers, size, truths, w0, answers, ids, providerOf,
                              left, seen, heard);
      left, seen, heard := left - {k}, seen + groups[k], heard + now;
    }
  }

  lemma NothingPolled(w: World, answers: map<OrderId, Answer>, ids: seq<OrderId>,
                      providerOf: map<OrderId, Option<string>>, left: set<Option<string>>)
    requires WellFormed(w) && forall i :: 0 <= i < |ids| ==> ids[i] in providerOf
    requires forall k :: k in left <==> Select(ids, providerOf, k) != []
    ensures GroupsPolled(w, w, answers, ids, providerOf, left, [], [], PollResult(0, 0, 0, 0))
  {
    forall id | id in ids ensures providerOf[id] in left { SelectMembers(ids, providerOf, providerOf[id]); }
  }

  lemma RunEnds(w: World, w0: World, answers: map<OrderId, Answer>, ids: seq<OrderId>,
                providerOf: map<OrderId, Option<string>>, seen: seq<OrderId>, heard: seq<OrderId>, r: PollResult,
                never: bool)
    requires GroupsPolled(w, w0, answers, ids, providerOf, {}, seen, heard, r) && Distinct(ids)
    requires forall i :: 0 <= i < |ids| ==> ids[i] in providerOf && ids[i] in w0.orders
    requires never ==> forall id :: id in seen && id in answers ==> id in heard
    ensures AsTheLoop(w, w0, answers, ids, heard, never)
    ensures r == Tally(w0, Among(answers, heard), ids)
  {
    assert SameMembers(seen, ids);
    TallyOfSameMembers(w0, Among(answers, heard), seen, ids);
    if never { HeardIsAnswered(w0, answers, ids, heard); }
  }

  lemma AskedOf(w: World, ids: seq<OrderId>, key: OrderId -> string, providerOf: map<OrderId, Option<string>>,
                providers: Providers, truths: map<string, map<string, Answer>>, k: Option<string>)
    requires Loaded(w, ids, key, providerOf)
    ensures var group := Select(ids, providerOf, k);
            forall i :: 0 <= i < |group| ==>
              AnswersFor(group[i], key, TruthOf(k, providers, truths), w,
                         AnswersOf(ids, key, providerOf, providers, truths))
  {
    SelectMembers(ids, providerOf, k);
    var group := Select(ids, providerOf, k);
    forall i | 0 <= i < |group|
      ensures group[i] in w.orders && group[i] in ids && providerOf[group[i]] == k
    {
      assert group[i] in group;
    }
  }

  lemma HeardIsAnswered(w: World, answers: map<OrderId, Answer>, ids: seq<OrderId>, heard: seq<OrderId>)
    requires Pollable(w, answers, heard) && Distinct(ids) && Distinct(heard)
    requires forall id :: id in ids ==> id in w.orders
    requires forall id :: id in heard <==> id in ids && id in answers
    ensures Pollable(w, answers, Answered(ids, answers))
    ensures PollEach(w, answers, Answered(ids, answers)) == PollEach(w, answers, heard)
  {
    AnsweredMembers(ids, answers);
    var answered := Answered(ids, answers);
    forall i | 0 <= i < |answered| ensures answered[i] in w.orders && answered[i] in answers {
      assert answered[i] in answered;
    }
    LoopOrderIsIrrelevant(w, answers, heard, answered);
  }
}
