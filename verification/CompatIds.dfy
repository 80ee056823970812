// Sequence numbers and compatibility ids under any number of concurrent
// callers: getNextSequence as its three database operations, the compare-and-
// swap that stores an id, the insert of a new document, and the backfill's sync.

module CompatIds {
  import opened Options

  type DocId = nat

  const MAX_ATTEMPTS := 5

  // Why a number is wanted: to give an existing document its id and return it,
  // to fill it in from the script, or to insert a new document with it.
  datatype Goal = Ensure(doc: DocId) | Fill(doc: DocId) | Insert(doc: DocId)

  datatype Pc =
    | FindCounter(goal: Goal, attempt: nat)
    | CreateCounter(goal: Goal, attempt: nat)
    | Increment(goal: Goal, attempt: nat)
    | Assign(goal: Goal, attempt: nat, n: int)
    | Reread(goal: Goal, attempt: nat)
    | RaiseCounter(target: int)
    | Returned(doc: DocId, id: int)
    | Finished
    | GaveUp(goal: Goal)

  // ids: the documents, with the id each has, if any.  issued: every number
  // getNextSequence has returned.
  datatype Registry = Registry(startAt: int, counter: Option<int>, ids: map<DocId, Option<int>>,
                               issued: seq<int>, hs: seq<Pc>)

  datatype Action = SpawnEnsure(doc: DocId) | SpawnFill(doc: DocId) | SpawnInsert(doc: DocId)
                  | SpawnSync(max: int) | Advance

  datatype Step = Step(h: nat, a: Action)

  predicate Used(ids: map<DocId, Option<int>>, n: int) { exists d :: d in ids && ids[d] == Some(n) }

  predicate Missing(ids: map<DocId, Option<int>>, d: DocId) { d in ids && ids[d] == None }

  // What the script reads as the number to raise the counter to.
  predicate IsSyncTarget(r: Registry, max: int) {
    && max >= r.startAt && (forall d :: d in r.ids && r.ids[d].Some? ==> r.ids[d].value <= max)
    && (max == r.startAt || Used(r.ids, max))
  }

  // The next number issued is one more.
  function Top(r: Registry): int { if r.counter.Some? then r.counter.value else r.startAt }

  function Goto(r: Registry, h: nat, pc: Pc): Registry
    requires h < |r.hs|
  {
    r.(hs := r.hs[h := pc])
  }

  function Retry(goal: Goal, attempt: nat): Pc {
    if attempt < MAX_ATTEMPTS then FindCounter(goal, attempt + 1) else GaveUp(goal)
  }

  function Next(r: Registry, h: nat, a: Action): Registry {
    match a
    case Advance => if h < |r.hs| then Proceed(r, h) else r
    case SpawnEnsure(d) =>
      if d !in r.ids then r
      else r.(hs := r.hs + [if r.ids[d].Some? then Returned(d, r.ids[d].value) else FindCounter(Ensure(d), 1)])
    case SpawnFill(d) => if d in r.ids then r.(hs := r.hs + [FindCounter(Fill(d), 1)]) else r
    case SpawnInsert(d) => r.(hs := r.hs + [FindCounter(Insert(d), 1)])
    case SpawnSync(max) => if IsSyncTarget(r, max) then r.(hs := r.hs + [RaiseCounter(max)]) else r
  }

  function Proceed(r: Registry, h: nat): Registry
    requires h < |r.hs|
  {
    match r.hs[h]
    case FindCounter(g, k) => Goto(r, h, if r.counter.None? then CreateCounter(g, k) else Increment(g, k))
    case CreateCounter(g, k) =>
      Goto(r.(counter := if r.counter.None? then Some(r.startAt) else r.counter), h, Increment(g, k))
    case Increment(g, k) =>
      if r.counter.None? then Goto(r, h, GaveUp(g))
      else
        var n := r.counter.value + 1;
        Goto(r.(counter := Some(n), issued := r.issued + [n]), h, Assign(g, k, n))
    case Assign(g, k, n) => Store(r, h, g, k, n)
    case Reread(g, k) =>
      Goto(r, h, if g.doc in r.ids && r.ids[g.doc].Some? then Returned(g.doc, r.ids[g.doc].value) else Retry(g, k))
    case RaiseCounter(t) =>
      Goto(r.(counter := Some(if r.counter.Some? && r.counter.value > t then r.counter.value else t)), h, Finished)
    case _ => r
  }

  // The write of an id: guarded by the document still missing one, and by the
  // unique index.
  function Store(r: Registry, h: nat, g: Goal, k: nat, n: int): Registry
    requires h < |r.hs|
  {
    match g
    case Ensure(d) =>
      if !Missing(r.ids, d) then Goto(r, h, Reread(g, k))
      else if Used(r.ids, n) then Goto(r, h, Retry(g, k))
      else Goto(r.(ids := r.ids[d := Some(n)]), h, Returned(d, n))
    case Fill(d) =>
      if !Missing(r.ids, d) then Goto(r, h, Finished)
      else if Used(r.ids, n) then Goto(r, h, Retry(g, k))
      else Goto(r.(ids := r.ids[d := Some(n)]), h, Finished)
    case Insert(d) =>
      if d in r.ids || Used(r.ids, n) then Goto(r, h, GaveUp(g))
      else Goto(r.(ids := r.ids[d := Some(n)]), h, Finished)
  }

  function Run(r: Registry, steps: seq<Step>): Registry {
    if steps == [] then r
    else
      var last := steps[|steps| - 1];
      Next(Run(r, steps[..|steps| - 1]), last.h, last.a)
  }

  ghost predicate Opening(r: Registry) {
    && r.issued == [] && r.hs == []
    && (forall d, e :: d in r.ids && e in r.ids && d != e && r.ids[d].Some? ==> r.ids[d] != r.ids[e])
  }

  // -------------------------------------------------------------------------
  // Invariants of every run
  // -------------------------------------------------------------------------

  // Numbers grow, and none exceeds the counter; no two callers hold the same.
  ghost predicate SequenceInv(r: Registry) {
    && (forall i, j :: 0 <= i < j < |r.issued| ==> r.issued[i] < r.issued[j])
    && BelowCounter(r)
    && (forall h :: 0 <= h < |r.hs| ==> PcInv(r, r.hs[h]))
    && (forall g, h :: 0 <= g < h < |r.hs| && r.hs[g].Assign? && r.hs[h].Assign? ==> r.hs[g].n != r.hs[h].n)
  }

  ghost predicate BelowCounter(r: Registry) {
    forall i :: 0 <= i < |r.issued| ==> r.counter.Some? && r.issued[i] <= r.counter.value
  }

  predicate PcInv(r: Registry, pc: Pc) {
    match pc
    case Assign(_, _, n) => n in r.issued
    case Increment(_, _) => r.counter.Some?
    case RaiseCounter(target) => r.startAt <= target
    case _ => true
  }

  // No two documents share an id, and callers were told the stored one.
  ghost predicate IdentityInv(r: Registry) {
    && (forall d, e :: d in r.ids && e in r.ids && d != e && r.ids[d].Some? ==> r.ids[d] != r.ids[e])
    && (forall h :: 0 <= h < |r.hs| && r.hs[h].Returned? ==>
          r.hs[h].doc in r.ids && r.ids[r.hs[h].doc] == Some(r.hs[h].id))
  }

  lemma SequenceStep(r: Registry, h: nat, a: Action)
    requires SequenceInv(r)
    ensures SequenceInv(Next(r, h, a))
  {
    var n := Next(r, h, a);
    if a.Advance? && h < |r.hs| && r.hs[h].Increment? && r.counter.Some? {
      IncrementKeepsSequence(r, h);
    } else {
      OthersKeepSequence(r, n, h, a);
    }
  }

  lemma OthersKeepSequence(r: Registry, n: Registry, h: nat, a: Action)
    requires SequenceInv(r) && n == Next(r, h, a)
    requires !(a.Advance? && h < |r.hs| && r.hs[h].Increment? && r.counter.Some?)
    ensures SequenceInv(n)
  {
    CounterOnlyGrows(r, h, a);
    StaysBelow(r, n);
    OthersKeepHandlers(r, n, h, a);
    forall g, k | 0 <= g < k < |n.hs| && n.hs[g].Assign? && n.hs[k].Assign? ensures n.hs[g].n != n.hs[k].n {
      assert n.hs[g] == r.hs[g] && n.hs[k] == r.hs[k];
    }
  }

  lemma StaysBelow(r: Registry, n: Registry)
    requires BelowCounter(r) && n.issued == r.issued
    requires Top(r) <= Top(n) && (r.counter.Some? ==> n.counter.Some?)
    ensures BelowCounter(n)
  {
    forall i | 0 <= i < |n.issued| ensures n.counter.Some? && n.issued[i] <= n.counter.value {
      assert r.counter.Some? && r.issued[i] <= Top(r);
    }
  }

  lemma OthersKeepHandlers(r: Registry, n: Registry, h: nat, a: Action)
    requires SequenceInv(r) && n == Next(r, h, a)
    requires !(a.Advance? && h < |r.hs| && r.hs[h].Increment? && r.counter.Some?)
    ensures forall k :: 0 <= k < |n.hs| ==> PcInv(n, n.hs[k])
    ensures forall k :: 0 <= k < |n.hs| && n.hs[k].Assign? ==> k < |r.hs| && n.hs[k] == r.hs[k]
  {
    CounterOnlyGrows(r, h, a);
    forall k | 0 <= k < |n.hs| ensures PcInv(n, n.hs[k]) {
      if k < |r.hs| { assert PcInv(r, r.hs[k]); }
    }
  }

  lemma CounterOnlyGrows(r: Registry, h: nat, a: Action)
    requires SequenceInv(r)
    ensures var n := Next(r, h, a);
            && Top(r) <= Top(n) && n.startAt == r.startAt && (r.counter.Some? ==> n.counter.Some?)
            && (!(a.Advance? && h < |r.hs| && r.hs[h].Increment? && r.counter.Some?) ==> n.issued == r.issued)
  {
    if a.Advance? && h < |r.hs| { assert PcInv(r, r.hs[h]); }
  }

  lemma IncrementKeepsSequence(r: Registry, h: nat)
    requires SequenceInv(r) && h < |r.hs| && r.hs[h].Increment? && r.counter.Some?
    ensures SequenceInv(Proceed(r, h))
  {
    var n, v := Proceed(r, h), r.counter.value + 1;
    assert n.issued == r.issued + [v];
    assert v !in r.issued;
    forall k | 0 <= k < |n.hs| ensures PcInv(n, n.hs[k]) {
      assert PcInv(r, r.hs[k]);
      if k == h { assert n.issued[|r.issued|] == v; }
    }
    forall k | 0 <= k < |r.hs| && r.hs[k].Assign? ensures r.hs[k].n != v { assert PcInv(r, r.hs[k]); }
  }

  lemma DistinctStays(r: Registry, h: nat, a: Action)
    requires IdentityInv(r)
    ensures var n := Next(r, h, a);
            forall d, e :: d in n.ids && e in n.ids && d != e && n.ids[d].Some? ==> n.ids[d] != n.ids[e]
  {
    var n := Next(r, h, a);
    if n.ids != r.ids {
      assert a.Advance? && h < |r.hs| && r.hs[h].Assign? && !Used(r.ids, r.hs[h].n);
      assert n == Store(r, h, r.hs[h].goal, r.hs[h].attempt, r.hs[h].n);
      assert n.ids == r.ids[r.hs[h].goal.doc := Some(r.hs[h].n)];
    }
  }

  predicate Told(r: Registry, pc: Pc) { pc.Returned? ==> pc.doc in r.ids && r.ids[pc.doc] == Some(pc.id) }

  lemma OwnReturn(r: Registry, h: nat)
    requires h < |r.hs| && Told(r, r.hs[h])
    ensures Told(Proceed(r, h), Proceed(r, h).hs[h])
  {}

  lemma IdentityStep(r: Registry, h: nat, a: Action)
    requires IdentityInv(r)
    ensures IdentityInv(Next(r, h, a))
  {
    var n := Next(r, h, a);
    DistinctStays(r, h, a);
    forall k | 0 <= k < |n.hs| ensures Told(n, n.hs[k]) { StillTold(r, h, a, k); }
  }

  lemma StillTold(r: Registry, h: nat, a: Action, k: nat)
    requires IdentityInv(r) && k < |Next(r, h, a).hs|
    ensures Told(Next(r, h, a), Next(r, h, a).hs[k])
  {
    if k < |r.hs| { assert Told(r, r.hs[k]); }
    if a.Advance? && h < |r.hs| && k == h {
      OwnReturn(r, h);
    } else if k < |r.hs| {
      IdsAreKept(r, h, a);
      assert Next(r, h, a).hs[k] == r.hs[k];
    }
  }

  // An id, once stored, stays; documents stay.
  lemma IdsAreKept(r: Registry, h: nat, a: Action)
    ensures forall d :: d in r.ids ==> d in Next(r, h, a).ids && (r.ids[d].Some? ==> Next(r, h, a).ids[d] == r.ids[d])
  {}

  // Whatever the interleaving, numbers are issued in increasing order, ids are
  // distinct, and every caller on one document was returned its one stored id.
  lemma {:induction false} IdsAreUnique(start: Registry, steps: seq<Step>)
    requires Opening(start)
    ensures SequenceInv(Run(start, steps)) && IdentityInv(Run(start, steps))
  {
    if steps != [] {
      var init, last := steps[..|steps| - 1], steps[|steps| - 1];
      IdsAreUnique(start, init);
      SequenceStep(Run(start, init), last.h, last.a);
      IdentityStep(Run(start, init), last.h, last.a);
    }
  }

  lemma AllCallersAgree(start: Registry, steps: seq<Step>, g: nat, h: nat)
    requires Opening(start)
    requires var r := Run(start, steps);
             g < |r.hs| && h < |r.hs| && r.hs[g].Returned? && r.hs[h].Returned?
    ensures var r := Run(start, steps);
            r.hs[g].doc == r.hs[h].doc <==> r.hs[g].id == r.hs[h].id
  {
    IdsAreUnique(start, steps);
  }

  lemma {:induction false} IdsAreAssignedOnce(start: Registry, before: seq<Step>, after: seq<Step>, d: DocId)
    requires d in Run(start, before).ids && Run(start, before).ids[d].Some?
    ensures d in Run(start, before + after).ids
    ensures Run(start, before + after).ids[d] == Run(start, before).ids[d]
  {
    if after == [] {
      assert before + after == before;
    } else {
      var init, last := after[..|after| - 1], after[|after| - 1];
      IdsAreAssignedOnce(start, before, init, d);
      assert (before + after)[..|before + after| - 1] == before + init;
      IdsAreKept(Run(start, before + init), last.h, last.a);
    }
  }

  // -------------------------------------------------------------------------
  // Without the script: a contiguous range
  // -------------------------------------------------------------------------

  predicate NoSync(steps: seq<Step>) { forall i :: 0 <= i < |steps| ==> !steps[i].a.SpawnSync? }

  ghost predicate Contiguous(r: Registry, base: int) {
    && |r.issued| >= 0 && (forall i :: 0 <= i < |r.issued| ==> r.issued[i] == base + 1 + i)
    && (if r.counter.Some? then r.counter.value == base + |r.issued| else base == r.startAt && r.issued == [])
    && forall h :: 0 <= h < |r.hs| ==> !r.hs[h].RaiseCounter?
  }

  lemma ContiguousStep(r: Registry, h: nat, a: Action, base: int)
    requires Contiguous(r, base) && !a.SpawnSync?
    ensures Contiguous(Next(r, h, a), base)
  {
    var n := Next(r, h, a);
    forall k | 0 <= k < |n.hs| ensures !n.hs[k].RaiseCounter? {
      if k < |r.hs| { assert !r.hs[k].RaiseCounter?; }
    }
    if n.issued != r.issued { assert n.issued == r.issued + [base + |r.issued| + 1]; }
  }

  lemma {:induction false} NumbersAreContiguous(start: Registry, steps: seq<Step>)
    requires Opening(start) && NoSync(steps)
    ensures Contiguous(Run(start, steps), Top(start))
  {
    if steps != [] {
      var init, last := steps[..|steps| - 1], steps[|steps| - 1];
      NumbersAreContiguous(start, init);
      assert !last.a.SpawnSync?;
      ContiguousStep(Run(start, init), last.h, last.a, Top(start));
    }
  }

  // -------------------------------------------------------------------------
  // After the sync: every number is free
  // -------------------------------------------------------------------------

  ghost predicate Below(r: Registry) {
    forall d :: d in r.ids && r.ids[d].Some? ==> r.ids[d].value <= Top(r)
  }

  // No number waiting to be stored is taken.
  ghost predicate Free(r: Registry) {
    Below(r) && forall h :: 0 <= h < |r.hs| && r.hs[h].Assign? ==> !Used(r.ids, r.hs[h].n)
  }

  // Every document that existed when the maximum was read, or was given an id
  // since, is below the counter once it is raised.
  ghost predicate SyncInv(r: Registry) {
    forall h :: 0 <= h < |r.hs| && r.hs[h].RaiseCounter? ==>
      forall d :: d in r.ids && r.ids[d].Some? ==> r.ids[d].value <= r.hs[h].target || r.ids[d].value in r.issued
  }

  lemma SyncStep(r: Registry, h: nat, a: Action)
    requires SyncInv(r) && SequenceInv(r)
    ensures SyncInv(Next(r, h, a))
  {
    var n := Next(r, h, a);
    CounterOnlyGrows(r, h, a);
    forall k, d | 0 <= k < |n.hs| && n.hs[k].RaiseCounter? && d in n.ids && n.ids[d].Some?
      ensures n.ids[d].value <= n.hs[k].target || n.ids[d].value in n.issued
    {
      NewIdsWereIssued(r, h, a, d);
      if k < |r.hs| { assert n.hs[k] == r.hs[k]; }
    }
  }

  // A stored id is an old one or a number that was issued.
  lemma NewIdsWereIssued(r: Registry, h: nat, a: Action, d: DocId)
    requires SequenceInv(r) && d in Next(r, h, a).ids && Next(r, h, a).ids[d].Some?
    ensures (d in r.ids && r.ids[d] == Next(r, h, a).ids[d]) || Next(r, h, a).ids[d].value in r.issued
    ensures Next(r, h, a).ids != r.ids ==> a.Advance? && Next(r, h, a).issued == r.issued
    ensures r.issued <= Next(r, h, a).issued
  {
    if a.Advance? && h < |r.hs| {
      assert PcInv(r, r.hs[h]);
      if r.hs[h].Assign? { assert Next(r, h, a) == Store(r, h, r.hs[h].goal, r.hs[h].attempt, r.hs[h].n); }
    }
  }

  lemma RaiseEstablishesBelow(r: Registry, h: nat)
    requires SyncInv(r) && SequenceInv(r) && h < |r.hs| && r.hs[h].RaiseCounter?
    ensures Below(Next(r, h, Advance))
  {
    var n := Next(r, h, Advance);
    forall d | d in n.ids && n.ids[d].Some? ensures n.ids[d].value <= Top(n) {
      if n.ids[d].value in r.issued {
        var i :| 0 <= i < |r.issued| && r.issued[i] == n.ids[d].value;
      }
    }
  }

  lemma BelowStays(r: Registry, h: nat, a: Action)
    requires Below(r) && SequenceInv(r)
    ensures Below(Next(r, h, a))
  {
    var n := Next(r, h, a);
    CounterOnlyGrows(r, h, a);
    if n.ids != r.ids {
      assert PcInv(r, r.hs[h]);
      assert n == Store(r, h, r.hs[h].goal, r.hs[h].attempt, r.hs[h].n);
      assert n.ids == r.ids[r.hs[h].goal.doc := Some(r.hs[h].n)];
      var i :| 0 <= i < |r.issued| && r.issued[i] == r.hs[h].n;
    }
  }

  lemma {:induction false} SyncAlways(start: Registry, steps: seq<Step>)
    requires Opening(start)
    ensures SyncInv(Run(start, steps))
  {
    if steps != [] {
      var init, last := steps[..|steps| - 1], steps[|steps| - 1];
      SyncAlways(start, init);
      IdsAreUnique(start, init);
      SyncStep(Run(start, init), last.h, last.a);
    }
  }

  // Once the script has raised the counter - whatever ran in between - every
  // number issued from then on is free when issued.
  lemma {:induction false} SyncMakesNumbersFresh(start: Registry, before: seq<Step>, h: nat, after: seq<Step>)
    requires Opening(start)
    requires h < |Run(start, before).hs| && Run(start, before).hs[h].RaiseCounter?
    ensures var r := Run(start, before + [Step(h, Advance)] + after);
            Below(r) && !Used(r.ids, Top(r) + 1)
  {
    var raised := before + [Step(h, Advance)];
    if after == [] {
      assert raised + after == raised && raised[..|before|] == before;
      IdsAreUnique(start, before);
      SyncAlways(start, before);
      RaiseEstablishesBelow(Run(start, before), h);
    } else {
      var init, last := after[..|after| - 1], after[|after| - 1];
      SyncMakesNumbersFresh(start, before, h, init);
      assert (raised + after)[..|raised + after| - 1] == raised + init;
      IdsAreUnique(start, raised + init);
      BelowStays(Run(start, raised + init), last.h, last.a);
    }
  }

  // One step: a pending number stays free, and a new one is free.
  lemma StaysFree(r: Registry, h: nat, a: Action, k: nat)
    requires Below(r) && SequenceInv(r) && k < |Next(r, h, a).hs| && Next(r, h, a).hs[k].Assign?
    requires k < |r.hs| && Next(r, h, a).hs[k] == r.hs[k] ==> !Used(r.ids, r.hs[k].n)
    ensures !Used(Next(r, h, a).ids, Next(r, h, a).hs[k].n)
  {
    var n := Next(r, h, a);
    if k < |r.hs| && n.hs[k] == r.hs[k] {
      if n.ids != r.ids { assert n.hs[k].n != r.hs[h].n; }
    } else {
      assert n.hs[k].n == r.counter.value + 1;
    }
  }

  // Every number above c that waits to be stored is free.
  ghost predicate FreeAbove(r: Registry, c: int) {
    && Below(r) && c <= Top(r)
    && forall h :: 0 <= h < |r.hs| && r.hs[h].Assign? && r.hs[h].n > c ==> !Used(r.ids, r.hs[h].n)
  }

  lemma FreeAboveStep(r: Registry, h: nat, a: Action, c: int)
    requires FreeAbove(r, c) && SequenceInv(r)
    ensures FreeAbove(Next(r, h, a), c)
  {
    var n := Next(r, h, a);
    BelowStays(r, h, a);
    CounterOnlyGrows(r, h, a);
    forall k | 0 <= k < |n.hs| && n.hs[k].Assign? && n.hs[k].n > c ensures !Used(n.ids, n.hs[k].n) {
      StaysFree(r, h, a, k);
    }
  }

  // The raise starts it: what was pending then had been issued, so is not above.
  lemma RaiseFreesAbove(r: Registry, h: nat)
    requires SyncInv(r) && SequenceInv(r) && h < |r.hs| && r.hs[h].RaiseCounter?
    ensures var n := Next(r, h, Advance); FreeAbove(n, Top(n))
  {
    var n := Next(r, h, Advance);
    RaiseEstablishesBelow(r, h);
    CounterOnlyGrows(r, h, Advance);
    forall k | 0 <= k < |n.hs| && n.hs[k].Assign? ensures n.hs[k].n <= Top(n) {
      assert n.hs[k] == r.hs[k] && PcInv(r, r.hs[k]);
      var i :| 0 <= i < |r.issued| && r.issued[i] == r.hs[k].n;
    }
  }

  lemma {:induction false} FreeAboveStays(start: Registry, before: seq<Step>, after: seq<Step>, c: int)
    requires Opening(start) && FreeAbove(Run(start, before), c)
    ensures FreeAbove(Run(start, before + after), c)
    ensures Top(Run(start, before)) <= Top(Run(start, before + after))
  {
    if after == [] {
      assert before + after == before;
    } else {
      var init, last := after[..|after| - 1], after[|after| - 1];
      FreeAboveStays(start, before, init, c);
      assert (before + after)[..|before + after| - 1] == before + init;
      IdsAreUnique(start, before + init);
      FreeAboveStep(Run(start, before + init), last.h, last.a, c);
      CounterOnlyGrows(Run(start, before + init), last.h, last.a);
    }
  }

  // After the raise, whatever runs: a number issued later stays free for as long
  // as it waits to be stored, so its store never collides.
  lemma LaterNumbersStayFree(start: Registry, before: seq<Step>, h: nat, after: seq<Step>)
    requires Opening(start)
    requires h < |Run(start, before).hs| && Run(start, before).hs[h].RaiseCounter?
    ensures var raised := before + [Step(h, Advance)];
            FreeAbove(Run(start, raised + after), Top(Run(start, raised)))
  {
    var raised := before + [Step(h, Advance)];
    assert raised[..|before|] == before;
    IdsAreUnique(start, before);
    SyncAlways(start, before);
    RaiseFreesAbove(Run(start, before), h);
    FreeAboveStays(start, raised, after, Top(Run(start, raised)));
  }

  // When nothing stored exceeds the counter to begin with, no number ever
  // collides: a caller on an existing document needs one attempt and succeeds.
  ghost predicate FirstTry(r: Registry) {
    forall h :: 0 <= h < |r.hs| ==> FirstTryAt(r.ids, r.hs[h])
  }

  predicate OnFirst(ids: map<DocId, Option<int>>, g: Goal, k: nat) {
    g.Insert? || (k == 1 && g.doc in ids)
  }

  predicate FirstTryAt(ids: map<DocId, Option<int>>, pc: Pc) {
    match pc
    case FindCounter(g, k) => OnFirst(ids, g, k)
    case CreateCounter(g, k) => OnFirst(ids, g, k)
    case Increment(g, k) => OnFirst(ids, g, k)
    case Assign(g, k, _) => OnFirst(ids, g, k)
    case Reread(g, k) => !g.Insert? && OnFirst(ids, g, k) && ids[g.doc].Some?
    case GaveUp(g) => g.Insert?
    case _ => true
  }

  lemma FreeStep(r: Registry, h: nat, a: Action)
    requires Free(r) && SequenceInv(r)
    ensures Free(Next(r, h, a))
  {
    var n := Next(r, h, a);
    BelowStays(r, h, a);
    forall k | 0 <= k < |n.hs| && n.hs[k].Assign? ensures !Used(n.ids, n.hs[k].n) { StaysFree(r, h, a, k); }
  }

  lemma FirstTryStep(r: Registry, h: nat, a: Action)
    requires Free(r) && SequenceInv(r) && FirstTry(r)
    ensures FirstTry(Next(r, h, a))
  {
    var n := Next(r, h, a);
    IdsAreKept(r, h, a);
    if a.Advance? && h < |r.hs| { OwnFirstTry(r, h); }
    forall k | 0 <= k < |n.hs| ensures FirstTryAt(n.ids, n.hs[k]) {
      if k < |r.hs| && !(a.Advance? && k == h) { assert FirstTryAt(r.ids, r.hs[k]) && n.hs[k] == r.hs[k]; }
    }
  }

  lemma OwnFirstTry(r: Registry, h: nat)
    requires h < |r.hs| && Free(r) && PcInv(r, r.hs[h]) && FirstTryAt(r.ids, r.hs[h])
    ensures FirstTryAt(Proceed(r, h).ids, Proceed(r, h).hs[h])
  {}

  lemma {:induction false} NoCollisions(start: Registry, steps: seq<Step>)
    requires Opening(start) && Below(start)
    ensures Free(Run(start, steps)) && FirstTry(Run(start, steps))
  {
    if steps != [] {
      var init, last := steps[..|steps| - 1], steps[|steps| - 1];
      NoCollisions(start, init);
      IdsAreUnique(start, init);
      FreeStep(Run(start, init), last.h, last.a);
      FirstTryStep(Run(start, init), last.h, last.a);
    }
  }

  // -------------------------------------------------------------------------
  // A caller that runs alone
  // -------------------------------------------------------------------------

  function Advanced(r: Registry, h: nat): Registry { Next(r, h, Advance) }

  // Find the counter, create it if it is missing, increment it, store.
  function InFour(r: Registry, h: nat): Registry { Advanced(Advanced(Advanced(Advanced(r, h), h), h), h) }

  function With(r: Registry, pc: Pc): Registry { r.(hs := r.hs + [pc]) }

  lemma Moving(r: Registry, a: Pc, b: Pc)
    ensures Goto(With(r, a), |r.hs|, b) == With(r, b)
  {}

  // When no stored id exceeds the counter: the document gets the next number,
  // whether it is served, filled in by the script or inserted with it.
  lemma AloneGetsTheNext(r: Registry, g: Goal)
    requires Below(r)
    requires if g.Insert? then g.doc !in r.ids else Missing(r.ids, g.doc)
    ensures var n := InFour(With(r, FindCounter(g, 1)), |r.hs|);
            && n.ids == r.ids[g.doc := Some(Top(r) + 1)]
            && n.counter == Some(Top(r) + 1) && n.issued == r.issued + [Top(r) + 1]
            && n.hs == r.hs + [if g.Ensure? then Returned(g.doc, Top(r) + 1) else Finished]
  {
    var h, next := |r.hs|, Top(r) + 1;
    var counted := r.(counter := Some(next), issued := r.issued + [next]);
    var created := if r.counter.Some? then r else r.(counter := Some(r.startAt));
    Moving(r, FindCounter(g, 1), if r.counter.None? then CreateCounter(g, 1) else Increment(g, 1));
    Moving(created, CreateCounter(g, 1), Increment(g, 1));
    Moving(counted, Increment(g, 1), Assign(g, 1, next));
    NextIsStored(counted, g, next);
    assert r.counter.None? ==> Advanced(Advanced(With(r, FindCounter(g, 1)), h), h) == With(created, Increment(g, 1));
  }

  lemma NextIsStored(r: Registry, g: Goal, n: int)
    requires (if g.Insert? then g.doc !in r.ids else Missing(r.ids, g.doc)) && !Used(r.ids, n)
    ensures var h, end := |r.hs|, if g.Ensure? then Returned(g.doc, n) else Finished;
            && Advanced(With(r, Assign(g, 1, n)), h) == With(r.(ids := r.ids[g.doc := Some(n)]), end)
            && Advanced(With(r.(ids := r.ids[g.doc := Some(n)]), end), h) ==
               With(r.(ids := r.ids[g.doc := Some(n)]), end)
  {
    Moving(r.(ids := r.ids[g.doc := Some(n)]), Assign(g, 1, n), if g.Ensure? then Returned(g.doc, n) else Finished);
  }

  // A call for a document starts at the first of these, unless it is served.
  lemma CallsStart(r: Registry, d: DocId)
    ensures d in r.ids ==> Next(r, |r.hs|, SpawnFill(d)) == With(r, FindCounter(Fill(d), 1))
    ensures Missing(r.ids, d) ==> Next(r, |r.hs|, SpawnEnsure(d)) == With(r, FindCounter(Ensure(d), 1))
    ensures d in r.ids && r.ids[d].Some? ==>
              Next(r, |r.hs|, SpawnEnsure(d)) == With(r, Returned(d, r.ids[d].value))
    ensures Next(r, |r.hs|, SpawnInsert(d)) == With(r, FindCounter(Insert(d), 1))
  {}
}
