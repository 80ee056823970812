// ensureProductCompatId, ensureCategoryCompatId and the backfill script as
// sequential code; between two database operations all other callers may run.

module CompatService {
  import opened Options
  import opened CompatIds

  predicate OwnStep(s: Step, h: nat) { s.a.Advance? && s.h == h }

  // What other callers leave alone.
  ghost predicate Others(r: Registry, n: Registry, h: nat) {
    && h < |r.hs| && h < |n.hs| && n.hs[h] == r.hs[h] && n.startAt == r.startAt
    && (r.counter.Some? ==> n.counter.Some?)
    && forall d :: d in r.ids ==> d in n.ids && (r.ids[d].Some? ==> n.ids[d] == r.ids[d])
  }

  lemma OtherStep(r: Registry, s: Step, h: nat)
    requires h < |r.hs| && !OwnStep(s, h)
    ensures Others(r, Next(r, s.h, s.a), h)
  {}

  class CompatRegistry {
    const startAt: int
    var counter: Option<int>
    var ids: map<DocId, Option<int>>
    var issued: seq<int>
    var hs: seq<Pc>
    ghost const origin: Registry
    ghost var history: seq<Step>

    ghost function View(): Registry
      reads this
    {
      Registry(startAt, counter, ids, issued, hs)
    }

    ghost predicate Valid()
      reads this
    {
      View() == Run(origin, history) && Opening(origin)
    }

    constructor (startAt: int, counter: Option<int>, ids: map<DocId, Option<int>>)
      requires Opening(Registry(startAt, counter, ids, [], []))
      ensures Valid() && View() == Registry(startAt, counter, ids, [], [])
    {
      this.startAt, this.counter, this.ids, issued, hs := startAt, counter, ids, [], [];
      origin := Registry(startAt, counter, ids, [], []);
      history := [];
    }

    ghost method Record(h: nat, a: Action)
      requires View() == Next(Run(origin, history), h, a) && Opening(origin)
      modifies this`history
      ensures Valid() && old(history) <= history
    {
      ghost var more, now := history + [Step(h, a)], View();
      assert Run(origin, more) == now by { assert more[..|history|] == history; }
      history := more;
      assert View() == now;
    }

    // Anything the other callers do.
    method Interleave(h: nat)
      requires Valid() && h < |hs|
      modifies this
      ensures Valid() && old(history) <= history && Others(old(View()), View(), h)
    {
      var steps: int := *;
      while steps > 0
        invariant Valid() && old(history) <= history && Others(old(View()), View(), h)
      {
        var s: Step := *;
        if !OwnStep(s, h) {
          OtherStep(View(), s, h);
          var n := Next(Registry(startAt, counter, ids, issued, hs), s.h, s.a);
          counter, ids, issued, hs := n.counter, n.ids, n.issued, n.hs;
          Record(s.h, s.a);
        }
        steps := steps - 1;
      }
    }

    // getNextSequence: find, create if absent, increment.
    method GetNextSequence(h: nat, g: Goal, k: nat) returns (n: int)
      requires Valid() && h < |hs| && hs[h] == FindCounter(g, k)
      modifies this
      ensures Valid() && old(history) <= history
      ensures h < |hs| && hs[h] == Assign(g, k, n) && n in issued && n > Top(old(View()))
      ensures forall d :: d in old(ids) ==> d in ids && (old(ids)[d].Some? ==> ids[d] == old(ids)[d])
    {
      ghost var before := history;
      var found := FindCounterDoc(h, g, k);
      Interleave(h);
      if !found {
        CreateCounterDoc(h, g, k);
        Interleave(h);
      }
      NumbersGrow(origin, before, history);
      n := IncrementCounter(h, g, k);
    }

    method FindCounterDoc(h: nat, g: Goal, k: nat) returns (found: bool)
      requires Valid() && h < |hs| && hs[h] == FindCounter(g, k)
      modifies this
      ensures Valid() && old(history) <= history && ids == old(ids) && counter == old(counter)
      ensures found == counter.Some?
      ensures h < |hs| && hs[h] == if found then Increment(g, k) else CreateCounter(g, k)
    {
      found := counter.Some?;
      hs := hs[h := if found then Increment(g, k) else CreateCounter(g, k)];
      Record(h, Advance);
    }

    // A duplicate key means another caller created it first.
    method CreateCounterDoc(h: nat, g: Goal, k: nat)
      requires Valid() && h < |hs| && hs[h] == CreateCounter(g, k)
      modifies this
      ensures Valid() && old(history) <= history && ids == old(ids)
      ensures counter == if old(counter).None? then Some(startAt) else old(counter)
      ensures h < |hs| && hs[h] == Increment(g, k)
    {
      if counter.None? { counter := Some(startAt); }
      hs := hs[h := Increment(g, k)];
      Record(h, Advance);
    }

    method IncrementCounter(h: nat, g: Goal, k: nat) returns (n: int)
      requires Valid() && h < |hs| && hs[h] == Increment(g, k) && counter.Some?
      modifies this
      ensures Valid() && old(history) <= history && ids == old(ids)
      ensures counter == Some(n) && n == old(counter).value + 1 && issued == old(issued) + [n]
      ensures h < |hs| && hs[h] == Assign(g, k, n)
    {
      n := counter.value + 1;
      counter, issued := Some(n), issued + [n];
      hs := hs[h := Assign(g, k, n)];
      Record(h, Advance);
    }

    // The returned id is the document's stored one.  None means that five
    // numbers in a row were already some document's id, which cannot happen
    // when no stored id exceeded the counter as the call began.
    method EnsureCompatId(d: DocId) returns (id: Option<int>, ghost clashes: seq<int>)
      requires Valid() && d in ids
      modifies this
      ensures Valid() && old(history) <= history
      ensures d in ids && (id.Some? ==> ids[d] == id)
      ensures old(ids)[d].Some? ==> id == old(ids)[d]
      ensures id.None? ==> |clashes| == 5 && Clashing(View(), clashes)
      ensures Below(old(View())) ==> id.Some?
    {
      ghost var c, before := Top(View()), history;
      if Below(View()) { NonePending(origin, history); }
      var h := StartEnsure(d);
      if hs[h].Returned? { return ids[d], []; }
      if Below(old(View())) { StillFree(origin, before, history, c); }
      id, clashes := RetryStore(h, d, c);
    }

    method StartEnsure(d: DocId) returns (h: nat)
      requires Valid() && d in ids
      modifies this`hs, this`history
      ensures Valid() && old(history) <= history && h == |old(hs)|
      ensures hs == old(hs) + [if ids[d].Some? then Returned(d, ids[d].value) else FindCounter(Ensure(d), 1)]
    {
      h := |hs|;
      hs := hs + [if ids[d].Some? then Returned(d, ids[d].value) else FindCounter(Ensure(d), 1)];
      Record(h, SpawnEnsure(d));
    }

    // At most five attempts.
    method RetryStore(h: nat, d: DocId, ghost c: int) returns (id: Option<int>, ghost clashes: seq<int>)
      requires Valid() && d in ids && h < |hs| && hs[h] == FindCounter(Ensure(d), 1)
      modifies this
      ensures Valid() && old(history) <= history
      ensures d in ids && (id.Some? ==> ids[d] == id)
      ensures id.None? ==> |clashes| == MAX_ATTEMPTS && Clashing(View(), clashes)
      ensures FreeAbove(old(View()), c) ==> id.Some?
    {
      clashes := [];
      for attempt := 1 to MAX_ATTEMPTS + 1
        invariant Valid() && old(history) <= history
        invariant d in ids && h < |hs|
        invariant hs[h] == if attempt <= MAX_ATTEMPTS then FindCounter(Ensure(d), attempt) else GaveUp(Ensure(d))
        invariant |clashes| == attempt - 1 && Clashing(View(), clashes)
        invariant FreeAbove(old(View()), c) ==> FreeAbove(View(), c) && attempt == 1
      {
        ghost var before, n := View(), 0;
        id, n := AttemptStore(h, Ensure(d), attempt, c);
        if id.Some? { return; }
        if hs[h].Reread? {
          Interleave(h);
          id := ReadStored(h, d, attempt);
          return;
        }
        OneMoreClash(before, View(), clashes, n);
        clashes := clashes + [n];
      }
      return None, clashes;
    }

    // One attempt: a number, and the write of it.  Without an id of its own it
    // has either found the document served or goes on to the next attempt.
    // Once the counter has been raised above every stored id it never collides.
    method AttemptStore(h: nat, g: Goal, k: nat, ghost c: int) returns (id: Option<int>, ghost n: int)
      requires Valid() && h < |hs| && hs[h] == FindCounter(g, k) && !g.Insert? && g.doc in ids
      modifies this
      ensures Valid() && old(history) <= history && h < |hs|
      ensures Kept(old(ids), ids)
      ensures id.Some? ==> ids[g.doc] == id && hs[h] == if g.Ensure? then Returned(g.doc, id.value) else Finished
      ensures id.None? ==> (hs[h] == Retry(g, k) && Used(ids, n) && !FreeAbove(old(View()), c))
                           || (ids[g.doc].Some? && hs[h] == if g.Ensure? then Reread(g, k) else Finished)
      ensures FreeAbove(old(View()), c) ==> FreeAbove(View(), c)
      ensures Top(old(View())) < n <= Top(View())
    {
      var nextId := NextNumber(h, g, k, c);
      n := nextId;
      ghost var before := history;
      id := TryStore(h, g, k, nextId);
      if FreeAbove(old(View()), c) { StillFree(origin, before, history, c); }
    }

    // The number of one attempt, by the time it is to be stored.
    method NextNumber(h: nat, g: Goal, k: nat, ghost c: int) returns (n: int)
      requires Valid() && h < |hs| && hs[h] == FindCounter(g, k) && !g.Insert? && g.doc in ids
      modifies this
      ensures Valid() && old(history) <= history && h < |hs| && hs[h] == Assign(g, k, n)
      ensures Kept(old(ids), ids)
      ensures FreeAbove(old(View()), c) ==> FreeAbove(View(), c) && n > c
      ensures Top(old(View())) < n <= Top(View())
    {
      ghost var before := history;
      Interleave(h);
      NumbersGrow(origin, before, history);
      n := GetNextSequence(h, g, k);
      IssuedBelowTop(origin, history, n);
      ghost var numbered := history;
      Interleave(h);
      NumbersGrow(origin, numbered, history);
      if FreeAbove(old(View()), c) { StillFree(origin, before, history, c); }
    }

    // The compare-and-swap that stores the id.
    method TryStore(h: nat, g: Goal, k: nat, n: int) returns (id: Option<int>)
      requires Valid() && h < |hs| && hs[h] == Assign(g, k, n) && !g.Insert?
      modifies this
      ensures Valid() && old(history) <= history
      ensures View() == Store(old(View()), h, g, k, n)
      ensures id == if Missing(old(ids), g.doc) && !Used(old(ids), n) then Some(n) else None
      ensures id.Some? ==> g.doc in ids && ids[g.doc] == id
    {
      id := None;
      if !(g.doc in ids && ids[g.doc] == None) {
        hs := hs[h := if g.Ensure? then Reread(g, k) else Finished];
      } else if Used(ids, n) {
        hs := hs[h := Retry(g, k)];
      } else {
        ids := ids[g.doc := Some(n)];
        hs := hs[h := if g.Ensure? then Returned(g.doc, n) else Finished];
        id := Some(n);
      }
      Record(h, Advance);
    }

    method ReadStored(h: nat, d: DocId, k: nat) returns (id: Option<int>)
      requires Valid() && h < |hs| && hs[h] == Reread(Ensure(d), k) && d in ids && ids[d].Some?
      modifies this
      ensures Valid() && old(history) <= history && ids == old(ids) && id == ids[d]
    {
      hs := hs[h := Returned(d, ids[d].value)];
      Record(h, Advance);
      return ids[d];
    }

    // syncCounterToExistingMax: read the largest id, then raise the counter.
    method SyncCounterToExistingMax()
      requires Valid()
      modifies this
      ensures Valid() && old(history) <= history && Below(View()) && FreeAbove(View(), Top(View()))
      ensures forall d :: d in old(ids) ==> d in ids && (old(ids)[d].Some? ==> ids[d] == old(ids)[d])
    {
      var h := |hs|;
      var target := ReadTarget();
      hs := hs + [RaiseCounter(target)];
      Record(h, SpawnSync(target));
      Interleave(h);
      RaiseTo(h, target);
    }

    method RaiseTo(h: nat, target: int)
      requires Valid() && h < |hs| && hs[h] == RaiseCounter(target)
      modifies this
      ensures Valid() && old(history) <= history && Below(View()) && ids == old(ids)
      ensures FreeAbove(View(), Top(View()))
      ensures counter == Some(if old(counter).Some? && old(counter).value > target then old(counter).value else target)
    {
      IdsAreUnique(origin, history);
      SyncAlways(origin, history);
      RaiseFreesAbove(View(), h);
      counter := Some(if counter.Some? && counter.value > target then counter.value else target);
      hs := hs[h := Finished];
      Record(h, Advance);
    }

    method ReadTarget() returns (target: int)
      ensures IsSyncTarget(View(), target)
    {
      target := startAt;
      var left := ids.Keys;
      while left != {}
        invariant left <= ids.Keys && target >= startAt && (target == startAt || Used(ids, target))
        invariant forall d :: d in ids && d !in left && ids[d].Some? ==> ids[d].value <= target
        decreases |left|
      {
        var d :| d in left;
        left := left - {d};
        if ids[d].Some? && ids[d].value > target { target := ids[d].value; }
      }
    }

    // assignMissingIds: afterwards, every document the cursor met has an id.
    // It would throw after five collisions in a row, and never does.
    method AssignMissingIds() returns (filled: nat, threw: bool)
      requires Valid()
      modifies this
      ensures Valid() && old(history) <= history
      ensures !threw
      ensures forall d :: d in old(ids) ==> d in ids && ids[d].Some? && (old(ids)[d].Some? ==> ids[d] == old(ids)[d])
    {
      filled, threw := 0, false;
      SyncCounterToExistingMax();
      ghost var c := Top(View());
      var left: set<DocId> := set d: DocId | d in ids && ids[d].None?;
      while left != {}
        invariant Valid() && old(history) <= history && FreeAbove(View(), c)
        invariant forall d :: d in left ==> d in ids
        invariant forall d :: d in old(ids) ==> d in ids && (old(ids)[d].Some? ==> ids[d] == old(ids)[d])
        invariant forall d :: d in old(ids) && d !in left ==> ids[d].Some?
        decreases |left|
      {
        var d :| d in left;
        left := left - {d};
        var done, mine := FillOne(d, c);
        if !done { threw := true; break; }
        if mine { filled := filled + 1; }
      }
    }

    // done: the document has an id; mine: this call stored it.
    method FillOne(d: DocId, ghost c: int) returns (done: bool, mine: bool)
      requires Valid() && d in ids && FreeAbove(View(), c)
      modifies this
      ensures FreeAbove(View(), c) && done
      ensures Valid() && old(history) <= history
      ensures forall e :: e in old(ids) ==> e in ids && (old(ids)[e].Some? ==> ids[e] == old(ids)[e])
      ensures ids[d].Some?
    {
      ghost var before := history;
      done, mine := false, false;
      var h := |hs|;
      hs := hs + [FindCounter(Fill(d), 1)];
      Record(h, SpawnFill(d));
      StillFree(origin, before, history, c);
      var attempt := 1;
      while !done && attempt <= MAX_ATTEMPTS
        invariant Valid() && old(history) <= history && FreeAbove(View(), c)
        invariant forall e :: e in old(ids) ==> e in ids && (old(ids)[e].Some? ==> ids[e] == old(ids)[e])
        invariant if done then ids[d].Some? else attempt == 1 && h < |hs| && hs[h] == FindCounter(Fill(d), 1)
      {
        var id; ghost var n;
        id, n := AttemptStore(h, Fill(d), attempt, c);
        done, mine := hs[h].Finished?, id.Some?;
        attempt := attempt + 1;
      }
    }
  }

  // The code's state always has distinct ids and agreeing callers.
  lemma RegistryStatesAreSafe(c: CompatRegistry)
    requires c.Valid()
    ensures SequenceInv(c.View()) && IdentityInv(c.View())
  {
    IdsAreUnique(c.origin, c.history);
  }

  // What a longer history keeps.
  lemma StillFree(start: Registry, before: seq<Step>, now: seq<Step>, c: int)
    requires Opening(start) && before <= now && FreeAbove(Run(start, before), c)
    ensures FreeAbove(Run(start, now), c)
  {
    FreeAboveStays(start, before, now[|before|..], c);
    assert before + now[|before|..] == now;
  }

  lemma {:induction false} NumbersGrow(start: Registry, before: seq<Step>, now: seq<Step>)
    requires Opening(start) && before <= now
    ensures Top(Run(start, before)) <= Top(Run(start, now))
    decreases |now|
  {
    if before != now {
      var init, last := now[..|now| - 1], now[|now| - 1];
      NumbersGrow(start, before, init);
      IdsAreUnique(start, init);
      CounterOnlyGrows(Run(start, init), last.h, last.a);
    }
  }

  // Numbers that were tried in turn and found to be some document's id.
  ghost predicate Clashing(r: Registry, numbers: seq<int>) {
    && (forall i, j :: 0 <= i < j < |numbers| ==> numbers[i] < numbers[j])
    && forall i :: 0 <= i < |numbers| ==> Used(r.ids, numbers[i]) && numbers[i] <= Top(r)
  }

  // Every document is still there, with its id if it had one.
  ghost predicate Kept(before: map<DocId, Option<int>>, now: map<DocId, Option<int>>) {
    forall d :: d in before ==> d in now && (before[d].Some? ==> now[d] == before[d])
  }

  lemma OneMoreClash(r: Registry, n: Registry, numbers: seq<int>, number: int)
    requires Clashing(r, numbers) && Kept(r.ids, n.ids)
    requires Top(r) < number <= Top(n) && Used(n.ids, number)
    ensures Clashing(n, numbers + [number])
  {
    forall i | 0 <= i < |numbers| ensures Used(n.ids, numbers[i]) {
      assert Used(r.ids, numbers[i]);
      var d :| d in r.ids && r.ids[d] == Some(numbers[i]);
      assert n.ids[d] == Some(numbers[i]);
    }
  }

  lemma IssuedBelowTop(start: Registry, steps: seq<Step>, n: int)
    requires Opening(start) && n in Run(start, steps).issued
    ensures n <= Top(Run(start, steps))
  {
    IdsAreUnique(start, steps);
    var r := Run(start, steps);
    var i :| 0 <= i < |r.issued| && r.issued[i] == n;
  }

  // When no stored id exceeds the counter, no pending number does either.
  lemma NonePending(start: Registry, steps: seq<Step>)
    requires Opening(start) && Below(Run(start, steps))
    ensures FreeAbove(Run(start, steps), Top(Run(start, steps)))
  {
    IdsAreUnique(start, steps);
    var r := Run(start, steps);
    forall k | 0 <= k < |r.hs| && r.hs[k].Assign? ensures r.hs[k].n <= Top(r) {
      assert PcInv(r, r.hs[k]);
      IssuedBelowTop(start, steps, r.hs[k].n);
    }
  }
}
