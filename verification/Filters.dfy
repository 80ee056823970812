// Filtering an array, and how many of its elements pass.

module Filters {
  // Array.prototype.filter, as the list of positions kept.
  function Where<T>(xs: seq<T>, p: T -> bool): seq<nat> {
    if xs == [] then []
    else Where(xs[..|xs| - 1], p) + if p(xs[|xs| - 1]) then [|xs| - 1] else []
  }

  lemma {:induction false} WhereMembers<T>(xs: seq<T>, p: T -> bool)
    ensures forall i :: i in Where(xs, p) <==> 0 <= i < |xs| && p(xs[i])
    ensures forall a, b :: 0 <= a < b < |Where(xs, p)| ==> Where(xs, p)[a] < Where(xs, p)[b]
  {
    if xs != [] {
      var init := xs[..|xs| - 1];
      WhereMembers(init, p);
      forall i ensures i in Where(xs, p) <==> 0 <= i < |xs| && p(xs[i]) {
        if 0 <= i < |init| { assert init[i] == xs[i]; }
      }
      forall a, b | 0 <= a < b < |Where(xs, p)| ensures Where(xs, p)[a] < Where(xs, p)[b] {
        assert a < |Where(init, p)| && Where(init, p)[a] in Where(init, p);
      }
    }
  }

  // The n-th kept position is a new one.
  lemma WhereNext<T>(xs: seq<T>, p: T -> bool, n: nat)
    requires n < |Where(xs, p)|
    ensures var found := Where(xs, p);
            found[n] < |xs| && p(xs[found[n]]) && found[n] !in found[..n]
  {
    WhereMembers(xs, p);
    var found := Where(xs, p);
    assert found[n] in found;
  }

  // The first position kept is the least one that passes.
  lemma FirstIs<T>(xs: seq<T>, p: T -> bool, i: nat)
    ensures Where(xs, p) != [] && Where(xs, p)[0] == i <==>
            i < |xs| && p(xs[i]) && forall k :: 0 <= k < i ==> !p(xs[k])
  {
    WhereMembers(xs, p);
    var found := Where(xs, p);
    if i < |xs| && p(xs[i]) {
      assert i in found && found[0] in found;
      assert forall a :: 0 < a < |found| ==> found[0] < found[a];
    }
    if found != [] && found[0] == i {
      assert i in found;
      assert forall k :: 0 <= k < |xs| && p(xs[k]) ==> k in found;
    }
  }

  lemma TakeOneMore(found: seq<nat>, n: nat)
    requires n < |found|
    ensures forall i :: i in found[..n + 1] <==> i in found[..n] || i == found[n]
  {
    assert found[..n + 1] == found[..n] + [found[n]];
  }

  lemma {:induction false} WhereSame<T>(xs: seq<T>, p: T -> bool, q: T -> bool)
    requires forall i :: 0 <= i < |xs| ==> p(xs[i]) == q(xs[i])
    ensures Where(xs, p) == Where(xs, q)
  {
    if xs != [] { WhereSame(xs[..|xs| - 1], p, q); }
  }

  ghost predicate Any<T>(xs: seq<T>, p: T -> bool) { exists j :: 0 <= j < |xs| && p(xs[j]) }

  ghost predicate Two<T>(xs: seq<T>, p: T -> bool) {
    exists j, k :: 0 <= j < k < |xs| && p(xs[j]) && p(xs[k])
  }

  ghost predicate Only<T>(xs: seq<T>, p: T -> bool, i: nat) {
    i < |xs| && p(xs[i]) && forall j :: 0 <= j < |xs| && p(xs[j]) ==> j == i
  }

  lemma HowMany<T>(xs: seq<T>, p: T -> bool)
    ensures Where(xs, p) != [] <==> Any(xs, p)
    ensures |Where(xs, p)| > 1 <==> Two(xs, p)
  {
    WhereMembers(xs, p);
    var found := Where(xs, p);
    if found != [] { assert found[0] in found; }
    if |found| > 1 { assert found[0] in found && found[1] in found; }
    forall j | 0 <= j < |xs| && p(xs[j]) ensures found != [] { assert j in found; }
    forall j, k | 0 <= j < k < |xs| && p(xs[j]) && p(xs[k]) ensures |found| > 1 {
      assert j in found && k in found;
    }
  }

  lemma WhichOne<T>(xs: seq<T>, p: T -> bool, i: nat)
    ensures Where(xs, p) == [i] <==> Only(xs, p, i)
  {
    WhereMembers(xs, p);
    HowMany(xs, p);
    var found := Where(xs, p);
    if Only(xs, p, i) {
      assert i in found;
      assert !Two(xs, p);
    }
    if found == [i] {
      assert i in found;
      assert forall j :: 0 <= j < |xs| && p(xs[j]) ==> j in found;
    }
  }

  lemma TwoAreSome<T>(xs: seq<T>, p: T -> bool)
    requires Two(xs, p)
    ensures Any(xs, p)
  {
    var j, k :| 0 <= j < k < |xs| && p(xs[j]) && p(xs[k]);
  }
}
