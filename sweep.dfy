/**
 The survival loop of the object-oriented engine over a vector, stated for
 any element type and any survival probability: iterate, and erase a dying
 element by swapping it with the back and popping the back.
 */
module Sweep {

  /** `std::swap(v[i], v.back())`. */
  function SwapWithBack<T>(v: seq<T>, i: nat): (w: seq<T>)
    requires i < |v|
    ensures |w| == |v| && w[i] == v[|v| - 1] && w[|v| - 1] == v[i]
  {
    v[i := v[|v| - 1]][|v| - 1 := v[i]]
  }

  /** `v.pop_back()`. */
  function PopBack<T>(v: seq<T>): (w: seq<T>)
    requires 0 < |v|
    ensures |w| == |v| - 1 && w == v[..|v| - 1]
  {
    v[..|v| - 1]
  }

  /** Swapping the element at `i` with the back and popping the back keeps
      the part before `i` and removes exactly one copy of `v[i]` from the
      part from `i` on. */
  lemma SwapPop<T>(v: seq<T>, i: nat)
    requires i < |v|
    ensures var w := PopBack(SwapWithBack(v, i));
            && w[..i] == v[..i]
            && multiset(v[i..]) == multiset{v[i]} + multiset(w[i..])
  {
    var w := PopBack(SwapWithBack(v, i));
    var last := |v| - 1;
    if i < last {
      assert v[i..] == [v[i]] + v[i + 1..last] + [v[last]];
      assert w[i..] == [v[last]] + v[i + 1..last];
    } else {
      assert v[i..] == [v[i]];
      assert w[i..] == [];
    }
  }

  /** The end of a survival sweep: the surviving vector, the individuals in
      the order they were evaluated, and the next draw position. */
  datatype SweepResult<T> = SweepResult(survivors: seq<T>, evaluated: seq<T>, next: nat)

  /** The survival loop from iterator position `i` and draw position `pos`
      on: an individual whose draw `u(pos)` exceeds its survival probability
      is swapped with the back and popped, so that the swapped-in individual
      is evaluated next; otherwise the iterator advances. */
  function SweepFrom<T>(v: seq<T>, i: nat, u: nat -> real, pos: nat, w: T -> real): (r: SweepResult<T>)
    requires i <= |v|
    ensures r.next == pos + |v| - i && |r.evaluated| == |v| - i
    ensures i <= |r.survivors| <= |v| && r.survivors[..i] == v[..i]
    decreases |v| - i
  {
    if i == |v| then SweepResult(v, [], pos)
    else
      var rest :=
        if u(pos) > w(v[i]) then SweepFrom(PopBack(SwapWithBack(v, i)), i, u, pos + 1, w)
        else SweepFrom(v, i + 1, u, pos + 1, w);
      SweepResult(rest.survivors, [v[i]] + rest.evaluated, rest.next)
  }

  /** The evaluated individuals whose draw (taken in order from `pos`) does
      not exceed their survival probability. */
  function Passed<T>(ev: seq<T>, u: nat -> real, pos: nat, w: T -> real): seq<T>
    decreases |ev|
  {
    if ev == [] then []
    else (if u(pos) > w(ev[0]) then [] else [ev[0]]) + Passed(ev[1..], u, pos + 1, w)
  }

  lemma {:induction false} PassedIsSubMultiset<T>(ev: seq<T>, u: nat -> real, pos: nat, w: T -> real)
    ensures multiset(Passed(ev, u, pos, w)) <= multiset(ev)
    decreases |ev|
  {
    if ev != [] {
      PassedIsSubMultiset(ev[1..], u, pos + 1, w);
      assert ev == [ev[0]] + ev[1..];
    }
  }

  /** Every individual from `i` on is evaluated exactly once: the
      evaluation order is a permutation of `v[i..]`. */
  lemma {:induction false} SweepEvaluatesEachOnce<T>(v: seq<T>, i: nat, u: nat -> real, pos: nat, w: T -> real)
    requires i <= |v|
    ensures multiset(SweepFrom(v, i, u, pos, w).evaluated) == multiset(v[i..])
    decreases |v| - i
  {
    if i < |v| {
      if u(pos) > w(v[i]) {
        SwapPop(v, i);
        SweepEvaluatesEachOnce(PopBack(SwapWithBack(v, i)), i, u, pos + 1, w);
      } else {
        SweepEvaluatesEachOnce(v, i + 1, u, pos + 1, w);
        assert v[i..] == [v[i]] + v[i + 1..];
      }
    }
  }

  lemma PassedCons<T>(x: T, ev: seq<T>, u: nat -> real, pos: nat, w: T -> real)
    ensures Passed([x] + ev, u, pos, w) ==
            (if u(pos) > w(x) then [] else [x]) + Passed(ev, u, pos + 1, w)
  {
    assert ([x] + ev)[1..] == ev;
  }

  /** The survivors are the prefix already kept plus exactly the evaluated
      individuals whose draw did not exceed their survival probability. */
  lemma {:induction false} SweepKeepsPassed<T>(v: seq<T>, i: nat, u: nat -> real, pos: nat, w: T -> real)
    requires i <= |v|
    ensures var r := SweepFrom(v, i, u, pos, w);
            multiset(r.survivors) == multiset(v[..i]) + multiset(Passed(r.evaluated, u, pos, w))
    decreases |v| - i
  {
    if i == |v| {
      assert v[..i] == v;
    } else if u(pos) > w(v[i]) {
      SweepKeepsPassed(PopBack(SwapWithBack(v, i)), i, u, pos + 1, w);
      KeepsPassedAfterDrop(v, i, u, pos, w);
    } else {
      SweepKeepsPassed(v, i + 1, u, pos + 1, w);
      KeepsPassedAfterKeep(v, i, u, pos, w);
    }
  }

  /** Inductive step of `SweepKeepsPassed` when `v[i]` dies. */
  lemma KeepsPassedAfterDrop<T>(v: seq<T>, i: nat, u: nat -> real, pos: nat, w: T -> real)
    requires i < |v| && u(pos) > w(v[i])
    requires var v' := PopBack(SwapWithBack(v, i));
             var rest := SweepFrom(v', i, u, pos + 1, w);
             multiset(rest.survivors) == multiset(v'[..i]) + multiset(Passed(rest.evaluated, u, pos + 1, w))
    ensures var r := SweepFrom(v, i, u, pos, w);
            multiset(r.survivors) == multiset(v[..i]) + multiset(Passed(r.evaluated, u, pos, w))
  {
    var rest := SweepFrom(PopBack(SwapWithBack(v, i)), i, u, pos + 1, w);
    SwapPop(v, i);
    PassedCons(v[i], rest.evaluated, u, pos, w);
  }

  lemma PrefixSnoc<T>(v: seq<T>, i: nat)
    requires i < |v|
    ensures multiset(v[..i + 1]) == multiset(v[..i]) + multiset{v[i]}
  {
    assert v[..i + 1] == v[..i] + [v[i]];
  }

  /** Inductive step of `SweepKeepsPassed` when `v[i]` survives. */
  lemma KeepsPassedAfterKeep<T>(v: seq<T>, i: nat, u: nat -> real, pos: nat, w: T -> real)
    requires i < |v| && !(u(pos) > w(v[i]))
    requires var rest := SweepFrom(v, i + 1, u, pos + 1, w);
             multiset(rest.survivors) == multiset(v[..i + 1]) + multiset(Passed(rest.evaluated, u, pos + 1, w))
    ensures var r := SweepFrom(v, i, u, pos, w);
            multiset(r.survivors) == multiset(v[..i]) + multiset(Passed(r.evaluated, u, pos, w))
  {
    var rest := SweepFrom(v, i + 1, u, pos + 1, w);
    PassedCons(v[i], rest.evaluated, u, pos, w);
    PrefixSnoc(v, i);
  }


  /** A whole survival sweep neither duplicates nor invents individuals:
      each is evaluated once, and the survivors are exactly those that
      passed their draw. */
  lemma SweepIsSubMultiset<T>(v: seq<T>, u: nat -> real, pos: nat, w: T -> real)
    ensures var r := SweepFrom(v, 0, u, pos, w);
            && multiset(r.survivors) <= multiset(v)
            && multiset(r.evaluated) == multiset(v)
            && multiset(r.survivors) == multiset(Passed(r.evaluated, u, pos, w))
  {
    var r := SweepFrom(v, 0, u, pos, w);
    SweepEvaluatesEachOnce(v, 0, u, pos, w);
    SweepKeepsPassed(v, 0, u, pos, w);
    PassedIsSubMultiset(r.evaluated, u, pos, w);
    assert v[..0] == [] && v[0..] == v;
  }

  /** The survivors of a whole sweep are a sub-multiset of the input. */
  lemma SweepShrinks<T>(v: seq<T>, u: nat -> real, pos: nat, w: T -> real)
    ensures multiset(SweepFrom(v, 0, u, pos, w).survivors) <= multiset(v)
  {
    SweepIsSubMultiset(v, u, pos, w);
  }
}
