/**
 * The interval set kept on a chord: distinct semitone offsets, always in
 * ascending order. Its implementation is not part of this model; it is
 * modelled from the way the chord code uses it (push, extend, contains,
 * draining `next`, map-then-collect).
 */
module IntervalSets {
  import opened Outcomes

  predicate StrictlyAscending(s: seq<nat>) {
    forall i, j :: 0 <= i < j < |s| ==> s[i] < s[j]
  }

  /** Sorted and free of duplicates, by construction. */
  type IntervalSet = s: seq<nat> | StrictlyAscending(s) witness []

  function Elements(s: seq<nat>): set<nat> {
    set x | x in s
  }

  lemma ElementsOfTail(s: IntervalSet)
    requires s != []
    ensures Elements(s[1..]) == Elements(s) - {s[0]}
    ensures forall x :: x in Elements(s) ==> s[0] <= x
  {
    assert s == [s[0]] + s[1..];
    ElementsOfCons(s[0], s[1..]);
  }

  lemma EmptyIffNoElements(s: seq<nat>)
    ensures s == [] <==> Elements(s) == {}
  {
    if s != [] {
      assert s[0] in Elements(s);
    }
  }

  lemma ElementsOfThree(s: seq<nat>)
    requires |s| == 3
    ensures Elements(s) == {s[0], s[1], s[2]}
  {
    assert s == [s[0], s[1], s[2]];
  }

  lemma ElementsOfCons(x: nat, t: seq<nat>)
    ensures Elements([x] + t) == {x} + Elements(t)
  {
    assert forall y :: y in [x] + t <==> y == x || y in t;
  }

  lemma ConsAscending(x: nat, t: IntervalSet)
    requires forall y :: y in Elements(t) ==> x < y
    ensures StrictlyAscending([x] + t)
  {
    forall i, j | 0 <= i < j < |[x] + t| ensures ([x] + t)[i] < ([x] + t)[j] {
      if i == 0 {
        assert t[j - 1] in Elements(t);
      }
    }
  }

  /** Two sets with the same elements are the same sequence: the representation is canonical. */
  lemma {:induction false} Canonical(a: IntervalSet, b: IntervalSet)
    requires Elements(a) == Elements(b)
    ensures a == b
  {
    EmptyIffNoElements(a);
    EmptyIffNoElements(b);
    if a != [] && b != [] {
      assert a[0] in Elements(b);
      assert b[0] in Elements(a);
      ElementsOfTail(a);
      ElementsOfTail(b);
      assert a[0] == b[0];
      Canonical(a[1..], b[1..]);
      assert a == [a[0]] + a[1..];
      assert b == [b[0]] + b[1..];
    }
  }

  /** `IntervalSet::push`: insert, keeping the order; a value already present leaves the set as it is. */
  function Push(s: IntervalSet, x: nat): (r: IntervalSet)
    ensures Elements(r) == Elements(s) + {x}
    ensures x in s ==> r == s
    decreases |s|
  {
    if s == [] then [x]
    else if x < s[0] then
      PushFront(s, x);
      [x] + s
    else if x == s[0] then s
    else
      var t := Push(s[1..], x);
      PushBehind(s, x, t);
      [s[0]] + t
  }

  lemma PushFront(s: IntervalSet, x: nat)
    requires s != [] && x < s[0]
    ensures StrictlyAscending([x] + s)
    ensures Elements([x] + s) == Elements(s) + {x}
    ensures x !in s
  {
    ElementsOfTail(s);
    ConsAscending(x, s);
    ElementsOfCons(x, s);
  }

  lemma PushBehind(s: IntervalSet, x: nat, t: IntervalSet)
    requires s != [] && s[0] < x
    requires Elements(t) == Elements(s[1..]) + {x}
    requires x in s[1..] ==> t == s[1..]
    ensures StrictlyAscending([s[0]] + t)
    ensures Elements([s[0]] + t) == Elements(s) + {x}
    ensures x in s ==> [s[0]] + t == s
  {
    ElementsOfTail(s);
    ConsAscending(s[0], t);
    ElementsOfCons(s[0], t);
    assert s == [s[0]] + s[1..];
  }

  /** Pushing a value above every element appends it. */
  lemma {:induction false} PushAbove(s: IntervalSet, x: nat)
    requires s == [] || s[|s| - 1] < x
    ensures Push(s, x) == s + [x]
    decreases |s|
  {
    if s != [] {
      assert s[0] <= s[|s| - 1];
      PushAbove(s[1..], x);
      assert s == [s[0]] + s[1..];
    }
  }

  /** Pushing in either order gives the same set. */
  lemma PushCommutes(s: IntervalSet, x: nat, y: nat)
    ensures Push(Push(s, x), y) == Push(Push(s, y), x)
  {
    Canonical(Push(Push(s, x), y), Push(Push(s, y), x));
  }

  /** `IntervalSet::extend`: a push of every value of `xs`, first to last. */
  function Extend(s: IntervalSet, xs: seq<nat>): (r: IntervalSet)
    ensures Elements(r) == Elements(s) + Elements(xs)
    decreases |xs|
  {
    if xs == [] then s
    else
      assert xs == [xs[0]] + xs[1..];
      ElementsOfCons(xs[0], xs[1..]);
      Extend(Push(s, xs[0]), xs[1..])
  }

  /** Extending by a suffix of `xs` is a push of its first value, then an extend by the rest. */
  lemma ExtendSuffixStep(s: IntervalSet, xs: seq<nat>, k: nat)
    requires k < |xs|
    ensures Extend(s, xs[k..]) == Extend(Push(s, xs[k]), xs[k + 1..])
  {
    assert xs[k..][1..] == xs[k + 1..];
  }

  /** The result of `extend` depends only on which values are pushed, not on their order or repetition. */
  lemma ExtendOrderIrrelevant(s: IntervalSet, xs: seq<nat>, ys: seq<nat>)
    requires Elements(xs) == Elements(ys)
    ensures Extend(s, xs) == Extend(s, ys)
  {
    Canonical(Extend(s, xs), Extend(s, ys));
  }

  /** Collecting a sequence of intervals into a fresh set. */
  function Collect(xs: seq<nat>): (r: IntervalSet)
    ensures Elements(r) == Elements(xs)
  {
    Extend([], xs)
  }

  /** The draining `next` of the set: the smallest offset, and the set without it. */
  function Next(s: IntervalSet): (r: Option<(nat, IntervalSet)>)
    ensures r.None? <==> s == []
    ensures r.Some? ==> r.value.0 in s && forall x :: x in s ==> r.value.0 <= x
    ensures r.Some? ==> Elements(r.value.1) == Elements(s) - {r.value.0}
  {
    if s == [] then None
    else
      ElementsOfTail(s);
      Some((s[0], s[1..]))
  }
}
