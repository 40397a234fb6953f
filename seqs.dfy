/** Sequence combinators that give the probes' list comprehensions and
    line-emitting loops their meaning: a flat map (one loop iteration emits
    zero or more items), a filter (`[x for x in xs if p(x)]`) and the index of
    the first element that stops a loop. */
module Seqs {

  /** The items emitted by running `f` on each element of `xs`, in order. */
  function FlatMap<T, U>(xs: seq<T>, f: T -> seq<U>): seq<U>
    decreases |xs|
  {
    if xs == [] then [] else f(xs[0]) + FlatMap(xs[1..], f)
  }

  /** Emitting for `xs + ys` is emitting for `xs`, then for `ys`: this is what
      lets a loop body extend its output one element at a time. */
  lemma {:induction false} FlatMapAppend<T, U>(xs: seq<T>, ys: seq<T>, f: T -> seq<U>)
    ensures FlatMap(xs + ys, f) == FlatMap(xs, f) + FlatMap(ys, f)
    decreases |xs|
  {
    if xs == [] {
      assert xs + ys == ys;
    } else {
      assert (xs + ys)[1..] == xs[1..] + ys;
      FlatMapAppend(xs[1..], ys, f);
    }
  }

  /** One more element: the form a loop invariant needs. */
  lemma FlatMapSnoc<T, U>(xs: seq<T>, x: T, f: T -> seq<U>)
    ensures FlatMap(xs + [x], f) == FlatMap(xs, f) + f(x)
  {
    FlatMapAppend(xs, [x], f);
    assert FlatMap([x], f) == f(x) + FlatMap([x][1..], f);
  }

  /** The step of a loop that flat-maps `xs` element by element. */
  lemma FlatMapPrefixStep<T, U>(xs: seq<T>, i: nat, f: T -> seq<U>)
    requires i < |xs|
    ensures FlatMap(xs[..i + 1], f) == FlatMap(xs[..i], f) + f(xs[i])
  {
    assert xs[..i + 1] == xs[..i] + [xs[i]];
    FlatMapSnoc(xs[..i], xs[i], f);
  }

  /** When every element emits exactly one item, the output is as long as the
      input and item `i` is emitted by element `i`. */
  lemma {:induction false} FlatMapOneEach<T, U>(xs: seq<T>, f: T -> seq<U>)
    requires forall i :: 0 <= i < |xs| ==> |f(xs[i])| == 1
    ensures |FlatMap(xs, f)| == |xs|
    ensures forall i :: 0 <= i < |xs| ==> FlatMap(xs, f)[i] == f(xs[i])[0]
    decreases |xs|
  {
    if xs != [] {
      assert |f(xs[0])| == 1;
      FlatMapOneEach(xs[1..], f);
      forall i | 1 <= i < |xs|
        ensures FlatMap(xs, f)[i] == f(xs[i])[0]
      {
        assert xs[1..][i - 1] == xs[i];
      }
    }
  }

  /** When every element emits exactly two items, the output is twice as
      long as the input and items `2i` and `2i + 1` are emitted by element `i`. */
  lemma {:induction false} FlatMapTwoEach<T, U>(xs: seq<T>, f: T -> seq<U>, i: nat)
    requires forall k :: 0 <= k < |xs| ==> |f(xs[k])| == 2
    requires i < |xs|
    ensures |FlatMap(xs, f)| == 2 * |xs|
    ensures FlatMap(xs, f)[2 * i] == f(xs[i])[0] && FlatMap(xs, f)[2 * i + 1] == f(xs[i])[1]
    decreases |xs|
  {
    var rest := xs[1..];
    assert |f(xs[0])| == 2;
    assert forall k :: 0 <= k < |rest| ==> rest[k] == xs[k + 1];
    if i > 0 {
      FlatMapTwoEach(rest, f, i - 1);
    } else if |rest| > 0 {
      FlatMapTwoEach(rest, f, 0);
    }
  }

  /** `[x for x in xs if p(x)]`. */
  function Filter<T>(xs: seq<T>, p: T -> bool): (r: seq<T>)
    ensures |r| <= |xs|
    decreases |xs|
  {
    if xs == [] then [] else (if p(xs[0]) then [xs[0]] else []) + Filter(xs[1..], p)
  }

  /** The filter keeps exactly the elements that satisfy the condition. */
  lemma {:induction false} FilterMembers<T>(xs: seq<T>, p: T -> bool, x: T)
    ensures x in Filter(xs, p) <==> x in xs && p(x)
    decreases |xs|
  {
    if xs != [] {
      FilterMembers(xs[1..], p, x);
      assert xs == [xs[0]] + xs[1..];
    }
  }

  /** Filtering `xs + ys` filters `xs`, then `ys`: the filter keeps the order
      of the elements it keeps and their repetitions. */
  lemma {:induction false} FilterAppend<T>(xs: seq<T>, ys: seq<T>, p: T -> bool)
    ensures Filter(xs + ys, p) == Filter(xs, p) + Filter(ys, p)
    decreases |xs|
  {
    if xs == [] {
      assert xs + ys == ys;
    } else {
      assert (xs + ys)[1..] == xs[1..] + ys;
      assert (xs + ys)[0] == xs[0];
      FilterAppend(xs[1..], ys, p);
      var h, a, b := if p(xs[0]) then [xs[0]] else [], Filter(xs[1..], p), Filter(ys, p);
      assert Filter(xs + ys, p) == h + (a + b);
      assert h + (a + b) == (h + a) + b;
    }
  }

  /** Filtering one element more of a prefix. */
  lemma FilterPrefixStep<T>(xs: seq<T>, k: nat, p: T -> bool)
    requires k < |xs|
    ensures Filter(xs[..k + 1], p) == Filter(xs[..k], p) + (if p(xs[k]) then [xs[k]] else [])
  {
    assert xs[..k + 1] == xs[..k] + [xs[k]];
    FilterAppend(xs[..k], [xs[k]], p);
  }

  /** A filter that rejects nothing returns its input. */
  lemma {:induction false} FilterAll<T>(xs: seq<T>, p: T -> bool)
    requires forall i :: 0 <= i < |xs| ==> p(xs[i])
    ensures Filter(xs, p) == xs
    decreases |xs|
  {
    if xs != [] {
      FilterAll(xs[1..], p);
    }
  }

  /** A filter that keeps nothing returns the empty list. */
  lemma {:induction false} FilterNone<T>(xs: seq<T>, p: T -> bool)
    requires forall i :: 0 <= i < |xs| ==> !p(xs[i])
    ensures Filter(xs, p) == []
    decreases |xs|
  {
    if xs != [] {
      FilterNone(xs[1..], p);
    }
  }

  /** A filter keeps the relative order of what it keeps: if a key strictly
      increases along `xs`, it strictly increases along the filtered list. */
  lemma {:induction false} FilterKeepsOrder<T>(xs: seq<T>, p: T -> bool, key: T -> int)
    requires forall i, j :: 0 <= i < j < |xs| ==> key(xs[i]) < key(xs[j])
    ensures var ys := Filter(xs, p);
      forall i, j :: 0 <= i < j < |ys| ==> key(ys[i]) < key(ys[j])
    decreases |xs|
  {
    if xs != [] {
      var rest := xs[1..];
      FilterKeepsOrder(rest, p, key);
      var tail := Filter(rest, p);
      forall k | 0 <= k < |tail|
        ensures key(xs[0]) < key(tail[k])
      {
        FilterMembers(rest, p, tail[k]);
        var m :| 0 <= m < |rest| && rest[m] == tail[k];
        assert rest[m] == xs[m + 1];
      }
    }
  }

  /** The parts one after the other. */
  function Concat<T>(parts: seq<seq<T>>): seq<T>
    decreases |parts|
  {
    if parts == [] then [] else parts[0] + Concat(parts[1..])
  }

  /** An element is in the concatenation exactly when it is in some part. */
  lemma {:induction false} ConcatMembers<T>(parts: seq<seq<T>>, x: T)
    ensures x in Concat(parts) <==> exists k :: 0 <= k < |parts| && x in parts[k]
    decreases |parts|
  {
    if parts != [] {
      ConcatMembers(parts[1..], x);
      if exists k :: 1 <= k < |parts| && x in parts[k] {
        var k :| 1 <= k < |parts| && x in parts[k];
        assert parts[1..][k - 1] == parts[k];
      }
    }
  }

  /** When `p` holds of elements of part `j` only, filtering the concatenation
      filters that part. */
  lemma {:induction false} ConcatFilterOne<T>(parts: seq<seq<T>>, p: T -> bool, j: nat)
    requires j < |parts|
    requires forall k, x :: 0 <= k < |parts| && k != j && x in parts[k] ==> !p(x)
    ensures Filter(Concat(parts), p) == Filter(parts[j], p)
    decreases |parts|
  {
    var rest := parts[1..];
    FilterAppend(parts[0], Concat(rest), p);
    if j == 0 {
      ConcatFilterNone(rest, p);
      assert Filter(parts[0], p) + [] == Filter(parts[0], p);
    } else {
      forall i | 0 <= i < |parts[0]|
        ensures !p(parts[0][i])
      {
        assert parts[0][i] in parts[0];
      }
      FilterNone(parts[0], p);
      forall k, x | 0 <= k < |rest| && k != j - 1 && x in rest[k]
        ensures !p(x)
      {
        assert rest[k] == parts[k + 1];
      }
      ConcatFilterOne(rest, p, j - 1);
    }
  }

  lemma {:induction false} ConcatFilterNone<T>(parts: seq<seq<T>>, p: T -> bool)
    requires forall k, x :: 0 <= k < |parts| && x in parts[k] ==> !p(x)
    ensures Filter(Concat(parts), p) == []
    decreases |parts|
  {
    if parts != [] {
      var rest := parts[1..];
      forall k, x | 0 <= k < |rest| && x in rest[k]
        ensures !p(x)
      {
        assert rest[k] == parts[k + 1];
      }
      ConcatFilterNone(rest, p);
      forall i | 0 <= i < |parts[0]|
        ensures !p(parts[0][i])
      {
        assert parts[0][i] in parts[0];
      }
      FilterNone(parts[0], p);
      FilterAppend(parts[0], Concat(rest), p);
    }
  }

  /** When every element of part `k` has key `base + k`, the keys along the
      concatenation lie in `[base, base + |parts|)` and never decrease. */
  lemma {:induction false} ConcatKeyOrdered<T>(parts: seq<seq<T>>, key: T -> int, base: int)
    requires forall k, x :: 0 <= k < |parts| && x in parts[k] ==> key(x) == base + k
    ensures forall i :: 0 <= i < |Concat(parts)| ==> base <= key(Concat(parts)[i]) < base + |parts|
    ensures forall i, j :: 0 <= i < j < |Concat(parts)| ==> key(Concat(parts)[i]) <= key(Concat(parts)[j])
    decreases |parts|
  {
    if parts != [] {
      var rest := parts[1..];
      forall k, x | 0 <= k < |rest| && x in rest[k]
        ensures key(x) == base + 1 + k
      {
        assert rest[k] == parts[k + 1];
      }
      ConcatKeyOrdered(rest, key, base + 1);
      var a, b := parts[0], Concat(rest);
      var c := a + b;
      assert Concat(parts) == c;
      forall i | 0 <= i < |c|
        ensures base <= key(c[i]) < base + |parts|
        ensures i < |a| ==> key(c[i]) == base
      {
        if i >= |a| {
          assert c[i] == b[i - |a|];
        } else {
          assert c[i] == parts[0][i];
          assert c[i] in parts[0];
        }
      }
      assert forall i :: 0 <= i < |c| ==> base <= key(c[i]) < base + |parts|;
      forall i, j | 0 <= i < j < |c|
        ensures key(c[i]) <= key(c[j])
      {
        if i >= |a| {
          assert c[i] == b[i - |a|];
          assert c[j] == b[j - |a|];
        }
      }
    }
  }

  /** The first part, then the concatenation of the rest. */
  lemma ConcatCons<T>(p: seq<T>, rest: seq<seq<T>>)
    ensures Concat([p] + rest) == p + Concat(rest)
  {
    assert ([p] + rest)[1..] == rest;
  }

  /** Appending a part appends its items. */
  lemma {:induction false} ConcatSnoc<T>(parts: seq<seq<T>>, p: seq<T>)
    ensures Concat(parts + [p]) == Concat(parts) + p
    decreases |parts|
  {
    if parts == [] {
      assert parts + [p] == [p] + [];
      ConcatCons(p, []);
      assert p + [] == p;
    } else {
      assert (parts + [p])[1..] == parts[1..] + [p];
      ConcatSnoc(parts[1..], p);
      assert (parts[0] + Concat(parts[1..])) + p == parts[0] + (Concat(parts[1..]) + p);
    }
  }

  /** Seven parts one after the other. */
  lemma ConcatSeven<T>(a: seq<T>, b: seq<T>, c: seq<T>, d: seq<T>, e: seq<T>, f: seq<T>, g: seq<T>)
    ensures Concat([a, b, c, d, e, f, g]) == a + b + c + d + e + f + g
  {
    assert Concat([a]) == a by {
      ConcatSnoc([], a);
      assert [] + [a] == [a];
    }
    assert Concat([a, b]) == Concat([a]) + b by {
      ConcatSnoc([a], b);
      assert [a] + [b] == [a, b];
    }
    assert Concat([a, b, c]) == Concat([a, b]) + c by {
      ConcatSnoc([a, b], c);
      assert [a, b] + [c] == [a, b, c];
    }
    assert Concat([a, b, c, d]) == Concat([a, b, c]) + d by {
      ConcatSnoc([a, b, c], d);
      assert [a, b, c] + [d] == [a, b, c, d];
    }
    assert Concat([a, b, c, d, e]) == Concat([a, b, c, d]) + e by {
      ConcatSnoc([a, b, c, d], e);
      assert [a, b, c, d] + [e] == [a, b, c, d, e];
    }
    assert Concat([a, b, c, d, e, f]) == Concat([a, b, c, d, e]) + f by {
      ConcatSnoc([a, b, c, d, e], f);
      assert [a, b, c, d, e] + [f] == [a, b, c, d, e, f];
    }
    assert Concat([a, b, c, d, e, f, g]) == Concat([a, b, c, d, e, f]) + g by {
      ConcatSnoc([a, b, c, d, e, f], g);
      assert [a, b, c, d, e, f] + [g] == [a, b, c, d, e, f, g];
    }
  }

  /** The item of one check when its flag is set. */
  function Flagged<T>(c: (bool, T)): seq<T> {
    if c.0 then [c.1] else []
  }

  /** The items whose flag is set, in order: `[x for (flag, x) in checks if flag]`,
      the shape of a run of `if flag: append(x)` statements. */
  function Pick<T>(checks: seq<(bool, T)>): seq<T>
    decreases |checks|
  {
    if checks == [] then [] else Pick(checks[..|checks| - 1]) + Flagged(checks[|checks| - 1])
  }

  /** An item is picked exactly when some check with its flag set names it. */
  lemma {:induction false} PickMembers<T>(checks: seq<(bool, T)>, x: T)
    ensures x in Pick(checks) <==> (true, x) in checks
    decreases |checks|
  {
    if checks != [] {
      var init := checks[..|checks| - 1];
      PickMembers(init, x);
      assert checks == init + [checks[|checks| - 1]];
    }
  }

  /** Picking keeps the order of the checks. */
  lemma {:induction false} PickKeepsOrder<T>(checks: seq<(bool, T)>, key: T -> int)
    requires forall i, j :: 0 <= i < j < |checks| ==> key(checks[i].1) < key(checks[j].1)
    ensures forall i, j :: 0 <= i < j < |Pick(checks)| ==> key(Pick(checks)[i]) < key(Pick(checks)[j])
    decreases |checks|
  {
    if checks != [] {
      var n := |checks| - 1;
      var init := checks[..n];
      PickKeepsOrder(init, key);
      var front := Pick(init);
      forall k | 0 <= k < |front|
        ensures key(front[k]) < key(checks[n].1)
      {
        PickMembers(init, front[k]);
        var m :| 0 <= m < |init| && init[m] == (true, front[k]);
        assert init[m] == checks[m];
      }
      assert Pick(checks) == front + Flagged(checks[n]);
    }
  }

  /** Picking from six checks is six `if flag: append(x)` steps. */
  lemma PickSix<T>(checks: seq<(bool, T)>)
    requires |checks| == 6
    ensures Pick(checks) == [] + Flagged(checks[0]) + Flagged(checks[1]) + Flagged(checks[2])
      + Flagged(checks[3]) + Flagged(checks[4]) + Flagged(checks[5])
  {
    var f0, f1, f2, f3, f4, f5 := Flagged(checks[0]), Flagged(checks[1]), Flagged(checks[2]),
      Flagged(checks[3]), Flagged(checks[4]), Flagged(checks[5]);
    assert Pick(checks[..1]) == [] + f0 by {
      assert checks[..1][..0] == [];
      assert checks[..1][0] == checks[0];
    }
    assert Pick(checks[..2]) == [] + f0 + f1 by {
      assert checks[..2][..1] == checks[..1];
      assert checks[..2][1] == checks[1];
    }
    assert Pick(checks[..3]) == [] + f0 + f1 + f2 by {
      assert checks[..3][..2] == checks[..2];
      assert checks[..3][2] == checks[2];
    }
    assert Pick(checks[..4]) == [] + f0 + f1 + f2 + f3 by {
      assert checks[..4][..3] == checks[..3];
      assert checks[..4][3] == checks[3];
    }
    assert Pick(checks[..5]) == [] + f0 + f1 + f2 + f3 + f4 by {
      assert checks[..5][..4] == checks[..4];
      assert checks[..5][4] == checks[4];
    }
    assert checks[..5] == checks[..|checks| - 1];
  }

  /** `[f(x) for x in xs]`. */
  function Map<T, U>(xs: seq<T>, f: T -> U): (r: seq<U>)
    ensures |r| == |xs|
    ensures forall i :: 0 <= i < |xs| ==> r[i] == f(xs[i])
  {
    seq(|xs|, i requires 0 <= i < |xs| => f(xs[i]))
  }

  /** Mapping `xs + ys` maps `xs`, then `ys`. */
  lemma MapAppend<T, U>(xs: seq<T>, ys: seq<T>, f: T -> U)
    ensures Map(xs + ys, f) == Map(xs, f) + Map(ys, f)
  {
    var l, r := Map(xs + ys, f), Map(xs, f) + Map(ys, f);
    assert |l| == |r|;
    forall i | 0 <= i < |l|
      ensures l[i] == r[i]
    {
      if i < |xs| {
        assert (xs + ys)[i] == xs[i];
      } else {
        assert (xs + ys)[i] == ys[i - |xs|];
      }
    }
  }

  /** The index of the first element that satisfies `p`, or `|xs|` when none
      does: where a loop with `break` (or an exception that leaves it) stops. */
  function FirstIndex<T>(xs: seq<T>, p: T -> bool): (k: nat)
    ensures k <= |xs|
    ensures forall j :: 0 <= j < k ==> !p(xs[j])
    ensures k < |xs| ==> p(xs[k])
    decreases |xs|
  {
    if xs == [] then 0 else if p(xs[0]) then 0 else 1 + FirstIndex(xs[1..], p)
  }

  /** The three properties above determine the stopping index. */
  lemma FirstIndexUnique<T>(xs: seq<T>, p: T -> bool, k: nat)
    requires k <= |xs|
    requires forall j :: 0 <= j < k ==> !p(xs[j])
    requires k < |xs| ==> p(xs[k])
    ensures FirstIndex(xs, p) == k
  {
  }

  /** `xs` is strictly increasing. */
  predicate Ascending(xs: seq<int>) {
    forall i, j :: 0 <= i < j < |xs| ==> xs[i] < xs[j]
  }

  /** When the parts are keyed by their index, an element is in the
      concatenation exactly when it is in the part its key names. */
  lemma ConcatKeyedMembers<T>(parts: seq<seq<T>>, key: T -> int, x: T)
    requires forall k, y :: 0 <= k < |parts| && y in parts[k] ==> key(y) == k
    ensures x in Concat(parts) <==> 0 <= key(x) < |parts| && x in parts[key(x)]
  {
    ConcatMembers(parts, x);
  }

  /** `xs.insert(i, x)` for an index within the list. */
  function Insert<T>(xs: seq<T>, i: nat, x: T): (r: seq<T>)
    requires i <= |xs|
    ensures |r| == |xs| + 1 && r[i] == x
    ensures forall j :: 0 <= j < i ==> r[j] == xs[j]
    ensures forall j :: i <= j < |xs| ==> r[j + 1] == xs[j]
  {
    xs[..i] + [x] + xs[i..]
  }

  /** Inserting at index 1 puts the item right after the head. */
  lemma InsertAfterHead<T>(h: T, rest: seq<T>, x: T)
    ensures Insert([h] + rest, 1, x) == [h, x] + rest
  {
    var xs := [h] + rest;
    assert xs[..1] == [h];
    assert xs[1..] == rest;
  }

  /** Mapping one element more. */
  lemma MapSnoc<T, U>(xs: seq<T>, x: T, f: T -> U)
    ensures Map(xs + [x], f) == Map(xs, f) + [f(x)]
  {
    MapAppend(xs, [x], f);
  }

  /** When each element emits at most one item, there are at most as many
      items as elements. */
  lemma {:induction false} FlatMapAtMostOne<T, U>(xs: seq<T>, f: T -> seq<U>)
    requires forall i :: 0 <= i < |xs| ==> |f(xs[i])| <= 1
    ensures |FlatMap(xs, f)| <= |xs|
  {
    if xs != [] {
      FlatMapAtMostOne(xs[1..], f);
    }
  }

  /** Nothing is emitted exactly when no element emits anything. */
  lemma {:induction false} FlatMapEmpty<T, U>(xs: seq<T>, f: T -> seq<U>)
    ensures FlatMap(xs, f) == [] <==> forall i :: 0 <= i < |xs| ==> f(xs[i]) == []
  {
    if xs != [] {
      FlatMapEmpty(xs[1..], f);
      assert forall i :: 1 <= i < |xs| ==> xs[i] == xs[1..][i - 1];
    }
  }

  /** When an element emits one item if it satisfies `p` and none otherwise,
      there are as many items as elements the filter keeps. */
  lemma {:induction false} FlatMapCountsFilter<T, U>(xs: seq<T>, f: T -> seq<U>, p: T -> bool)
    requires forall i :: 0 <= i < |xs| ==> |f(xs[i])| == (if p(xs[i]) then 1 else 0)
    ensures |FlatMap(xs, f)| == |Filter(xs, p)|
  {
    if xs != [] {
      FlatMapCountsFilter(xs[1..], f, p);
    }
  }

  /** Filtering an ascending sequence leaves it ascending. */
  lemma {:induction false} FilterAscending(xs: seq<int>, p: int -> bool)
    requires Ascending(xs)
    ensures Ascending(Filter(xs, p))
    decreases |xs|
  {
    if xs != [] {
      var rest := xs[1..];
      FilterAscending(rest, p);
      var tail := Filter(rest, p);
      forall k | 0 <= k < |tail|
        ensures xs[0] < tail[k]
      {
        FilterMembers(rest, p, tail[k]);
        var m :| 0 <= m < |rest| && rest[m] == tail[k];
        assert rest[m] == xs[m + 1];
      }
    }
  }

  /** A filter keeps every occurrence of what it keeps and drops every
      occurrence of the rest. */
  lemma {:induction false} FilterMultiplicity<T>(xs: seq<T>, p: T -> bool, x: T)
    ensures multiset(Filter(xs, p))[x] == if p(x) then multiset(xs)[x] else 0
    decreases |xs|
  {
    if xs != [] {
      FilterMultiplicity(xs[1..], p, x);
      assert xs == [xs[0]] + xs[1..];
    }
  }

  /** Emitting zero or one item per element is mapping the elements the
      filter keeps. */
  lemma {:induction false} FlatMapOfOptional<T, U>(xs: seq<T>, f: T -> seq<U>, p: T -> bool, g: T -> U)
    requires forall x :: f(x) == if p(x) then [g(x)] else []
    ensures FlatMap(xs, f) == Map(Filter(xs, p), g)
    decreases |xs|
  {
    if xs != [] {
      FlatMapOfOptional(xs[1..], f, p, g);
      var rest := Filter(xs[1..], p);
      if p(xs[0]) {
        assert Map([xs[0]] + rest, g) == [g(xs[0])] + Map(rest, g);
      }
    }
  }
}
