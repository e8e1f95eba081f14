/** `Array.prototype.filter` and the counts built on it, shared by the pages. */
module Lists {

  /** The elements of `xs` that satisfy `p`, in their original order. */
  function Filter<T>(xs: seq<T>, p: T -> bool): (r: seq<T>)
    ensures |r| <= |xs|
  {
    if xs == [] then []
    else (if p(xs[0]) then [xs[0]] else []) + Filter(xs[1..], p)
  }

  lemma FilterCons<T>(x: T, ys: seq<T>, p: T -> bool)
    ensures Filter([x] + ys, p) == (if p(x) then [x] else []) + Filter(ys, p)
  {
    assert ([x] + ys)[0] == x && ([x] + ys)[1..] == ys;
  }

  /** What the filter keeps: only elements of the list that pass, every element that
      passes, and the whole list when everything passes. */
  lemma {:induction false} FilterMembers<T>(xs: seq<T>, p: T -> bool)
    ensures var r := Filter(xs, p);
      && (forall i :: 0 <= i < |r| ==> p(r[i]) && r[i] in xs)
      && (forall i :: 0 <= i < |xs| && p(xs[i]) ==> xs[i] in r)
      && ((forall i :: 0 <= i < |xs| ==> p(xs[i])) ==> r == xs)
  {
    if xs != [] {
      FilterMembers(xs[1..], p);
      var r := Filter(xs, p);
      var rest := Filter(xs[1..], p);
      assert forall i :: 0 < i < |xs| ==> xs[i] == xs[1..][i - 1];
      assert forall y :: y in xs[1..] ==> y in xs;
    }
  }

  /** A filter keeps order and multiplicity: it maps a concatenation to the concatenation
      of the two results, and a single element to itself or to nothing. */
  lemma FilterInOrder<T>(xs: seq<T>, ys: seq<T>, x: T, p: T -> bool)
    ensures Filter(xs + ys, p) == Filter(xs, p) + Filter(ys, p)
    ensures Filter([x], p) == (if p(x) then [x] else [])
  {
    FilterAppend(xs, ys, p);
    FilterCons(x, [], p);
    assert [x] + [] == [x];
  }

  /** `list.filter(x => x.id !== id)`, the delete every page applies to its list:
      the elements whose key is not `id`, in their original order. */
  function WithoutKey<T>(xs: seq<T>, key: T -> string, id: string): (r: seq<T>)
    ensures forall i :: 0 <= i < |r| ==> key(r[i]) != id && r[i] in xs
    ensures forall i :: 0 <= i < |xs| && key(xs[i]) != id ==> xs[i] in r
    ensures (forall i :: 0 <= i < |xs| ==> key(xs[i]) != id) ==> r == xs
  {
    FilterMembers(xs, KeyIsNot(key, id));
    Filter(xs, KeyIsNot(key, id))
  }

  function KeyIsNot<T>(key: T -> string, id: string): T -> bool
  {
    (x: T) => key(x) != id
  }

  /** The delete keeps order and multiplicity: it maps a concatenation to the concatenation
      of the two results, and a single element to itself or to nothing. */
  lemma WithoutKeyInOrder<T>(xs: seq<T>, ys: seq<T>, x: T, key: T -> string, id: string)
    ensures WithoutKey(xs + ys, key, id) == WithoutKey(xs, key, id) + WithoutKey(ys, key, id)
    ensures WithoutKey([x], key, id) == (if key(x) != id then [x] else [])
  {
    FilterInOrder(xs, ys, x, KeyIsNot(key, id));
  }

  /** Filtering distributes over concatenation: the kept elements keep their order. */
  lemma {:induction false} FilterAppend<T>(xs: seq<T>, ys: seq<T>, p: T -> bool)
    ensures Filter(xs + ys, p) == Filter(xs, p) + Filter(ys, p)
  {
    if xs == [] {
      assert xs + ys == ys;
    } else {
      var head := if p(xs[0]) then [xs[0]] else [];
      assert (xs + ys)[0] == xs[0];
      assert (xs + ys)[1..] == xs[1..] + ys;
      calc {
        Filter(xs + ys, p);
        head + Filter(xs[1..] + ys, p);
        { FilterAppend(xs[1..], ys, p); }
        head + (Filter(xs[1..], p) + Filter(ys, p));
        (head + Filter(xs[1..], p)) + Filter(ys, p);
      }
    }
  }

  /** Filtering by a stronger test after a weaker one is filtering by the stronger test alone. */
  lemma {:induction false} FilterFilter<T>(xs: seq<T>, p: T -> bool, q: T -> bool)
    requires forall i :: 0 <= i < |xs| && p(xs[i]) ==> q(xs[i])
    ensures Filter(Filter(xs, q), p) == Filter(xs, p)
  {
    if xs != [] {
      FilterFilter(xs[1..], p, q);
      var x := xs[0];
      var fq := Filter(xs, q);
      if q(x) {
        assert fq == [x] + Filter(xs[1..], q);
        assert fq[0] == x && fq[1..] == Filter(xs[1..], q);
        assert Filter(fq, p) == (if p(x) then [x] else []) + Filter(fq[1..], p);
      } else {
        assert !p(x);
        assert fq == Filter(xs[1..], q);
      }
      assert Filter(xs, p) == (if p(x) then [x] else []) + Filter(xs[1..], p);
    }
  }

  /** `xs.filter(p).length`. */
  function Count<T>(xs: seq<T>, p: T -> bool): (n: nat)
    ensures n <= |xs|
  {
    |Filter(xs, p)|
  }

  /** Counting by a predicate and by its negation splits the list. */
  lemma {:induction false} CountComplement<T>(xs: seq<T>, p: T -> bool, q: T -> bool)
    requires forall i :: 0 <= i < |xs| ==> q(xs[i]) == !p(xs[i])
    ensures Count(xs, p) + Count(xs, q) == |xs|
  {
    if xs != [] {
      CountComplement(xs[1..], p, q);
    }
  }

  /** Counting by a predicate that is the disjunction of two exclusive ones adds up. */
  lemma {:induction false} CountDisjoint<T>(xs: seq<T>, p: T -> bool, q: T -> bool, pq: T -> bool)
    requires forall i :: 0 <= i < |xs| ==> pq(xs[i]) == (p(xs[i]) || q(xs[i]))
    requires forall i :: 0 <= i < |xs| ==> !(p(xs[i]) && q(xs[i]))
    ensures Count(xs, pq) == Count(xs, p) + Count(xs, q)
  {
    if xs != [] {
      CountDisjoint(xs[1..], p, q, pq);
    }
  }

  /** `xs.reduce((acc, x) => acc + f(x), 0)`. */
  function SumBy<T>(xs: seq<T>, f: T -> int): int
  {
    if xs == [] then 0 else f(xs[0]) + SumBy(xs[1..], f)
  }

  lemma {:induction false} SumByAppend<T>(xs: seq<T>, ys: seq<T>, f: T -> int)
    ensures SumBy(xs + ys, f) == SumBy(xs, f) + SumBy(ys, f)
  {
    if xs == [] {
      assert xs + ys == ys;
    } else {
      assert (xs + ys)[1..] == xs[1..] + ys;
      SumByAppend(xs[1..], ys, f);
    }
  }

  /** Adding one element to the list adds its term to a filtered sum when it passes the filter. */
  lemma SumByFilterSnoc<T>(xs: seq<T>, x: T, p: T -> bool, f: T -> int)
    ensures SumBy(Filter(xs + [x], p), f) == SumBy(Filter(xs, p), f) + (if p(x) then f(x) else 0)
  {
    FilterAppend(xs, [x], p);
    assert Filter([x], p) == if p(x) then [x] else [];
    SumByAppend(Filter(xs, p), Filter([x], p), f);
  }

  /** A filtered sum splits over two exclusive filters that together make up a third. */
  lemma {:induction false} SumByFilterSplit<T>(xs: seq<T>, p: T -> bool, q: T -> bool, pq: T -> bool, f: T -> int)
    requires forall i :: 0 <= i < |xs| ==> pq(xs[i]) == (p(xs[i]) || q(xs[i]))
    requires forall i :: 0 <= i < |xs| ==> !(p(xs[i]) && q(xs[i]))
    ensures SumBy(Filter(xs, pq), f) == SumBy(Filter(xs, p), f) + SumBy(Filter(xs, q), f)
  {
    if xs != [] {
      SumByFilterSplit(xs[1..], p, q, pq, f);
      var x := xs[0];
      assert Filter(xs, pq) == (if pq(x) then [x] else []) + Filter(xs[1..], pq);
      SumByAppend(if pq(x) then [x] else [], Filter(xs[1..], pq), f);
      SumByAppend(if p(x) then [x] else [], Filter(xs[1..], p), f);
      SumByAppend(if q(x) then [x] else [], Filter(xs[1..], q), f);
    }
  }
}
