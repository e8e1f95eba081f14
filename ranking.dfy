/** `Array.prototype.sort` with a comparator of the form `rank(b) - rank(a)`:
    a stable sort (as the language requires since ES2019) that puts higher ranks
    first. Modelled as an insertion sort; its result is the unique ordering that is
    sorted by descending rank and keeps the input order among equal ranks. */
module Ranking {
  import opened Lists

  predicate SortedDesc<T>(xs: seq<T>, rank: T -> int)
  {
    forall i, j :: 0 <= i < j < |xs| ==> rank(xs[i]) >= rank(xs[j])
  }

  /** The predicate "has rank `v`", as one function value so that filters by it compare equal. */
  function RankIs<T>(rank: T -> int, v: int): T -> bool
  {
    y => rank(y) == v
  }

  /** Places `x` before the first element whose rank is not above its own. */
  function Insert<T>(x: T, ys: seq<T>, rank: T -> int): (r: seq<T>)
    ensures |r| == |ys| + 1
  {
    if ys == [] || rank(x) >= rank(ys[0]) then [x] + ys
    else [ys[0]] + Insert(x, ys[1..], rank)
  }

  /** Inserting into a list sorted by descending rank keeps it sorted; the first element
      of the result is `x` or the list's own first element. */
  lemma {:induction false} InsertSorted<T>(x: T, ys: seq<T>, rank: T -> int)
    requires SortedDesc(ys, rank)
    ensures SortedDesc(Insert(x, ys, rank), rank)
    ensures Insert(x, ys, rank)[0] == x || Insert(x, ys, rank)[0] == ys[0]
  {
    if !(ys == [] || rank(x) >= rank(ys[0])) {
      var rest := Insert(x, ys[1..], rank);
      InsertSorted(x, ys[1..], rank);
      var r := [ys[0]] + rest;
      assert rank(r[0]) >= rank(r[1]) by {
        if rest[0] == x {
        } else {
          assert rest[0] == ys[1];
        }
      }
      forall i, j | 0 <= i < j < |r| ensures rank(r[i]) >= rank(r[j]) {
        if i > 0 {
          assert r[i] == rest[i - 1] && r[j] == rest[j - 1];
        } else if j > 1 {
          assert r[j] == rest[j - 1];
          assert rank(rest[0]) >= rank(rest[j - 1]);
        }
      }
    }
  }

  function SortByRankDesc<T>(xs: seq<T>, rank: T -> int): (r: seq<T>)
    ensures |r| == |xs|
  {
    if xs == [] then [] else Insert(xs[0], SortByRankDesc(xs[1..], rank), rank)
  }

  /** The result is ordered by descending rank. */
  lemma {:induction false} SortSorted<T>(xs: seq<T>, rank: T -> int)
    ensures SortedDesc(SortByRankDesc(xs, rank), rank)
  {
    if xs != [] {
      SortSorted(xs[1..], rank);
      InsertSorted(xs[0], SortByRankDesc(xs[1..], rank), rank);
    }
  }

  lemma {:induction false} InsertPermutes<T>(x: T, ys: seq<T>, rank: T -> int)
    ensures multiset(Insert(x, ys, rank)) == multiset(ys) + multiset{x}
  {
    if !(ys == [] || rank(x) >= rank(ys[0])) {
      InsertPermutes(x, ys[1..], rank);
      assert ys == [ys[0]] + ys[1..];
    }
  }

  /** The sorted list holds exactly the input elements, with their multiplicities. */
  lemma {:induction false} SortPermutes<T>(xs: seq<T>, rank: T -> int)
    ensures multiset(SortByRankDesc(xs, rank)) == multiset(xs)
  {
    if xs != [] {
      SortPermutes(xs[1..], rank);
      InsertPermutes(xs[0], SortByRankDesc(xs[1..], rank), rank);
      assert xs == [xs[0]] + xs[1..];
    }
  }

  lemma {:induction false} InsertStable<T>(x: T, ys: seq<T>, rank: T -> int, v: int)
    ensures Filter(Insert(x, ys, rank), RankIs(rank, v))
         == (if rank(x) == v then [x] else []) + Filter(ys, RankIs(rank, v))
  {
    var p := RankIs(rank, v);
    if ys == [] || rank(x) >= rank(ys[0]) {
      FilterCons(x, ys, p);
    } else {
      var y, rest := ys[0], ys[1..];
      assert ys == [y] + rest;
      InsertStable(x, rest, rank, v);
      FilterCons(y, Insert(x, rest, rank), p);
      FilterCons(y, rest, p);
      // `y` ranks above `x`, so at most one of them has rank `v`.
      SwapEmpty(if p(x) then [x] else [], if p(y) then [y] else [], Filter(rest, p));
    }
  }

  lemma SwapEmpty<T>(a: seq<T>, b: seq<T>, c: seq<T>)
    requires a == [] || b == []
    ensures b + (a + c) == a + (b + c)
  {
  }

  /** Stability: among the elements of any one rank, the input order is kept. */
  lemma {:induction false} SortStable<T>(xs: seq<T>, rank: T -> int, v: int)
    ensures Filter(SortByRankDesc(xs, rank), RankIs(rank, v)) == Filter(xs, RankIs(rank, v))
  {
    if xs != [] {
      SortStable(xs[1..], rank, v);
      InsertStable(xs[0], SortByRankDesc(xs[1..], rank), rank, v);
    }
  }
}
