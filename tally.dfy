/** A counting dictionary filled one key at a time, `counts[k] = (counts[k] || 0) + 1`,
    read back with `Object.keys` / `Object.entries`, whose order for string keys is
    the order in which the keys were first inserted. */
module Tally {

  datatype Entry = Entry(key: string, count: nat)

  /** How many times `k` occurs in `xs`. */
  function Occurrences(xs: seq<string>, k: string): (n: nat)
    ensures n <= |xs|
    ensures k !in xs ==> n == 0
  {
    if xs == [] then 0
    else Occurrences(xs[..|xs| - 1], k) + (if xs[|xs| - 1] == k then 1 else 0)
  }

  predicate Distinct(s: seq<string>)
  {
    forall i, j :: 0 <= i < j < |s| ==> s[i] != s[j]
  }

  /** The keys of the dictionary after counting `xs`, in first-insertion order. */
  function Keys(xs: seq<string>): (r: seq<string>)
    ensures Distinct(r)
    ensures forall k :: k in r <==> k in xs
  {
    if xs == [] then []
    else
      var d := Keys(xs[..|xs| - 1]);
      var x := xs[|xs| - 1];
      assert forall k :: k in xs <==> k in xs[..|xs| - 1] || k == x;
      if x in d then d else d + [x]
  }

  /** The dictionary after counting `xs`: every key seen, with its number of occurrences. */
  function Counts(xs: seq<string>): (m: map<string, nat>)
    ensures forall k :: k in m <==> k in xs
  {
    map k | k in xs :: Occurrences(xs, k)
  }

  /** `Object.entries(counts)` after counting `xs`. */
  function Entries(xs: seq<string>): (r: seq<Entry>)
    ensures |r| == |Keys(xs)|
    ensures forall i :: 0 <= i < |r| ==> r[i].key == Keys(xs)[i] && r[i].count == Occurrences(xs, Keys(xs)[i])
  {
    var ks := Keys(xs);
    seq(|ks|, i requires 0 <= i < |ks| => Entry(ks[i], Occurrences(xs, ks[i])))
  }

  /** One `counts[k] = (counts[k] || 0) + 1` step on a dictionary that holds the
      tally of `seen`; `keys` tracks the insertion order. */
  method Bump(ghost seen: seq<string>, keys: seq<string>, counts: map<string, nat>, k: string)
    returns (keys': seq<string>, counts': map<string, nat>)
    requires keys == Keys(seen) && counts == Counts(seen)
    ensures keys' == Keys(seen + [k]) && counts' == Counts(seen + [k])
  {
    KeysSnoc(seen, k);
    CountsSnoc(seen, k);
    if k in counts {
      counts' := counts[k := counts[k] + 1];
      keys' := keys;
    } else {
      counts' := counts[k := 1];
      keys' := keys + [k];
    }
  }

  /** A key seen for the first time is appended to the key order. */
  lemma KeysSnoc(seen: seq<string>, k: string)
    ensures Keys(seen + [k]) == if k in seen then Keys(seen) else Keys(seen) + [k]
  {
    var xs := seen + [k];
    assert xs[..|xs| - 1] == seen;
  }

  /** Counting one more `k` raises its count by one, from zero when it is new. */
  lemma CountsSnoc(seen: seq<string>, k: string)
    ensures Counts(seen + [k]) == Counts(seen)[k := (if k in seen then Counts(seen)[k] else 0) + 1]
  {
    var xs := seen + [k];
    var m := Counts(seen)[k := (if k in seen then Counts(seen)[k] else 0) + 1];
    assert forall j :: j in xs <==> j in seen || j == k;
    forall j | j in m
      ensures j in Counts(xs) && m[j] == Counts(xs)[j]
    {
      OccurrencesSnoc(seen, k, j);
    }
    assert m.Keys == Counts(xs).Keys;
  }

  lemma OccurrencesSnoc(xs: seq<string>, x: string, k: string)
    ensures Occurrences(xs + [x], k) == Occurrences(xs, k) + (if x == k then 1 else 0)
  {
    assert (xs + [x])[..|xs|] == xs;
  }

  /** Total of the counts over a list of keys. */
  function SumOver(keys: seq<string>, xs: seq<string>): nat
  {
    if keys == [] then 0
    else SumOver(keys[..|keys| - 1], xs) + Occurrences(xs, keys[|keys| - 1])
  }

  function SumCounts(es: seq<Entry>): nat
  {
    if es == [] then 0 else SumCounts(es[..|es| - 1]) + es[|es| - 1].count
  }

  lemma {:induction false} SumOverSnoc(keys: seq<string>, xs: seq<string>, x: string)
    requires Distinct(keys)
    ensures SumOver(keys, xs + [x]) == SumOver(keys, xs) + (if x in keys then 1 else 0)
  {
    var ys := xs + [x];
    assert ys[..|ys| - 1] == xs;
    if keys != [] {
      var front := keys[..|keys| - 1];
      assert forall j :: j in keys <==> j in front || j == keys[|keys| - 1];
      SumOverSnoc(front, xs, x);
    }
  }

  /** Every counted element lands in exactly one key: the counts add up to `|xs|`. */
  lemma {:induction false} SumOverKeys(xs: seq<string>)
    ensures SumOver(Keys(xs), xs) == |xs|
  {
    if xs != [] {
      var ys := xs[..|xs| - 1];
      var x := xs[|xs| - 1];
      assert xs == ys + [x];
      SumOverKeys(ys);
      SumOverSnoc(Keys(ys), ys, x);
      if x !in Keys(ys) {
        var ks := Keys(ys) + [x];
        assert ks[..|ks| - 1] == Keys(ys);
        assert Occurrences(ys, x) == 0;
      }
    }
  }

  lemma {:induction false} SumCountsEntries(xs: seq<string>, n: nat)
    requires n <= |Keys(xs)|
    ensures SumCounts(Entries(xs)[..n]) == SumOver(Keys(xs)[..n], xs)
  {
    if n > 0 {
      var es := Entries(xs)[..n];
      assert es[..n - 1] == Entries(xs)[..n - 1];
      assert Keys(xs)[..n][..n - 1] == Keys(xs)[..n - 1];
      SumCountsEntries(xs, n - 1);
    }
  }

  /** The entries' counts add up to the number of counted elements. */
  lemma EntriesTotal(xs: seq<string>)
    ensures SumCounts(Entries(xs)) == |xs|
  {
    var n := |Keys(xs)|;
    SumCountsEntries(xs, n);
    assert Entries(xs)[..n] == Entries(xs);
    assert Keys(xs)[..n] == Keys(xs);
    SumOverKeys(xs);
  }
}
