/**
 * Counting by key: PHP's `$stats[$key]++` over an associative array,
 * Python's Counter and defaultdict(int). A tally is an association list in
 * the order keys were first seen, which is the iteration order of all three.
 */
module Tally {
  import opened Seqs

  datatype Entry = Entry(key: string, count: nat)

  predicate DistinctKeys(t: seq<Entry>) {
    forall i, j :: 0 <= i < j < |t| ==> t[i].key != t[j].key
  }

  predicate HasKey(t: seq<Entry>, k: string) {
    exists i :: 0 <= i < |t| && t[i].key == k
  }

  /** The sum of the counts. */
  function Total(t: seq<Entry>): nat {
    if t == [] then 0 else t[0].count + Total(t[1..])
  }

  /** The position of key `k`, or -1 when the tally has none. */
  function IndexOfKey(t: seq<Entry>, k: string): (j: int)
    ensures -1 <= j < |t|
    ensures j == -1 <==> !HasKey(t, k)
    ensures j >= 0 ==> t[j].key == k
  {
    if t == [] then -1
    else if t[0].key == k then 0
    else
      var j := IndexOfKey(t[1..], k);
      assert HasKey(t[1..], k) ==> HasKey(t, k) by {
        if HasKey(t[1..], k) {
          var i :| 0 <= i < |t[1..]| && t[1..][i].key == k;
          assert t[i + 1].key == k;
        }
      }
      assert HasKey(t, k) ==> HasKey(t[1..], k) by {
        if HasKey(t, k) {
          var i :| 0 <= i < |t| && t[i].key == k;
          assert i > 0 && t[1..][i - 1].key == k;
        }
      }
      if j == -1 then -1 else j + 1
  }

  /**
   * Counts one more occurrence of `k`: the entry for `k` goes up by one, or
   * a new entry with count 1 is appended when `k` has not been seen.
   */
  function Bump(t: seq<Entry>, k: string): (r: seq<Entry>)
    requires DistinctKeys(t)
    ensures DistinctKeys(r) && HasKey(r, k)
    ensures Total(r) == Total(t) + 1
    ensures |r| == if HasKey(t, k) then |t| else |t| + 1
    ensures forall i :: 0 <= i < |t| ==>
      r[i].key == t[i].key && r[i].count == t[i].count + (if t[i].key == k then 1 else 0)
    ensures !HasKey(t, k) ==> r[|t|] == Entry(k, 1)
  {
    var j := IndexOfKey(t, k);
    if j >= 0 then
      TotalUpdate(t, j, Entry(k, t[j].count + 1));
      var r := t[j := Entry(k, t[j].count + 1)];
      assert r[j].key == k;
      r
    else
      TotalAppend(t, Entry(k, 1));
      var r := t + [Entry(k, 1)];
      assert r[|t|].key == k;
      r
  }

  /** Bumping a key the tally has updates its entry in place. */
  lemma BumpExisting(t: seq<Entry>, k: string, j: nat)
    requires DistinctKeys(t) && j < |t| && t[j].key == k
    ensures Bump(t, k) == t[j := Entry(k, t[j].count + 1)]
  {
  }

  /** Bumping a key the tally lacks appends an entry with count 1. */
  lemma BumpNew(t: seq<Entry>, k: string)
    requires DistinctKeys(t) && !HasKey(t, k)
    ensures Bump(t, k) == t + [Entry(k, 1)]
  {
  }

  lemma {:induction false} TotalUpdate(t: seq<Entry>, j: nat, e: Entry)
    requires j < |t|
    ensures Total(t[j := e]) == Total(t) - t[j].count + e.count
  {
    if j > 0 {
      TotalUpdate(t[1..], j - 1, e);
      assert t[j := e][1..] == t[1..][j - 1 := e];
    }
  }

  lemma {:induction false} TotalAppend(t: seq<Entry>, e: Entry)
    ensures Total(t + [e]) == Total(t) + e.count
  {
    if t != [] {
      TotalAppend(t[1..], e);
      assert (t + [e])[1..] == t[1..] + [e];
    }
  }

  function KeyIs<T>(key: T -> string, k: string): T -> bool {
    x => key(x) == k
  }

  /** How many elements of `xs` have key `k`, counted from the front as a loop over `xs` does. */
  function Occurrences<T>(xs: seq<T>, key: T -> string, k: string): nat {
    if xs == [] then 0
    else Occurrences(xs[..|xs| - 1], key, k) + (if key(xs[|xs| - 1]) == k then 1 else 0)
  }

  /** Counting the elements with key `k` is measuring the filter that keeps them. */
  lemma {:induction false} OccurrencesFilter<T>(xs: seq<T>, key: T -> string, k: string)
    ensures Occurrences(xs, key, k) == |Filter(xs, KeyIs(key, k))|
  {
    if xs != [] {
      var n := |xs| - 1;
      OccurrencesFilter(xs[..n], key, k);
      assert xs == xs[..n] + [xs[n]];
      FilterConcat(xs[..n], [xs[n]], KeyIs(key, k));
      FilterOne(xs[n], KeyIs(key, k));
    }
  }

  /**
   * The tally of `xs` by `key`: one entry per distinct key, each counting
   * the elements with that key, the counts adding up to the length of `xs`.
   */
  function CountBy<T>(xs: seq<T>, key: T -> string): (r: seq<Entry>)
    ensures DistinctKeys(r)
    ensures forall i :: 0 <= i < |r| ==> r[i].count == Occurrences(xs, key, r[i].key) > 0
    ensures forall i :: 0 <= i < |xs| ==> HasKey(r, key(xs[i]))
    ensures Total(r) == |xs|
  {
    if xs == [] then []
    else
      var n := |xs| - 1;
      var t := CountBy(xs[..n], key);
      var r := Bump(t, key(xs[n]));
      assert xs == xs[..n] + [xs[n]];
      CountStep(xs[..n], xs[n], key, t, r);
      r
  }

  /** The tally of one more element is the old tally bumped at its key. */
  lemma CountBySnoc<T>(xs: seq<T>, x: T, key: T -> string)
    ensures CountBy(xs + [x], key) == Bump(CountBy(xs, key), key(x))
  {
    assert (xs + [x])[..|xs|] == xs;
  }

  /** The tally of a longer prefix is the tally of the shorter one bumped at the next element's key. */
  lemma CountByPrefix<T>(xs: seq<T>, i: nat, key: T -> string)
    requires i < |xs|
    ensures CountBy(xs[..i + 1], key) == Bump(CountBy(xs[..i], key), key(xs[i]))
  {
    assert xs[..i + 1] == xs[..i] + [xs[i]];
    CountBySnoc(xs[..i], xs[i], key);
  }

  /** One step of CountBy: the tally of `xs` bumped at `key(x)` is the tally of `xs + [x]`. */
  lemma CountStep<T>(xs: seq<T>, x: T, key: T -> string, t: seq<Entry>, r: seq<Entry>)
    requires DistinctKeys(t)
    requires forall i :: 0 <= i < |t| ==> t[i].count == Occurrences(xs, key, t[i].key) > 0
    requires forall i :: 0 <= i < |xs| ==> HasKey(t, key(xs[i]))
    requires r == Bump(t, key(x))
    ensures forall i :: 0 <= i < |r| ==> r[i].count == Occurrences(xs + [x], key, r[i].key) > 0
    ensures forall i :: 0 <= i < |xs + [x]| ==> HasKey(r, key((xs + [x])[i]))
  {
    forall i | 0 <= i < |r|
      ensures r[i].count == Occurrences(xs + [x], key, r[i].key) > 0
    {
      OccurrencesSnoc(xs, x, key, r[i].key);
      if i == |t| {
        Unseen(xs, key, t, key(x));
      }
    }
    forall i | 0 <= i < |xs + [x]|
      ensures HasKey(r, key((xs + [x])[i]))
    {
      if i < |xs| {
        assert (xs + [x])[i] == xs[i];
        var j :| 0 <= j < |t| && t[j].key == key(xs[i]);
        assert r[j].key == key(xs[i]);
      }
    }
  }

  lemma OccurrencesSnoc<T>(xs: seq<T>, x: T, key: T -> string, k: string)
    ensures Occurrences(xs + [x], key, k) == Occurrences(xs, key, k) + (if key(x) == k then 1 else 0)
  {
    assert (xs + [x])[..|xs|] == xs;
  }

  /** A key missing from a tally that has every key of `xs` does not occur in `xs`. */
  lemma {:induction false} Unseen<T>(xs: seq<T>, key: T -> string, t: seq<Entry>, k: string)
    requires forall i :: 0 <= i < |xs| ==> HasKey(t, key(xs[i]))
    requires !HasKey(t, k)
    ensures Occurrences(xs, key, k) == 0
  {
    if xs != [] {
      var n := |xs| - 1;
      assert HasKey(t, key(xs[n]));
      Unseen(xs[..n], key, t, k);
    }
  }
}
