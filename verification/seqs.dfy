/**
 * Sequence operations shared by the server, the client and the offline
 * analytics: PHP's array_filter, JavaScript's Array.filter and Python's
 * filtering comprehensions are all `Filter`; `find` is `FirstIndex`.
 */
module Seqs {

  /** The elements of `s` that satisfy `keep`, in their original order. */
  function Filter<T>(s: seq<T>, keep: T -> bool): (r: seq<T>)
    ensures |r| <= |s|
    ensures forall i :: 0 <= i < |r| ==> keep(r[i])
  {
    if s == [] then []
    else
      assert s == [s[0]] + s[1..];
      (if keep(s[0]) then [s[0]] else []) + Filter(s[1..], keep)
  }

  /** An element is kept exactly when it is in `s` and passes `keep`. */
  lemma {:induction false} FilterMembers<T>(s: seq<T>, keep: T -> bool)
    ensures forall x :: x in Filter(s, keep) <==> x in s && keep(x)
  {
    if s != [] {
      FilterMembers(s[1..], keep);
      assert s == [s[0]] + s[1..];
    }
  }

  /** Filtering distributes over concatenation: the kept elements stay in their relative order. */
  lemma {:induction false} FilterConcat<T>(a: seq<T>, b: seq<T>, keep: T -> bool)
    ensures Filter(a + b, keep) == Filter(a, keep) + Filter(b, keep)
  {
    if a == [] {
      assert a + b == b;
    } else {
      assert (a + b)[0] == a[0];
      assert (a + b)[1..] == a[1..] + b;
      FilterConcat(a[1..], b, keep);
    }
  }

  /** Filtering by `p` and then by `q` keeps what one filter by their conjunction keeps. */
  lemma {:induction false} FilterThen<T>(s: seq<T>, p: T -> bool, q: T -> bool, both: T -> bool)
    requires forall x :: both(x) == (p(x) && q(x))
    ensures Filter(Filter(s, p), q) == Filter(s, both)
  {
    if s != [] {
      var rest := Filter(s[1..], p);
      FilterThen(s[1..], p, q, both);
      if p(s[0]) {
        assert Filter(s, p) == [s[0]] + rest;
        FilterConcat([s[0]], rest, q);
        FilterOne(s[0], q);
      } else {
        assert Filter(s, p) == rest;
      }
    }
  }

  /** A filter by `q` run only when `active` holds, after a filter by `p`, keeps what `p` and (when active) `q` accept. */
  lemma FilterMaybeThen<T>(s: seq<T>, p: T -> bool, q: T -> bool, active: bool, both: T -> bool)
    requires forall x :: both(x) == (p(x) && (active ==> q(x)))
    ensures (if active then Filter(Filter(s, p), q) else Filter(s, p)) == Filter(s, both)
  {
    if active {
      FilterThen(s, p, q, both);
    } else {
      FilterSame(s, p, both);
    }
  }

  /** Filtering a sequence given as its front and its last element. */
  lemma FilterSnoc<T>(s: seq<T>, x: T, keep: T -> bool)
    ensures Filter(s + [x], keep) == Filter(s, keep) + (if keep(x) then [x] else [])
  {
    FilterConcat(s, [x], keep);
    FilterOne(x, keep);
  }

  /** Filtering a single element. */
  lemma FilterOne<T>(x: T, keep: T -> bool)
    ensures Filter([x], keep) == if keep(x) then [x] else []
  {
    assert [x][1..] == [];
  }

  /** Filtering a sequence given as its head and its tail. */
  lemma FilterCons<T>(h: T, t: seq<T>, keep: T -> bool)
    ensures Filter([h] + t, keep) == (if keep(h) then [h] else []) + Filter(t, keep)
  {
    var s := [h] + t;
    assert s[0] == h && s[1..] == t;
  }

  /**
   * Moving a head element that is dropped (or a block of kept elements that
   * is empty) past the kept elements of the rest does not change the filter.
   */
  lemma FilterPastHead<T>(h: T, t: seq<T>, rest: seq<T>, keep: T -> bool, mine: seq<T>)
    requires Filter(rest, keep) == mine + Filter(t, keep)
    requires !keep(h) || mine == []
    ensures Filter([h] + rest, keep) == mine + Filter([h] + t, keep)
  {
    FilterCons(h, rest, keep);
    FilterCons(h, t, keep);
    SwapPastEmpty(if keep(h) then [h] else [], mine, Filter(t, keep));
  }

  /** Of two blocks one of which is empty, either may come first. */
  lemma SwapPastEmpty<T>(a: seq<T>, b: seq<T>, c: seq<T>)
    requires a == [] || b == []
    ensures a + (b + c) == b + (a + c)
  {
    if a == [] {
      assert a + (b + c) == b + c;
    } else {
      assert b + (a + c) == a + c;
    }
  }

  /** Two predicates that agree on the elements of `s` filter it alike. */
  lemma {:induction false} FilterSame<T>(s: seq<T>, p: T -> bool, q: T -> bool)
    requires forall i :: 0 <= i < |s| ==> p(s[i]) == q(s[i])
    ensures Filter(s, p) == Filter(s, q)
  {
    if s != [] {
      FilterSame(s[1..], p, q);
    }
  }

  /**
   * One optional stage of a filter pipeline: applying `stage` (or skipping it
   * when it is not active) to what `prev` kept gives what `both` keeps.
   */
  lemma FilterStage<T>(s: seq<T>, before: seq<T>, prev: T -> bool, stage: T -> bool, both: T -> bool, active: bool)
    requires before == Filter(s, prev)
    requires forall x :: both(x) == (prev(x) && (active ==> stage(x)))
    ensures (if active then Filter(before, stage) else before) == Filter(s, both)
  {
    if active {
      FilterThen(s, prev, stage, both);
    } else {
      FilterSame(s, prev, both);
    }
  }

  /** A filter that every element passes returns its input. */
  lemma {:induction false} FilterKeepsAll<T>(s: seq<T>, p: T -> bool)
    requires forall i :: 0 <= i < |s| ==> p(s[i])
    ensures Filter(s, p) == s
  {
    if s != [] {
      FilterKeepsAll(s[1..], p);
      assert s == [s[0]] + s[1..];
    }
  }

  /** A filter that no element passes returns nothing. */
  lemma {:induction false} FilterKeepsNone<T>(s: seq<T>, p: T -> bool)
    requires forall i :: 0 <= i < |s| ==> !p(s[i])
    ensures Filter(s, p) == []
  {
    if s != [] {
      FilterKeepsNone(s[1..], p);
    }
  }

  /** Disjoint predicates: the two filters together keep as many elements as their disjunction. */
  lemma {:induction false} FilterDisjoint<T>(s: seq<T>, p: T -> bool, q: T -> bool, either: T -> bool)
    requires forall x :: !(p(x) && q(x))
    requires forall x :: either(x) == (p(x) || q(x))
    ensures |Filter(s, p)| + |Filter(s, q)| == |Filter(s, either)|
  {
    if s != [] {
      FilterDisjoint(s[1..], p, q, either);
    }
  }

  /** A predicate and its negation split `s`: their filters' lengths add up to `|s|`. */
  lemma FilterSplit<T>(s: seq<T>, p: T -> bool, q: T -> bool)
    requires forall x :: q(x) == !p(x)
    ensures |Filter(s, p)| + |Filter(s, q)| == |s|
  {
    var any: T -> bool := _ => true;
    FilterDisjoint(s, p, q, any);
    FilterKeepsAll(s, any);
  }

  /** A weaker predicate keeps at least as much, and refiltering it by the stronger one gives the stronger filter. */
  lemma FilterNarrower<T>(s: seq<T>, p: T -> bool, q: T -> bool)
    requires forall x :: p(x) ==> q(x)
    ensures Filter(Filter(s, q), p) == Filter(s, p)
    ensures |Filter(s, p)| <= |Filter(s, q)|
  {
    FilterThen(s, q, p, p);
  }

  /** The index of the first element satisfying `p`, or -1 when there is none (Array.find, a search loop). */
  function FirstIndex<T>(s: seq<T>, p: T -> bool): (k: int)
    ensures -1 <= k < |s|
    ensures k == -1 <==> forall i :: 0 <= i < |s| ==> !p(s[i])
    ensures k >= 0 ==> p(s[k]) && forall i :: 0 <= i < k ==> !p(s[i])
  {
    if s == [] then -1
    else if p(s[0]) then 0
    else
      var k := FirstIndex(s[1..], p);
      if k == -1 then -1 else k + 1
  }

  /** The elements of `s` from last to first (array_reverse). */
  function Reverse<T>(s: seq<T>): (r: seq<T>)
    ensures |r| == |s|
    ensures forall i :: 0 <= i < |s| ==> r[i] == s[|s| - 1 - i]
  {
    if s == [] then [] else [s[|s| - 1]] + Reverse(s[..|s| - 1])
  }

  /** A prefix one longer is the prefix with the next element appended. */
  lemma PrefixSnoc<T>(s: seq<T>, i: nat)
    requires i < |s|
    ensures s[..i + 1] == s[..i] + [s[i]]
  {
  }
}
