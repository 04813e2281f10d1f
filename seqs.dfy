/** `Array.prototype.filter` on sequences, with the facts the stores rely on:
    it keeps exactly the elements that pass, in their original order. */
module Seqs {

  function Filter<T>(s: seq<T>, keep: T -> bool): (r: seq<T>)
    ensures |r| <= |s|
  {
    if s == [] then []
    else (if keep(s[0]) then [s[0]] else []) + Filter(s[1..], keep)
  }

  /** An element is in the result iff it is in the input and passes the test. */
  lemma {:induction false} FilterMembership<T>(s: seq<T>, keep: T -> bool, x: T)
    ensures x in Filter(s, keep) <==> x in s && keep(x)
  {
    if s != [] {
      FilterMembership(s[1..], keep, x);
      assert s == [s[0]] + s[1..];
    }
  }

  /** Filtering distributes over concatenation: the relative order of the kept
      elements is the order they had in the input. */
  lemma {:induction false} FilterAppend<T>(a: seq<T>, b: seq<T>, keep: T -> bool)
    ensures Filter(a + b, keep) == Filter(a, keep) + Filter(b, keep)
  {
    if a == [] {
      assert a + b == b;
    } else {
      var head := if keep(a[0]) then [a[0]] else [];
      assert (a + b)[0] == a[0] && (a + b)[1..] == a[1..] + b;
      assert Filter(a + b, keep) == head + Filter(a[1..] + b, keep);
      FilterAppend(a[1..], b, keep);
      assert Filter(a, keep) == head + Filter(a[1..], keep);
    }
  }

  /** Every element is distinct from every later one. */
  ghost predicate Distinct<T>(s: seq<T>) {
    forall i, j :: 0 <= i < j < |s| ==> s[i] != s[j]
  }

  /** Over a sequence without repetitions, the number of kept elements is the
      number of distinct elements that pass (`kept` names that set). */
  lemma {:induction false} FilterCount<T>(s: seq<T>, keep: T -> bool, kept: set<T>)
    requires Distinct(s)
    requires forall x :: x in kept <==> x in s && keep(x)
    ensures |Filter(s, keep)| == |kept|
  {
    if s == [] {
      assert kept == {};
    } else {
      assert s[0] !in s[1..];
      var rest := if keep(s[0]) then kept - {s[0]} else kept;
      FilterCount(s[1..], keep, rest);
    }
  }
}
