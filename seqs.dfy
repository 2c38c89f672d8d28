/** Sequence helpers shared by the model: a filter (Python's list
    comprehension with an `if`) and the subsequence relation it produces.
    Everything is defined by peeling off the LAST element, so that a loop
    that appends element `i` keeps an invariant of the form `F(s[..i])`. */
module Seqs {

  function Last<T>(s: seq<T>): T
    requires |s| > 0
  {
    s[|s| - 1]
  }

  function DropLast<T>(s: seq<T>): seq<T>
    requires |s| > 0
  {
    s[..|s| - 1]
  }

  lemma DropLastThenLast<T>(s: seq<T>)
    requires |s| > 0
    ensures DropLast(s) + [Last(s)] == s
  {
  }

  /** The elements of `s` that satisfy `p`, in their original order. */
  function Filter<T>(p: T -> bool, s: seq<T>): seq<T>
  {
    if s == [] then []
    else Filter(p, DropLast(s)) + (if p(Last(s)) then [Last(s)] else [])
  }

  /** `xs` can be obtained from `ys` by deleting elements. */
  predicate IsSubsequence<T(==)>(xs: seq<T>, ys: seq<T>)
  {
    xs == [] ||
    (ys != [] &&
     ((Last(xs) == Last(ys) && IsSubsequence(DropLast(xs), DropLast(ys))) ||
      IsSubsequence(xs, DropLast(ys))))
  }

  /** Filtering keeps exactly the elements that satisfy `p`, each with its
      multiplicity in the input. */
  lemma {:induction false} FilterMultiplicity<T>(p: T -> bool, s: seq<T>)
    ensures forall x :: multiset(Filter(p, s))[x] == if p(x) then multiset(s)[x] else 0
  {
    if s != [] {
      FilterMultiplicity(p, DropLast(s));
      DropLastThenLast(s);
    }
  }

  lemma FilterMembership<T>(p: T -> bool, s: seq<T>)
    ensures forall x :: x in Filter(p, s) <==> x in s && p(x)
  {
    FilterMultiplicity(p, s);
    forall x ensures x in Filter(p, s) <==> x in s && p(x) {
      assert x in Filter(p, s) <==> multiset(Filter(p, s))[x] > 0;
      assert x in s <==> multiset(s)[x] > 0;
    }
  }

  lemma {:induction false} FilterIsSubsequence<T>(p: T -> bool, s: seq<T>)
    ensures IsSubsequence(Filter(p, s), s)
  {
    if s != [] {
      var rest := Filter(p, DropLast(s));
      FilterIsSubsequence(p, DropLast(s));
      if p(Last(s)) {
        assert Filter(p, s) == rest + [Last(s)];
        assert DropLast(rest + [Last(s)]) == rest;
      } else {
        assert Filter(p, s) == rest;
      }
    }
  }

  /** Filtering distributes over concatenation: the output order follows the
      input order. */
  lemma {:induction false} FilterAppend<T>(p: T -> bool, s: seq<T>, t: seq<T>)
    ensures Filter(p, s + t) == Filter(p, s) + Filter(p, t)
    decreases |t|
  {
    if t == [] {
      assert s + t == s;
    } else {
      FilterAppend(p, s, DropLast(t));
      assert s + t == (s + DropLast(t)) + [Last(t)];
      assert DropLast(s + t) == s + DropLast(t);
    }
  }
}
