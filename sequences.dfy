/** List comprehensions `[x for x in s if p(x)]` and their laws: the result keeps
    exactly the elements satisfying the condition, in their original order, and a
    chain of comprehensions is one comprehension over the conjunction. */
module Sequences {

  function Filter<T>(s: seq<T>, p: T -> bool): (r: seq<T>)
    ensures |r| <= |s|
  {
    if s == [] then []
    else (if p(s[0]) then [s[0]] else []) + Filter(s[1..], p)
  }

  /** The comprehension keeps exactly the elements that satisfy the condition. */
  lemma {:induction false} FilterMembers<T>(s: seq<T>, p: T -> bool, x: T)
    ensures x in Filter(s, p) <==> x in s && p(x)
  {
    if s != [] {
      FilterMembers(s[1..], p, x);
      assert s == [s[0]] + s[1..];
    }
  }

  /** `s` can be obtained from `t` by deleting elements: its elements stand in `t`
      in the same relative order. */
  predicate IsSubsequence<T(==)>(s: seq<T>, t: seq<T>)
    decreases |t|
  {
    if s == [] then true
    else if t == [] then false
    else (s[0] == t[0] && IsSubsequence(s[1..], t[1..])) || IsSubsequence(s, t[1..])
  }

  /** Appending the same element to both sides keeps a subsequence one, and so
      does appending an element to the longer side only. */
  lemma {:induction false} SubsequenceSnoc<T>(s: seq<T>, t: seq<T>, x: T)
    requires IsSubsequence(s, t)
    ensures IsSubsequence(s, t + [x]) && IsSubsequence(s + [x], t + [x])
    decreases |t|
  {
    if t == [] {
      assert s == [];
      assert IsSubsequence([x][1..], [x][1..]);
    } else {
      assert (t + [x])[1..] == t[1..] + [x];
      if s == [] {
        SubsequenceSnoc(s, t[1..], x);
      } else if s[0] == t[0] && IsSubsequence(s[1..], t[1..]) {
        SubsequenceSnoc(s[1..], t[1..], x);
        assert (s + [x])[1..] == s[1..] + [x];
      } else {
        SubsequenceSnoc(s, t[1..], x);
      }
    }
  }

  /** A comprehension keeps the original order. */
  lemma {:induction false} FilterIsSubsequence<T>(s: seq<T>, p: T -> bool)
    ensures IsSubsequence(Filter(s, p), s)
  {
    if s != [] {
      FilterIsSubsequence(s[1..], p);
      var f := Filter(s, p);
      if p(s[0]) {
        assert f[0] == s[0] && f[1..] == Filter(s[1..], p);
      } else {
        assert f == Filter(s[1..], p);
      }
    }
  }

  /** Filtering with a condition every element meets changes nothing. */
  lemma {:induction false} FilterAll<T>(s: seq<T>, p: T -> bool)
    requires forall x :: x in s ==> p(x)
    ensures Filter(s, p) == s
  {
    if s != [] {
      FilterAll(s[1..], p);
    }
  }

  /** Two conditions that agree on the elements give the same comprehension. */
  lemma {:induction false} FilterCongruent<T>(s: seq<T>, p: T -> bool, q: T -> bool)
    requires forall x :: x in s ==> p(x) == q(x)
    ensures Filter(s, p) == Filter(s, q)
  {
    if s != [] {
      FilterCongruent(s[1..], p, q);
    }
  }

  /** Filtering twice is filtering once by the conjunction. */
  lemma {:induction false} FilterTwice<T>(s: seq<T>, p: T -> bool, q: T -> bool, pq: T -> bool)
    requires forall x :: x in s ==> pq(x) == (p(x) && q(x))
    ensures Filter(Filter(s, p), q) == Filter(s, pq)
  {
    if s != [] {
      var x, rest := s[0], s[1..];
      assert forall y :: y in rest ==> y in s;
      FilterTwice(rest, p, q, pq);
      if p(x) {
        var f := [x] + Filter(rest, p);
        assert Filter(s, p) == f;
        assert f[0] == x && f[1..] == Filter(rest, p);
        assert Filter(f, q) == (if q(x) then [x] else []) + Filter(Filter(rest, p), q);
      } else {
        assert Filter(s, p) == Filter(rest, p);
      }
    }
  }

  /** One link of a chain of optional filters, `if active: s = [x for x in s if p(x)]`. */
  function Narrow<T>(s: seq<T>, active: bool, p: T -> bool): (r: seq<T>)
    ensures |r| <= |s|
  {
    if active then Filter(s, p) else s
  }

  /** A link whose condition holds of everything when the link is switched off is
      the comprehension by that condition. */
  lemma NarrowAlways<T>(s: seq<T>, active: bool, p: T -> bool)
    requires !active ==> forall x :: x in s ==> p(x)
    ensures Narrow(s, active, p) == Filter(s, p)
  {
    if !active {
      FilterAll(s, p);
    }
  }

  /** A link of the chain applied to an earlier comprehension is again one comprehension. */
  lemma NarrowFilter<T>(s: seq<T>, pre: T -> bool, active: bool, p: T -> bool, next: T -> bool)
    requires forall x :: x in s ==> next(x) == (pre(x) && (!active || p(x)))
    ensures Narrow(Filter(s, pre), active, p) == Filter(s, next)
  {
    if active {
      FilterTwice(s, pre, p, next);
    } else {
      FilterCongruent(s, pre, next);
    }
  }
}
