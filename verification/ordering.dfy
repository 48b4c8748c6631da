/**
 * LINQ's `OrderBy`: a stable sort under a caller-given "less than or equal"
 * relation, written as insertion sort. Each element is placed in front of
 * the first element it does not exceed, so elements that compare equal keep
 * their input order.
 */
module Ordering {

  /** Every earlier element is related to every later one. */
  predicate Sorted<T>(s: seq<T>, le: (T, T) -> bool) {
    forall i, j :: 0 <= i < j < |s| ==> le(s[i], s[j])
  }

  /** `le` relates any two values one way or the other, and chains. */
  ghost predicate TotalPreorder<T(!new)>(le: (T, T) -> bool) {
    && (forall a, b :: le(a, b) || le(b, a))
    && (forall a, b, c :: le(a, b) && le(b, c) ==> le(a, c))
  }

  /** `f` applied to every element of `s`, in order. */
  function Project<T, U>(s: seq<T>, f: T -> U): (r: seq<U>)
    ensures |r| == |s|
  {
    seq(|s|, i requires 0 <= i < |s| => f(s[i]))
  }

  lemma ProjectAt<T, U>(s: seq<T>, f: T -> U, i: nat)
    requires i < |s|
    ensures Project(s, f)[i] == f(s[i])
  {
  }

  lemma ProjectAppend<T, U>(a: seq<T>, b: seq<T>, f: T -> U)
    ensures Project(a + b, f) == Project(a, f) + Project(b, f)
  {
  }

  lemma ProjectCons<T, U>(s: seq<T>, f: T -> U)
    requires s != []
    ensures Project(s, f) == [f(s[0])] + Project(s[1..], f)
  {
  }

  /** Where `x` goes: in front of the first element it does not exceed, or at the end. */
  function InsertionPoint<T>(x: T, s: seq<T>, le: (T, T) -> bool): (p: nat)
    ensures p <= |s|
    ensures forall i :: 0 <= i < p ==> !le(x, s[i])
    ensures p < |s| ==> le(x, s[p])
  {
    if s == [] || le(x, s[0]) then 0 else 1 + InsertionPoint(x, s[1..], le)
  }

  function Insert<T>(x: T, s: seq<T>, le: (T, T) -> bool): seq<T>
  {
    var p := InsertionPoint(x, s, le);
    s[..p] + [x] + s[p..]
  }

  function SortBy<T>(s: seq<T>, le: (T, T) -> bool): (r: seq<T>)
    ensures |r| == |s|
  {
    if s == [] then [] else Insert(s[0], SortBy(s[1..], le), le)
  }

  /** Inserting adds exactly `x`, also as seen through any projection `f`. */
  lemma InsertAdds<T, U>(x: T, s: seq<T>, le: (T, T) -> bool, f: T -> U)
    ensures multiset(Project(Insert(x, s, le), f)) == multiset{f(x)} + multiset(Project(s, f))
  {
    var p := InsertionPoint(x, s, le);
    var front, back := s[..p], s[p..];
    assert front + back == s;
    ProjectAppend(front + [x], back, f);
    ProjectAppend(front, [x], f);
    ProjectAppend(front, back, f);
    assert Project([x], f) == [f(x)];
    var pf, pb := Project(front, f), Project(back, f);
    assert Project(Insert(x, s, le), f) == pf + [f(x)] + pb;
    assert multiset(pf + [f(x)] + pb) == multiset(pf) + multiset{f(x)} + multiset(pb);
    assert multiset(Project(s, f)) == multiset(pf) + multiset(pb);
  }

  /** Sorting is a permutation, also as seen through any projection `f`. */
  lemma {:induction false} SortByPermutes<T, U>(s: seq<T>, le: (T, T) -> bool, f: T -> U)
    ensures multiset(Project(SortBy(s, le), f)) == multiset(Project(s, f))
  {
    if s != [] {
      var rest := SortBy(s[1..], le);
      SortByPermutes(s[1..], le, f);
      InsertAdds(s[0], rest, le, f);
      ProjectCons(s, f);
    }
  }

  /** The plain permutation: sorting keeps every element, each as often. */
  lemma SortByIsPermutation<T>(s: seq<T>, le: (T, T) -> bool)
    ensures multiset(SortBy(s, le)) == multiset(s)
  {
    var id := (x: T) => x;
    SortByPermutes(s, le, id);
    assert Project(SortBy(s, le), id) == SortBy(s, le);
    assert Project(s, id) == s;
  }

  lemma InsertSorted<T(!new)>(x: T, s: seq<T>, le: (T, T) -> bool)
    requires TotalPreorder(le)
    requires Sorted(s, le)
    ensures Sorted(Insert(x, s, le), le)
  {
    var p := InsertionPoint(x, s, le);
    var r := Insert(x, s, le);
    forall i, j | 0 <= i < j < |r|
      ensures le(r[i], r[j])
    {
      if j < p {
      } else if i < p && j == p {
        assert !le(x, s[i]);
      } else if i < p {
        assert le(s[i], s[j - 1]);
      } else if i == p {
        assert le(x, s[p]);
        if j - 1 > p {
          assert le(s[p], s[j - 1]);
        }
      } else {
        assert le(s[i - 1], s[j - 1]);
      }
    }
  }

  /** Under a total preorder the result is sorted. */
  lemma {:induction false} SortBySorted<T(!new)>(s: seq<T>, le: (T, T) -> bool)
    requires TotalPreorder(le)
    ensures Sorted(SortBy(s, le), le)
  {
    if s != [] {
      SortBySorted(s[1..], le);
      InsertSorted(s[0], SortBy(s[1..], le), le);
    }
  }
}
