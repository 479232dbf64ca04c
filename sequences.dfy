/** Sequence operations the components use (JavaScript's `Array.prototype.filter`)
    and the facts about them the components rely on. */
module Sequences {

  /** `b` contains the elements of `a` in the same relative order (possibly with others in between). */
  ghost predicate IsSubsequence<T>(a: seq<T>, b: seq<T>)
    decreases |b|
  {
    a == [] || (b != [] && ((a[0] == b[0] && IsSubsequence(a[1..], b[1..])) || IsSubsequence(a, b[1..])))
  }

  /** No element occurs twice. */
  ghost predicate NoDup<T>(s: seq<T>) {
    forall i, j :: 0 <= i < j < |s| ==> s[i] != s[j]
  }

  /** The predicate `item => item !== a` used to remove an element by filtering. */
  function IsNot<T(==)>(a: T): T -> bool {
    x => x != a
  }

  /** The elements of `s` that satisfy `p`, in order: `s.filter(p)`. */
  function Filter<T(!new)>(p: T -> bool, s: seq<T>): (r: seq<T>)
    ensures |r| <= |s|
    ensures forall x :: x in r <==> x in s && p(x)
    ensures IsSubsequence(r, s)
  {
    if s == [] then []
    else
      var rest := Filter(p, s[1..]);
      assert forall x :: x in s <==> x == s[0] || x in s[1..];
      if p(s[0]) then
        assert ([s[0]] + rest)[1..] == rest;
        [s[0]] + rest
      else rest
  }

  /** Filtering distributes over concatenation. */
  lemma {:induction false} FilterConcat<T(!new)>(p: T -> bool, a: seq<T>, b: seq<T>)
    ensures Filter(p, a + b) == Filter(p, a) + Filter(p, b)
  {
    if a == [] {
      assert a + b == b;
    } else {
      assert (a + b)[0] == a[0];
      assert (a + b)[1..] == a[1..] + b;
      FilterConcat(p, a[1..], b);
    }
  }

  /** Filtering keeps a sequence whole when every element passes. */
  lemma {:induction false} FilterKeepsAll<T(!new)>(p: T -> bool, s: seq<T>)
    requires forall x :: x in s ==> p(x)
    ensures Filter(p, s) == s
  {
    if s != [] {
      assert s[0] in s;
      assert forall x :: x in s[1..] ==> x in s;
      FilterKeepsAll(p, s[1..]);
      assert [s[0]] + s[1..] == s;
    }
  }

  /** Two predicates that agree on every element filter a sequence identically. */
  lemma {:induction false} FilterCongruent<T(!new)>(p: T -> bool, q: T -> bool, s: seq<T>)
    requires forall x :: x in s ==> p(x) == q(x)
    ensures Filter(p, s) == Filter(q, s)
  {
    if s != [] {
      assert s[0] in s;
      assert forall x :: x in s[1..] ==> x in s;
      FilterCongruent(p, q, s[1..]);
    }
  }

  /** Filtering a duplicate-free sequence gives a duplicate-free sequence. */
  lemma {:induction false} FilterNoDup<T(!new)>(p: T -> bool, s: seq<T>)
    requires NoDup(s)
    ensures NoDup(Filter(p, s))
  {
    if s != [] {
      assert NoDup(s[1..]) by {
        forall i, j | 0 <= i < j < |s[1..]| ensures s[1..][i] != s[1..][j] {
          assert s[1..][i] == s[i + 1] && s[1..][j] == s[j + 1];
        }
      }
      FilterNoDup(p, s[1..]);
      var rest := Filter(p, s[1..]);
      if p(s[0]) {
        assert s[0] !in s[1..] by {
          forall k | 0 <= k < |s[1..]| ensures s[1..][k] != s[0] {
            assert s[1..][k] == s[k + 1];
          }
        }
        assert s[0] !in rest;
        var r := [s[0]] + rest;
        forall i, j | 0 <= i < j < |r| ensures r[i] != r[j] {
          if i == 0 {
            assert r[j] == rest[j - 1];
            assert rest[j - 1] in rest;
          } else {
            assert r[i] == rest[i - 1] && r[j] == rest[j - 1];
          }
        }
      }
    }
  }

  /** Removing `a` by filtering drops every occurrence of `a` and keeps the count of every other element. */
  lemma {:induction false} FilterIsNotMultiset<T(!new)>(a: T, s: seq<T>)
    ensures multiset(Filter(IsNot(a), s)) == multiset(s)[a := 0]
  {
    if s == [] {
    } else {
      FilterIsNotMultiset(a, s[1..]);
      assert s == [s[0]] + s[1..];
      assert multiset(s) == multiset{s[0]} + multiset(s[1..]);
      if s[0] == a {
        assert Filter(IsNot(a), s) == Filter(IsNot(a), s[1..]);
      } else {
        assert Filter(IsNot(a), s) == [s[0]] + Filter(IsNot(a), s[1..]);
        assert multiset([s[0]] + Filter(IsNot(a), s[1..])) == multiset{s[0]} + multiset(Filter(IsNot(a), s[1..]));
      }
    }
  }

  /** An element of a duplicate-free sequence occurs exactly once. */
  lemma {:induction false} NoDupOccursOnce<T>(a: T, s: seq<T>)
    requires NoDup(s) && a in s
    ensures multiset(s)[a] == 1
  {
    assert s == [s[0]] + s[1..];
    assert NoDup(s[1..]) by {
      forall i, j | 0 <= i < j < |s[1..]| ensures s[1..][i] != s[1..][j] {
        assert s[1..][i] == s[i + 1] && s[1..][j] == s[j + 1];
      }
    }
    assert s[0] !in s[1..] by {
      forall k | 0 <= k < |s[1..]| ensures s[1..][k] != s[0] {
        assert s[1..][k] == s[k + 1];
      }
    }
    if s[0] == a {
      assert multiset(s[1..])[a] == 0;
    } else {
      NoDupOccursOnce(a, s[1..]);
    }
    assert multiset(s) == multiset{s[0]} + multiset(s[1..]);
  }

  /** Appending an absent element keeps a sequence duplicate-free. */
  lemma NoDupAppend<T>(s: seq<T>, a: T)
    requires NoDup(s) && a !in s
    ensures NoDup(s + [a])
  {
    var r := s + [a];
    forall i, j | 0 <= i < j < |r| ensures r[i] != r[j] {
      if j == |s| {
        assert r[i] == s[i];
      } else {
        assert r[i] == s[i] && r[j] == s[j];
      }
    }
  }
}
