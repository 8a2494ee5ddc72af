/**
 * Order-preserving filtering and suffixes of sequences: the list
 * comprehensions `[x for x in xs if p(x, a)]` and the slice `xs[-n:]` that
 * the registry, the message log, the workflows and the rate limiter use.
 * The filter condition is a named predicate with one extra argument, so that
 * specifications and code name the same condition.
 */
module Seqs {

  /** `[x for x in s if p(x, a)]`: keeps exactly the elements satisfying `p`, in their original order. */
  function Filter<T, A>(s: seq<T>, p: (T, A) -> bool, a: A): (r: seq<T>)
    ensures |r| <= |s|
  {
    if s == [] then []
    else if p(s[0], a) then [s[0]] + Filter(s[1..], p, a)
    else Filter(s[1..], p, a)
  }

  /** The filter keeps an element of `s` exactly when it passes. */
  lemma {:induction false} FilterMembers<T, A>(s: seq<T>, p: (T, A) -> bool, a: A)
    ensures forall i :: 0 <= i < |Filter(s, p, a)| ==> Filter(s, p, a)[i] in s && p(Filter(s, p, a)[i], a)
    ensures forall i :: 0 <= i < |s| && p(s[i], a) ==> s[i] in Filter(s, p, a)
  {
    if s != [] {
      FilterMembers(s[1..], p, a);
      forall i | 0 <= i < |s| && p(s[i], a) ensures s[i] in Filter(s, p, a) {
        if i > 0 {
          assert s[1..][i - 1] == s[i];
        }
      }
    }
  }

  /** Filtering distributes over concatenation, which is what "order preserved" means. */
  lemma {:induction false} FilterAppend<T, A>(s: seq<T>, t: seq<T>, p: (T, A) -> bool, a: A)
    ensures Filter(s + t, p, a) == Filter(s, p, a) + Filter(t, p, a)
  {
    if s == [] {
      assert s + t == t;
    } else {
      assert (s + t)[1..] == s[1..] + t;
      FilterAppend(s[1..], t, p, a);
    }
  }

  /** `a` occurs in `s` at a position before one holding `b`. */
  ghost predicate Precedes<T>(s: seq<T>, a: T, b: T)
  {
    exists x, y :: 0 <= x < y < |s| && s[x] == a && s[y] == b
  }

  /** Any two elements of `r` occur in `s` in the same order. */
  ghost predicate InOrderOf<T>(r: seq<T>, s: seq<T>)
  {
    forall i, j :: 0 <= i < j < |r| ==> Precedes(s, r[i], r[j])
  }

  /** Any two kept elements come from positions of `s` in the same order. */
  lemma {:induction false} FilterOrder<T, A>(s: seq<T>, p: (T, A) -> bool, a: A)
    ensures InOrderOf(Filter(s, p, a), s)
  {
    if s != [] {
      var rest := Filter(s[1..], p, a);
      FilterOrder(s[1..], p, a);
      FilterMembers(s[1..], p, a);
      var r := Filter(s, p, a);
      forall i, j | 0 <= i < j < |r|
        ensures Precedes(s, r[i], r[j])
      {
        if p(s[0], a) {
          assert r == [s[0]] + rest;
          if i == 0 {
            var k :| 0 <= k < |s[1..]| && s[1..][k] == rest[j - 1];
            assert s[0] == r[0] && s[k + 1] == r[j];
          } else {
            assert Precedes(s[1..], rest[i - 1], rest[j - 1]);
            var x, y :| 0 <= x < y < |s[1..]| && s[1..][x] == rest[i - 1] && s[1..][y] == rest[j - 1];
            assert s[x + 1] == r[i] && s[y + 1] == r[j];
          }
        } else {
          assert r == rest;
          assert Precedes(s[1..], rest[i], rest[j]);
          var x, y :| 0 <= x < y < |s[1..]| && s[1..][x] == rest[i] && s[1..][y] == rest[j];
          assert s[x + 1] == r[i] && s[y + 1] == r[j];
        }
      }
    } else {
      assert Filter(s, p, a) == [];
    }
  }

  /** A one-element list keeps its element exactly when it passes. */
  lemma FilterSingleton<T, A>(x: T, p: (T, A) -> bool, a: A)
    ensures Filter([x], p, a) == if p(x, a) then [x] else []
  {
    assert [x][1..] == [];
  }

  /** A filter that every element passes is the identity. */
  lemma {:induction false} FilterAll<T, A>(s: seq<T>, p: (T, A) -> bool, a: A)
    requires forall i :: 0 <= i < |s| ==> p(s[i], a)
    ensures Filter(s, p, a) == s
  {
    if s != [] {
      FilterAll(s[1..], p, a);
    }
  }

  /** The elements' keys are pairwise different. */
  ghost predicate DistinctBy<T, K>(s: seq<T>, key: T -> K)
  {
    forall i, j :: 0 <= i < j < |s| ==> key(s[i]) != key(s[j])
  }

  /** Filtering keeps distinct keys distinct. */
  lemma {:induction false} FilterDistinct<T, A, K>(s: seq<T>, p: (T, A) -> bool, a: A, key: T -> K)
    requires DistinctBy(s, key)
    ensures DistinctBy(Filter(s, p, a), key)
  {
    if s != [] {
      FilterDistinct(s[1..], p, a, key);
      FilterMembers(s[1..], p, a);
      var rest := Filter(s[1..], p, a);
      if p(s[0], a) {
        forall j | 0 <= j < |rest|
          ensures key(s[0]) != key(rest[j])
        {
          var k :| 0 <= k < |s[1..]| && s[1..][k] == rest[j];
          assert s[k + 1] == rest[j];
        }
        var r := [s[0]] + rest;
        forall i, j | 0 <= i < j < |r|
          ensures key(r[i]) != key(r[j])
        {
          assert r[j] == rest[j - 1];
          if i > 0 {
            assert r[i] == rest[i - 1];
          }
        }
      }
    }
  }

  function Min(x: int, y: int): int
  {
    if x <= y then x else y
  }

  /** `r` is the last `|r|` elements of `s`. */
  ghost predicate IsSuffix<T>(r: seq<T>, s: seq<T>)
  {
    |r| <= |s| && r == s[|s| - |r|..]
  }

  /**
   * Python's `s[-n:]`: for n > 0 the last min(n, |s|) elements; `-0` is 0,
   * so n == 0 gives the whole list; for n < 0 it drops the first -n elements.
   */
  function TailSlice<T>(s: seq<T>, n: int): (r: seq<T>)
    ensures IsSuffix(r, s)
    ensures n > 0 ==> |r| == Min(n, |s|)
    ensures n == 0 ==> r == s
    ensures n < 0 ==> |r| == |s| - Min(-n, |s|)
  {
    if n > 0 then s[|s| - Min(n, |s|)..] else s[Min(-n, |s|)..]
  }
}
