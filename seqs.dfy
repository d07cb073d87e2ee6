/**
 * The list operations the server performs with `Array.prototype.filter` and
 * `Array.prototype.find`, stated once over sequences.
 */
module Seqs {
  import opened Wrappers

  /** No member occurs twice. Stated one element at a time, from the end,
      so that the solver unfolds it only where a proof asks for it. */
  predicate Distinct<T(==)>(s: seq<T>)
    decreases |s|
  {
    |s| == 0 || (s[|s| - 1] !in s[..|s| - 1] && Distinct(s[..|s| - 1]))
  }

  /** `Distinct` is the pairwise statement: no two slots hold the same member. */
  lemma {:induction false} DistinctPairs<T>(s: seq<T>)
    ensures Distinct(s) <==> forall i, j :: 0 <= i < j < |s| ==> s[i] != s[j]
    decreases |s|
  {
    if s != [] {
      var n := |s| - 1;
      DistinctPairs(s[..n]);
      if Distinct(s) {
        forall i, j | 0 <= i < j < |s| ensures s[i] != s[j]
        {
          if j == n {
            assert s[..n][i] == s[i];
          } else {
            assert s[..n][i] == s[i] && s[..n][j] == s[j];
          }
        }
      }
      if forall i, j :: 0 <= i < j < |s| ==> s[i] != s[j] {
        assert forall i, j :: 0 <= i < j < n ==> s[..n][i] != s[..n][j];
        assert s[n] !in s[..n];
      }
    }
  }

  /** Appending a new member keeps a list without repetitions. */
  lemma DistinctSnoc<T>(s: seq<T>, x: T)
    requires Distinct(s) && x !in s
    ensures Distinct(s + [x])
  {
    assert (s + [x])[..|s|] == s;
  }

  /** `s.filter(y => y !== x)`. Stated from the end, like `Distinct`. */
  function Remove<T(==)>(s: seq<T>, x: T): (r: seq<T>)
    ensures x !in r
    ensures forall y :: y in r ==> y in s && y != x
    ensures forall y :: y in s && y != x ==> y in r
    ensures |r| <= |s|
    ensures x !in s ==> r == s
    decreases |s|
  {
    if s == [] then [] else Remove(s[..|s| - 1], x) + (if s[|s| - 1] == x then [] else [s[|s| - 1]])
  }

  /** Filtering a list with one more member at its end. */
  lemma RemoveSnoc<T>(s: seq<T>, y: T, x: T)
    ensures Remove(s + [y], x) == Remove(s, x) + (if y == x then [] else [y])
  {
    assert (s + [y])[..|s|] == s;
  }

  lemma {:induction false} RemoveDistinct<T>(s: seq<T>, x: T)
    requires Distinct(s)
    ensures Distinct(Remove(s, x))
    decreases |s|
  {
    if s != [] {
      var n := |s| - 1;
      var front := Remove(s[..n], x);
      RemoveDistinct(s[..n], x);
      if s[n] != x {
        assert s[n] !in s[..n];
        DistinctSnoc(front, s[n]);
        assert Remove(s, x) == front + [s[n]];
      } else {
        assert Remove(s, x) == front + [];
        assert front + [] == front;
      }
    }
  }

  /** The members of `s` that are not in `d`, in their order in `s`. */
  function WithoutSet<T(==)>(s: seq<T>, d: set<T>): (r: seq<T>)
    ensures forall y :: y in r ==> y in s && y !in d
    ensures forall y :: y in s && y !in d ==> y in r
    ensures |r| <= |s|
    decreases |s|
  {
    if s == [] then [] else WithoutSet(s[..|s| - 1], d) + (if s[|s| - 1] in d then [] else [s[|s| - 1]])
  }

  lemma {:induction false} WithoutSetEmpty<T>(s: seq<T>)
    ensures WithoutSet(s, {}) == s
    decreases |s|
  {
    if s != [] {
      WithoutSetEmpty(s[..|s| - 1]);
      assert s[..|s| - 1] + [s[|s| - 1]] == s;
    }
  }

  /** Filtering a list with one more member at its end. */
  lemma WithoutSetSnoc<T>(s: seq<T>, y: T, d: set<T>)
    ensures WithoutSet(s + [y], d) == WithoutSet(s, d) + (if y in d then [] else [y])
  {
    assert (s + [y])[..|s|] == s;
  }

  /** Filtering out one more member is one more `Remove`. */
  lemma {:induction false} WithoutSetAdd<T>(s: seq<T>, d: set<T>, x: T)
    ensures WithoutSet(s, d + {x}) == Remove(WithoutSet(s, d), x)
    decreases |s|
  {
    if s != [] {
      var n := |s| - 1;
      var p, y := s[..n], s[n];
      var w, wx := WithoutSet(p, d), WithoutSet(p, d + {x});
      assert s == p + [y];
      WithoutSetAdd(p, d, x);
      WithoutSetSnoc(p, y, d);
      WithoutSetSnoc(p, y, d + {x});
      if y in d {
        assert WithoutSet(s, d) == w + [] == w;
        assert WithoutSet(s, d + {x}) == wx + [] == wx;
      } else {
        RemoveSnoc(w, y, x);
        assert WithoutSet(s, d) == w + [y];
        assert (y in d + {x}) == (y == x);
      }
    }
  }

  lemma {:induction false} WithoutSetDistinct<T>(s: seq<T>, d: set<T>)
    requires Distinct(s)
    ensures Distinct(WithoutSet(s, d))
    decreases |s|
  {
    if s != [] {
      var n := |s| - 1;
      var front := WithoutSet(s[..n], d);
      WithoutSetDistinct(s[..n], d);
      if s[n] !in d {
        assert s[n] !in s[..n];
        DistinctSnoc(front, s[n]);
        assert WithoutSet(s, d) == front + [s[n]];
      } else {
        assert WithoutSet(s, d) == front + [];
        assert front + [] == front;
      }
    }
  }

  /** The members of `s` whose flag is set, in order: what a left-to-right
      `filter` returns when the callback answered `keep[i]` for `s[i]`. */
  function Keep<T>(s: seq<T>, keep: seq<bool>): (r: seq<T>)
    requires |keep| == |s|
    ensures |r| <= |s|
    ensures forall y :: y in r ==> y in s
  {
    if s == [] then []
    else Keep(s[..|s| - 1], keep[..|s| - 1]) + (if keep[|s| - 1] then [s[|s| - 1]] else [])
  }

  /** Each member whose flag is set survives the filter, and in a list
      without repetitions those are the only survivors. */
  lemma {:induction false} KeepMember<T>(s: seq<T>, keep: seq<bool>, i: nat)
    requires |keep| == |s| && i < |s|
    ensures keep[i] ==> s[i] in Keep(s, keep)
    ensures Distinct(s) && !keep[i] ==> s[i] !in Keep(s, keep)
  {
    var n := |s| - 1;
    if i < n {
      KeepMember(s[..n], keep[..n], i);
      if Distinct(s) && !keep[i] {
        assert s[i] != s[n];
      }
    }
  }

  /** Every survivor of the filter is a member whose flag is set. */
  lemma {:induction false} KeepWitness<T>(s: seq<T>, keep: seq<bool>)
    requires |keep| == |s|
    ensures forall y :: y in Keep(s, keep) ==> exists i :: 0 <= i < |s| && keep[i] && s[i] == y
  {
    if s != [] {
      var n := |s| - 1;
      KeepWitness(s[..n], keep[..n]);
      forall y | y in Keep(s, keep) ensures exists i :: 0 <= i < |s| && keep[i] && s[i] == y
      {
        if y in Keep(s[..n], keep[..n]) {
          var i :| 0 <= i < n && keep[..n][i] && s[..n][i] == y;
          assert keep[i] && s[i] == y;
        } else {
          assert keep[n] && s[n] == y;
        }
      }
    }
  }

  lemma {:induction false} KeepDistinct<T>(s: seq<T>, keep: seq<bool>)
    requires |keep| == |s| && Distinct(s)
    ensures Distinct(Keep(s, keep))
  {
    if s != [] {
      var n := |s| - 1;
      KeepDistinct(s[..n], keep[..n]);
      if keep[n] {
        DistinctSnoc(Keep(s[..n], keep[..n]), s[n]);
      } else {
        assert Keep(s, keep) == Keep(s[..n], keep[..n]);
      }
    }
  }

  /** `s.find(p)`, as the index it finds. */
  function FirstIndex<T>(s: seq<T>, p: T -> bool): (r: Option<nat>)
    ensures r.Some? ==> r.value < |s| && p(s[r.value])
    ensures r.Some? ==> forall j :: 0 <= j < r.value ==> !p(s[j])
    ensures r.None? ==> forall j :: 0 <= j < |s| ==> !p(s[j])
  {
    if s == [] then None
    else if p(s[0]) then Some(0)
    else match FirstIndex(s[1..], p)
      case None => None
      case Some(k) => Some(k + 1)
  }

  /** `n` copies of `x`. */
  function Copies<T>(x: T, n: nat): (r: seq<T>)
    ensures |r| == n && forall i :: 0 <= i < n ==> r[i] == x
  {
    seq(n, _ => x)
  }
}
