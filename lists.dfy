/**
 * Sequence helpers for the game's entity lists: Python's `list.remove`, which
 * drops the first element equal to its argument, and distinctness of the
 * objects a list holds.
 */
module Lists {

  /** `s.remove(v)`: the first occurrence of `v` is dropped; nothing else moves. */
  function RemoveFirst<T(==)>(s: seq<T>, v: T): (r: seq<T>)
    ensures v in s ==> |r| == |s| - 1
    ensures v !in s ==> r == s
    ensures forall x :: x in r ==> x in s
  {
    if s == [] then []
    else
      assert s == [s[0]] + s[1..];
      if s[0] == v then s[1..] else [s[0]] + RemoveFirst(s[1..], v)
  }

  /** Removing an element that follows a prefix free of it leaves the prefix and the tail. */
  lemma {:induction false} RemoveFirstAfter<T>(a: seq<T>, v: T, b: seq<T>)
    requires v !in a
    ensures RemoveFirst(a + [v] + b, v) == a + b
  {
    var s := a + [v] + b;
    if a == [] {
      assert s[0] == v && s[1..] == b;
    } else {
      assert s[0] == a[0] && s[1..] == a[1..] + [v] + b;
      assert a[0] != v && v !in a[1..];
      assert RemoveFirst(s, v) == [a[0]] + RemoveFirst(a[1..] + [v] + b, v);
      RemoveFirstAfter(a[1..], v, b);
      assert a + b == [a[0]] + (a[1..] + b);
    }
  }

  /** Exactly one copy of `v` leaves the list, when there is one. */
  lemma {:induction false} RemoveFirstMultiset<T>(s: seq<T>, v: T)
    ensures multiset(RemoveFirst(s, v)) == multiset(s) - multiset{v}
  {
    if s != [] {
      assert s == [s[0]] + s[1..];
      if s[0] != v {
        RemoveFirstMultiset(s[1..], v);
      }
    }
  }

  /** Removing `v` leaves every other element in the list. */
  lemma {:induction false} RemoveFirstKeepsOthers<T>(s: seq<T>, v: T, x: T)
    requires x in s && x != v
    ensures x in RemoveFirst(s, v)
  {
    assert s == [s[0]] + s[1..];
    if s[0] != v && s[0] != x {
      RemoveFirstKeepsOthers(s[1..], v, x);
    }
  }

  /** No object appears twice in the list. */
  predicate Distinct<T(==)>(s: seq<T>) {
    forall i, j :: 0 <= i < j < |s| ==> s[i] != s[j]
  }

  /** In a list without repetitions, removing `v` removes every occurrence of it. */
  lemma {:induction false} RemoveFirstDistinct<T>(s: seq<T>, v: T)
    requires Distinct(s)
    ensures v !in RemoveFirst(s, v)
    ensures Distinct(RemoveFirst(s, v))
  {
    if s != [] && s[0] != v {
      assert Distinct(s[1..]) by {
        forall i, j | 0 <= i < j < |s[1..]| ensures s[1..][i] != s[1..][j] {
          assert s[1..][i] == s[i + 1] && s[1..][j] == s[j + 1];
        }
      }
      RemoveFirstDistinct(s[1..], v);
      var t := RemoveFirst(s[1..], v);
      assert s[0] !in t by {
        assert s[0] !in s[1..];
      }
      forall i, j | 0 <= i < j < |[s[0]] + t| ensures ([s[0]] + t)[i] != ([s[0]] + t)[j] {
        if i > 0 {
          assert ([s[0]] + t)[i] == t[i - 1] && ([s[0]] + t)[j] == t[j - 1];
        } else {
          assert ([s[0]] + t)[j] == t[j - 1];
          assert t[j - 1] in t;
        }
      }
    } else if s != [] {
      forall i, j | 0 <= i < j < |s[1..]| ensures s[1..][i] != s[1..][j] {
        assert s[1..][i] == s[i + 1] && s[1..][j] == s[j + 1];
      }
      forall k | 0 <= k < |s[1..]| ensures s[1..][k] != v {
        assert s[1..][k] == s[k + 1];
      }
    }
  }

  /** The elements of `s` whose mark in `keep` is set, in order: the list a filtering pass leaves. */
  function KeepIf<T>(s: seq<T>, keep: seq<bool>): (r: seq<T>)
    requires |keep| == |s|
    ensures |r| <= |s|
  {
    if s == [] then []
    else
      var n := |s| - 1;
      assert s == s[..n] + [s[n]];
      KeepIf(s[..n], keep[..n]) + (if keep[n] then [s[n]] else [])
  }

  /** Every survivor of a filter comes from the list. */
  lemma {:induction false} KeepIfSubset<T>(s: seq<T>, keep: seq<bool>, v: T)
    requires |keep| == |s| && v in KeepIf(s, keep)
    ensures v in s
  {
    var n := |s| - 1;
    if v != s[n] || !keep[n] {
      KeepIfSubset(s[..n], keep[..n], v);
    }
  }

  /** An element whose mark is set survives the filter, repetitions or not. */
  lemma {:induction false} KeepIfKeeps<T>(s: seq<T>, keep: seq<bool>, k: int)
    requires |keep| == |s| && 0 <= k < |s| && keep[k]
    ensures s[k] in KeepIf(s, keep)
  {
    var n := |s| - 1;
    if k < n {
      KeepIfKeeps(s[..n], keep[..n], k);
      assert s[..n][k] == s[k];
    }
  }

  /** A survivor of a filter sits at a marked position of the list. */
  lemma {:induction false} KeepIfMarked<T>(s: seq<T>, keep: seq<bool>, v: T) returns (k: int)
    requires |keep| == |s| && v in KeepIf(s, keep)
    ensures 0 <= k < |s| && s[k] == v && keep[k]
  {
    var n := |s| - 1;
    if v == s[n] && keep[n] {
      k := n;
    } else {
      k := KeepIfMarked(s[..n], keep[..n], v);
      assert s[..n][k] == s[k];
    }
  }

  /** In a list without repetitions, an element survives the filter exactly when its mark is set. */
  lemma {:induction false} KeepIfMembers<T>(s: seq<T>, keep: seq<bool>)
    requires |keep| == |s| && Distinct(s)
    ensures forall k :: 0 <= k < |s| ==> (s[k] in KeepIf(s, keep) <==> keep[k])
  {
    if s != [] {
      var n := |s| - 1;
      assert Distinct(s[..n]) by {
        forall i, j | 0 <= i < j < n ensures s[..n][i] != s[..n][j] {
          assert s[..n][i] == s[i] && s[..n][j] == s[j];
        }
      }
      KeepIfMembers(s[..n], keep[..n]);
      var r := KeepIf(s[..n], keep[..n]);
      forall k | 0 <= k < |s| ensures s[k] in KeepIf(s, keep) <==> keep[k] {
        if k < n {
          assert s[..n][k] == s[k] && s[k] != s[n];
        } else if s[n] in r {
          KeepIfSubset(s[..n], keep[..n], s[n]);
        }
      }
    }
  }

  /** Filtering keeps a list free of repetitions. */
  lemma {:induction false} KeepIfDistinct<T>(s: seq<T>, keep: seq<bool>)
    requires |keep| == |s| && Distinct(s)
    ensures Distinct(KeepIf(s, keep))
  {
    if s != [] {
      var n := |s| - 1;
      assert Distinct(s[..n]) by {
        forall i, j | 0 <= i < j < n ensures s[..n][i] != s[..n][j] {
          assert s[..n][i] == s[i] && s[..n][j] == s[j];
        }
      }
      KeepIfDistinct(s[..n], keep[..n]);
      var r := KeepIf(s[..n], keep[..n]);
      if keep[n] {
        assert s[n] !in r by {
          if s[n] in r {
            KeepIfSubset(s[..n], keep[..n], s[n]);
          }
        }
        forall i, j | 0 <= i < j < |r| + 1 ensures (r + [s[n]])[i] != (r + [s[n]])[j] {
          if j == |r| {
            assert (r + [s[n]])[i] == r[i] && r[i] in r;
          } else {
            assert (r + [s[n]])[i] == r[i] && (r + [s[n]])[j] == r[j];
          }
        }
      }
    }
  }

  /** Splitting a list around its `i`-th element. */
  lemma SplitAt<T>(s: seq<T>, i: int)
    requires 0 <= i < |s|
    ensures s[i..] == [s[i]] + s[i + 1..]
    ensures s[..i + 1] == s[..i] + [s[i]]
    ensures s[..i + 1][..i] == s[..i]
  {
  }

  lemma Assoc<T>(a: seq<T>, b: seq<T>, c: seq<T>)
    ensures a + (b + c) == (a + b) + c
  {
  }

  function Max(a: int, b: int): int { if a >= b then a else b }

  function Min(a: int, b: int): int { if a <= b then a else b }

  function Abs(a: int): int { if a >= 0 then a else -a }
}
