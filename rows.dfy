/**
 * Generic facts about tables held as sequences of rows in insertion order:
 * selecting rows (a `WHERE` clause), finding the first matching row, and the
 * order of serial ids.
 */
module Rows {
  import opened Wrappers

  /** The rows of `s` that satisfy `f`, in their order in `s`. */
  function Filter<T(!new)>(s: seq<T>, f: T -> bool): (r: seq<T>)
    ensures |r| <= |s|
    ensures forall x :: x in r <==> x in s && f(x)
    decreases |s|
  {
    if |s| == 0 then []
    else if f(s[0]) then [s[0]] + Filter(s[1..], f)
    else Filter(s[1..], f)
  }

  /** Selecting with a condition that every row meets keeps the whole table. */
  lemma {:induction false} FilterKeepsAll<T(!new)>(s: seq<T>, f: T -> bool)
    requires forall x :: x in s ==> f(x)
    ensures Filter(s, f) == s
    decreases |s|
  {
    if |s| > 0 {
      assert s[0] in s;
      forall x | x in s[1..] ensures f(x) { assert x in s; }
      FilterKeepsAll(s[1..], f);
      assert s == [s[0]] + s[1..];
    }
  }

  /** Selecting with a condition that no row meets gives the empty table. */
  lemma {:induction false} FilterKeepsNone<T(!new)>(s: seq<T>, f: T -> bool)
    requires forall x :: x in s ==> !f(x)
    ensures Filter(s, f) == []
    decreases |s|
  {
    if |s| > 0 {
      assert s[0] in s;
      forall x | x in s[1..] ensures !f(x) { assert x in s; }
      FilterKeepsNone(s[1..], f);
    }
  }

  /**
   * When `f` and `g` are complementary on the rows of `s`, the two selections
   * together have exactly as many rows as `s`.
   */
  lemma {:induction false} FilterComplementSize<T(!new)>(s: seq<T>, f: T -> bool, g: T -> bool)
    requires forall x :: x in s ==> (f(x) <==> !g(x))
    ensures |Filter(s, f)| + |Filter(s, g)| == |s|
    decreases |s|
  {
    if |s| > 0 {
      assert s[0] in s;
      forall x | x in s[1..] ensures f(x) <==> !g(x) { assert x in s; }
      FilterComplementSize(s[1..], f, g);
    }
  }

  /** Two disjoint conditions never select more rows than the table has. */
  lemma {:induction false} FilterDisjointSize<T(!new)>(s: seq<T>, f: T -> bool, g: T -> bool)
    requires forall x :: x in s ==> !(f(x) && g(x))
    ensures |Filter(s, f)| + |Filter(s, g)| <= |s|
    decreases |s|
  {
    if |s| > 0 {
      assert s[0] in s;
      forall x | x in s[1..] ensures !(f(x) && g(x)) { assert x in s; }
      FilterDisjointSize(s[1..], f, g);
    }
  }

  /** The index of the first row satisfying `f`, or `|s|` when there is none. */
  function FirstIndex<T(!new)>(s: seq<T>, f: T -> bool): (k: nat)
    ensures k <= |s|
    ensures forall j :: 0 <= j < k ==> !f(s[j])
    ensures k < |s| ==> f(s[k])
    decreases |s|
  {
    if |s| == 0 then 0
    else if f(s[0]) then 0
    else 1 + FirstIndex(s[1..], f)
  }

  /** The first row satisfying `f` (the row of `const [row] = await select ... where ...`). */
  function Find<T(!new)>(s: seq<T>, f: T -> bool): (r: Option<T>)
    ensures r.None? <==> forall x :: x in s ==> !f(x)
    ensures r.Some? ==> r.value in s && f(r.value)
  {
    var k := FirstIndex(s, f);
    if k < |s| then Some(s[k]) else None
  }

  /** The keys of the rows strictly increase along the table. */
  ghost predicate Increasing<T(!new)>(s: seq<T>, key: T -> int) {
    forall i, j :: 0 <= i < j < |s| ==> key(s[i]) < key(s[j])
  }

  /** Every row's key lies in `lo .. hi - 1`. */
  ghost predicate KeysWithin<T(!new)>(s: seq<T>, key: T -> int, lo: int, hi: int) {
    forall x :: x in s ==> lo <= key(x) < hi
  }

  /** Deleting rows keeps the keys increasing. */
  lemma {:induction false} FilterIncreasing<T(!new)>(s: seq<T>, f: T -> bool, key: T -> int)
    requires Increasing(s, key)
    ensures Increasing(Filter(s, f), key)
    decreases |s|
  {
    if |s| > 0 {
      var tail := s[1..];
      assert Increasing(tail, key) by {
        forall i, j | 0 <= i < j < |tail| ensures key(tail[i]) < key(tail[j]) {
          assert tail[i] == s[i + 1] && tail[j] == s[j + 1];
        }
      }
      FilterIncreasing(tail, f, key);
      if f(s[0]) {
        var rest := Filter(tail, f);
        forall x | x in rest ensures key(s[0]) < key(x) {
          var k :| 0 <= k < |tail| && tail[k] == x;
          assert x == s[k + 1];
        }
        var r := [s[0]] + rest;
        forall i, j | 0 <= i < j < |r| ensures key(r[i]) < key(r[j]) {
          assert r[j] == rest[j - 1] && rest[j - 1] in rest;
          if i > 0 {
            assert r[i] == rest[i - 1];
          }
        }
      }
    }
  }

  /** In a table with increasing keys, a row with a given key is the first row with that key. */
  lemma {:induction false} IncreasingFindsRow<T(!new)>(s: seq<T>, key: T -> int, i: nat, f: T -> bool)
    requires Increasing(s, key) && i < |s|
    requires forall x :: f(x) <==> key(x) == key(s[i])
    ensures Find(s, f) == Some(s[i])
  {
    var k := FirstIndex(s, f);
    assert f(s[i]);
    assert k <= i;
  }

  /**
   * The first row satisfying a condition depends only on which rows satisfy it:
   * two tables of the same length whose rows agree on `f` give the same index.
   */
  lemma {:induction false} FirstIndexAgrees<T(!new)>(s: seq<T>, t: seq<T>, f: T -> bool)
    requires |s| == |t|
    requires forall i :: 0 <= i < |s| ==> (f(s[i]) <==> f(t[i]))
    ensures FirstIndex(s, f) == FirstIndex(t, f)
    decreases |s|
  {
    if |s| > 0 && !f(s[0]) {
      forall i | 0 <= i < |s[1..]| ensures f(s[1..][i]) <==> f(t[1..][i]) {
        assert s[1..][i] == s[i + 1] && t[1..][i] == t[i + 1];
      }
      FirstIndexAgrees(s[1..], t[1..], f);
    }
  }

  /** Rewriting rows without touching their keys keeps both key invariants. */
  lemma SameKeysKeepOrder<T(!new)>(s: seq<T>, t: seq<T>, key: T -> int, lo: int, hi: int)
    requires |s| == |t|
    requires forall i :: 0 <= i < |s| ==> key(t[i]) == key(s[i])
    requires Increasing(s, key) && KeysWithin(s, key, lo, hi)
    ensures Increasing(t, key) && KeysWithin(t, key, lo, hi)
  {
    forall x | x in t ensures lo <= key(x) < hi {
      var k :| 0 <= k < |t| && t[k] == x;
      assert s[k] in s;
    }
  }

  /** Appending a row whose key is the next serial value keeps both key invariants. */
  lemma AppendKeepsOrder<T(!new)>(s: seq<T>, x: T, key: T -> int, lo: int, hi: int)
    requires Increasing(s, key) && KeysWithin(s, key, lo, hi)
    requires lo <= key(x) == hi
    ensures Increasing(s + [x], key) && KeysWithin(s + [x], key, lo, hi + 1)
  {
    var t := s + [x];
    forall i, j | 0 <= i < j < |t| ensures key(t[i]) < key(t[j]) {
      if j == |s| {
        assert t[i] == s[i] && s[i] in s;
      } else {
        assert t[i] == s[i] && t[j] == s[j];
      }
    }
  }

  /** Deleting rows keeps both key invariants. */
  lemma FilterKeepsOrder<T(!new)>(s: seq<T>, f: T -> bool, key: T -> int, lo: int, hi: int)
    requires Increasing(s, key) && KeysWithin(s, key, lo, hi)
    ensures Increasing(Filter(s, f), key) && KeysWithin(Filter(s, f), key, lo, hi)
  {
    FilterIncreasing(s, f, key);
  }
}
