/** Sequence operations that stand in for the storage engines' query
    clauses: a `WHERE` filter that keeps table order, and an `ORDER BY` under
    a given comparison (Python's `sorted(..., key=...)` in the JSON-file
    server). */
module Seqs {

  /** The elements of `s` satisfying `p`, in their original order. */
  function Keep<T(!new)>(s: seq<T>, p: T -> bool): (r: seq<T>)
    ensures |r| <= |s|
    ensures forall x :: x in r <==> x in s && p(x)
    ensures |r| == |s| <==> forall i :: 0 <= i < |s| ==> p(s[i])
    decreases |s|
  {
    if s == [] then []
    else
      var rest := Keep(s[1..], p);
      assert s == [s[0]] + s[1..];
      if p(s[0]) then [s[0]] + rest
      else
        assert !p(s[0]);
        rest
  }

  /** `key` grows strictly along `s`. */
  ghost predicate StrictlyIncreasing<T>(s: seq<T>, key: T -> int) {
    forall i, j :: 0 <= i < j < |s| ==> key(s[i]) < key(s[j])
  }

  /** Keeping a sub-sequence preserves a strictly increasing key. */
  lemma {:induction false} KeepIncreasing<T(!new)>(s: seq<T>, p: T -> bool, key: T -> int)
    requires StrictlyIncreasing(s, key)
    ensures StrictlyIncreasing(Keep(s, p), key)
    ensures forall x :: x in Keep(s, p) && s != [] ==> key(s[0]) <= key(x)
    decreases |s|
  {
    if s != [] {
      KeepIncreasing(s[1..], p, key);
      var rest := Keep(s[1..], p);
      forall x | x in rest ensures key(s[0]) < key(x) {
        var k :| 0 <= k < |s[1..]| && s[1..][k] == x;
        assert s[k + 1] == x;
      }
    }
  }

  /** When `key` is strictly increasing along `s` and `s[k]` has key `id`,
      the filter "key is not `id`" removes exactly `s[k]` and keeps the rest
      in place. */
  lemma {:induction false} KeepDropsOne<T(!new)>(s: seq<T>, p: T -> bool, key: T -> int, id: int, k: nat)
    requires StrictlyIncreasing(s, key)
    requires forall x :: p(x) <==> key(x) != id
    requires k < |s| && key(s[k]) == id
    ensures Keep(s, p) == s[..k] + s[k + 1..]
    decreases |s|
  {
    IncreasingTail(s, key);
    if k == 0 {
      assert !p(s[0]);
      KeepAll(s[1..], p);
      assert Keep(s, p) == s[1..];
      SplitAt(s, 0);
    } else {
      KeepDropsOne(s[1..], p, key, id, k - 1);
      assert Keep(s, p) == [s[0]] + Keep(s[1..], p) by { assert key(s[0]) < key(s[k]); }
      SplitAt(s, k);
    }
  }

  lemma SplitAt<T>(s: seq<T>, k: nat)
    requires k < |s|
    ensures k == 0 ==> s[..k] + s[k + 1..] == s[1..]
    ensures k > 0 ==> s[..k] + s[k + 1..] == [s[0]] + (s[1..][..k - 1] + s[1..][k..])
  {
    if k > 0 {
      assert s[1..][..k - 1] + s[1..][k..] == s[1..k] + s[k + 1..];
      assert [s[0]] + (s[1..k] + s[k + 1..]) == s[..k] + s[k + 1..];
    }
  }

  lemma IncreasingTail<T>(s: seq<T>, key: T -> int)
    requires StrictlyIncreasing(s, key) && s != []
    ensures StrictlyIncreasing(s[1..], key)
    ensures forall i :: 0 <= i < |s[1..]| ==> key(s[1..][i]) > key(s[0])
  {
    forall i, j | 0 <= i < j < |s[1..]| ensures key(s[1..][i]) < key(s[1..][j]) {
      assert s[1..][i] == s[i + 1] && s[1..][j] == s[j + 1];
    }
  }

  /** Everything passes the filter when every element satisfies `p`. */
  lemma {:induction false} KeepAll<T(!new)>(s: seq<T>, p: T -> bool)
    requires forall i :: 0 <= i < |s| ==> p(s[i])
    ensures Keep(s, p) == s
    decreases |s|
  {
    if s != [] {
      assert forall i :: 0 <= i < |s[1..]| ==> s[1..][i] == s[i + 1];
      KeepAll(s[1..], p);
      assert [s[0]] + s[1..] == s;
    }
  }

  /** Nothing passes the filter when no element satisfies `p`. */
  lemma {:induction false} KeepNone<T(!new)>(s: seq<T>, p: T -> bool)
    requires forall i :: 0 <= i < |s| ==> !p(s[i])
    ensures Keep(s, p) == []
    decreases |s|
  {
    if s != [] {
      assert forall i :: 0 <= i < |s[1..]| ==> s[1..][i] == s[i + 1];
      KeepNone(s[1..], p);
    }
  }

  /** When exactly one element fails `p`, the filter drops exactly one. */
  lemma {:induction false} KeepOnlyOneFails<T(!new)>(s: seq<T>, p: T -> bool, k: nat)
    requires k < |s| && !p(s[k])
    requires forall i :: 0 <= i < |s| && i != k ==> p(s[i])
    ensures |Keep(s, p)| == |s| - 1
    decreases |s|
  {
    assert Keep(s, p) == (if p(s[0]) then [s[0]] else []) + Keep(s[1..], p);
    if k == 0 {
      assert forall i :: 0 <= i < |s[1..]| ==> p(s[1..][i]) by {
        forall i | 0 <= i < |s[1..]| ensures p(s[1..][i]) { assert s[1..][i] == s[i + 1]; }
      }
    } else {
      assert forall i :: 0 <= i < |s[1..]| && i != k - 1 ==> p(s[1..][i]) by {
        forall i | 0 <= i < |s[1..]| && i != k - 1 ensures p(s[1..][i]) { assert s[1..][i] == s[i + 1]; }
      }
      KeepOnlyOneFails(s[1..], p, k - 1);
    }
  }

  /** Every element of `s` has property `q`, so every element kept has it. */
  lemma KeepAllHave<T(!new)>(s: seq<T>, p: T -> bool, q: T -> bool)
    requires forall i :: 0 <= i < |s| ==> q(s[i])
    ensures forall i :: 0 <= i < |Keep(s, p)| ==> q(Keep(s, p)[i])
  {
    var r := Keep(s, p);
    forall i | 0 <= i < |r| ensures q(r[i]) {
      assert r[i] in r;
      var j :| 0 <= j < |s| && s[j] == r[i];
    }
  }

  /** No two elements of `s` share a key. */
  ghost predicate DistinctKeys<T, K>(s: seq<T>, key: T -> K) {
    forall i, j :: 0 <= i < j < |s| ==> key(s[i]) != key(s[j])
  }

  lemma DistinctTail<T, K>(s: seq<T>, key: T -> K)
    requires DistinctKeys(s, key) && s != []
    ensures DistinctKeys(s[1..], key)
    ensures forall x :: x in s[1..] ==> key(x) != key(s[0])
  {
    var tail := s[1..];
    forall i, j | 0 <= i < j < |tail| ensures key(tail[i]) != key(tail[j]) {
      assert tail[i] == s[i + 1] && tail[j] == s[j + 1];
    }
    forall x | x in tail ensures key(x) != key(s[0]) {
      var j :| 0 <= j < |tail| && tail[j] == x;
      assert x == s[j + 1];
    }
  }

  lemma DistinctCons<T, K>(a: T, rest: seq<T>, key: T -> K)
    requires DistinctKeys(rest, key)
    requires forall x :: x in rest ==> key(x) != key(a)
    ensures DistinctKeys([a] + rest, key)
  {
    var r := [a] + rest;
    forall i, j | 0 <= i < j < |r| ensures key(r[i]) != key(r[j]) {
      assert r[j] == rest[j - 1] && rest[j - 1] in rest;
      if i > 0 {
        assert r[i] == rest[i - 1];
      }
    }
  }

  /** Keeping a sub-sequence keeps the keys distinct. */
  lemma {:induction false} KeepDistinct<T(!new), K>(s: seq<T>, p: T -> bool, key: T -> K)
    requires DistinctKeys(s, key)
    ensures DistinctKeys(Keep(s, p), key)
    decreases |s|
  {
    if s != [] {
      DistinctTail(s, key);
      KeepDistinct(s[1..], p, key);
      if p(s[0]) {
        DistinctCons(s[0], Keep(s[1..], p), key);
      }
    }
  }

  /** Two permutations of each other have the same elements. */
  lemma SameMembers<T>(a: seq<T>, b: seq<T>)
    requires multiset(a) == multiset(b)
    ensures forall x :: x in a <==> x in b
  {
    forall x ensures x in a <==> x in b {
      assert x in a <==> x in multiset(a);
      assert x in b <==> x in multiset(b);
    }
  }

  /** `le` chains: `le(a, b)` and `le(b, c)` give `le(a, c)`. */
  ghost predicate Transitive<K(!new)>(le: (K, K) -> bool) {
    forall a, b, c :: le(a, b) && le(b, c) ==> le(a, c)
  }

  /** Any two elements of `s` can be ordered by `le` on their keys (one way
      round or the other); this is what a sort needs of its comparisons. */
  ghost predicate TotalOn<T, K>(s: seq<T>, key: T -> K, le: (K, K) -> bool) {
    forall x, y :: x in s && y in s ==> le(key(x), key(y)) || le(key(y), key(x))
  }

  /** `s` runs from the largest key down: every later key is `le` every
      earlier one. */
  ghost predicate Descending<T, K>(s: seq<T>, key: T -> K, le: (K, K) -> bool) {
    forall i, j :: 0 <= i < j < |s| ==> le(key(s[j]), key(s[i]))
  }

  function InsertBy<T, K(!new)>(x: T, s: seq<T>, key: T -> K, le: (K, K) -> bool): (r: seq<T>)
    requires Transitive(le) && TotalOn([x] + s, key, le) && Descending(s, key, le)
    ensures Descending(r, key, le)
    ensures multiset(r) == multiset(s) + multiset{x}
    ensures |r| == |s| + 1
    ensures r[0] == x || (s != [] && r[0] == s[0])
    decreases |s|
  {
    if s == [] || le(key(s[0]), key(x)) then
      [x] + s
    else
      assert s == [s[0]] + s[1..];
      assert le(key(x), key(s[0])) by {
        assert x in [x] + s && s[0] in [x] + s;
      }
      assert TotalOn([x] + s[1..], key, le) by {
        forall y | y in [x] + s[1..] ensures y in [x] + s {
          if y != x {
            assert y in s[1..];
          }
        }
      }
      var rest := InsertBy(x, s[1..], key, le);
      assert le(key(rest[0]), key(s[0]));
      var r := [s[0]] + rest;
      assert forall j :: 0 < j < |r| ==> le(key(r[j]), key(s[0])) by {
        forall j | 0 < j < |r| ensures le(key(r[j]), key(s[0])) {
          if j > 1 {
            assert le(key(rest[j - 1]), key(rest[0]));
          }
        }
      }
      r
  }

  /** Insertion sort, largest key first: a permutation of `s` in which keys
      never go up. */
  function SortBy<T, K(!new)>(s: seq<T>, key: T -> K, le: (K, K) -> bool): (r: seq<T>)
    requires Transitive(le) && TotalOn(s, key, le)
    ensures Descending(r, key, le)
    ensures multiset(r) == multiset(s)
    ensures |r| == |s|
    decreases |s|
  {
    if s == [] then []
    else
      assert s == [s[0]] + s[1..];
      var rest := SortBy(s[1..], key, le);
      assert TotalOn([s[0]] + rest, key, le) by {
        forall y | y in [s[0]] + rest ensures y in s {
          if y != s[0] {
            assert y in multiset(rest);
          }
        }
      }
      InsertBy(s[0], rest, key, le)
  }

  /** The order of integers. */
  predicate AtMost(a: int, b: int) {
    a <= b
  }

  /** The reverse order of integers. */
  predicate AtLeast(a: int, b: int) {
    a >= b
  }

  /** Integer keys can always be sorted, either way round. */
  lemma IntegerOrders<T>(s: seq<T>, key: T -> int)
    ensures Transitive(AtMost) && TotalOn(s, key, AtMost)
    ensures Transitive(AtLeast) && TotalOn(s, key, AtLeast)
  {
  }
}
