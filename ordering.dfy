/**
 * Newest-first ordering by a timestamp key, as done by
 * `sort((a, b) => time(b) - time(a))`, and `slice(0, n)`.
 * The insertion below keeps equal keys in arrival order, as ECMAScript's
 * stable sort does.
 */
module Ordering {

  /** Keys never increase along the sequence. */
  predicate SortedDesc<T>(s: seq<T>, key: T -> int) {
    forall i, j :: 0 <= i < j < |s| ==> key(s[i]) >= key(s[j])
  }

  /** Insert `x` into a newest-first sequence, after every element at least as new. */
  function InsertDesc<T>(s: seq<T>, x: T, key: T -> int): (r: seq<T>)
    requires SortedDesc(s, key)
    ensures |r| == |s| + 1
    ensures multiset(r) == multiset(s) + multiset{x}
    ensures SortedDesc(r, key)
    ensures r[0] == if s == [] || key(s[0]) < key(x) then x else s[0]
  {
    if s == [] then [x]
    else if key(s[0]) < key(x) then [x] + s
    else
      assert SortedDesc(s[1..], key) by {
        forall i, j | 0 <= i < j < |s[1..]|
          ensures key(s[1..][i]) >= key(s[1..][j])
        {
          assert s[1..][i] == s[i + 1] && s[1..][j] == s[j + 1];
        }
      }
      var rest := InsertDesc(s[1..], x, key);
      assert s == [s[0]] + s[1..];
      assert key(s[0]) >= key(rest[0]);
      assert SortedDesc([s[0]] + rest, key) by {
        forall i, j | 0 <= i < j < |rest| + 1
          ensures key(([s[0]] + rest)[i]) >= key(([s[0]] + rest)[j])
        {
          if i == 0 {
            assert key(rest[0]) >= key(rest[j - 1]);
          }
        }
      }
      [s[0]] + rest
  }

  /** Newest-first permutation of `s`. */
  function SortDesc<T>(s: seq<T>, key: T -> int): (r: seq<T>)
    ensures |r| == |s|
    ensures multiset(r) == multiset(s)
    ensures SortedDesc(r, key)
  {
    if s == [] then []
    else
      assert s == s[..|s| - 1] + [s[|s| - 1]];
      InsertDesc(SortDesc(s[..|s| - 1], key), s[|s| - 1], key)
  }

  /** The elements of `s` whose key is `k`, in their order in `s`. */
  function WithKey<T>(s: seq<T>, key: T -> int, k: int): (r: seq<T>)
    ensures |r| <= |s|
  {
    if s == [] then [] else (if key(s[0]) == k then [s[0]] else []) + WithKey(s[1..], key, k)
  }

  lemma {:induction false} WithKeyConcat<T>(s: seq<T>, t: seq<T>, key: T -> int, k: int)
    ensures WithKey(s + t, key, k) == WithKey(s, key, k) + WithKey(t, key, k)
  {
    if s == [] {
      assert s + t == t;
    } else {
      var head := if key(s[0]) == k then [s[0]] else [];
      calc {
        WithKey(s + t, key, k);
        { assert (s + t)[0] == s[0] && (s + t)[1..] == s[1..] + t; }
        head + WithKey(s[1..] + t, key, k);
        { WithKeyConcat(s[1..], t, key, k); }
        head + (WithKey(s[1..], key, k) + WithKey(t, key, k));
        WithKey(s, key, k) + WithKey(t, key, k);
      }
    }
  }

  /** A sequence whose keys all differ from `k` has no element with key `k`. */
  lemma {:induction false} WithKeyNone<T>(s: seq<T>, key: T -> int, k: int)
    requires forall i :: 0 <= i < |s| ==> key(s[i]) != k
    ensures WithKey(s, key, k) == []
  {
    if s != [] {
      WithKeyNone(s[1..], key, k);
    }
  }

  /** Inserting `x` puts it after every element with an equal key. */
  lemma {:induction false} InsertDescStable<T>(s: seq<T>, x: T, key: T -> int, k: int)
    requires SortedDesc(s, key)
    ensures WithKey(InsertDesc(s, x, key), key, k) == WithKey(s, key, k) + (if key(x) == k then [x] else [])
  {
    if s == [] {
      assert [x][1..] == [];
    } else if key(s[0]) < key(x) {
      InsertAtFrontStable(s, x, key, k);
    } else {
      assert SortedDesc(s[1..], key) by {
        forall i, j | 0 <= i < j < |s[1..]|
          ensures key(s[1..][i]) >= key(s[1..][j])
        {
          assert s[1..][i] == s[i + 1] && s[1..][j] == s[j + 1];
        }
      }
      var rest := InsertDesc(s[1..], x, key);
      assert InsertDesc(s, x, key) == [s[0]] + rest;
      InsertDescStable(s[1..], x, key, k);
      InsertBehindHeadStable(s, x, rest, key, k);
    }
  }

  /** When `x` is newer than every element it goes first, and no element shares its key. */
  lemma InsertAtFrontStable<T>(s: seq<T>, x: T, key: T -> int, k: int)
    requires SortedDesc(s, key) && s != [] && key(s[0]) < key(x)
    ensures WithKey(InsertDesc(s, x, key), key, k) == WithKey(s, key, k) + (if key(x) == k then [x] else [])
  {
    assert InsertDesc(s, x, key) == [x] + s;
    if key(x) == k {
      forall i | 0 <= i < |s|
        ensures key(s[i]) != k
      {
        if i > 0 {
          assert key(s[0]) >= key(s[i]);
        }
      }
      WithKeyNone(s, key, k);
    }
    assert [x][1..] == [];
    WithKeyConcat([x], s, key, k);
  }

  /** When the head of `s` stays first, the rest is the insertion into the tail. */
  lemma InsertBehindHeadStable<T>(s: seq<T>, x: T, rest: seq<T>, key: T -> int, k: int)
    requires s != []
    requires WithKey(rest, key, k) == WithKey(s[1..], key, k) + (if key(x) == k then [x] else [])
    ensures WithKey([s[0]] + rest, key, k) == WithKey(s, key, k) + (if key(x) == k then [x] else [])
  {
    var head := if key(s[0]) == k then [s[0]] else [];
    var xs := if key(x) == k then [x] else [];
    calc {
      WithKey([s[0]] + rest, key, k);
      { assert ([s[0]] + rest)[0] == s[0] && ([s[0]] + rest)[1..] == rest; }
      head + WithKey(rest, key, k);
      head + (WithKey(s[1..], key, k) + xs);
      (head + WithKey(s[1..], key, k)) + xs;
      { assert WithKey(s, key, k) == head + WithKey(s[1..], key, k); }
      WithKey(s, key, k) + xs;
    }
  }

  /**
   * The sort is stable: the elements with any one key come out in the order
   * they had in `s`, as in ECMAScript's `Array.prototype.sort`.
   */
  lemma {:induction false} SortDescStable<T>(s: seq<T>, key: T -> int, k: int)
    ensures WithKey(SortDesc(s, key), key, k) == WithKey(s, key, k)
  {
    if s != [] {
      var p, x := s[..|s| - 1], s[|s| - 1];
      var xs := if key(x) == k then [x] else [];
      assert s == p + [x];
      calc {
        WithKey(SortDesc(s, key), key, k);
        WithKey(InsertDesc(SortDesc(p, key), x, key), key, k);
        { InsertDescStable(SortDesc(p, key), x, key, k); }
        WithKey(SortDesc(p, key), key, k) + xs;
        { SortDescStable(p, key, k); }
        WithKey(p, key, k) + xs;
        { assert [x][1..] == []; assert WithKey([x], key, k) == xs;
          WithKeyConcat(p, [x], key, k); }
        WithKey(s, key, k);
      }
    }
  }

  /** `s.slice(0, n)`. */
  function Take<T>(s: seq<T>, n: nat): (r: seq<T>)
    ensures |r| == if |s| <= n then |s| else n
    ensures r == s[..|r|]
  {
    if |s| <= n then s else s[..n]
  }

  /** Cutting a sequence keeps, for each key, a prefix of the elements with that key. */
  lemma TakeWithKey<T>(s: seq<T>, n: nat, key: T -> int, k: int)
    ensures WithKey(Take(s, n), key, k) <= WithKey(s, key, k)
  {
    var r := Take(s, n);
    assert s == r + s[|r|..];
    WithKeyConcat(r, s[|r|..], key, k);
  }
}
