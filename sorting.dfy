/**
 * Order-preserving filtering and collecting, and Python's stable sorting:
 * `list.sort(key=..., reverse=True)` and `sorted(...)` of a set of strings.
 */
module Sorting {
  import opened Wrappers
  import opened Text

  /**
   * A loop that appends, for each key in turn, the value `load` yields for
   * it, and skips the keys it yields nothing for.
   */
  function Collect<K, V>(keys: seq<K>, load: K -> Option<V>): (r: seq<V>)
    ensures |r| <= |keys|
  {
    if keys == [] then []
    else Collect(keys[..|keys| - 1], load) + match load(keys[|keys| - 1]) case Some(v) => [v] case None => []
  }

  /** One more turn of the loop. */
  lemma CollectPrefix<K, V>(keys: seq<K>, i: nat, load: K -> Option<V>)
    requires i < |keys|
    ensures Collect(keys[..i + 1], load) == Collect(keys[..i], load) + match load(keys[i]) case Some(v) => [v] case None => []
  {
    assert keys[..i + 1][..i] == keys[..i];
  }

  /** Each key contributes on its own: collecting two runs of keys is collecting each. */
  lemma {:induction false} CollectAppend<K, V>(a: seq<K>, b: seq<K>, load: K -> Option<V>)
    ensures Collect(a + b, load) == Collect(a, load) + Collect(b, load)
    decreases |b|
  {
    if b == [] {
      assert a + b == a;
    } else {
      var init := b[..|b| - 1];
      assert (a + b)[..|a + b| - 1] == a + init;
      assert (a + b)[|a + b| - 1] == b[|b| - 1];
      CollectAppend(a, init, load);
    }
  }

  /** The collected values are exactly the values yielded for some key. */
  lemma {:induction false} CollectMembers<K, V>(keys: seq<K>, load: K -> Option<V>, v: V)
    ensures v in Collect(keys, load) <==> exists k :: k in keys && load(k) == Some(v)
  {
    if keys != [] {
      var init, last := keys[..|keys| - 1], keys[|keys| - 1];
      assert forall x :: x in keys <==> x in init || x == last;
      CollectMembers(init, load, v);
    }
  }

  /** A list comprehension `[x for x in xs if p(x)]`. */
  function Filter<T>(xs: seq<T>, p: T -> bool): (r: seq<T>)
    ensures |r| <= |xs|
  {
    if xs == [] then [] else (if p(xs[0]) then [xs[0]] else []) + Filter(xs[1..], p)
  }

  lemma {:induction false} FilterMembers<T>(xs: seq<T>, p: T -> bool, x: T)
    ensures x in Filter(xs, p) <==> x in xs && p(x)
  {
    if xs != [] {
      FilterMembers(xs[1..], p, x);
      assert x in xs <==> x == xs[0] || x in xs[1..];
    }
  }

  /** Filtering one more element appends it when it passes. */
  lemma FilterSnoc<T>(xs: seq<T>, x: T, p: T -> bool)
    ensures Filter(xs + [x], p) == Filter(xs, p) + if p(x) then [x] else []
  {
    FilterAppend(xs, [x], p);
    assert [x][1..] == [];
  }

  /** Filtering a prefix one element longer. */
  lemma FilterPrefix<T>(xs: seq<T>, i: nat, p: T -> bool)
    requires i < |xs|
    ensures Filter(xs[..i + 1], p) == Filter(xs[..i], p) + if p(xs[i]) then [xs[i]] else []
  {
    assert xs[..i + 1] == xs[..i] + [xs[i]];
    FilterSnoc(xs[..i], xs[i], p);
  }

  /** Filtering keeps every occurrence of an element that passes and none of one that fails. */
  lemma {:induction false} FilterCount<T>(xs: seq<T>, p: T -> bool, x: T)
    ensures multiset(Filter(xs, p))[x] == if p(x) then multiset(xs)[x] else 0
  {
    if xs != [] {
      FilterCount(xs[1..], p, x);
      assert xs == [xs[0]] + xs[1..];
    }
  }

  lemma {:induction false} FilterAppend<T>(xs: seq<T>, ys: seq<T>, p: T -> bool)
    ensures Filter(xs + ys, p) == Filter(xs, p) + Filter(ys, p)
  {
    if xs == [] {
      assert xs + ys == ys;
    } else {
      var head := if p(xs[0]) then [xs[0]] else [];
      calc {
        Filter(xs + ys, p);
        { assert (xs + ys)[0] == xs[0] && (xs + ys)[1..] == xs[1..] + ys; }
        head + Filter(xs[1..] + ys, p);
        { FilterAppend(xs[1..], ys, p); }
        head + (Filter(xs[1..], p) + Filter(ys, p));
      }
    }
  }

  lemma Assoc<T>(a: seq<T>, b: seq<T>, c: seq<T>)
    ensures a + (b + c) == (a + b) + c
  {
  }

  /** A sequence whose keys never increase from left to right. */
  ghost predicate NonIncreasing<T>(xs: seq<T>, key: T -> int) {
    forall i, j :: 0 <= i < j < |xs| ==> key(xs[i]) >= key(xs[j])
  }

  /** Filtering keeps the relative order, so a newest-first list stays newest-first. */
  lemma {:induction false} FilterNonIncreasing<T>(xs: seq<T>, p: T -> bool, key: T -> int)
    requires NonIncreasing(xs, key)
    ensures NonIncreasing(Filter(xs, p), key)
  {
    if xs != [] {
      FilterNonIncreasing(xs[1..], p, key);
      forall y | y in Filter(xs[1..], p) ensures key(xs[0]) >= key(y) {
        FilterMembers(xs[1..], p, y);
      }
    }
  }

  /**
   * Places `x` after every element whose key is at least `key(x)`: in a
   * non-increasing list, after all of its equals.
   */
  function Insert<T(==)>(x: T, s: seq<T>, key: T -> int): (r: seq<T>)
    requires NonIncreasing(s, key)
    ensures multiset(r) == multiset(s) + multiset{x}
    ensures NonIncreasing(r, key)
  {
    if s == [] || key(s[0]) < key(x) then
      [x] + s
    else
      var rest := Insert(x, s[1..], key);
      assert s == [s[0]] + s[1..];
      InsertBounded(s[0], x, s[1..], rest, key);
      [s[0]] + rest
  }

  /** A head at least as large as the inserted element and the tail stays in front of their merge. */
  lemma InsertBounded<T>(h: T, x: T, t: seq<T>, rest: seq<T>, key: T -> int)
    requires multiset(rest) == multiset(t) + multiset{x}
    requires key(h) >= key(x)
    requires NonIncreasing([h] + t, key) && NonIncreasing(rest, key)
    ensures NonIncreasing([h] + rest, key)
  {
    forall j | 0 <= j < |rest| ensures key(h) >= key(rest[j]) {
      assert rest[j] in multiset(rest);
      if rest[j] != x {
        assert rest[j] in multiset(t);
        assert rest[j] in t;
        var k :| 0 <= k < |t| && t[k] == rest[j];
        assert ([h] + t)[0] == h && ([h] + t)[k + 1] == t[k];
      }
    }
  }

  /** `sorted(xs, key=key, reverse=True)`: insertion sort that keeps equal keys in their original order. */
  function SortDesc<T(==)>(xs: seq<T>, key: T -> int): (r: seq<T>)
    ensures NonIncreasing(r, key)
    ensures multiset(r) == multiset(xs)
  {
    if xs == [] then []
    else
      assert xs == xs[..|xs| - 1] + [xs[|xs| - 1]];
      Insert(xs[|xs| - 1], SortDesc(xs[..|xs| - 1], key), key)
  }

  /** A sorted copy has the same length and the same elements. */
  lemma SortDescMembers<T>(xs: seq<T>, key: T -> int)
    ensures |SortDesc(xs, key)| == |xs|
    ensures forall x :: x in SortDesc(xs, key) <==> x in xs
  {
    var s := SortDesc(xs, key);
    assert |s| == |multiset(s)| == |multiset(xs)| == |xs|;
    forall x ensures x in s <==> x in xs {
      assert x in s <==> x in multiset(s);
      assert x in xs <==> x in multiset(xs);
    }
  }

  /** In a non-increasing list, each of the first `n` elements has a key at least that of any element left out. */
  lemma PrefixDominates<T>(s: seq<T>, n: nat, key: T -> int, e: T, f: T)
    requires NonIncreasing(s, key) && n <= |s|
    requires e in s[..n] && f in s && f !in s[..n]
    ensures key(e) >= key(f)
  {
    var i :| 0 <= i < n && s[..n][i] == e;
    var k :| 0 <= k < |s| && s[k] == f;
    assert forall j | 0 <= j < n :: s[..n][j] == s[j];
  }

  /** The elements whose key is `k`, in order. */
  function Having<T>(xs: seq<T>, key: T -> int, k: int): seq<T> {
    if xs == [] then [] else (if key(xs[0]) == k then [xs[0]] else []) + Having(xs[1..], key, k)
  }

  lemma {:induction false} HavingAppend<T>(xs: seq<T>, ys: seq<T>, key: T -> int, k: int)
    ensures Having(xs + ys, key, k) == Having(xs, key, k) + Having(ys, key, k)
  {
    if xs == [] {
      assert xs + ys == ys;
    } else {
      var head := if key(xs[0]) == k then [xs[0]] else [];
      calc {
        Having(xs + ys, key, k);
        { assert (xs + ys)[0] == xs[0] && (xs + ys)[1..] == xs[1..] + ys; }
        head + Having(xs[1..] + ys, key, k);
        { HavingAppend(xs[1..], ys, key, k); }
        head + (Having(xs[1..], key, k) + Having(ys, key, k));
      }
    }
  }

  /** The elements with key `k` among the first `n` are the first of all elements with key `k`. */
  lemma HavingPrefix<T>(xs: seq<T>, n: nat, key: T -> int, k: int)
    requires n <= |xs|
    ensures var kept := Having(xs[..n], key, k);
      |kept| <= |Having(xs, key, k)| && kept == Having(xs, key, k)[..|kept|]
  {
    var a, b := Having(xs[..n], key, k), Having(xs[n..], key, k);
    assert xs == xs[..n] + xs[n..];
    HavingAppend(xs[..n], xs[n..], key, k);
    assert (a + b)[..|a|] == a;
  }

  lemma {:induction false} HavingNone<T>(xs: seq<T>, key: T -> int, k: int)
    requires forall y | y in xs :: key(y) != k
    ensures Having(xs, key, k) == []
  {
    if xs != [] {
      HavingNone(xs[1..], key, k);
    }
  }

  /** Inserting `x` adds it at the end of the elements that share its key. */
  lemma {:induction false} InsertHaving<T>(x: T, s: seq<T>, key: T -> int, k: int)
    requires NonIncreasing(s, key)
    ensures Having(Insert(x, s, key), key, k) == Having(s, key, k) + Having([x], key, k)
  {
    if s == [] || key(s[0]) < key(x) {
      if key(x) == k {
        forall y | y in s ensures key(y) != k {
          var j :| 0 <= j < |s| && s[j] == y;
          assert key(s[0]) >= key(s[j]);
        }
        HavingNone(s, key, k);
      }
      assert Having([x], key, k) == (if key(x) == k then [x] else []);
      HavingAppend([x], s, key, k);
    } else {
      var head := if key(s[0]) == k then [s[0]] else [];
      var r := Insert(x, s[1..], key);
      assert Insert(x, s, key) == [s[0]] + r;
      assert ([s[0]] + r)[0] == s[0] && ([s[0]] + r)[1..] == r;
      InsertHaving(x, s[1..], key, k);
      calc {
        Having(Insert(x, s, key), key, k);
        head + Having(r, key, k);
        head + (Having(s[1..], key, k) + Having([x], key, k));
        { Assoc(head, Having(s[1..], key, k), Having([x], key, k)); }
        (head + Having(s[1..], key, k)) + Having([x], key, k);
      }
    }
  }

  /** Stability: for every key, the elements with that key keep their original order. */
  lemma {:induction false} SortDescStable<T>(xs: seq<T>, key: T -> int, k: int)
    ensures Having(SortDesc(xs, key), key, k) == Having(xs, key, k)
  {
    if xs != [] {
      var init, last := xs[..|xs| - 1], xs[|xs| - 1];
      var sorted := SortDesc(init, key);
      calc {
        Having(SortDesc(xs, key), key, k);
        Having(Insert(last, sorted, key), key, k);
        { InsertHaving(last, sorted, key, k); }
        Having(sorted, key, k) + Having([last], key, k);
        { SortDescStable(init, key, k); }
        Having(init, key, k) + Having([last], key, k);
        { HavingAppend(init, [last], key, k); assert init + [last] == xs; }
        Having(xs, key, k);
      }
    }
  }

  /** Every element of a strictly ascending list is below every later one. */
  ghost predicate StrictlyAscending(xs: seq<string>) {
    forall i, j :: 0 <= i < j < |xs| ==> Below(xs[i], xs[j])
  }

  /** Adds `x` to a strictly ascending list, keeping it strictly ascending and without duplicates. */
  function InsertAscending(x: string, s: seq<string>): (r: seq<string>)
    requires StrictlyAscending(s)
    ensures StrictlyAscending(r)
    ensures forall y :: y in r <==> y == x || y in s
  {
    if s == [] then [x]
    else if x == s[0] then s
    else if Below(x, s[0]) then
      forall j | 0 < j < |s| ensures Below(x, s[j]) {
        BelowTransitive(x, s[0], s[j]);
      }
      [x] + s
    else
      BelowTotal(x, s[0]);
      var rest := InsertAscending(x, s[1..]);
      assert forall y | y in s :: y == s[0] || y in s[1..];
      forall j | 0 <= j < |rest| ensures Below(s[0], rest[j]) {
        assert rest[j] in rest;
        if rest[j] != x {
          assert rest[j] in s[1..];
          var k :| 0 <= k < |s| - 1 && s[1..][k] == rest[j];
          assert s[k + 1] == rest[j];
        }
      }
      [s[0]] + rest
  }
}
