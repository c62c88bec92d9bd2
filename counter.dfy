/**
 * Python's `collections.Counter` over strings: entries in the order their
 * element was first seen, `counter[x] += 1`, and `most_common(n)`, which
 * sorts the entries by count, largest first, ties in counter order.
 */
module Counter {
  import opened Sorting

  /** One `(element, count)` entry of a counter. */
  datatype Count = Count(item: string, n: nat)

  function CountOf(e: Count): int { e.n }

  /** The elements of a counter, in entry order. */
  function Items(c: seq<Count>): (r: seq<string>)
    ensures |r| == |c| && forall i :: 0 <= i < |c| ==> r[i] == c[i].item
  {
    if c == [] then [] else [c[0].item] + Items(c[1..])
  }

  ghost predicate DistinctItems(c: seq<Count>) {
    forall i, j :: 0 <= i < j < |c| ==> c[i].item != c[j].item
  }

  ghost predicate AllPositive(c: seq<Count>) {
    forall e | e in c :: e.n > 0
  }

  /** `counter[x]`: the count of `x`, 0 when it has no entry. */
  function Get(c: seq<Count>, x: string): nat {
    if c == [] then 0 else if c[0].item == x then c[0].n else Get(c[1..], x)
  }

  /** An entry of a counter with distinct items holds the count of its item. */
  lemma {:induction false} GetEntry(c: seq<Count>, e: Count)
    requires DistinctItems(c) && e in c
    ensures Get(c, e.item) == e.n
  {
    if c[0] != e {
      assert c[0].item != e.item by {
        var i :| 0 <= i < |c| && c[i] == e;
      }
      GetEntry(c[1..], e);
    }
  }

  /** The sum of the counts. */
  function Total(c: seq<Count>): nat {
    if c == [] then 0 else c[0].n + Total(c[1..])
  }

  /** Position of the first occurrence of `x` in `xs`, or `|xs|` when there is none. */
  function FirstIndex(xs: seq<string>, x: string): (k: nat)
    ensures k <= |xs|
    ensures k < |xs| <==> x in xs
    ensures k < |xs| ==> xs[k] == x
  {
    if xs == [] then 0 else if xs[0] == x then 0 else 1 + FirstIndex(xs[1..], x)
  }

  /** Entries listed in the order in which their element first occurs in `xs`. */
  ghost predicate FirstSeenOrder(c: seq<Count>, xs: seq<string>) {
    forall i, j :: 0 <= i < j < |c| ==> FirstIndex(xs, c[i].item) < FirstIndex(xs, c[j].item)
  }

  lemma {:induction false} GetPresent(c: seq<Count>, x: string)
    requires AllPositive(c)
    ensures Get(c, x) > 0 <==> x in Items(c)
  {
    if c != [] {
      GetPresent(c[1..], x);
      assert Items(c) == [c[0].item] + Items(c[1..]);
    }
  }

  /** `counter[x] += 1`: increments the entry of `x` in place, or appends a new entry at the end. */
  function Bump(c: seq<Count>, x: string): (r: seq<Count>)
    ensures Get(r, x) == Get(c, x) + 1
    ensures forall y | y != x :: Get(r, y) == Get(c, y)
    ensures Total(r) == Total(c) + 1
  {
    if c == [] then [Count(x, 1)]
    else if c[0].item == x then [Count(x, c[0].n + 1)] + c[1..]
    else [c[0]] + Bump(c[1..], x)
  }

  /** Bumping adds an entry for a new element at the end and otherwise keeps the elements in place. */
  lemma {:induction false} BumpItems(c: seq<Count>, x: string)
    ensures Items(Bump(c, x)) == if x in Items(c) then Items(c) else Items(c) + [x]
  {
    if c != [] {
      var r, rest := Bump(c, x), Items(c[1..]);
      assert Items(c) == [c[0].item] + rest;
      assert r[0].item == c[0].item;
      if c[0].item == x {
        assert r[1..] == c[1..];
        assert Items(r) == [x] + rest;
      } else {
        assert r[1..] == Bump(c[1..], x);
        BumpItems(c[1..], x);
        assert Items(r) == [c[0].item] + Items(Bump(c[1..], x));
        assert x in Items(c) <==> x in rest;
        if x !in rest {
          assert [c[0].item] + (rest + [x]) == ([c[0].item] + rest) + [x];
        }
      }
    }
  }

  /** Bumping keeps the entries distinct and positive. */
  lemma BumpShape(c: seq<Count>, x: string)
    requires DistinctItems(c) && AllPositive(c)
    ensures DistinctItems(Bump(c, x)) && AllPositive(Bump(c, x))
  {
    var r := Bump(c, x);
    BumpItems(c, x);
    forall i, j | 0 <= i < j < |r| ensures r[i].item != r[j].item {
      assert Items(r)[i] == r[i].item && Items(r)[j] == r[j].item;
      if j < |c| {
        assert Items(c)[i] == c[i].item && Items(c)[j] == c[j].item;
      } else {
        assert x !in Items(c) && Items(c)[i] == c[i].item;
      }
    }
    forall e | e in r ensures e.n > 0 {
      GetPresent(c, x);
      BumpMember(c, x, e);
    }
  }

  /** An entry after a bump is an entry from before or the bumped element's. */
  lemma {:induction false} BumpMember(c: seq<Count>, x: string, e: Count)
    requires e in Bump(c, x)
    ensures e in c || e == Count(x, Get(c, x) + 1)
  {
    if c != [] && c[0].item != x && e != c[0] {
      BumpMember(c[1..], x, e);
    }
  }

  /**
   * An inner counting loop, `for x in items: if hit: counter[x] += 1`:
   * bumps, in order, every element of `items` whose flag in `hit` is set.
   */
  function BumpEach(c: seq<Count>, items: seq<string>, hit: seq<bool>): seq<Count>
    requires |hit| == |items|
  {
    if items == [] then c
    else
      var k := |items| - 1;
      var prev := BumpEach(c, items[..k], hit[..k]);
      if hit[k] then Bump(prev, items[k]) else prev
  }

  /** One more turn of the inner loop. */
  lemma BumpEachPrefix(c: seq<Count>, items: seq<string>, hit: seq<bool>, j: nat)
    requires |hit| == |items| && j < |items|
    ensures var prev := BumpEach(c, items[..j], hit[..j]);
      BumpEach(c, items[..j + 1], hit[..j + 1]) == if hit[j] then Bump(prev, items[j]) else prev
  {
    assert items[..j + 1][..j] == items[..j] && hit[..j + 1][..j] == hit[..j];
  }

  /** An element outside `items` keeps its count. */
  lemma {:induction false} BumpEachAbsent(c: seq<Count>, items: seq<string>, hit: seq<bool>, x: string)
    requires |hit| == |items| && x !in items
    ensures Get(BumpEach(c, items, hit), x) == Get(c, x)
  {
    if items != [] {
      var k := |items| - 1;
      assert x !in items[..k];
      BumpEachAbsent(c, items[..k], hit[..k], x);
    }
  }

  /** With distinct elements, each element's count goes up by one exactly when its flag is set. */
  lemma {:induction false} BumpEachGet(c: seq<Count>, items: seq<string>, hit: seq<bool>, m: nat)
    requires |hit| == |items| && m < |items|
    requires forall i, j :: 0 <= i < j < |items| ==> items[i] != items[j]
    ensures Get(BumpEach(c, items, hit), items[m]) == Get(c, items[m]) + if hit[m] then 1 else 0
  {
    var k := |items| - 1;
    if m < k {
      assert items[..k][m] == items[m] && hit[..k][m] == hit[m];
      BumpEachGet(c, items[..k], hit[..k], m);
    } else {
      assert forall i :: 0 <= i < k ==> items[..k][i] != items[k];
      BumpEachAbsent(c, items[..k], hit[..k], items[k]);
    }
  }

  /** The counter stays distinct and positive, and gains entries only for elements of `items`. */
  lemma {:induction false} BumpEachShape(c: seq<Count>, items: seq<string>, hit: seq<bool>)
    requires |hit| == |items| && DistinctItems(c) && AllPositive(c)
    ensures DistinctItems(BumpEach(c, items, hit)) && AllPositive(BumpEach(c, items, hit))
    ensures forall e | e in BumpEach(c, items, hit) :: e in c || e.item in items
  {
    if items != [] {
      var k := |items| - 1;
      var prev := BumpEach(c, items[..k], hit[..k]);
      BumpEachShape(c, items[..k], hit[..k]);
      assert forall x | x in items[..k] :: x in items;
      if hit[k] {
        BumpShape(prev, items[k]);
        forall e | e in Bump(prev, items[k]) ensures e in c || e.item in items {
          BumpMember(prev, items[k], e);
        }
      }
    }
  }

  /**
   * `Counter(xs)`: one entry per distinct element, in order of first
   * occurrence, whose count is the element's number of occurrences.
   */
  function Tally(xs: seq<string>): (c: seq<Count>)
    ensures DistinctItems(c) && AllPositive(c)
    ensures forall x :: Get(c, x) == multiset(xs)[x]
    ensures forall x :: x in Items(c) <==> x in xs
    ensures FirstSeenOrder(c, xs)
    ensures Total(c) == |xs|
  {
    if xs == [] then []
    else
      var prev := Tally(xs[..|xs| - 1]);
      TallyStep(prev, xs);
      Bump(prev, xs[|xs| - 1])
  }

  /** Counting the last element of `xs` on top of the tally of the others keeps every property of `Tally`. */
  lemma TallyStep(prev: seq<Count>, xs: seq<string>)
    requires xs != []
    requires DistinctItems(prev) && AllPositive(prev)
    requires forall y :: Get(prev, y) == multiset(xs[..|xs| - 1])[y]
    requires forall y :: y in Items(prev) <==> y in xs[..|xs| - 1]
    requires FirstSeenOrder(prev, xs[..|xs| - 1])
    requires Total(prev) == |xs| - 1
    ensures var c := Bump(prev, xs[|xs| - 1]);
      && DistinctItems(c) && AllPositive(c)
      && (forall y :: Get(c, y) == multiset(xs)[y])
      && (forall y :: y in Items(c) <==> y in xs)
      && FirstSeenOrder(c, xs)
      && Total(c) == |xs|
  {
    var init, x := xs[..|xs| - 1], xs[|xs| - 1];
    var c := Bump(prev, x);
    assert xs == init + [x];
    BumpShape(prev, x);
    assert multiset(xs) == multiset(init) + multiset{x};
    forall y ensures y in Items(c) <==> y in xs {
      GetPresent(c, y);
      GetPresent(prev, y);
    }
    TallyOrder(prev, init, x);
  }

  lemma TallyOrder(prev: seq<Count>, init: seq<string>, x: string)
    requires DistinctItems(prev) && AllPositive(prev) && FirstSeenOrder(prev, init)
    requires forall y :: y in Items(prev) <==> y in init
    ensures FirstSeenOrder(Bump(prev, x), init + [x])
  {
    var c, xs := Bump(prev, x), init + [x];
    BumpItems(prev, x);
    forall i, j | 0 <= i < j < |c| ensures FirstIndex(xs, c[i].item) < FirstIndex(xs, c[j].item) {
      assert c[i].item == Items(c)[i] && c[j].item == Items(c)[j];
      assert Items(prev)[i] == prev[i].item && prev[i].item in init;
      FirstIndexAppend(init, x, prev[i].item);
      if j < |prev| {
        assert Items(prev)[j] == prev[j].item && prev[j].item in init;
        FirstIndexAppend(init, x, prev[j].item);
      } else {
        assert c[j].item == x && x !in init;
        FirstIndexAppend(init, x, x);
      }
    }
  }

  lemma {:induction false} FirstIndexAppend(xs: seq<string>, x: string, y: string)
    ensures FirstIndex(xs + [x], y) == if y in xs then FirstIndex(xs, y) else if y == x then |xs| else |xs| + 1
  {
    if xs != [] {
      assert (xs + [x])[1..] == xs[1..] + [x];
      FirstIndexAppend(xs[1..], x, y);
    }
  }

  lemma {:induction false} TotalAppend(a: seq<Count>, b: seq<Count>)
    ensures Total(a + b) == Total(a) + Total(b)
  {
    if a != [] {
      calc {
        Total(a + b);
        { assert (a + b)[0] == a[0] && (a + b)[1..] == a[1..] + b; }
        a[0].n + Total(a[1..] + b);
        { TotalAppend(a[1..], b); }
        a[0].n + Total(a[1..]) + Total(b);
      }
    } else {
      assert a + b == b;
    }
  }

  lemma {:induction false} TotalInsert(e: Count, s: seq<Count>)
    requires NonIncreasing(s, CountOf)
    ensures Total(Insert(e, s, CountOf)) == Total(s) + e.n
  {
    if s != [] && CountOf(s[0]) >= CountOf(e) {
      TotalInsert(e, s[1..]);
    }
  }

  /** Sorting the entries keeps the sum of the counts. */
  lemma {:induction false} TotalSortDesc(c: seq<Count>)
    ensures Total(SortDesc(c, CountOf)) == Total(c)
  {
    if c != [] {
      var init, last := c[..|c| - 1], c[|c| - 1];
      var sorted := SortDesc(init, CountOf);
      calc {
        Total(SortDesc(c, CountOf));
        Total(Insert(last, sorted, CountOf));
        { TotalInsert(last, sorted); }
        Total(sorted) + last.n;
        { TotalSortDesc(init); }
        Total(init) + last.n;
        { TotalAppend(init, [last]); assert init + [last] == c; }
        Total(c);
      }
    }
  }

  /**
   * `counter.most_common(n)`: the `n` entries with the largest counts (all
   * of them when there are fewer), largest first; no entry left out has a
   * larger count than an entry kept.  (`most_common()` without `n` is
   * `MostCommon(c, |c|)`.)
   */
  function MostCommon(c: seq<Count>, n: nat): (r: seq<Count>)
    ensures |r| == if n < |c| then n else |c|
    ensures NonIncreasing(r, CountOf)
    ensures forall e | e in r :: e in c
    ensures forall e, f | e in r && f in c && f !in r :: e.n >= f.n
  {
    var s := SortDesc(c, CountOf);
    SortDescMembers(c, CountOf);
    if n < |s| then
      forall e, f | e in s[..n] && f in c && f !in s[..n] ensures e.n >= f.n {
        PrefixDominates(s, n, CountOf, e, f);
      }
      s[..n]
    else
      s
  }

  /** Ties are broken by counter order: among equal counts the kept entries are the first ones of the counter. */
  lemma MostCommonTies(c: seq<Count>, n: nat, k: int)
    ensures |Having(MostCommon(c, n), CountOf, k)| <= |Having(c, CountOf, k)|
    ensures var kept := Having(MostCommon(c, n), CountOf, k);
      kept == Having(c, CountOf, k)[..|kept|]
  {
    var s := SortDesc(c, CountOf);
    SortDescStable(c, CountOf, k);
    SortDescMembers(c, CountOf);
    if n < |s| {
      assert MostCommon(c, n) == s[..n];
      HavingPrefix(s, n, CountOf, k);
    } else {
      assert MostCommon(c, n) == s;
    }
  }

  /** `most_common()` lists every entry, so the counts still add up to the counter's total. */
  lemma MostCommonAllTotal(c: seq<Count>)
    ensures Total(MostCommon(c, |c|)) == Total(c)
  {
    SortDescMembers(c, CountOf);
    assert MostCommon(c, |c|) == SortDesc(c, CountOf);
    TotalSortDesc(c);
  }

  /** Every entry `most_common` reports counts the occurrences of an element that occurs. */
  lemma RankedCounts(xs: seq<string>, n: nat, e: Count)
    requires e in MostCommon(Tally(xs), n)
    ensures e.n == multiset(xs)[e.item] && e.item in xs
  {
    var c := Tally(xs);
    GetEntry(c, e);
    var i :| 0 <= i < |c| && c[i] == e;
    assert Items(c)[i] == e.item;
  }
}
