/**
 * Grouping a list into named buckets, as the homepage and index loops do:
 * each element is appended, in list order, to the bucket its key names,
 * and an element without a key is appended nowhere.
 */
module Buckets {
  import opened Wrappers
  import opened Sorting

  /** The elements whose key is `Some(id)`. */
  function KeyIs<T(!new)>(key: T -> Option<string>, id: string): (r: T -> bool)
    ensures forall x :: r(x) <==> key(x) == Some(id)
  {
    (x: T) => key(x) == Some(id)
  }

  /** One bucket per id of `ids`, each holding, in order, the elements of `xs` whose key is that id. */
  ghost predicate Grouped<T(!new)>(buckets: map<string, seq<T>>, ids: set<string>, xs: seq<T>, key: T -> Option<string>) {
    && buckets.Keys == ids
    && forall id | id in buckets :: buckets[id] == Filter(xs, KeyIs(key, id))
  }

  /** `buckets[id].append(x)` for the id `x`'s key names; nothing for an element without a key. */
  function Append<T(!new)>(buckets: map<string, seq<T>>, x: T, key: T -> Option<string>): (r: map<string, seq<T>>)
    requires key(x).Some? ==> key(x).value in buckets
    ensures r.Keys == buckets.Keys
  {
    match key(x)
    case Some(id) => buckets[id := buckets[id] + [x]]
    case None => buckets
  }

  /** Appending the next element keeps the buckets grouped. */
  lemma GroupedStep<T(!new)>(buckets: map<string, seq<T>>, ids: set<string>, xs: seq<T>, i: nat, key: T -> Option<string>)
    requires i < |xs| && Grouped(buckets, ids, xs[..i], key)
    requires key(xs[i]).Some? ==> key(xs[i]).value in ids
    ensures Grouped(Append(buckets, xs[i], key), ids, xs[..i + 1], key)
  {
    var x, after := xs[i], Append(buckets, xs[i], key);
    forall b | b in after ensures after[b] == Filter(xs[..i + 1], KeyIs(key, b)) {
      FilterPrefix(xs, i, KeyIs(key, b));
      if key(x) == Some(b) {
        assert after[b] == buckets[b] + [x];
      } else {
        assert after[b] == buckets[b];
      }
    }
  }

  /** An element with a key lands at the end of that key's bucket. */
  lemma AppendKeyed<T(!new)>(buckets: map<string, seq<T>>, x: T, key: T -> Option<string>, id: string)
    requires key(x) == Some(id) && id in buckets
    ensures Append(buckets, x, key) == buckets[id := buckets[id] + [x]]
  {
  }

  /** An element without a key leaves the buckets alone. */
  lemma AppendUnkeyed<T(!new)>(buckets: map<string, seq<T>>, x: T, key: T -> Option<string>)
    requires key(x).None?
    ensures Append(buckets, x, key) == buckets
  {
  }
}
