/**
 * The category rule table shared by both versions of the pipeline: an
 * ordered list of (id, display name, keywords), and the first-match scan
 * the classifiers run over it.
 */
module Rules {
  import opened Wrappers
  import opened Text

  datatype Category = Category(id: string, name: string, keywords: seq<string>)

  const OthersId := "others"
  const OthersName := "Others"

  /** The table that gives each head (id and name) the keyword list `keywords` has for its id. */
  function Attach(heads: seq<Category>, keywords: string -> seq<string>): (r: seq<Category>)
    ensures |r| == |heads|
    ensures forall i :: 0 <= i < |heads| ==> r[i] == Category(heads[i].id, heads[i].name, keywords(heads[i].id))
  {
    seq(|heads|, i requires 0 <= i < |heads| => Category(heads[i].id, heads[i].name, keywords(heads[i].id)))
  }

  /** Some text of `texts` contains `kw`. */
  function AnyContains(texts: seq<string>, kw: string): (r: bool)
    ensures r <==> exists t :: t in texts && Contains(t, kw)
  {
    if texts == [] then false
    else
      SplitMembers(texts);
      Contains(texts[0], kw) || AnyContains(texts[1..], kw)
  }

  lemma SplitMembers(xs: seq<string>)
    requires xs != []
    ensures xs[0] in xs
    ensures forall x :: x in xs <==> x == xs[0] || x in xs[1..]
  {
    assert xs == [xs[0]] + xs[1..];
  }

  /** The keyword loop: some keyword of the list is a substring of some searched text. */
  function Hits(keywords: seq<string>, texts: seq<string>): (r: bool)
    ensures r <==> exists k :: k in keywords && AnyContains(texts, k)
  {
    if keywords == [] then false
    else
      SplitMembers(keywords);
      AnyContains(texts, keywords[0]) || Hits(keywords[1..], texts)
  }

  /** A category the scan goes past: `others`, which is skipped, or one none of whose keywords is found. */
  predicate Passed(c: Category, texts: seq<string>) {
    c.id == OthersId || !Hits(c.keywords, texts)
  }

  /** The category loop from position `from`: the first category the scan stops at. */
  function FirstHit(table: seq<Category>, texts: seq<string>, from: nat): (r: Option<nat>)
    requires from <= |table|
    ensures r.Some? ==> from <= r.value < |table| && !Passed(table[r.value], texts)
    ensures r.Some? ==> forall j :: from <= j < r.value ==> Passed(table[j], texts)
    ensures r.None? ==> forall j :: from <= j < |table| ==> Passed(table[j], texts)
    decreases |table| - from
  {
    if from == |table| then None
    else if !Passed(table[from], texts) then Some(from)
    else FirstHit(table, texts, from + 1)
  }

  /**
   * What a classifier must answer: the name of the first category, in table
   * order and skipping `others`, with a keyword in one of the texts, or
   * `Others` when there is none.
   */
  ghost predicate Decides(table: seq<Category>, texts: seq<string>, name: string) {
    || (exists i :: 0 <= i < |table| && !Passed(table[i], texts) && name == table[i].name
                    && forall j :: 0 <= j < i ==> Passed(table[j], texts))
    || (name == OthersName && forall j :: 0 <= j < |table| ==> Passed(table[j], texts))
  }

  function Classify(table: seq<Category>, texts: seq<string>): (name: string)
    ensures Decides(table, texts, name)
  {
    match FirstHit(table, texts, 0)
    case Some(i) => table[i].name
    case None => OthersName
  }

  /** The answer is determined: no two names can both satisfy `Decides` for one table and input. */
  lemma DecidesUnique(table: seq<Category>, texts: seq<string>, a: string, b: string)
    requires forall i | 0 <= i < |table| && table[i].id != OthersId :: table[i].name != OthersName
    requires Decides(table, texts, a) && Decides(table, texts, b)
    ensures a == b
  {
    if exists i :: 0 <= i < |table| && !Passed(table[i], texts) && a == table[i].name
                   && forall j :: 0 <= j < i ==> Passed(table[j], texts) {
      var i :| 0 <= i < |table| && !Passed(table[i], texts) && a == table[i].name
               && forall j :: 0 <= j < i ==> Passed(table[j], texts);
      if exists i' :: 0 <= i' < |table| && !Passed(table[i'], texts) && b == table[i'].name
                      && forall j :: 0 <= j < i' ==> Passed(table[j], texts) {
        var i' :| 0 <= i' < |table| && !Passed(table[i'], texts) && b == table[i'].name
                  && forall j :: 0 <= j < i' ==> Passed(table[j], texts);
      }
    }
  }

  /** The position of the first category with the given display name. */
  function FindName(table: seq<Category>, name: string): (r: Option<nat>)
    ensures r.Some? ==> r.value < |table| && table[r.value].name == name
    ensures r.Some? ==> forall j :: 0 <= j < r.value ==> table[j].name != name
    ensures r.None? ==> forall j :: 0 <= j < |table| ==> table[j].name != name
  {
    if table == [] then None
    else if table[0].name == name then Some(0)
    else match FindName(table[1..], name)
      case Some(i) => Some(i + 1)
      case None => None
  }

  function Ids(table: seq<Category>): (r: seq<string>)
    ensures |r| == |table| && forall i :: 0 <= i < |table| ==> r[i] == table[i].id
  {
    seq(|table|, i requires 0 <= i < |table| => table[i].id)
  }

  /** Ids and names are unique, and the `others` fallback is declared under its name. */
  ghost predicate WellFormed(table: seq<Category>) {
    && (forall i, j :: 0 <= i < j < |table| ==> table[i].id != table[j].id)
    && (forall i, j :: 0 <= i < j < |table| ==> table[i].name != table[j].name)
    && (exists i :: 0 <= i < |table| && table[i].id == OthersId && table[i].name == OthersName)
  }
}
