/**
 * app.py: the per-request version of the news pipeline.  It loads every
 * news record from the store on each request, always classifies it again
 * (title and summary searched separately), orders the records by the date
 * parsed from their free-text `published` field, buckets them for the index
 * page, and computes the trend statistics of one period for the trends
 * endpoint, inferring countries from the text.
 */
module App {
  import opened Wrappers
  import opened Text
  import opened Sorting
  import opened Counter
  import opened Calendar
  import opened Store
  import opened Rules
  import opened Buckets

  /**
   * The ids and display names of `CATEGORIES`, in declaration order; the
   * keyword list of each is `Keywords(id)`.
   */
  const Heads: seq<Category> := [
    Category("climate_change", "Climate Change", []),
    Category("biodiversity", "Biodiversity", []),
    Category("renewable_energy", "Renewable Energy", []),
    Category("sustainability", "Sustainability", []),
    Category("pollution", "Pollution", []),
    Category("environmental_policy", "Environmental Policy", []),
    Category("environmental_tech", "Environmental Technology", []),
    Category("others", "Others", [])
  ]

  /** `CATEGORIES`: each head with its keyword list. */
  const Categories: seq<Category> := Attach(Heads, Keywords)

  /** `CATEGORIES[id]['keywords']` */
  function Keywords(id: string): seq<string> {
    if id == "climate_change" then [
      "climate change", "global warming", "greenhouse gas", "carbon emission",
      "temperature rise"]
    else if id == "biodiversity" then [
      "biodiversity", "endangered species", "wildlife", "ecosystem", "habitat"]
    else if id == "renewable_energy" then [
      "renewable energy", "solar power", "wind power", "clean energy", "green energy"]
    else if id == "sustainability" then [
      "sustainability", "sustainable", "circular economy", "green economy", "esg"]
    else if id == "pollution" then [
      "pollution", "air quality", "water pollution", "plastic waste", "chemical"]
    else if id == "environmental_policy" then [
      "environmental policy", "climate policy", "environmental regulation",
      "environmental law", "environmental tax", "subsidy", "international agreement",
      "climate agreement", "environmental standard"]
    else if id == "environmental_tech" then [
      "environmental technology", "green tech", "carbon capture", "environmental monitoring",
      "waste treatment", "smart environment", "clean tech", "environmental innovation",
      "sustainable technology"]
    else []
  }

  /** Every category id of the table (the keys of `CATEGORIES`). */
  const CategoryIds: set<string> := set i | 0 <= i < |Heads| :: Heads[i].id

  /** The table has distinct ids and names and ends with the `others` fallback. */
  lemma HeadsWellFormed()
    ensures WellFormed(Heads)
    ensures Heads[|Heads| - 1] == Category(OthersId, OthersName, [])
  {
    IdsDistinct();
    NamesDistinct();
    assert Heads[7].id == OthersId && Heads[7].name == OthersName;
  }

  lemma IdsDistinct()
    ensures forall i, j :: 0 <= i < j < |Heads| ==> Heads[i].id != Heads[j].id
  {
  }

  lemma NamesDistinct()
    ensures forall i, j :: 0 <= i < j < |Heads| ==> Heads[i].name != Heads[j].name
  {
  }

  // ---------------------------------------------------------------------
  // Classifier

  /**
   * `categorize_news`: the first category, in declaration order and
   * skipping `others`, one of whose keywords is a substring of the
   * lower-cased title or of the lower-cased summary; `Others` otherwise.
   * The answer is always a declared category name.
   */
  function Categorize(title: string, summary: string): (r: string)
    ensures Decides(Categories, [Lower(title), Lower(summary)], r)
    ensures FindName(Heads, r).Some?
  {
    var r := Classify(Categories, [Lower(title), Lower(summary)]);
    HeadsWellFormed();
    r
  }

  /**
   * Searching the title and the summary separately finds a keyword only
   * where searching them joined by a space would find it too.
   */
  lemma SeparateWithinJoined(keywords: seq<string>, title: string, summary: string)
    requires Hits(keywords, [Lower(title), Lower(summary)])
    ensures Hits(keywords, [Lower(title) + " " + Lower(summary)])
  {
    var t, s := Lower(title), Lower(summary);
    var k :| k in keywords && AnyContains([t, s], k);
    if Contains(t, k) {
      ContainsInContext([], t, " " + s, k);
      assert [] + t + (" " + s) == t + " " + s;
    } else {
      assert Contains(s, k);
      ContainsInContext(t + " ", s, [], k);
      assert (t + " ") + s + [] == t + " " + s;
    }
    assert AnyContains([t + " " + s], k);
  }

  /**
   * The converse fails: a keyword that spans the seam is not found.  The
   * title "climate" and the summary "change" hold no keyword of
   * `climate_change`, though the joined text does.
   */
  lemma SeamExample()
    ensures !Hits(Keywords("climate_change"), [Lower("climate"), Lower("change")])
    ensures Hits(Keywords("climate_change"), [Lower("climate") + " " + Lower("change")])
  {
    LowerLiterals();
    SeamJoined();
    forall k | k in Keywords("climate_change") ensures !Contains("climate", k) && !Contains("change", k) {
      NoRoom("climate", k);
      NoRoom("change", k);
    }
  }

  lemma LowerLiterals()
    ensures Lower("climate") == "climate" && Lower("change") == "change"
  {
  }

  lemma SeamJoined()
    ensures Hits(Keywords("climate_change"), ["climate" + " " + "change"])
  {
    assert "climate" + " " + "change" == "climate change";
    assert OccursAt("climate change", "climate change", 0);
    assert AnyContains(["climate change"], Keywords("climate_change")[0]);
  }

  /** A keyword longer than the text is not in it. */
  lemma NoRoom(text: string, kw: string)
    requires |kw| > |text|
    ensures !Contains(text, kw)
  {
  }

  // ---------------------------------------------------------------------
  // Loader

  /** A loaded record: the stored fields the page and the statistics read, its key and its category. */
  datatype News = News(
    key: string,
    title: string,
    summary: string,
    source: Option<string>,
    published: Option<string>,
    category: string)

  /**
   * One turn of the loader loop: the record, or None where the key is
   * skipped (`if value`) or the `try` block raises (bad JSON, a non-object,
   * a `value` that is not a dict).  The category is always the classifier's
   * answer.
   */
  function LoadOne(key: string, v: Value): (r: Option<News>)
    ensures r.Some? <==> RecordFields(v).Some?
    ensures r.Some? ==>
      var f, n := RecordFields(v).value, r.value;
      && n.key == key && n.title == f.title && n.summary == f.summary
      && n.source == f.source && n.published == f.published
      && Decides(Categories, [Lower(f.title), Lower(f.summary)], n.category)
      && FindName(Heads, n.category).Some?
  {
    match RecordFields(v)
    case None => None
    case Some(f) => Some(News(key, f.title, f.summary, f.source, f.published, Categorize(f.title, f.summary)))
  }

  /** A category stored with the record makes no difference: it is always recomputed. */
  lemma StoredCategoryIgnored(key: string, f: Fields, stored: Option<string>)
    ensures LoadOne(key, Envelope(Dict(f.(category := stored)))) == LoadOne(key, Envelope(Dict(f)))
  {
  }

  /** The loader turn for a key, reading its value from the store. */
  function Loader(store: map<string, Value>): string -> Option<News> {
    (key: string) => LoadOne(key, Lookup(store, key))
  }

  /**
   * `parse_date`: the instant `published` parses to, normalised to UTC, or
   * `datetime.min` (instant 0) when the field is absent or does not parse.
   */
  function PublishedKey(parse: string -> Option<nat>): (key: News -> int)
    ensures forall n :: key(n) >= 0
    ensures forall n :: parse(PublishedText(n)).None? ==> key(n) == 0
    ensures forall n :: key(n) > 0 ==> parse(PublishedText(n)) == Some(key(n))
    ensures forall n, t :: parse(PublishedText(n)) == Some(t) ==> key(n) == t
  {
    var key := (n: News) => DateOrMin(parse(PublishedText(n))) as int;
    assert forall n :: key(n) == DateOrMin(parse(PublishedText(n)));
    key
  }

  /** The parsed instant, or `datetime.min` (instant 0) when there is none. */
  function DateOrMin(d: Option<nat>): nat {
    match d
    case Some(t) => t
    case None => 0
  }

  /** `item.get('published', '')` */
  function PublishedText(n: News): string {
    if n.published.Some? then n.published.value else ""
  }

  /** What `fetch_news_from_redis` returns. */
  function Fetched(scanned: seq<string>, store: map<string, Value>, parse: string -> Option<nat>): seq<News> {
    SortDesc(Collect(Matched(scanned), Loader(store)), PublishedKey(parse))
  }

  /**
   * `fetch_news_from_redis` on the keys a scan returned and the values the
   * pipelined GETs read.
   */
  method FetchNews(scanned: seq<string>, store: map<string, Value>, parse: string -> Option<nat>)
    returns (news: seq<News>)
    ensures news == Fetched(scanned, store, parse)
  {
    var keys := Matched(scanned);
    var list := LoadKeys(keys, store);
    news := SortDesc(list, PublishedKey(parse));
  }

  /** The loader loop: appends, in key order, the record of every key whose value loads. */
  method LoadKeys(keys: seq<string>, store: map<string, Value>) returns (list: seq<News>)
    ensures list == Collect(keys, Loader(store))
  {
    list := [];
    for i := 0 to |keys|
      invariant list == Collect(keys[..i], Loader(store))
    {
      var key := keys[i];
      CollectPrefix(keys, i, Loader(store));
      match LoadOne(key, Lookup(store, key)) {
        case Some(n) => list := list + [n];
        case None =>
      }
    }
    assert keys[..|keys|] == keys;
  }

  /**
   * The loaded records come latest parsed date first, and records of the
   * same date keep scan order.
   */
  lemma FetchedOrder(scanned: seq<string>, store: map<string, Value>, parse: string -> Option<nat>, d: int)
    ensures NonIncreasing(Fetched(scanned, store, parse), PublishedKey(parse))
    ensures Having(Fetched(scanned, store, parse), PublishedKey(parse), d)
         == Having(Collect(Matched(scanned), Loader(store)), PublishedKey(parse), d)
  {
    SortDescStable(Collect(Matched(scanned), Loader(store)), PublishedKey(parse), d);
  }

  /** The loaded records are exactly those of the matching keys whose value loads. */
  lemma FetchedMembers(scanned: seq<string>, store: map<string, Value>, parse: string -> Option<nat>, n: News)
    ensures n in Fetched(scanned, store, parse) <==>
      exists k :: k in scanned && KeyMatches(k) && LoadOne(k, Lookup(store, k)) == Some(n)
  {
    var list := Collect(Matched(scanned), Loader(store));
    assert n in Fetched(scanned, store, parse) <==> n in multiset(list);
    CollectMembers(Matched(scanned), Loader(store), n);
  }

  /** A record whose date does not parse comes after every record whose date does. */
  lemma UndatedLast(scanned: seq<string>, store: map<string, Value>, parse: string -> Option<nat>, i: nat, j: nat)
    requires i < j < |Fetched(scanned, store, parse)|
    requires PublishedKey(parse)(Fetched(scanned, store, parse)[i]) == 0
    ensures PublishedKey(parse)(Fetched(scanned, store, parse)[j]) == 0
  {
    FetchedOrder(scanned, store, parse, 0);
  }

  // ---------------------------------------------------------------------
  // Index page

  /** The id of the first category whose name is `name`, if any. */
  function BucketOf(name: string): (r: Option<string>)
    ensures r.Some? <==> exists i :: 0 <= i < |Heads| && Heads[i].name == name
    ensures r.Some? ==> r.value in CategoryIds
    ensures r.Some? ==> exists i :: 0 <= i < |Heads| && Heads[i].name == name && Heads[i].id == r.value
  {
    match FindName(Heads, name)
    case Some(i) => Some(Heads[i].id)
    case None => None
  }

  /** The bucket key of a record: the bucket its category names, if any. */
  function BucketKey(n: News): Option<string> {
    BucketOf(n.category)
  }

  function InBucket(id: string): News -> bool {
    KeyIs(BucketKey, id)
  }

  /** `news.get('source', 'Unknown')` */
  function SourceName(n: News): string {
    if n.source.Some? then n.source.value else "Unknown"
  }

  /**
   * The body of `index`: one bucket per category id, filled by the loop
   * over the records, plus the set of sources.
   */
  method Index(news: seq<News>) returns (buckets: map<string, seq<News>>, sources: set<string>)
    ensures Grouped(buckets, CategoryIds, news, BucketKey)
    ensures forall s :: s in sources <==> exists n :: n in news && SourceName(n) == s
  {
    buckets := map id | id in CategoryIds :: [];
    for i := 0 to |news|
      invariant Grouped(buckets, CategoryIds, news[..i], BucketKey)
    {
      GroupedStep(buckets, CategoryIds, news, i, BucketKey);
      buckets := FileRecord(buckets, news[i]);
    }
    assert news[..|news|] == news;
    sources := set n | n in news :: SourceName(n);
  }

  /**
   * The inner loop of `index` for one record: appends it to the bucket of
   * the first category with its name and breaks; a record whose category
   * names no category is appended nowhere.
   */
  method FileRecord(buckets: map<string, seq<News>>, n: News) returns (after: map<string, seq<News>>)
    requires buckets.Keys == CategoryIds
    ensures after == Append(buckets, n, BucketKey)
  {
    var j := 0;
    while j < |Heads|
      invariant j <= |Heads|
      invariant forall k :: 0 <= k < j ==> Heads[k].name != n.category
    {
      if Heads[j].name == n.category {
        BucketOfFirst(n.category, j);
        AppendKeyed(buckets, n, BucketKey, Heads[j].id);
        return buckets[Heads[j].id := buckets[Heads[j].id] + [n]];
      }
      j := j + 1;
    }
    assert BucketKey(n).None?;
    AppendUnkeyed(buckets, n, BucketKey);
    return buckets;
  }

  /** The bucket of a name is the id of the first category with that name. */
  lemma BucketOfFirst(name: string, j: nat)
    requires j < |Heads| && Heads[j].name == name
    requires forall k :: 0 <= k < j ==> Heads[k].name != name
    ensures BucketOf(name) == Some(Heads[j].id)
  {
    var i := FindName(Heads, name).value;
    assert !(i < j) && !(j < i);
  }

  /**
   * A record is in the bucket of the first category named by its category
   * and in no other; a record whose category names no category is in none.
   */
  lemma BucketMembers(news: seq<News>, n: News, id: string)
    requires n in news
    ensures n in Filter(news, InBucket(id)) <==> BucketOf(n.category) == Some(id)
    ensures (forall i :: 0 <= i < |Heads| ==> Heads[i].name != n.category) ==> n !in Filter(news, InBucket(id))
  {
    FilterMembers(news, InBucket(id), n);
  }

  /** Every loaded record lands in exactly one bucket. */
  lemma LoadedBucketed(key: string, v: Value)
    requires LoadOne(key, v).Some?
    ensures BucketOf(LoadOne(key, v).value.category).Some?
  {
  }

  // ---------------------------------------------------------------------
  // Trend statistics

  const WeeklyDays: nat := 7
  const MonthlyDays: nat := 30
  const KeywordLimit: nat := 20

  const InvalidPeriod := "Invalid period"
  const TrendsFailed := "Failed to generate trends"

  /** The length in days of a requested period, None for a period the endpoint rejects. */
  function PeriodDays(period: string): (r: Option<nat>)
    ensures r.Some? <==> period == "weekly" || period == "monthly"
    ensures period == "weekly" ==> r == Some(WeeklyDays)
    ensures period == "monthly" ==> r == Some(MonthlyDays)
  {
    if period == "weekly" then Some(WeeklyDays)
    else if period == "monthly" then Some(MonthlyDays)
    else None
  }

  /** `common_exclude_keywords` */
  const CommonExclude: set<string> := {
    "news", "report", "world", "global", "issue", "new", "says", "company", "government", "country"}

  predicate Uncommon(w: string) {
    w !in CommonExclude
  }

  /** The JSON body of a successful trends response. */
  datatype Trends = Trends(
    topKeywords: seq<Count>,
    sourceDistribution: seq<Count>,
    categoryDistribution: seq<Count>,
    countryDistribution: seq<Count>,
    sampleNews: seq<News>)

  /**
   * The window test: `published` is present and non-empty, parses, and is
   * no earlier than the cutoff.
   */
  function InWindow(parse: string -> Option<nat>, cutoff: int): (r: News -> bool)
    ensures forall n :: r(n) <==>
      && n.published.Some? && n.published.value != ""
      && parse(n.published.value).Some? && parse(n.published.value).value >= cutoff
    ensures forall n :: r(n) ==> PublishedKey(parse)(n) >= cutoff
  {
    (n: News) =>
      && n.published.Some? && n.published.value != ""
      && parse(n.published.value).Some? && parse(n.published.value).value >= cutoff
  }

  /** The window loop: keeps the records in the window, skips those whose date does not parse. */
  method Window(news: seq<News>, parse: string -> Option<nat>, cutoff: int) returns (recent: seq<News>)
    ensures recent == Filter(news, InWindow(parse, cutoff))
  {
    recent := [];
    for i := 0 to |news|
      invariant recent == Filter(news[..i], InWindow(parse, cutoff))
    {
      FilterPrefix(news, i, InWindow(parse, cutoff));
      var item := news[i];
      if item.published.Some? && item.published.value != "" {
        match parse(item.published.value) {
          case Some(t) =>
            if t >= cutoff {
              recent := recent + [item];
            }
          case None =>
        }
      }
    }
    assert news[..|news|] == news;
  }

  /** The tokens one record contributes to `all_words`. */
  function NewsTokens(n: News, stopWords: set<string>): seq<string> {
    Filter(Words(Lower(LettersAndSpaces(n.title + " " + n.summary))), KeptToken(stopWords))
  }

  /** `all_words` after the loop over `recent_news`. */
  function AllWords(recent: seq<News>, stopWords: set<string>): seq<string> {
    if recent == [] then []
    else AllWords(recent[..|recent| - 1], stopWords) + NewsTokens(recent[|recent| - 1], stopWords)
  }

  /** The token loop: `all_words.extend(filtered_words)` record by record. */
  method CollectWords(recent: seq<News>, stopWords: set<string>) returns (allWords: seq<string>)
    ensures allWords == AllWords(recent, stopWords)
  {
    allWords := [];
    for i := 0 to |recent|
      invariant allWords == AllWords(recent[..i], stopWords)
    {
      assert recent[..i + 1][..i] == recent[..i];
      allWords := allWords + NewsTokens(recent[i], stopWords);
    }
    assert recent[..|recent|] == recent;
  }

  function SourcesOf(recent: seq<News>): (r: seq<string>)
    ensures |r| == |recent| && forall i :: 0 <= i < |recent| ==> r[i] == SourceName(recent[i])
  {
    seq(|recent|, i requires 0 <= i < |recent| => SourceName(recent[i]))
  }

  function CategoriesOf(recent: seq<News>): (r: seq<string>)
    ensures |r| == |recent| && forall i :: 0 <= i < |recent| ==> r[i] == recent[i].category
  {
    seq(|recent|, i requires 0 <= i < |recent| => recent[i].category)
  }

  // Countries

  /** The keys of `country_keywords_map`, in declaration order. */
  const CountryNames: seq<string> := [
    "united states", "china", "india", "european union", "united kingdom", "japan", "south korea",
    "australia", "brazil", "russia", "canada", "germany", "france", "italy", "spain"]

  /** `country_keywords_map[CountryNames[j]]`: the keyword list of the `j`-th country. */
  function CountryKeywords(j: nat): seq<string> {
    if j == 0 then ["united states", "us", "usa", "america", "american"]
    else if j == 1 then ["china", "chinese"]
    else if j == 2 then ["india", "indian"]
    else if j == 3 then ["eu", "european union", "europe"]
    else if j == 4 then ["uk", "united kingdom", "britain", "british"]
    else if j == 5 then ["japan", "japanese"]
    else if j == 6 then ["south korea", "korean", "korea"]
    else if j == 7 then ["australia", "australian"]
    else if j == 8 then ["brazil", "brazilian"]
    else if j == 9 then ["russia", "russian"]
    else if j == 10 then ["canada", "canadian"]
    else if j == 11 then ["germany", "german"]
    else if j == 12 then ["france", "french"]
    else if j == 13 then ["italy", "italian"]
    else if j == 14 then ["spain", "spanish"]
    else []
  }

  /** The country names are distinct. */
  lemma CountryNamesDistinct()
    ensures forall i, j :: 0 <= i < j < |CountryNames| ==> CountryNames[i] != CountryNames[j]
  {
  }

  /** The country names hold no upper-case letter. */
  lemma CountryNamesLower()
    ensures forall i | 0 <= i < |CountryNames| :: NoUpper(CountryNames[i])
  {
  }

  /** The reported names, `country_name.title()`, position by position. */
  const CountryTitles: seq<string> := Titles(CountryNames)

  /** The reported names are distinct. */
  lemma CountryTitlesDistinct()
    ensures forall i, j :: 0 <= i < j < |CountryTitles| ==> CountryTitles[i] != CountryTitles[j]
  {
    CountryNamesDistinct();
    CountryNamesLower();
    TitlesDistinct(CountryNames);
  }

  /** The text the country search runs on: the lower-cased title and summary. */
  function CountryText(n: News): string {
    Lower(n.title + " " + n.summary)
  }

  /** `any(k in text for k in keywords)` for country `j`. */
  function MentionsCountry(j: nat): News -> bool {
    (n: News) => j < |CountryNames| && Hits(CountryKeywords(j), [CountryText(n)])
  }

  /** Which countries the record's text mentions, position by position. */
  function Mentioned(n: News): (hit: seq<bool>)
    ensures |hit| == |CountryNames| && forall j :: 0 <= j < |CountryNames| ==> hit[j] == MentionsCountry(j)(n)
  {
    seq(|CountryNames|, j requires 0 <= j < |CountryNames| => MentionsCountry(j)(n))
  }

  /** `country_mentions` after the inner loop for record `n`. */
  function BumpCountries(c: seq<Count>, n: News): seq<Count> {
    BumpEach(c, CountryTitles, Mentioned(n))
  }

  /** `country_mentions` after the loop over `recent_news`. */
  function CountryMentions(recent: seq<News>): seq<Count> {
    if recent == [] then []
    else BumpCountries(CountryMentions(recent[..|recent| - 1]), recent[|recent| - 1])
  }

  /** The country loop over the windowed records. */
  method CountCountries(recent: seq<News>) returns (mentions: seq<Count>)
    ensures mentions == CountryMentions(recent)
  {
    mentions := [];
    for i := 0 to |recent|
      invariant mentions == CountryMentions(recent[..i])
    {
      assert recent[..i + 1][..i] == recent[..i];
      mentions := CountRecord(mentions, recent[i]);
    }
    assert recent[..|recent|] == recent;
  }

  /** The inner loop for one record: bumps every country the record's text mentions. */
  method CountRecord(counts: seq<Count>, news: News) returns (mentions: seq<Count>)
    ensures mentions == BumpCountries(counts, news)
  {
    var text := CountryText(news);
    ghost var hit := Mentioned(news);
    mentions := counts;
    for j := 0 to |CountryNames|
      invariant mentions == BumpEach(counts, CountryTitles[..j], hit[..j])
    {
      CountryLoopStep(counts, news, j);
      if Hits(CountryKeywords(j), [text]) {
        mentions := Bump(mentions, Title(CountryNames[j]));
      }
    }
    assert CountryTitles[..|CountryNames|] == CountryTitles;
    assert hit[..|CountryNames|] == hit;
  }

  /** One turn of the inner country loop bumps country `j` exactly when the record mentions it. */
  lemma CountryLoopStep(counts: seq<Count>, news: News, j: nat)
    requires j < |CountryNames|
    ensures var hit, prev := Mentioned(news), BumpEach(counts, CountryTitles[..j], Mentioned(news)[..j]);
      BumpEach(counts, CountryTitles[..j + 1], hit[..j + 1])
        == if Hits(CountryKeywords(j), [CountryText(news)]) then Bump(prev, Title(CountryNames[j])) else prev
  {
    var hit := Mentioned(news);
    BumpEachPrefix(counts, CountryTitles, hit, j);
    assert hit[j] == MentionsCountry(j)(news);
    assert CountryTitles[j] == Title(CountryNames[j]);
  }

  /** The count of a country is the number of windowed records that mention it. */
  lemma {:induction false} CountryCounts(recent: seq<News>, m: nat)
    requires m < |CountryNames|
    ensures Get(CountryMentions(recent), CountryTitles[m]) == |Filter(recent, MentionsCountry(m))|
  {
    if recent != [] {
      var init, last := recent[..|recent| - 1], recent[|recent| - 1];
      CountryCounts(init, m);
      CountryStep(CountryMentions(init), last, m);
      assert recent == init + [last];
      FilterSnoc(init, last, MentionsCountry(m));
    }
  }

  /** The inner loop for one record adds one to the count of each country it mentions. */
  lemma CountryStep(prev: seq<Count>, n: News, m: nat)
    requires m < |CountryNames|
    ensures Get(BumpCountries(prev, n), CountryTitles[m]) == Get(prev, CountryTitles[m]) + if MentionsCountry(m)(n) then 1 else 0
  {
    CountryTitlesDistinct();
    BumpEachGet(prev, CountryTitles, Mentioned(n), m);
  }

  /** The entries of `country_mentions`: distinct, positive, each a reported country name. */
  ghost predicate CountryEntries(c: seq<Count>) {
    DistinctItems(c) && AllPositive(c) && forall e | e in c :: e.item in CountryTitles
  }

  lemma {:induction false} CountryMentionsShape(recent: seq<News>)
    ensures CountryEntries(CountryMentions(recent))
  {
    if recent != [] {
      var prev := CountryMentions(recent[..|recent| - 1]);
      CountryMentionsShape(recent[..|recent| - 1]);
      BumpEachShape(prev, CountryTitles, Mentioned(recent[|recent| - 1]));
    }
  }

  /** "us" is found inside "business": such a record counts for the United States. */
  lemma BusinessMentionsUnitedStates(n: News)
    requires n.title == "business" && n.summary == ""
    ensures MentionsCountry(0)(n)
  {
    assert CountryText(n) == "business ";
    assert OccursAt("business ", "us", 1);
    assert AnyContains([CountryText(n)], CountryKeywords(0)[1]);
  }

  /** One record can count for several countries. */
  lemma SeveralCountries(n: News)
    requires n.title == "chinese" && n.summary == "indian"
    ensures MentionsCountry(1)(n) && MentionsCountry(2)(n)
  {
    var text := CountryText(n);
    assert text == "chinese indian";
    assert OccursAt(text, "chinese", 0);
    assert OccursAt(text, "indian", 8);
    assert CountryKeywords(1)[1] == "chinese" && CountryKeywords(2)[1] == "indian";
    assert AnyContains([text], "chinese");
    assert AnyContains([text], "indian");
  }

  /** The trends of the records `news` for a window starting at `cutoff`. */
  function TrendsOf(news: seq<News>, cutoff: int, parse: string -> Option<nat>, stopWords: set<string>): Trends {
    var recent := Filter(news, InWindow(parse, cutoff));
    var keywordCounts := Tally(Filter(AllWords(recent, stopWords), Uncommon));
    var sourceCounts := Tally(SourcesOf(recent));
    var categoryCounts := Tally(CategoriesOf(recent));
    var countryCounts := CountryMentions(recent);
    Trends(
      MostCommon(keywordCounts, KeywordLimit),
      MostCommon(sourceCounts, |sourceCounts|),
      MostCommon(categoryCounts, |categoryCounts|),
      MostCommon(countryCounts, |countryCounts|),
      recent)
  }

  function Recent(news: seq<News>, cutoff: int, parse: string -> Option<nat>): seq<News> {
    Filter(news, InWindow(parse, cutoff))
  }

  /**
   * The window keeps a record iff its `published` field is present,
   * non-empty, parses, and is no earlier than the cutoff; the sample is the
   * whole window in loader order.
   */
  lemma WindowMembers(news: seq<News>, cutoff: int, parse: string -> Option<nat>, stopWords: set<string>, n: News)
    ensures n in Recent(news, cutoff, parse) <==>
      && n in news && n.published.Some? && n.published.value != ""
      && parse(n.published.value).Some? && parse(n.published.value).value >= cutoff
    ensures TrendsOf(news, cutoff, parse, stopWords).sampleNews == Recent(news, cutoff, parse)
  {
    FilterMembers(news, InWindow(parse, cutoff), n);
  }

  /** A keyword the trend statistics may report. */
  ghost predicate TrendKeyword(w: string, stopWords: set<string>) {
    |w| > 2 && (forall c | c in w :: IsLower(c)) && w !in stopWords && w !in CommonExclude
  }

  lemma NewsTokensShape(n: News, stopWords: set<string>, w: string)
    requires w in NewsTokens(n, stopWords)
    ensures |w| > 2 && w !in stopWords && forall c | c in w :: IsLower(c)
  {
    var cleaned := LettersAndSpaces(n.title + " " + n.summary);
    var lowered := Lower(cleaned);
    FilterMembers(Words(lowered), KeptToken(stopWords), w);
    forall c | c in w ensures IsLower(c) {
      assert c in lowered && !IsSpace(c);
      var i :| 0 <= i < |lowered| && lowered[i] == c;
      assert cleaned[i] in cleaned;
    }
  }

  lemma {:induction false} AllWordsShape(recent: seq<News>, stopWords: set<string>, w: string)
    requires w in AllWords(recent, stopWords)
    ensures |w| > 2 && w !in stopWords && forall c | c in w :: IsLower(c)
  {
    var init, last := recent[..|recent| - 1], recent[|recent| - 1];
    if w in AllWords(init, stopWords) {
      AllWordsShape(init, stopWords, w);
    } else {
      NewsTokensShape(last, stopWords, w);
    }
  }

  /**
   * Top keywords: at most 20, counts never increasing, each an
   * all-lower-case alphabetic word longer than two letters that is neither
   * a stopword nor excluded.
   */
  lemma TopKeywords(news: seq<News>, cutoff: int, parse: string -> Option<nat>, stopWords: set<string>)
    ensures var t := TrendsOf(news, cutoff, parse, stopWords);
      && |t.topKeywords| <= KeywordLimit
      && NonIncreasing(t.topKeywords, CountOf)
      && forall e | e in t.topKeywords :: TrendKeyword(e.item, stopWords)
  {
    TopOfWindow(Recent(news, cutoff, parse), stopWords);
  }

  /** The keyword ranking of one window. */
  lemma TopOfWindow(recent: seq<News>, stopWords: set<string>)
    ensures var top := MostCommon(Tally(Filter(AllWords(recent, stopWords), Uncommon)), KeywordLimit);
      && |top| <= KeywordLimit
      && NonIncreasing(top, CountOf)
      && forall e | e in top :: TrendKeyword(e.item, stopWords)
  {
    var counts := Tally(Filter(AllWords(recent, stopWords), Uncommon));
    forall e | e in MostCommon(counts, KeywordLimit) ensures TrendKeyword(e.item, stopWords) {
      var i :| 0 <= i < |counts| && counts[i] == e;
      assert Items(counts)[i] == e.item;
      KeptKeyword(recent, stopWords, e.item);
    }
  }

  /** A word kept for counting is a trend keyword. */
  lemma KeptKeyword(recent: seq<News>, stopWords: set<string>, w: string)
    requires w in Filter(AllWords(recent, stopWords), Uncommon)
    ensures TrendKeyword(w, stopWords)
  {
    FilterMembers(AllWords(recent, stopWords), Uncommon, w);
    AllWordsShape(recent, stopWords, w);
  }

  /** Every reported keyword count is the number of times the word occurs among the tokens. */
  lemma KeywordCounts(news: seq<News>, cutoff: int, parse: string -> Option<nat>, stopWords: set<string>, e: Count)
    requires e in TrendsOf(news, cutoff, parse, stopWords).topKeywords
    ensures e.n == multiset(AllWords(Recent(news, cutoff, parse), stopWords))[e.item]
  {
    var words := AllWords(Recent(news, cutoff, parse), stopWords);
    var counts := Tally(Filter(words, Uncommon));
    GetEntry(counts, e);
    FilterCount(words, Uncommon, e.item);
    var i :| 0 <= i < |counts| && counts[i] == e;
    assert Items(counts)[i] == e.item;
  }

  /**
   * The source distribution: every source of the window with its number of
   * records ("Unknown" for a record without one), most frequent first, the
   * counts adding up to the number of windowed records.
   */
  lemma SourceDistribution(news: seq<News>, cutoff: int, parse: string -> Option<nat>, stopWords: set<string>)
    ensures var t := TrendsOf(news, cutoff, parse, stopWords);
      && NonIncreasing(t.sourceDistribution, CountOf)
      && Total(t.sourceDistribution) == |Recent(news, cutoff, parse)|
      && forall e | e in t.sourceDistribution :: e.n == multiset(SourcesOf(Recent(news, cutoff, parse)))[e.item]
  {
    var sources := SourcesOf(Recent(news, cutoff, parse));
    MostCommonAllTotal(Tally(sources));
    forall e | e in MostCommon(Tally(sources), |Tally(sources)|)
      ensures e.n == multiset(sources)[e.item]
    {
      RankedCounts(sources, |Tally(sources)|, e);
    }
  }

  /**
   * The category distribution: one entry per category of the windowed
   * records, most frequent first, the counts adding up to the number of
   * windowed records.
   */
  lemma CategoryDistribution(news: seq<News>, cutoff: int, parse: string -> Option<nat>, stopWords: set<string>)
    ensures var t := TrendsOf(news, cutoff, parse, stopWords);
      && NonIncreasing(t.categoryDistribution, CountOf)
      && Total(t.categoryDistribution) == |Recent(news, cutoff, parse)|
      && forall e | e in t.categoryDistribution ::
           e.n == multiset(CategoriesOf(Recent(news, cutoff, parse)))[e.item]
           && exists n :: n in Recent(news, cutoff, parse) && n.category == e.item
  {
    var recent := Recent(news, cutoff, parse);
    var cats := CategoriesOf(recent);
    MostCommonAllTotal(Tally(cats));
    forall e | e in MostCommon(Tally(cats), |Tally(cats)|)
      ensures e.n == multiset(cats)[e.item] && exists n :: n in recent && n.category == e.item
    {
      RankedCounts(cats, |Tally(cats)|, e);
      var i :| 0 <= i < |cats| && cats[i] == e.item;
      assert recent[i] in recent;
    }
  }

  /**
   * The country distribution: each entry is a title-cased country name
   * with the number of windowed records that mention the country, most
   * frequent first.
   */
  lemma CountryDistribution(news: seq<News>, cutoff: int, parse: string -> Option<nat>, stopWords: set<string>, e: Count)
    requires e in TrendsOf(news, cutoff, parse, stopWords).countryDistribution
    ensures NonIncreasing(TrendsOf(news, cutoff, parse, stopWords).countryDistribution, CountOf)
    ensures e.n > 0
    ensures exists j ::
      && 0 <= j < |CountryNames| && e.item == Title(CountryNames[j])
      && e.n == |Filter(Recent(news, cutoff, parse), MentionsCountry(j))|
  {
    var recent := Recent(news, cutoff, parse);
    var c := CountryMentions(recent);
    CountryMentionsShape(recent);
    assert e in c;
    var j :| 0 <= j < |CountryTitles| && CountryTitles[j] == e.item;
    GetEntry(c, e);
    CountryCounts(recent, j);
  }

  /** Every country that some windowed record mentions is reported, with its count. */
  lemma CountryReported(news: seq<News>, cutoff: int, parse: string -> Option<nat>, stopWords: set<string>, j: nat)
    requires j < |CountryNames|
    requires |Filter(Recent(news, cutoff, parse), MentionsCountry(j))| > 0
    ensures Count(Title(CountryNames[j]), |Filter(Recent(news, cutoff, parse), MentionsCountry(j))|)
      in TrendsOf(news, cutoff, parse, stopWords).countryDistribution
  {
    var recent := Recent(news, cutoff, parse);
    var c := CountryMentions(recent);
    CountryMentionsShape(recent);
    CountryCounts(recent, j);
    GetPresent(c, CountryTitles[j]);
    var i :| 0 <= i < |c| && Items(c)[i] == CountryTitles[j];
    GetEntry(c, c[i]);
    SortDescMembers(c, CountOf);
    assert MostCommon(c, |c|) == SortDesc(c, CountOf);
    assert c[i] == Count(Title(CountryNames[j]), |Filter(recent, MentionsCountry(j))|);
  }

  /**
   * `get_trends`: the period defaults to weekly; any other than weekly or
   * monthly is rejected before anything is read; a clock so early that the
   * cutoff would fall before `datetime.min` fails; otherwise the statistics
   * of the records dated within the period.
   */
  method GetTrends(period: Option<string>, scanned: seq<string>, store: map<string, Value>,
                   parse: string -> Option<nat>, now: nat, stopWords: set<string>)
    returns (r: Result<Trends, string>)
    ensures var p := if period.Some? then period.value else "weekly";
      match PeriodDays(p)
      case None => r == Failure(InvalidPeriod)
      case Some(days) =>
        if now < days * MicrosPerDay then r == Failure(TrendsFailed)
        else r == Success(TrendsOf(Fetched(scanned, store, parse), now - days * MicrosPerDay, parse, stopWords))
  {
    var p := if period.Some? then period.value else "weekly";
    if p != "weekly" && p != "monthly" {
      return Failure(InvalidPeriod);
    }
    var news := FetchNews(scanned, store, parse);
    var days := if p == "weekly" then WeeklyDays else MonthlyDays;
    if now < days * MicrosPerDay {
      return Failure(TrendsFailed);
    }
    var cutoff := now - days * MicrosPerDay;
    var recent := Window(news, parse, cutoff);
    var allWords := CollectWords(recent, stopWords);
    var keywordCounts := Tally(Filter(allWords, Uncommon));
    var sourceCounts := Tally(SourcesOf(recent));
    var categoryCounts := Tally(CategoriesOf(recent));
    var countryCounts := CountCountries(recent);
    r := Success(Trends(
      MostCommon(keywordCounts, KeywordLimit),
      MostCommon(sourceCounts, |sourceCounts|),
      MostCommon(categoryCounts, |categoryCounts|),
      MostCommon(countryCounts, |countryCounts|),
      recent));
  }
}
