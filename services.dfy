/**
 * services.py: the cache-refresh version of the news pipeline.  It loads
 * every news record from the store, trusts a stored category when it is a
 * declared category name and classifies the record otherwise, dates the
 * record by its key, sorts newest first, groups the records for the
 * homepage and computes the weekly and monthly trend statistics that are
 * written to the cache.
 */
module Services {
  import opened Wrappers
  import opened Text
  import opened Sorting
  import opened Counter
  import opened Calendar
  import opened Store
  import opened Rules
  import opened Buckets

  /**
   * The ids and display names of `CATEGORIES`, in declaration order; the
   * keyword list of each is `Keywords(id)`.
   */
  const Heads: seq<Category> := [
    Category("sustainability", "Sustainability", []),
    Category("climate_change", "Climate Change", []),
    Category("biodiversity", "Biodiversity", []),
    Category("renewable_energy", "Renewable Energy", []),
    Category("pollution", "Pollution", []),
    Category("environmental_policy", "Environmental Policy", []),
    Category("environmental_tech", "Environmental Technology", []),
    Category("others", "Others", [])
  ]

  /** `CATEGORIES`: each head with its keyword list. */
  const Categories: seq<Category> := Attach(Heads, Keywords)

  /** `CATEGORIES[id]['keywords']` */
  function Keywords(id: string): seq<string> {
    if id == "sustainability" then [
      "sustainability", "sustainable", "circular economy", "green economy", "esg", "csr",
      "corporate social responsibility", "sustainable development goals", "sdg",
      "eco-friendly", "resource efficiency", "reuse", "reduce", "recycle", "zero waste",
      "waste management", "green business", "green building", "low carbon", "carbon neutral",
      "green bond", "sustainable finance", "responsible sourcing", "life cycle assessment",
      "agriculture", "farming", "regenerative agriculture", "organic farming",
      "sustainable food", "supply chain", "fair trade", "eco-tourism", "green tourism",
      "sustainable packaging", "circular fashion"]
    else if id == "climate_change" then [
      "climate change", "global warming", "greenhouse gas", "greenhouse gases",
      "carbon emission", "carbon emissions", "co2", "ch4", "methane", "temperature rise",
      "net zero", "paris agreement", "ipcc", "cop26", "cop27", "cop28", "climate crisis",
      "warming planet", "carbon footprint", "emission reduction", "carbon offset",
      "sea level rise", "extreme weather", "climate resilience", "fossil fuel", "fossil fuels",
      "oil and gas", "pipeline", "pipelines", "global heating", "decarbonization", "1.5c",
      "2c", "tipping point", "carbon budget", "permafrost", "el ni\U{f1}o", "el nino",
      "la ni\U{f1}a", "la nina", "heatwave"]
    else if id == "biodiversity" then [
      "biodiversity", "endangered", "endangered species", "wildlife", "ecosystem",
      "habitat loss", "deforestation", "reforestation", "conservation", "extinction",
      "protected areas", "species loss", "nature restoration", "marine life",
      "ocean biodiversity", "pollinator", "coral reef", "habitat fragmentation",
      "ecosystem services", "rewilding", "invasive species", "poaching", "wildlife trade",
      "species reintroduction", "biodiversity hotspot"]
    else if id == "renewable_energy" then [
      "renewable", "renewables", "solar", "solar panel", "solar farm", "wind", "wind turbine",
      "wind farm", "windfarm", "hydro", "hydropower", "geothermal", "biofuel", "biomass",
      "energy transition", "sustainable energy", "green energy", "battery storage", "ev",
      "electric vehicle", "ev charging", "charging station", "hydrogen", "offshore wind", "pv",
      "microgrid", "photovoltaic", "photovoltaic cell", "clean power", "grid integration",
      "transmission line", "green hydrogen", "fuel cell"]
    else if id == "pollution" then [
      "pollution", "air quality", "air pollution", "water pollution", "plastic waste",
      "chemical pollution", "microplastic", "microplastics", "ocean pollution", "smog",
      "contaminants", "toxic waste", "wastewater", "industrial pollution", "noise pollution",
      "soil contamination", "particulate matter", "pm2.5", "pm10", "ozone", "sulfur dioxide",
      "pfas", "forever chemicals", "heavy metal", "lead", "mercury", "arsenic",
      "chemical spill", "pesticide", "herbicide", "black carbon", "soot", "nox",
      "nitrogen oxide", "sewage", "e-waste"]
    else if id == "environmental_policy" then [
      "environmental policy", "climate policy", "environmental regulation",
      "environmental regulations", "environmental law", "carbon pricing", "carbon tax",
      "emissions trading", "cap and trade", "green deal", "government policy", "legislation",
      "policy initiative", "environmental standard", "regulation", "regulations", "directive",
      "epa", "eia", "environmental impact assessment", "kyoto protocol", "farm bill",
      "subsidy", "subsidies", "tax credit", "appropriations", "supreme court",
      "climate finance", "trade agreement", "infrastructure bill"]
    else if id == "environmental_tech" then [
      "environmental technology", "green tech", "clean tech", "cleantech", "carbon capture",
      "carbon capture technology", "ccs", "direct air capture", "dacs",
      "environmental monitoring", "sensor", "satellite", "smart grid", "smart city",
      "waste treatment", "water treatment", "eco-innovation", "recycling technology",
      "waste-to-energy", "bioremediation", "ai", "iot", "drone", "smart irrigation",
      "energy storage", "grid modernization", "biotech", "battery", "solid-state battery",
      "perovskite solar", "biochar", "negative emissions", "synthetic biology", "digital twin",
      "blockchain energy", "quantum sensing", "drone mapping"]
    else []
  }

  /** Every category id of the table (the keys of `CATEGORIES`). */
  const CategoryIds: set<string> := set i | 0 <= i < |Heads| :: Heads[i].id

  /** The table has distinct ids and names and ends with the `others` fallback. */
  lemma HeadsWellFormed()
    ensures WellFormed(Heads)
    ensures Heads[|Heads| - 1] == Category(OthersId, OthersName, [])
  {
    IdsDistinct();
    NamesDistinct();
    assert Heads[7].id == OthersId && Heads[7].name == OthersName;
  }

  lemma IdsDistinct()
    ensures forall i, j :: 0 <= i < j < |Heads| ==> Heads[i].id != Heads[j].id
  {
  }

  lemma NamesDistinct()
    ensures forall i, j :: 0 <= i < j < |Heads| ==> Heads[i].name != Heads[j].name
  {
  }

  // ---------------------------------------------------------------------
  // Classifier

  /**
   * `categorize_news`: the first category, in declaration order and
   * skipping `others`, one of whose keywords is a substring of the
   * lower-cased title and summary joined by a space; `Others` otherwise.
   * The answer is always a declared category name.
   */
  function Categorize(title: string, summary: string): (r: string)
    ensures Decides(Categories, [Lower(title) + " " + Lower(summary)], r)
    ensures FindName(Heads, r).Some?
  {
    var r := Classify(Categories, [Lower(title) + " " + Lower(summary)]);
    HeadsWellFormed();
    r
  }

  // ---------------------------------------------------------------------
  // Loader

  /** A loaded record: the stored fields, its key, its resolved category and its date. */
  datatype News = News(
    key: string,
    title: string,
    summary: string,
    source: Option<string>,
    published: Option<string>,
    country: Option<string>,
    category: string,
    date: nat)

  /** `_parsed_published_date`, the sort key. */
  function DateOf(n: News): int { n.date }

  /**
   * One turn of the loader loop: the record, or None where the key is
   * skipped (`if not value`) or the `try` block raises (bad JSON, a
   * non-object, a `value` that is not a dict, a key date `strptime`
   * rejects).  A stored category that is a declared name is kept, any other
   * is replaced by `categorize_news`; the stored country is copied; the date
   * is the key's date, or `datetime.min` (instant 0) for a key the pattern
   * does not match.
   */
  function LoadOne(key: string, v: Value): (r: Option<News>)
    ensures r.Some? <==> RecordFields(v).Some? && (KeyMatches(key) ==> KeyDateValid(key))
    ensures r.Some? ==>
      var f, n := RecordFields(v).value, r.value;
      && n.key == key && n.title == f.title && n.summary == f.summary && n.source == f.source
      && n.published == f.published && n.country == f.country
      && n.date == (if KeyMatches(key) then KeyInstant(key) else 0)
      && FindName(Heads, n.category).Some?
      && (f.category.Some? && FindName(Heads, f.category.value).Some? ==> n.category == f.category.value)
      && (f.category.None? || FindName(Heads, f.category.value).None? ==>
            Decides(Categories, [Lower(f.title) + " " + Lower(f.summary)], n.category))
  {
    match RecordFields(v)
    case None => None
    case Some(f) =>
      if KeyMatches(key) && !KeyDateValid(key) then None
      else
        var date := if KeyMatches(key) then KeyInstant(key) else 0;
        Some(News(key, f.title, f.summary, f.source, f.published, f.country, Resolve(f.category, f.title, f.summary), date))
  }

  /** The stored category when it is a declared category name, `categorize_news` otherwise. */
  function Resolve(stored: Option<string>, title: string, summary: string): (category: string)
    ensures FindName(Heads, category).Some?
    ensures stored.Some? && FindName(Heads, stored.value).Some? ==> category == stored.value
    ensures stored.None? || FindName(Heads, stored.value).None? ==>
      Decides(Categories, [Lower(title) + " " + Lower(summary)], category)
  {
    if stored.Some? && FindName(Heads, stored.value).Some? then stored.value
    else Categorize(title, summary)
  }

  /** The loader turn for a key, reading its value from the store. */
  function Loader(store: map<string, Value>): string -> Option<News> {
    (key: string) => LoadOne(key, Lookup(store, key))
  }

  /** What `fetch_all_news_from_redis` returns. */
  function Fetched(scanned: seq<string>, store: map<string, Value>): seq<News> {
    SortDesc(Collect(Matched(scanned), Loader(store)), DateOf)
  }

  /**
   * `fetch_all_news_from_redis` on the keys a scan returned and the values
   * the pipelined GETs read.
   */
  method FetchAllNews(scanned: seq<string>, store: map<string, Value>) returns (news: seq<News>)
    ensures news == Fetched(scanned, store)
  {
    var keys := Matched(scanned);
    if keys == [] {
      return [];
    }
    var list: seq<News> := [];
    for i := 0 to |keys|
      invariant list == Collect(keys[..i], Loader(store))
    {
      var key := keys[i];
      CollectPrefix(keys, i, Loader(store));
      var value := Lookup(store, key);
      match LoadOne(key, value) {
        case Some(n) => list := list + [n];
        case None =>
      }
    }
    assert keys[..|keys|] == keys;
    news := SortDesc(list, DateOf);
  }

  /**
   * The loaded records come newest key date first, and records of the same
   * date keep scan order.
   */
  lemma FetchedOrder(scanned: seq<string>, store: map<string, Value>, d: int)
    ensures NonIncreasing(Fetched(scanned, store), DateOf)
    ensures Having(Fetched(scanned, store), DateOf, d) == Having(Collect(Matched(scanned), Loader(store)), DateOf, d)
  {
    SortDescStable(Collect(Matched(scanned), Loader(store)), DateOf, d);
  }

  /** The loaded records are exactly those of the matching keys whose value loads. */
  lemma FetchedMembers(scanned: seq<string>, store: map<string, Value>, n: News)
    ensures n in Fetched(scanned, store) <==>
      exists k :: k in scanned && KeyMatches(k) && LoadOne(k, Lookup(store, k)) == Some(n)
  {
    var list := Collect(Matched(scanned), Loader(store));
    assert n in Fetched(scanned, store) <==> n in multiset(list);
    CollectMembers(Matched(scanned), Loader(store), n);
  }

  // ---------------------------------------------------------------------
  // Homepage grouping

  /**
   * The homepage bucket of a category name: the id of the category with
   * that name, `others` when no category has it.
   */
  function BucketId(name: string): (id: string)
    ensures id in CategoryIds
    ensures (exists i :: 0 <= i < |Heads| && Heads[i].name == name) ==>
      exists i :: 0 <= i < |Heads| && Heads[i].name == name && Heads[i].id == id
    ensures (forall i :: 0 <= i < |Heads| ==> Heads[i].name != name) ==> id == OthersId
  {
    match FindName(Heads, name)
    case Some(i) => Heads[i].id
    case None => assert Heads[7].id == OthersId; OthersId
  }

  /** The bucket key of a record: every record has one. */
  function BucketKey(n: News): Option<string> {
    Some(BucketId(n.category))
  }

  function InBucket(id: string): News -> bool {
    KeyIs(BucketKey, id)
  }

  /**
   * The grouping loop of `update_news_cache`: one bucket per category id,
   * each holding, in loader order, the records whose category belongs to it.
   */
  method GroupByCategory(news: seq<News>) returns (buckets: map<string, seq<News>>)
    ensures Grouped(buckets, CategoryIds, news, BucketKey)
  {
    buckets := map id | id in CategoryIds :: [];
    for i := 0 to |news|
      invariant Grouped(buckets, CategoryIds, news[..i], BucketKey)
    {
      var n := news[i];
      var id := BucketId(n.category);
      GroupedStep(buckets, CategoryIds, news, i, BucketKey);
      buckets := buckets[id := buckets[id] + [n]];
    }
    assert news[..|news|] == news;
  }

  /** Every record lands in the bucket of its category and in no other. */
  lemma BucketsPartition(news: seq<News>, n: News, id: string)
    requires n in news
    ensures n in Filter(news, InBucket(id)) <==> id == BucketId(n.category)
  {
    FilterMembers(news, InBucket(id), n);
  }

  /** Buckets keep the newest-first order of the loader. */
  lemma BucketsNewestFirst(news: seq<News>, id: string)
    requires NonIncreasing(news, DateOf)
    ensures NonIncreasing(Filter(news, InBucket(id)), DateOf)
  {
    FilterNonIncreasing(news, InBucket(id), DateOf);
  }

  /** The sum of the bucket sizes over a list of ids. */
  function BucketTotal(news: seq<News>, ids: seq<string>): nat {
    if ids == [] then 0 else |Filter(news, InBucket(ids[0]))| + BucketTotal(news, ids[1..])
  }

  function Occurrences(ids: seq<string>, id: string): nat {
    if ids == [] then 0 else (if ids[0] == id then 1 else 0) + Occurrences(ids[1..], id)
  }

  lemma {:induction false} BucketTotalStep(news: seq<News>, ids: seq<string>)
    requires news != []
    ensures BucketTotal(news, ids) == Occurrences(ids, BucketId(news[0].category)) + BucketTotal(news[1..], ids)
  {
    if ids != [] {
      BucketTotalStep(news, ids[1..]);
    }
  }

  lemma {:induction false} OccursOnce(ids: seq<string>, id: string)
    requires id in ids
    requires forall i, j :: 0 <= i < j < |ids| ==> ids[i] != ids[j]
    ensures Occurrences(ids, id) == 1
  {
    if ids[0] == id {
      OccursNot(ids[1..], id);
    } else {
      OccursOnce(ids[1..], id);
    }
  }

  lemma {:induction false} OccursNot(ids: seq<string>, id: string)
    requires id !in ids
    ensures Occurrences(ids, id) == 0
  {
    if ids != [] {
      OccursNot(ids[1..], id);
    }
  }

  /** The buckets partition the records: their sizes add up to the number of records. */
  lemma {:induction false} BucketSizes(news: seq<News>)
    ensures BucketTotal(news, Ids(Heads)) == |news|
  {
    if news == [] {
      BucketTotalEmpty(Ids(Heads));
    } else {
      BucketTotalStep(news, Ids(Heads));
      IdListedOnce(BucketId(news[0].category));
      BucketSizes(news[1..]);
    }
  }

  /** Every category id occurs exactly once in the list of ids. */
  lemma IdListedOnce(id: string)
    requires id in CategoryIds
    ensures Occurrences(Ids(Heads), id) == 1
  {
    HeadsWellFormed();
    var ids := Ids(Heads);
    var i :| 0 <= i < |Heads| && Heads[i].id == id;
    assert ids[i] == id;
    OccursOnce(ids, id);
  }

  lemma {:induction false} BucketTotalEmpty(ids: seq<string>)
    ensures BucketTotal([], ids) == 0
  {
    if ids != [] {
      BucketTotalEmpty(ids[1..]);
    }
  }

  /**
   * `sorted({n['source'] for n in all_news if n.get('source')})`: the
   * distinct non-empty sources, strictly ascending.
   */
  function SortedSources(news: seq<News>): (r: seq<string>)
    ensures StrictlyAscending(r)
    ensures forall s :: s in r <==> exists n :: n in news && n.source == Some(s) && s != ""
  {
    if news == [] then []
    else
      var init, n := news[..|news| - 1], news[|news| - 1];
      var rest := SortedSources(init);
      assert forall m :: m in news <==> m in init || m == n;
      if n.source.Some? && n.source.value != "" then InsertAscending(n.source.value, rest) else rest
  }

  // ---------------------------------------------------------------------
  // Trend statistics

  const WeeklyDays: nat := 7
  const MonthlyDays: nat := 30
  const KeywordLimit: nat := 20
  const SourceLimit: nat := 10
  const CountryLimit: nat := 10
  const SampleLimit: nat := 50

  /** `common_exclude` */
  const CommonExclude: set<string> := {
    "news", "report", "world", "global", "issue", "new", "says", "company", "government", "country",
    "state", "million", "billion", "week", "year", "time", "people", "climate", "energy", "environmental"}

  /** A snapshot of one trend period, as written to `cache:trends:<period>`. */
  datatype Trends = Trends(
    topKeywords: seq<Count>,
    sourceDistribution: seq<Count>,
    categoryDistribution: seq<Count>,
    countryDistribution: seq<Count>,
    sampleNews: seq<News>)

  const NoTrends := Trends([], [], [], [], [])

  function Since(cutoff: int): News -> bool {
    (n: News) => n.date >= cutoff
  }

  /** `recent_news` for a period of `days` days ending at `now`. */
  function Recent(news: seq<News>, days: nat, now: int): seq<News> {
    Filter(news, Since(now - days * MicrosPerDay))
  }

  /** The tokens one record contributes to `all_words`. */
  function NewsTokens(n: News, stopWords: set<string>): seq<string> {
    Filter(Words(LettersAndSpaces(Lower(n.title + " " + n.summary))), KeptToken(stopWords))
  }

  /** `all_words` after the loop over `recent`. */
  function AllWords(recent: seq<News>, stopWords: set<string>): seq<string> {
    if recent == [] then []
    else AllWords(recent[..|recent| - 1], stopWords) + NewsTokens(recent[|recent| - 1], stopWords)
  }

  predicate Uncommon(w: string) {
    w !in CommonExclude
  }

  /** `n['source'] for n in recent_news if 'source' in n` */
  function SourcesOf(recent: seq<News>): seq<string> {
    Somes(seq(|recent|, i requires 0 <= i < |recent| => recent[i].source))
  }

  /** `n.get('category', 'Others') for n in recent_news` */
  function CategoriesOf(recent: seq<News>): (r: seq<string>)
    ensures |r| == |recent| && forall i :: 0 <= i < |recent| ==> r[i] == recent[i].category
  {
    seq(|recent|, i requires 0 <= i < |recent| => recent[i].category)
  }

  /** `n['country'] for n in recent_news if n.get('country')` */
  function CountriesOf(recent: seq<News>): seq<string> {
    Somes(seq(|recent|, i requires 0 <= i < |recent| =>
      if recent[i].country.Some? && recent[i].country.value != "" then recent[i].country else None))
  }

  function Min(a: nat, b: nat): nat {
    if a < b then a else b
  }

  /** What one period's trend computation yields for the loaded records. */
  function TrendsOf(news: seq<News>, days: nat, now: int, stopWords: set<string>): Trends {
    var recent := Recent(news, days, now);
    if recent == [] then NoTrends
    else Trends(
      MostCommon(Tally(Filter(AllWords(recent, stopWords), Uncommon)), KeywordLimit),
      MostCommon(Tally(SourcesOf(recent)), SourceLimit),
      Tally(CategoriesOf(recent)),
      MostCommon(Tally(CountriesOf(recent)), CountryLimit),
      recent[..Min(SampleLimit, |recent|)])
  }

  /** The token loop over the windowed records: `all_words.extend(...)` record by record. */
  method CollectWords(recent: seq<News>, stopWords: set<string>) returns (allWords: seq<string>)
    ensures allWords == AllWords(recent, stopWords)
  {
    allWords := [];
    for i := 0 to |recent|
      invariant allWords == AllWords(recent[..i], stopWords)
    {
      assert recent[..i + 1][..i] == recent[..i];
      allWords := allWords + NewsTokens(recent[i], stopWords);
    }
    assert recent[..|recent|] == recent;
  }

  /**
   * The body of the period loop of `update_news_cache`: filters the window,
   * collects the keyword tokens and fills the counters.
   */
  method PeriodTrends(news: seq<News>, days: nat, now: int, stopWords: set<string>) returns (t: Trends)
    ensures t == TrendsOf(news, days, now, stopWords)
  {
    var recent := Filter(news, Since(now - days * MicrosPerDay));
    if recent == [] {
      return NoTrends;
    }
    var allWords := CollectWords(recent, stopWords);
    var keywordCounts := Tally(Filter(allWords, Uncommon));
    t := Trends(
      MostCommon(keywordCounts, KeywordLimit),
      MostCommon(Tally(SourcesOf(recent)), SourceLimit),
      Tally(CategoriesOf(recent)),
      MostCommon(Tally(CountriesOf(recent)), CountryLimit),
      recent[..Min(SampleLimit, |recent|)]);
  }

  /** A keyword the trend statistics may report. */
  ghost predicate TrendKeyword(w: string, stopWords: set<string>) {
    |w| > 2 && (forall c | c in w :: IsLower(c)) && w !in stopWords && w !in CommonExclude
  }

  lemma NewsTokensShape(n: News, stopWords: set<string>, w: string)
    requires w in NewsTokens(n, stopWords)
    ensures |w| > 2 && w !in stopWords && forall c | c in w :: IsLower(c)
  {
    var lowered := Lower(n.title + " " + n.summary);
    var cleaned := LettersAndSpaces(lowered);
    FilterMembers(Words(cleaned), KeptToken(stopWords), w);
    forall c | c in w ensures IsLower(c) {
      assert c in cleaned && !IsSpace(c);
      var i :| 0 <= i < |lowered| && lowered[i] == c;
    }
  }

  lemma {:induction false} AllWordsShape(recent: seq<News>, stopWords: set<string>, w: string)
    requires w in AllWords(recent, stopWords)
    ensures |w| > 2 && w !in stopWords && forall c | c in w :: IsLower(c)
  {
    var init, last := recent[..|recent| - 1], recent[|recent| - 1];
    if w in AllWords(init, stopWords) {
      AllWordsShape(init, stopWords, w);
    } else {
      NewsTokensShape(last, stopWords, w);
    }
  }

  /**
   * Top keywords: at most 20, counts never increasing, each an
   * all-lower-case alphabetic word longer than two letters that is neither
   * a stopword nor excluded, counted by its number of occurrences.
   */
  lemma TopKeywords(news: seq<News>, days: nat, now: int, stopWords: set<string>)
    ensures var t := TrendsOf(news, days, now, stopWords);
      && |t.topKeywords| <= KeywordLimit
      && NonIncreasing(t.topKeywords, CountOf)
      && forall e | e in t.topKeywords :: TrendKeyword(e.item, stopWords)
  {
    var recent := Recent(news, days, now);
    if recent != [] {
      var words := Filter(AllWords(recent, stopWords), Uncommon);
      var counts := Tally(words);
      forall e | e in MostCommon(counts, KeywordLimit) ensures TrendKeyword(e.item, stopWords) {
        var i :| 0 <= i < |counts| && counts[i] == e;
        assert Items(counts)[i] == e.item;
        FilterMembers(AllWords(recent, stopWords), Uncommon, e.item);
        AllWordsShape(recent, stopWords, e.item);
      }
    }
  }

  /**
   * The window and the sample: the sample is the first `min(50, |recent|)`
   * windowed records in loader order, and a record is in the window iff it
   * is dated no earlier than `now` minus the period.
   */
  lemma Window(news: seq<News>, days: nat, now: int, stopWords: set<string>, n: News)
    ensures n in Recent(news, days, now) <==> n in news && n.date >= now - days * MicrosPerDay
    ensures var recent := Recent(news, days, now);
      TrendsOf(news, days, now, stopWords).sampleNews == recent[..Min(SampleLimit, |recent|)]
  {
    FilterMembers(news, Since(now - days * MicrosPerDay), n);
  }

  /** Nothing in the window: all five lists are empty. */
  lemma EmptyWindow(news: seq<News>, days: nat, now: int, stopWords: set<string>)
    requires forall n | n in news :: n.date < now - days * MicrosPerDay
    ensures TrendsOf(news, days, now, stopWords) == NoTrends
  {
    if Recent(news, days, now) != [] {
      var n := Recent(news, days, now)[0];
      FilterMembers(news, Since(now - days * MicrosPerDay), n);
    }
  }

  /**
   * Every reported keyword count is the number of times the word occurs
   * among the tokens of the windowed records.
   */
  lemma KeywordCounts(news: seq<News>, days: nat, now: int, stopWords: set<string>, e: Count)
    requires e in TrendsOf(news, days, now, stopWords).topKeywords
    ensures e.n == multiset(AllWords(Recent(news, days, now), stopWords))[e.item]
  {
    var words := AllWords(Recent(news, days, now), stopWords);
    var counts := Tally(Filter(words, Uncommon));
    GetEntry(counts, e);
    FilterCount(words, Uncommon, e.item);
    var i :| 0 <= i < |counts| && counts[i] == e;
    assert Items(counts)[i] == e.item;
  }

  /** At most ten sources and ten countries are reported, the most frequent ones. */
  lemma DistributionBounds(news: seq<News>, days: nat, now: int, stopWords: set<string>)
    ensures var t := TrendsOf(news, days, now, stopWords);
      && |t.sourceDistribution| <= SourceLimit && |t.countryDistribution| <= CountryLimit
      && |t.sampleNews| <= SampleLimit
      && NonIncreasing(t.sourceDistribution, CountOf) && NonIncreasing(t.countryDistribution, CountOf)
  {
    var recent := Recent(news, days, now);
    if recent != [] {
      var sources, countries := Tally(SourcesOf(recent)), Tally(CountriesOf(recent));
      assert TrendsOf(news, days, now, stopWords).sourceDistribution == MostCommon(sources, SourceLimit);
      assert TrendsOf(news, days, now, stopWords).countryDistribution == MostCommon(countries, CountryLimit);
    }
  }

  /**
   * Each reported source, and each reported country, comes with the number
   * of windowed records that carry it: a source present on the record, a
   * country present and non-empty.
   */
  lemma SourceAndCountryCounts(news: seq<News>, days: nat, now: int, stopWords: set<string>)
    ensures var t, recent := TrendsOf(news, days, now, stopWords), Recent(news, days, now);
      && (forall e | e in t.sourceDistribution ::
            e.n == multiset(SourcesOf(recent))[e.item] > 0 && exists n :: n in recent && n.source == Some(e.item))
      && (forall e | e in t.countryDistribution ::
            e.n == multiset(CountriesOf(recent))[e.item] > 0
            && e.item != "" && exists n :: n in recent && n.country == Some(e.item))
  {
    var recent := Recent(news, days, now);
    if recent != [] {
      var sources, countries := SourcesOf(recent), CountriesOf(recent);
      forall e | e in MostCommon(Tally(sources), SourceLimit)
        ensures e.n == multiset(sources)[e.item] > 0 && exists n :: n in recent && n.source == Some(e.item)
      {
        RankedCounts(sources, SourceLimit, e);
        SourcesOfMembers(recent, e.item);
      }
      forall e | e in MostCommon(Tally(countries), CountryLimit)
        ensures e.n == multiset(countries)[e.item] > 0
          && e.item != "" && exists n :: n in recent && n.country == Some(e.item)
      {
        RankedCounts(countries, CountryLimit, e);
        CountriesOfMembers(recent, e.item);
      }
    }
  }

  lemma SourcesOfMembers(recent: seq<News>, s: string)
    ensures s in SourcesOf(recent) <==> exists n :: n in recent && n.source == Some(s)
  {
    var opts := seq(|recent|, i requires 0 <= i < |recent| => recent[i].source);
    if s in SourcesOf(recent) {
      var i :| 0 <= i < |opts| && opts[i] == Some(s);
      assert recent[i] in recent;
    }
    if exists n :: n in recent && n.source == Some(s) {
      var n :| n in recent && n.source == Some(s);
      var i :| 0 <= i < |recent| && recent[i] == n;
      assert opts[i] == Some(s);
    }
  }

  lemma CountriesOfMembers(recent: seq<News>, c: string)
    ensures c in CountriesOf(recent) <==> c != "" && exists n :: n in recent && n.country == Some(c)
  {
    var opts := seq(|recent|, i requires 0 <= i < |recent| =>
      if recent[i].country.Some? && recent[i].country.value != "" then recent[i].country else None);
    if c in CountriesOf(recent) {
      var i :| 0 <= i < |opts| && opts[i] == Some(c);
      assert recent[i] in recent;
    }
    if c != "" && exists n :: n in recent && n.country == Some(c) {
      var n :| n in recent && n.country == Some(c);
      var i :| 0 <= i < |recent| && recent[i] == n;
      assert opts[i] == Some(c);
    }
  }

  /**
   * The category distribution has one entry per category occurring in the
   * window, each positive, and the counts add up to the number of windowed
   * records.
   */
  lemma CategoryDistribution(news: seq<News>, days: nat, now: int, stopWords: set<string>)
    ensures var t := TrendsOf(news, days, now, stopWords);
      && Total(t.categoryDistribution) == |Recent(news, days, now)|
      && (forall e | e in t.categoryDistribution :: e.n > 0)
      && forall c :: c in Items(t.categoryDistribution) <==> exists n :: n in Recent(news, days, now) && n.category == c
  {
    var recent := Recent(news, days, now);
    if recent != [] {
      var counts := TrendsOf(news, days, now, stopWords).categoryDistribution;
      assert counts == Tally(CategoriesOf(recent));
      forall c ensures c in Items(counts) <==> exists n :: n in recent && n.category == c {
        CategoriesOfMembers(recent, c);
      }
    }
  }

  lemma CategoriesOfMembers(recent: seq<News>, c: string)
    ensures c in CategoriesOf(recent) <==> exists n :: n in recent && n.category == c
  {
    var cats := CategoriesOf(recent);
    if c in cats {
      var i :| 0 <= i < |cats| && cats[i] == c;
      assert recent[i] in recent;
    }
    if exists n :: n in recent && n.category == c {
      var n :| n in recent && n.category == c;
      var i :| 0 <= i < |recent| && recent[i] == n;
      assert cats[i] == c;
    }
  }

  // ---------------------------------------------------------------------
  // Cache refresh

  /** The two fields written to `cache:homepage`. */
  datatype Homepage = Homepage(categorizedNews: map<string, seq<News>>, sortedSources: seq<string>)

  /** Everything one refresh writes: the homepage hash and the two trend snapshots. */
  datatype CacheUpdate = CacheUpdate(homepage: Homepage, weekly: Trends, monthly: Trends)

  /**
   * `update_news_cache`: loads once, returns without writing when nothing
   * loads, and otherwise derives the homepage grouping and both trend
   * periods from the same loaded records.  `weeklyNow` and `monthlyNow` are
   * the two readings of the clock.
   */
  method UpdateNewsCache(scanned: seq<string>, store: map<string, Value>, stopWords: set<string>,
                         weeklyNow: int, monthlyNow: int)
    returns (r: Option<CacheUpdate>)
    ensures r.None? <==> Fetched(scanned, store) == []
    ensures r.Some? ==>
      var all := Fetched(scanned, store);
      && Grouped(r.value.homepage.categorizedNews, CategoryIds, all, BucketKey)
      && r.value.homepage.sortedSources == SortedSources(all)
      && r.value.weekly == TrendsOf(all, WeeklyDays, weeklyNow, stopWords)
      && r.value.monthly == TrendsOf(all, MonthlyDays, monthlyNow, stopWords)
  {
    var all := FetchAllNews(scanned, store);
    if all == [] {
      return None;
    }
    var categorized := GroupByCategory(all);
    var sources := SortedSources(all);
    var weekly := PeriodTrends(all, WeeklyDays, weeklyNow, stopWords);
    var monthly := PeriodTrends(all, MonthlyDays, monthlyNow, stopWords);
    r := Some(CacheUpdate(Homepage(categorized, sources), weekly, monthly));
  }
}
