# earthGuardian news pipeline — a Dafny model

earthGuardian collects environmental news records in a Redis store under
keys of the form `news-YYYYMMDD-NNN`. It shows them on a homepage grouped
by category and computes weekly and monthly trend statistics over them.
The pipeline exists in two versions, and this project models both.

- `services.py` is the cache-refresh job. `categorize_news` assigns a category by
  keyword substring matching on `lower(title) + " " + lower(summary)`.
  `fetch_all_news_from_redis` keeps the well-formed keys. It trusts a stored
  category when that category is a declared name and recomputes it otherwise.
  It dates each record from its key and sorts the records newest first.
  `update_news_cache` groups the records into one bucket per category id and
  lists the sources in sorted order. For each period it derives the window,
  the keyword, source, category and country counters, and a sample of 50.
- `app.py` is the older per-request version. Its `categorize_news` matches the
  title and the summary separately. Its loader always recomputes the category
  and sorts by the parsed free-text `published` date. An unparsable date
  counts as the minimum date. `index` files each record into the first bucket
  whose name matches its category, or into none. `get_trends` validates the
  period, filters the window, and counts keywords, sources and categories.
  It also counts countries by plain substring matching, so one record can
  count for several countries.

Modules:

| module | what it holds |
|---|---|
| `Wrappers` | `Option`, `Result` |
| `Text` | ASCII lower-casing, substring search, the `[^a-zA-Z\s]` clean-up, whitespace tokenising, `str.title`, string order |
| `Sorting` | the loader's collect loop, filters, the stable descending sort and its tie behaviour |
| `Counter` | `collections.Counter` as an insertion-ordered list of entries, `+= 1`, `most_common` |
| `Calendar` | civil-date validity and day numbers, used for the key date |
| `Store` | the stored values the loaders distinguish, and the key pattern |
| `Rules` | the category table shape and first-match classification |
| `Buckets` | appending records to per-category buckets |
| `Services` | `services.py` |
| `App` | `app.py` |

The modelled behaviour:

- **Loading.**
  - Each loader turns the scanned keys, in scan order, into records. A key that
    is skipped yields nothing. A failure on one key never affects another key.
  - The result is then sorted. The sort is `SortDesc`, a stable insertion sort
    by a date key. Records with equal dates keep their scan order.
- **Dates.**
  - Dates are microseconds since `0001-01-01T00:00Z`, so `datetime.min` is 0.
  - A key date is valid exactly when `strptime("%Y%m%d")` accepts it.
  - `dateutil.parser.parse` is a parameter `parse: string -> Option<nat>`, already
    normalised to UTC.
- **Inputs from outside.**
  - The clock readings and the NLTK stopword set are parameters.
  - The store is a `map<string, Value>` read through `Lookup`.
- **Outputs.** A cache refresh returns what it would write: nothing when no
  record loads, otherwise the homepage data and both trend snapshots.

## Model

| member | source | states |
|---|---|---|
| Services.HeadsWellFormed | services.py:28-37 | the category ids are distinct, the names are distinct, and the table ends with the `others` entry named `Others` |
| Services.NamesDistinct | services.py:28-37 | no two categories share a name |
| Services.Categorize | services.py:39-47 | the result is the name of the first non-`others` category, in declaration order, that has a keyword occurring in `lower(title) + " " + lower(summary)`; the result is `Others` when no category has one; it is always a declared name |
| Rules.Classify | services.py:43-47 | first-match classification over a table: the first category one of whose keywords hits decides; the fallback is `Others` |
| Rules.FirstHit | services.py:43-46 | the index found is the first category, from a starting point, that a keyword hits; every category before it is passed over |
| Rules.DecidesUnique | services.py:43-47 | the first-match rule determines the category uniquely |
| Rules.FindName | services.py:100 | finds the first table entry with the given name, or reports that none has it |
| Text.Contains | services.py:46 | `keyword in text` holds exactly when the keyword occurs at some position of the text |
| Text.ContainsInContext | services.py:42-46 | a keyword found in the title or the summary is also found in any text that contains it |
| Text.Lower | services.py:40-41 | `.lower()` keeps the length and maps each character on its own to one that is not an upper-case letter, keeping letters letters |
| Store.Matched | services.py:51-52 | the kept keys are exactly the scanned keys that fully match `^news-\d{8}-\d{3}$` |
| Store.MatchedSnoc | services.py:51-52 | the kept keys are in scan order: one more scanned key is appended at the end exactly when it matches, and the earlier keys are unchanged |
| Store.MakeKeyMatches | services.py:51 | every `news-YYYYMMDD-NNN` built from 4+2+2 date digits and 3 sequence digits matches the pattern and reads back the same numbers |
| Store.KeyIsMade | services.py:51 | every matching key without a trailing newline is such a key |
| Store.RecordFields | services.py:61-65 | a value yields a record dict exactly when it is a JSON object whose `value` is a dict or is absent |
| Calendar.DayNumberMonotone | services.py:75 | a date earlier on the calendar has a smaller day number, so key dates order the records as calendar dates do |
| Calendar.NextYear | services.py:75 | the day numbers of 31 December and the next 1 January are consecutive |
| Calendar.NextMonth | services.py:75 | the day numbers of the last day of a month and the first day of the next month are consecutive |
| Calendar.UnixEpoch | services.py:75 | day 0 is `0001-01-01`, because 1970-01-01 is day 719162 as in Python's `date.toordinal() - 1` |
| Services.LoadOne | services.py:60-78 | a key yields a record exactly when its value holds a record dict and its date digits form a valid date; all fields are copied, including `country`, which is never inferred; the date is the key's date; the category is always a declared name |
| Services.Resolve | services.py:68-71 | a stored category that equals a declared name is kept; any other stored category, or a missing one, is replaced by `categorize_news` of the record |
| Sorting.Collect | services.py:59-78 | the loop that appends loaded records keeps at most one record per key |
| Sorting.CollectMembers | services.py:59-78 | a record is collected exactly when some key loads to it |
| Sorting.SortDesc | services.py:82 | the sort yields a permutation of its input, ordered by non-increasing key |
| Sorting.SortDescStable | services.py:82 | records with equal keys keep their relative order (`reverse=True` sorts are stable) |
| Services.FetchAllNews | services.py:49-83 | the loader loop followed by the sort produces `Fetched` |
| Services.FetchedOrder | services.py:82 | the loaded records are newest first, and records with the same date keep their scan order |
| Services.FetchedMembers | services.py:51-80 | a record is loaded exactly when some scanned key matches the pattern and loads to it |
| Services.BucketId | services.py:99-100 | a category name goes to the id of the first category with that name, or to `others` when no category has it |
| Buckets.GroupedStep | services.py:98-101 | appending the next record to the bucket its key names keeps every bucket equal to the in-order list of records with that key |
| Services.GroupByCategory | services.py:97-101 | there is one bucket per category id, and each bucket holds, in loader order, exactly the records whose category maps to it |
| Services.BucketsPartition | services.py:97-101 | each record is in the bucket of its category and in no other |
| Services.BucketsNewestFirst | services.py:98-101 | each bucket keeps the newest-first order of the loader |
| Services.BucketSizes | services.py:97-101 | the bucket sizes add up to the number of loaded records |
| Services.SortedSources | services.py:103 | `sorted_sources` is strictly ascending and holds exactly the non-empty sources of the loaded records |
| Sorting.InsertAscending | services.py:103 | inserting into a strictly ascending list keeps it strictly ascending and adds exactly the new element |
| Text.BelowTransitive | services.py:103 | the string order used by `sorted` is transitive |
| Text.BelowTotal | services.py:103 | any two distinct strings are ordered one way or the other |
| Text.LettersAndSpaces | services.py:121 | the clean-up is no longer than its input, and the characters it keeps are exactly the input's ASCII letters and whitespace characters |
| Text.Words | services.py:122 | every token is non-empty and contains no whitespace |
| Text.WordsSingle | services.py:122 | a non-empty string without whitespace splits into exactly itself |
| Text.WordsSplit | services.py:122 | a whitespace character separates tokens: the tokens of `a + c + b` are those of `a` followed by those of `b`; with Text.WordsSingle this pins down the whitespace split of every string as its maximal non-whitespace runs, in order |
| Services.NewsTokensShape | services.py:120-122 | a token a record contributes is longer than two letters, all lower-case ASCII letters, and not a stopword |
| Services.AllWordsShape | services.py:118-123 | every collected token has that shape |
| Services.CollectWords | services.py:118-123 | the token loop extends `all_words` with each windowed record's tokens, in window order |
| Counter.Tally | services.py:126 | `Counter(xs)` has distinct, positive entries; each entry's count is the number of occurrences of its element in `xs`; entries appear in first-seen order; the counts sum to `len(xs)` |
| Counter.MostCommon | services.py:129 | `most_common(n)` returns `min(n, len)` entries of the counter, with counts non-increasing, and no entry left out has a larger count than one kept |
| Counter.MostCommonTies | services.py:129 | among entries with equal counts, `most_common` keeps first-seen order and keeps a prefix of them |
| Services.PeriodTrends | services.py:112-138 | one period's computation yields `TrendsOf`: the window, the keyword, source, category and country counters, and the sample |
| Services.Window | services.py:113-114 | a record is in the window exactly when its date is at or after `now` minus 7 or 30 days; the sample is the first `min(50, len(recent))` windowed records |
| Services.EmptyWindow | services.py:116-117 | when no record falls in the window, all five lists are empty |
| Services.TopKeywords | services.py:125-129 | `top_keywords` has at most 20 entries, with counts non-increasing, and every keyword is a lower-case alphabetic word longer than two letters that is neither a stopword nor in the 20-word exclusion set |
| Services.KeywordCounts | services.py:126-129 | a reported keyword count is the number of times the word occurs among the window's tokens |
| Services.DistributionBounds | services.py:129-138 | the source and country lists have at most 10 entries each, the sample at most 50, and both lists have non-increasing counts |
| Services.SourceAndCountryCounts | services.py:130-135 | every reported source count is the number of times that source occurs in `n['source'] for n in recent_news if 'source' in n`, and some windowed record carries it; every reported country count is the number of times that country occurs in `n['country'] for n in recent_news if n.get('country')`, and it is non-empty and carried by some windowed record; all counts are positive |
| Services.SourcesOfMembers | services.py:130 | a value is among the counted sources exactly when some windowed record has it as its `source` |
| Services.CountriesOfMembers | services.py:134 | a value is among the counted countries exactly when it is non-empty and some windowed record has it as its `country` |
| Services.CategoryDistribution | services.py:131 | the category counts are positive, sum to the number of windowed records, and list exactly the categories that occur in the window |
| Services.UpdateNewsCache | services.py:85-140 | when no record loads, nothing is written; otherwise the homepage buckets, the sorted sources and both periods' trends are all derived from the same loaded records |
| App.HeadsWellFormed | app.py:49-82 | the category ids of `app.py` are distinct, the names are distinct, and the table ends with the `others` entry named `Others` |
| App.NamesDistinct | app.py:49-82 | no two categories share a name |
| App.Categorize | app.py:95-109 | the result is the name of the first non-`others` category with a keyword that occurs in `lower(title)` or in `lower(summary)`; the fallback is `Others`; it is always a declared name |
| Rules.AnyContains | app.py:105 | a keyword hits a list of texts exactly when it occurs in one of them |
| App.SeparateWithinJoined | app.py:97-105 | a keyword found in the title or in the summary separately is also found in the joined text, so matching separately never finds more than joined matching |
| App.SeamExample | app.py:104-105 | a keyword that spans the title/summary seam ("climate" / "change") is not found, although joined matching would find it |
| App.LoadOne | app.py:121-132 | a key yields a record exactly when its value holds a record dict; the fields are copied and the category is `categorize_news` of the record |
| App.StoredCategoryIgnored | app.py:128-129 | a stored category has no effect on the loaded record |
| App.FetchNews | app.py:111-146 | the loader loop followed by the sort on the parsed `published` date produces `Fetched` |
| App.LoadKeys | app.py:120-132 | the loader loop appends, in key order, the record of every key whose value loads: the result is `Collect` of the keys |
| App.PublishedKey | app.py:134-143 | `parse_date` never sorts a record below `datetime.min` (instant 0); a record whose `published` text does not parse gets 0; a date that parses is the key, and a positive key is the parsed date; a missing `published` is passed to the parser as `""`, as `item.get('published', '')` does |
| App.FetchedOrder | app.py:134-145 | the records are ordered by non-increasing parsed date, and records with equal dates keep their scan order |
| App.FetchedMembers | app.py:112-132 | a record is loaded exactly when some scanned key matches the pattern and loads to it |
| App.UndatedLast | app.py:142-145 | once a record sorts at `datetime.min`, every later record does too, so records without a parsable date come last |
| App.BucketOf | app.py:156-159 | a category name goes to the id of the first category with that name, or to no bucket |
| App.BucketOfFirst | app.py:156-159 | the first category whose name matches, scanning in declaration order, decides the bucket |
| App.FileRecord | app.py:156-159 | the inner loop appends the record to the bucket of the first category with its name, then breaks; it appends nothing when no name matches |
| App.Index | app.py:152-164 | there is one bucket per category id, and each bucket holds, in loader order, exactly the records whose category names it; `sources` is the set of record sources, with `Unknown` for a missing source |
| App.BucketMembers | app.py:154-159 | a record is in a bucket exactly when its category names that bucket; a record whose category names no category is in none |
| App.LoadedBucketed | app.py:129 | every loaded record lands in some bucket, because its category is the classifier's answer |
| App.PeriodDays | app.py:172-182 | only `weekly` (7 days) and `monthly` (30 days) are accepted periods |
| App.InWindow | app.py:189-198 | the window test holds exactly when `published` is present, non-empty, parses, and is at or after the cutoff; a record that passes it has a `parse_date` sort key at or after the cutoff |
| App.Window | app.py:185-201 | the window loop keeps, in loader order, exactly the records that pass the window test |
| App.WindowMembers | app.py:185-201 | a record is in the window exactly when its `published` field is present, non-empty, parses, and is at or after the cutoff; the sample is the whole window |
| App.CollectWords | app.py:206-218 | the token loop extends `all_words` with each windowed record's tokens, in window order |
| App.NewsTokensShape | app.py:208-217 | a token a record contributes is longer than two letters, all lower-case ASCII letters, and not a stopword |
| App.AllWordsShape | app.py:206-218 | every collected token has that shape |
| App.KeptKeyword | app.py:217-222 | a token that survives the 10-word exclusion set is a trend keyword |
| App.TopOfWindow | app.py:221-225 | the keyword ranking of a window has at most 20 entries, with counts non-increasing, and every keyword is a trend keyword |
| App.TopKeywords | app.py:220-225 | `top_keywords` has at most 20 entries, with counts non-increasing, and every keyword is a trend keyword |
| App.KeywordCounts | app.py:224-225 | a reported keyword count is the number of times the word occurs among the window's tokens |
| Counter.RankedCounts | app.py:228-233 | every entry a `most_common` ranking of `Counter(xs)` reports counts the occurrences of an element that occurs in `xs` |
| App.SourceDistribution | app.py:228-229 | the source ranking is ordered by count and sums to the window size; each count is the number of windowed records with that source, with `Unknown` for a missing source |
| App.CategoryDistribution | app.py:232-233 | the category ranking is ordered by count and sums to the window size; each entry counts the windowed records of a category that occurs |
| App.CountryNamesDistinct | app.py:237-253 | the 15 country names are distinct |
| App.CountryTitlesDistinct | app.py:257-259 | their title-cased forms are distinct too, so each country has its own counter entry |
| Text.TitlesDistinct | app.py:257-259 | title-casing a list of distinct names without upper-case letters gives distinct titles |
| Text.TitleInjective | app.py:259 | title-casing is injective on strings without upper-case letters |
| App.Mentioned | app.py:257-258 | for each listed country, in table order, whether any of its substrings occurs in the record's lower-cased text |
| App.CountRecord | app.py:256-259 | the inner loop adds one to the count of every country the record mentions, in table order |
| App.CountryLoopStep | app.py:257-259 | one turn of the inner loop bumps the title-cased country exactly when one of its substrings occurs in the record's text |
| App.CountCountries | app.py:255-259 | the country loop over the window produces `CountryMentions` |
| Counter.Bump | app.py:259 | `c[x] += 1` raises the count of `x` by one, leaves every other count alone, and raises the total by one |
| Counter.BumpItems | app.py:259 | a new element is appended at the end of the counter and an existing one keeps its place |
| Counter.BumpEachGet | app.py:257-259 | after the inner loop, each country's count has grown by one when the record mentions it and is unchanged otherwise |
| App.CountryStep | app.py:257-259 | one record adds one to a country's count exactly when it mentions that country |
| App.CountryCounts | app.py:255-259 | a country's count is the number of windowed records that mention it |
| App.CountryMentionsShape | app.py:255-259 | the country counter's entries are distinct and positive, and each is a title-cased listed country |
| App.BusinessMentionsUnitedStates | app.py:238 | a record titled "business" counts for the United States, because "us" occurs inside it |
| App.SeveralCountries | app.py:239-240 | one record ("chinese" / "indian") counts for both China and India |
| App.CountryDistribution | app.py:261 | the list is sorted by count, most frequent first, and every reported country is a title-cased listed country with a positive count equal to the number of windowed records that mention it |
| App.CountryReported | app.py:255-261 | every listed country that some windowed record mentions is reported, under its title-cased name, with the number of windowed records that mention it |
| Counter.MostCommonAllTotal | app.py:229 | `most_common()` with no limit keeps every count |
| App.GetTrends | app.py:170-273 | an unknown period yields the 400 error before anything is loaded; a cutoff before `datetime.min` yields the 500 error; otherwise the result is `TrendsOf` the loaded records for that period's cutoff |

## Left out

- Redis access is not modelled: the scan, the pipelined reads and the cache writes. Scanned keys and stored values are inputs, and the cache writes are the returned value.
- `json.dumps(default=str)` serialisation of the cache is not modelled: the cached structures are returned as values.
- Logging is not modelled, and neither is whether the cache writes are atomic.
- `datetime.now()` is a parameter. `update_news_cache` reads the clock once per period, so it takes two readings.
- NLTK is replaced by parameters and simplifications:
  - the stopword list is an input set;
  - `word_tokenize` is a whitespace split, which is exact on the letters-and-whitespace text it receives except for the Treebank splitting of contractions, which is not modelled.
- `dateutil.parser.parse` is an input function. Its grammar and time-zone handling are foreign library behaviour.
- `.lower()`, `.title()` and `\d` are modelled on ASCII: Unicode case mapping and Unicode digits are not modelled. The `\s` of the clean-up is modelled in full, as the characters for which `str.isspace()` holds.
- Non-string JSON field values (`null`, numbers) are not modelled: a field is a string or absent. In the source such a `title` or `summary` behaves differently in the two versions:
  - in `services.py`, a record whose stored category is kept never reaches `categorize_news`, so it loads, and the trend loop renders the value as text ("None", "42") before tokenising it; a record whose category is recomputed raises in `categorize_news` and is skipped;
  - in `app.py`, `categorize_news` always runs, so such a record raises and is skipped.
- `Services.Window`: the model computes a negative cutoff when `now` is within 30 days of `datetime.min`, where the source would raise `OverflowError` uncaught. This is unreachable with a real clock.
- Text.LettersAndSpaces: the contract states which characters survive the clean-up, not that they keep their order; the function itself keeps the order.
- Exceptions other than the modelled skips and the `get_trends` cutoff error are not modelled, including the rest of the 500 path.
- Extra stored fields are not modelled: the records carry only the fields the pipeline reads, plus the key.
- `get_cached_homepage_data`, `get_cached_trends_data`, `report.py`, the `views/` routes, template rendering, `create_favicon.py` and `extensions.py` are not part of this model. They are I/O, Flask plumbing and image handling.
