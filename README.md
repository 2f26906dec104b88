# Insight Radar: article selection, extraction and report, in Dafny

This project models the core of the Insight Radar pipeline, which watches investment news and writes a Markdown report of themes. The model covers three stages:

- **Article selection** (`src/fetchers.py`). Reading syndication feeds and news index pages. Merging the results, feeds first. Defaulting `site_name` to `"Unknown"`. A fail-open recency filter. A single-pass quota selector with a per-site and a total cap.
- **Article extraction** (`src/extractors.py`). A write-through JSON cache keyed by `extracted/<safe_key(url)>.json`. On a miss the page is downloaded and its main text extracted. Failures give records with an empty text, and the title, text and date are merged from the item and the extraction.
- **Report** (`src/report.py`). `_md_escape`. Grouping themes by verdict into five preset buckets plus one bucket per other verdict that occurs. The executive summary through `add_bucket`. One details section per theme, with reasons truncated to eight, ETF signals and citations that carry up to four evidence snippets. A disclaimer.

Modules:

- `Wrappers`: `Option`.
- `Seqs`: filtering, mapping and order-preserving subsequences, defined by recursion on the last element so that appending loops match them.
- `Text`: Python's `str.strip`, truthiness of optional strings, `str(int)` and `_md_escape`.
- `Articles`: the candidate item and the date parser's result.
- `Fetchers`, `Extractors` and `Report`: one module per source file.

Each loop of the source is a `method` with a `while` or `for` loop. Each method is proved equal to a specification function. The properties the source relies on are lemmas about those functions. The cache is a `class` whose `store` map the extractor updates. More precisely:

- The feed and index readers are methods that iterate over the parsed entries or anchors.
- `collect_latest_articles` is a method built from these loop methods: the two source loops, the site name default, the recency filter and the quota pass.
- `write_report` computes the list of lines the source joins and writes.

Where the code does not do what its own design evidently expects, the model follows the code:

- **Timezone-aware dates are never dropped.** The recency filter compares a parsed date with `datetime.utcnow() - timedelta(...)`, which is naive. A date that carries a timezone makes that comparison raise `TypeError`. The handler catches it and keeps the item. This includes ISO strings with an offset, such as those the feed reader itself produces from `pubDate` values that name a zone. So such an item is kept however old it is. One would expect a 30-day-old feed entry to be dropped with a 14-day window, but when its date carries a zone it is not. The model carries the tz-awareness of each parsed date explicitly (`Articles.DateTime.tzAware`).
- **The total cap admits at least one item.** The selector appends before it tests the total cap. So `max_total_articles <= 0` still lets one item through, and the bound proved is `|out| <= max(max_total_articles, 1)`.
- **Admitted index links need only start with `"http"`.** Any href that starts with `"http"` passes, including, for example, `"httpfoo"`, and its text must have at least 8 characters.

## Model

| member | source | states |
|---|---|---|
| Text.Strip | src/fetchers.py:21-23 | the stripped string neither starts nor ends with a whitespace character (Python's `isspace` set), and every character of it comes from the input (which characters it keeps is `StripSlice`) |
| Text.StripSlice | src/fetchers.py:21-23 | the stripped string is the slice `s[i..j]` of its input such that every character outside it is whitespace: only leading and trailing whitespace is removed |
| Text.StripIdempotent | src/report.py:6 | stripping a stripped string changes nothing |
| Text.MdEscape | src/report.py:5-6 | an escaped string holds no newline and neither starts nor ends with whitespace (which characters it keeps is `MdEscapeSlice`) |
| Text.MdEscapeSlice | src/report.py:5-6 | the escaped string is a slice of the input with newlines turned into spaces, and every character outside that slice is whitespace |
| Text.MdEscapeOfNothing | src/report.py:6 | `None` and `""` both escape to the empty string |
| Text.MdEscapeIdempotent | src/report.py:5-6 | escaping an escaped string changes nothing |
| Fetchers.ParseRssFeed | src/fetchers.py:16-37 | the entry loop yields exactly the feed's item list `RssItems`, in entry order |
| Fetchers.RssItemsAreLinkedEntries | src/fetchers.py:20-36 | the feed's items are the entries with a non-blank link, each mapped to its item: filter then map, in order |
| Fetchers.RssEntryAdmission | src/fetchers.py:20-36 | no more items than entries (the exact list is `RssItemsAreLinkedEntries`); every entry with a link gives its item; every item has the feed as source, a non-empty url, no site name, and comes from a linked entry; `published` is None exactly when the pubDate is blank or does not parse |
| Fetchers.ScrapeNewsIndex | src/fetchers.py:40-57 | the anchor loop yields exactly the index page's link list `IndexItems`, in document order |
| Fetchers.IndexLinkAdmission | src/fetchers.py:46-56 | no more items than anchors (the exact list is `IndexItemsAreAdmittedAnchors`); every admitted anchor gives its item; every item's url starts with `http`, its title has at least 8 characters, and it has no date, the index page as source and no site name; an href not starting with `/` is used as it is; a blank href is never admitted |
| Fetchers.IndexItemsAreAdmittedAnchors | src/fetchers.py:46-56 | the index page's items are the admitted anchors, each mapped to its item: filter then map, in document order |
| Fetchers.TagSite | src/fetchers.py:80-81 | every scraped item gets the site's name and nothing else changes |
| Fetchers.WithSiteNameElements | src/fetchers.py:80-81 | tagging keeps the length and changes only `site_name`, element by element |
| Fetchers.GatherCandidates | src/fetchers.py:64-84 | the two source loops produce all feed items in feed order, followed by all index links in site order |
| Fetchers.FailedFeedIsSkipped | src/fetchers.py:67-72 | a feed whose fetch or parse raised contributes nothing, and the feeds after it still contribute |
| Fetchers.FailedSiteIsSkipped | src/fetchers.py:75-84 | a site without a news index, or whose fetch or parse raised, contributes nothing, and later sites still contribute |
| Fetchers.RssPartProvenance | src/fetchers.py:67-72 | every feed item comes from a configured feed, has a url and has no site name |
| Fetchers.IndexPartProvenance | src/fetchers.py:75-84 | every index item has a site name and no date, its url starts with `http`, and its title has at least 8 characters |
| Fetchers.MergeOrder | src/fetchers.py:66-84 | feed items come first and carry no site name; index items follow and all carry one; no untagged item follows a tagged one |
| Fetchers.AttachDefaultSiteNames | src/fetchers.py:86-88 | the `setdefault` loop maps every item through the site-name default |
| Fetchers.DefaultSiteNameKeepsNames | src/fetchers.py:87-88 | after the default every item has a site name; an existing name is kept and a missing one becomes `Unknown`; the site an item is counted under does not change |
| Fetchers.FilterRecent | src/fetchers.py:93-106 | the recency loop equals the recency filter `RecentItems` |
| Fetchers.RecencyFilterIsFailOpen | src/fetchers.py:96-106 | the filter keeps an order-preserving subsequence and removes every copy of a stale item (naive, parsed, before the cutoff) and no copy of any other; items without a date, with an unparseable date, or with a timezone-aware date are always kept; stale items are always dropped |
| Fetchers.SetDefault | src/fetchers.py:113 | `setdefault(s, 0)` makes `s` present with its previous count, or 0, and changes no count |
| Fetchers.QuotaSkip | src/fetchers.py:114-115 | an item whose site has reached its quota is skipped while the pass goes on |
| Fetchers.QuotaAdmit | src/fetchers.py:116-117 | an item below its site's quota is appended, and the per-site dictionary still counts the output |
| Fetchers.SelectQuota | src/fetchers.py:108-119 | the quota loop, with its `continue` and `break`, equals the selection `Selected` |
| Fetchers.SelectedStopsAtCap | src/fetchers.py:118-119 | once the total cap is reached, no later item changes the output |
| Fetchers.SelectedPrefix | src/fetchers.py:111-119 | the selection on a prefix of the input is a prefix of the selection: no decision depends on later items |
| Fetchers.SelectedIsSubsequence | src/fetchers.py:111-119 | the output is an order-preserving subsequence of the input |
| Fetchers.SelectedPerSiteBound | src/fetchers.py:113-116 | no site has more than `max(max_articles_per_site, 0)` items in the output |
| Fetchers.SelectedTotalBound | src/fetchers.py:117-119 | the output has at most `max(max_total_articles, 1)` items, and at most `max_total_articles` when that is positive |
| Fetchers.SelectedFillsQuotas | src/fetchers.py:111-117 | when the total cap is never reached, each site gets exactly `min(its count in the input, quota)` items |
| Fetchers.SelectedKeepsEarliest | src/fetchers.py:111-117 | when the total cap is never reached, the items a site keeps are exactly its first `max(quota, 0)` items of the input, in input order |
| Fetchers.CollectLatestArticles | src/fetchers.py:60-121 | the pipeline applies quota selection to the recency filter of the deduplicated, defaulted merge; the result is a subsequence of the candidates and respects both caps |
| Extractors.CacheKeyInjective | src/extractors.py:10 | two URLs share a cache key exactly when the key sanitiser maps them to the same string |
| Extractors.Cache.GetJson | src/extractors.py:11 | the lookup finds a record exactly when the key is stored, and then it is the stored one |
| Extractors.Cache.SaveJson | src/extractors.py:56 | saving stores the record under the key and leaves every other entry |
| Extractors.ExtractArticle | src/extractors.py:8-57 | result and new cache are those of `ExtractStep`: a hit returns the cached record untouched; otherwise a failed download or empty extraction stores and returns the failure record; malformed JSON raises without writing; a successful extraction stores and returns the merged record |
| Extractors.CacheHitIsPure | src/extractors.py:11-13 | a cache hit returns the stored record, leaves the cache unchanged, and does not depend on the network or the extractor |
| Extractors.StepWritesOnlyItsKey | src/extractors.py:15-56 | a returning call leaves its record under the item's key and every other entry as it was; a raising call changes nothing; a hit writes nothing |
| Extractors.ExtractIsIdempotent | src/extractors.py:10-13 | calling again on the cache a call left behind returns the same record and changes nothing |
| Extractors.FailureKeepsItem | src/extractors.py:15-31 | a failed download or an empty extraction gives back the item's fields unchanged with an empty text |
| Extractors.SuccessRecordFields | src/extractors.py:36-55 | a merged record names the item's site or `Unknown`; keeps url and source; takes the extracted title when present and non-empty, else the item's, so it is empty only if both are; takes the extracted text or `""` |
| Extractors.ItemDateTakesPrecedence | src/extractors.py:40 | the item's own non-empty date makes the extracted date irrelevant and is treated exactly as that date would be |
| Extractors.PublishedNormalization | src/extractors.py:40-46 | a date that parses is reduced to its calendar date; one that does not is kept verbatim; with no date, the record keeps the empty value `or` produced |
| Report.Bucketize | src/report.py:13-23 | the grouping loop equals `Buckets` |
| Report.BucketsByVerdict | src/report.py:13-23 | the buckets are the five presets plus the verdicts that occur, and each bucket holds exactly the themes with that verdict, in input order |
| Report.WithVerdictMembers | src/report.py:21-23 | a bucket holds a theme exactly when the theme has that verdict, and keeps input order |
| Report.ThemeInExactlyOneBucket | src/report.py:21-23 | each theme is in the bucket of its verdict and in no other; a missing verdict means `mixed/unclear`; each bucket is a subsequence of the themes |
| Report.AddBucket | src/report.py:33-40 | `add_bucket` appends the bucket's heading, then either `- (none)` or one bullet per theme and a blank line |
| Report.BucketPlaceholder | src/report.py:33-40 | a missing or empty bucket gives exactly its heading and `- (none)`; otherwise one escaped bullet per theme, in order, between the heading and a blank line |
| Report.SummaryIgnoresOtherVerdicts | src/report.py:21-23 | a theme whose verdict is not a preset key, inserted at any position of the theme list, gets a bucket but leaves the summary unchanged |
| Report.SummaryReadsPresets | src/report.py:42-46 | the summary depends only on the five preset buckets |
| Report.AddSummary | src/report.py:42-46 | the five `add_bucket` calls append the summary in their fixed order |
| Report.AppendReasons | src/report.py:61-64 | appends the reason block: nothing without reasons, else the header and at most eight bullets |
| Report.AppendSignals | src/report.py:67-79 | appends the ETF block: nothing without signals, else the header and one line per signal showing its error or its metrics |
| Report.BuildByUrl | src/report.py:84 | the dictionary comprehension equals `ByUrl` |
| Report.AppendEvidence | src/report.py:94-95 | appends one quoted, escaped line for each of at most four snippets |
| Report.AppendCitations | src/report.py:85-95 | appends each reference's citation lines, in reference order |
| Report.AppendTheme | src/report.py:52-97 | appends a theme's section: heading, verdict, sentiment, optional description, reasons, signals, citations, rule |
| Report.WriteReport | src/report.py:9-100 | the lines are the header, the summary, the details title, one section per theme in order, and the disclaimer |
| Report.ReasonsTruncated | src/report.py:61-64 | the reason block has one header and `min(len, 8)` escaped lines, the i-th being the i-th reason |
| Report.EvidenceTruncated | src/report.py:93-95 | a found article's citation has one line and then `min(len, 4)` evidence lines, the i-th being the i-th snippet |
| Report.ByUrlKeys | src/report.py:84 | the lookup knows exactly the URLs of the articles |
| Report.ByUrlFindsLast | src/report.py:84 | a URL shared by several articles is looked up as the last of them |
| Report.ByUrlLastWins | src/report.py:84 | for every URL in the lookup, the article found is the last one with that URL |
| Report.CitationFallbacks | src/report.py:85-92 | an unmatched reference shows its title or `(unknown)` and its url or `None`; a found article shows its title or `(untitled)`, its date or `unknown date`, and its url |
| Report.OtherLinesArePlain | src/report.py:56-97 | no line of the details other than a theme's heading starts with `### ` |
| Report.CitationLinesArePlain | src/report.py:85-95 | no citation or evidence line is a heading |
| Report.ThemeBodyHasNoHeading | src/report.py:56-97 | nothing in a theme's section after its heading is a heading |
| Report.ThemeSectionHeading | src/report.py:55-97 | a theme's section holds exactly one heading, its own |
| Report.DetailsHeadings | src/report.py:51-55 | the details have one `### ` heading per theme, in theme order |

## Left out

- HTTP requests, BeautifulSoup's XML and HTML parsing, `urljoin`, `dateutil.parser.parse`, `trafilatura.fetch_url`, `trafilatura.extract`, `json.loads` and `cache.safe_key` are foreign code. They are oracles, passed as functions, and nothing is assumed about their answers. A fetch that raises, together with its parse, is a `None` answer.
- `dedupe_links` lives in `src/dedupe.py`, which is not part of this model. It is an oracle `seq<Item> -> seq<Item>`. So the properties of the pipeline are stated relative to its output.
- `src/cache.py` is not part of this model. The cache is a map from key to record. A stored record is a non-empty dict, so "cached and truthy" is "present".
- Fetchers.Cutoff: does not model the `OverflowError` that `datetime.utcnow() - timedelta(days=lookback_days)` raises at src/fetchers.py:94, outside any handler, when the cutoff leaves `datetime`'s range; the lookback is assumed to keep the cutoff within that range.
- `datetime.utcnow()` is the parameter `now` of `CollectLatestArticles` and `WriteReport`. The report's timestamp is the string `now`.
- Writing the joined lines to `path` is left out: `WriteReport` returns the lines.
- A theme's sentiment score and an ETF signal's formatted numbers (`:.2%`, the z-score or `n/a`) are floating point. They are given as the text they print to.
- JSON values of unexpected shapes are left out: a null verdict, a null `error` value, non-object JSON, or a non-string title or date from the extractor. Only missing keys are modelled, as `None`.
- Item dicts are updated in place by the source (`it["site_name"] = ...`, `setdefault`). The model updates the values in sequences. No aliasing between the candidate lists is modelled, since the source creates fresh dicts for each item.
- `cfg` is unused by `extract_article` and `cache` by `collect_latest_articles`. Neither is a parameter of the model.
- Every theme is assumed to have a `theme` key, as the summary's `t['theme']` requires. A missing key, which raises `KeyError` there, is not modelled.
