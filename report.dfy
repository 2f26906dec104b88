/**
 * The Markdown report: a header, an executive summary with one section per
 * preset verdict bucket, one details section per theme (verdict, reasons,
 * ETF signals, citations with evidence snippets) and a disclaimer.
 *
 * The report is modelled as the list of lines `write_report` joins and
 * writes; the clock reading and the counts are parameters.
 */
module Report {
  import opened Wrappers
  import opened Seqs
  import opened Text

  /** The `llm_priced_in` object of a theme; missing reasons are the empty list. */
  datatype PricedIn = PricedIn(verdict: Option<string>, reasoningBullets: seq<string>)

  /**
   * One entry of `etf_signals`: its ticker, its `error` if that key is
   * present, and otherwise the text of its formatted metrics.
   */
  datatype Signal = Signal(ticker: string, error: Option<string>, metrics: string)

  /** A theme's reference to an article; `url` and `title` may be missing. */
  datatype ArticleRef = ArticleRef(url: Option<string>, title: Option<string>)

  /**
   * A theme: its name and description, the LLM's verdict object if any, the
   * sentiment score as it prints, its ETF signals and its article references.
   */
  datatype Theme = Theme(
    theme: string,
    description: string,
    pricedIn: Option<PricedIn>,
    sentiment: string,
    etfSignals: seq<Signal>,
    articles: seq<ArticleRef>)

  /** A summarised article: its URL, optional title and date, and its summary's evidence snippets. */
  datatype Article = Article(url: string, title: Option<string>, published: Option<string>, evidenceSnippets: seq<string>)

  // ------------------------------------------------------------------
  // Verdict buckets
  // ------------------------------------------------------------------

  const NotPricedIn: string := "possibly not priced in"
  const PartiallyPricedIn: string := "partially priced in"
  const LikelyPricedIn: string := "likely priced in / crowded"
  const NegativePricedIn: string := "negative priced in"
  const MixedUnclear: string := "mixed/unclear"

  const PresetKeys: seq<string> := [NotPricedIn, PartiallyPricedIn, LikelyPricedIn, NegativePricedIn, MixedUnclear]

  /** `(t.get("llm_priced_in") or {}).get("verdict", "mixed/unclear")` */
  function VerdictOf(t: Theme): string {
    match t.pricedIn
    case None => MixedUnclear
    case Some(p) => p.verdict.GetOr(MixedUnclear)
  }

  /** `(t.get("llm_priced_in") or {}).get("reasoning_bullets", [])` */
  function ReasonsOf(t: Theme): seq<string> {
    match t.pricedIn
    case None => []
    case Some(p) => p.reasoningBullets
  }

  /** The five preset buckets, all empty. */
  function PresetBuckets(): map<string, seq<Theme>> {
    map[NotPricedIn := [], PartiallyPricedIn := [], LikelyPricedIn := [], NegativePricedIn := [], MixedUnclear := []]
  }

  /** `buckets.get(key)` read as a list: a missing bucket is empty. */
  function BucketOf(buckets: map<string, seq<Theme>>, key: string): seq<Theme> {
    if key in buckets then buckets[key] else []
  }

  /** The buckets after the grouping loop: each theme appended to the bucket of its verdict. */
  function Buckets(themes: seq<Theme>): map<string, seq<Theme>> {
    if themes == [] then PresetBuckets()
    else
      var b := Buckets(DropLast(themes));
      var v := VerdictOf(Last(themes));
      b[v := BucketOf(b, v) + [Last(themes)]]
  }

  /** The themes whose verdict is `v`, in input order (an independent reference for a bucket). */
  function WithVerdict(themes: seq<Theme>, v: string): seq<Theme> {
    if themes == [] then []
    else WithVerdict(DropLast(themes), v) + (if VerdictOf(Last(themes)) == v then [Last(themes)] else [])
  }

  /** The grouping loop: `buckets.setdefault(verdict, []).append(t)`. */
  method Bucketize(themes: seq<Theme>) returns (buckets: map<string, seq<Theme>>)
    ensures buckets == Buckets(themes)
  {
    buckets := PresetBuckets();
    for i := 0 to |themes|
      invariant buckets == Buckets(themes[..i])
    {
      var t := themes[i];
      assert DropLast(themes[..i + 1]) == themes[..i] && Last(themes[..i + 1]) == t;
      var verdict := VerdictOf(t);
      if verdict !in buckets {
        buckets := buckets[verdict := []];
      }
      buckets := buckets[verdict := buckets[verdict] + [t]];
    }
    assert themes[..|themes|] == themes;
  }

  /**
   * The buckets are the five presets plus one per verdict that occurs, and
   * the bucket of every verdict holds exactly the themes with that verdict,
   * in input order.
   */
  lemma {:induction false} BucketsByVerdict(themes: seq<Theme>)
    ensures forall v :: v in Buckets(themes) <==> v in PresetKeys || exists t :: t in themes && VerdictOf(t) == v
    ensures forall v :: BucketOf(Buckets(themes), v) == WithVerdict(themes, v)
    decreases |themes|
  {
    if themes != [] {
      var init, t := DropLast(themes), Last(themes);
      BucketsByVerdict(init);
      assert themes == init + [t];
      forall v ensures BucketOf(Buckets(themes), v) == WithVerdict(themes, v) {
      }
    }
  }

  lemma {:induction false} WithVerdictMembers(themes: seq<Theme>, v: string)
    ensures forall t :: t in WithVerdict(themes, v) <==> t in themes && VerdictOf(t) == v
    ensures IsSubsequence(WithVerdict(themes, v), themes)
    decreases |themes|
  {
    if themes != [] {
      var init, t := DropLast(themes), Last(themes);
      WithVerdictMembers(init, v);
      assert themes == init + [t];
      if VerdictOf(t) == v {
        assert WithVerdict(themes, v) == WithVerdict(init, v) + [t];
        SubsequenceSnoc(WithVerdict(init, v), init, t);
      } else {
        assert WithVerdict(themes, v) == WithVerdict(init, v);
        SubsequenceExtend(WithVerdict(init, v), init, t);
      }
    }
  }

  /**
   * Each theme lands in exactly one bucket, the one of its verdict, which
   * is "mixed/unclear" when it has no verdict object or the object has no
   * verdict; within a bucket the themes keep their input order.
   */
  lemma ThemeInExactlyOneBucket(themes: seq<Theme>, t: Theme)
    requires t in themes
    ensures VerdictOf(t) in Buckets(themes) && t in BucketOf(Buckets(themes), VerdictOf(t))
    ensures forall v :: v != VerdictOf(t) ==> t !in BucketOf(Buckets(themes), v)
    ensures t.pricedIn.None? || t.pricedIn.value.verdict.None? ==> VerdictOf(t) == MixedUnclear
    ensures forall v :: IsSubsequence(BucketOf(Buckets(themes), v), themes)
  {
    BucketsByVerdict(themes);
    WithVerdictMembers(themes, VerdictOf(t));
    forall v ensures (v != VerdictOf(t) ==> t !in BucketOf(Buckets(themes), v))
      && IsSubsequence(BucketOf(Buckets(themes), v), themes)
    {
      WithVerdictMembers(themes, v);
    }
  }

  // ------------------------------------------------------------------
  // Executive summary
  // ------------------------------------------------------------------

  /** `- **{theme}**: {description}` with both parts escaped. */
  function BulletLine(t: Theme): string {
    "- **" + MdEscape(Some(t.theme)) + "**: " + MdEscape(Some(t.description)) + "\n"
  }

  const NoneLine: string := "- (none)\n"

  /** `add_bucket(title, key)`: a heading, then the placeholder or one line per theme and a blank line. */
  function BucketLines(buckets: map<string, seq<Theme>>, title: string, key: string): seq<string> {
    var b := BucketOf(buckets, key);
    ["### " + title + "\n"] + (if b == [] then [NoneLine] else Map(BulletLine, b) + ["\n"])
  }

  /** The five `add_bucket` calls, in their fixed order. */
  function Summary(buckets: map<string, seq<Theme>>): seq<string> {
    BucketLines(buckets, "Possibly not priced in", NotPricedIn)
    + BucketLines(buckets, "Partially priced in", PartiallyPricedIn)
    + BucketLines(buckets, "Likely priced in / crowded", LikelyPricedIn)
    + BucketLines(buckets, "Negative priced in", NegativePricedIn)
    + BucketLines(buckets, "Mixed / unclear", MixedUnclear)
  }

  /** `add_bucket`, appending to `lines`. */
  method AddBucket(lines: seq<string>, buckets: map<string, seq<Theme>>, title: string, key: string)
    returns (out: seq<string>)
    ensures out == lines + BucketLines(buckets, title, key)
  {
    var heading := "### " + title + "\n";
    out := lines + [heading];
    if key !in buckets || buckets[key] == [] {
      out := out + [NoneLine];
      AppendAssoc(lines, [heading], [NoneLine]);
      return;
    }
    var b := buckets[key];
    ghost var head := out;
    for i := 0 to |b|
      invariant out == head + Map(BulletLine, b[..i])
    {
      PrefixSnoc(b, i);
      MapSnoc(BulletLine, b[..i], b[i]);
      out := out + [BulletLine(b[i])];
    }
    assert b[..|b|] == b;
    AppendAssoc4(lines, [heading], Map(BulletLine, b), ["\n"]);
    out := out + ["\n"];
  }

  /**
   * An empty or missing bucket gives exactly its heading and the single
   * line `- (none)`; otherwise the heading is followed by one escaped line
   * per theme of the bucket, in order, and a blank line.
   */
  lemma BucketPlaceholder(buckets: map<string, seq<Theme>>, title: string, key: string)
    ensures var b := BucketOf(buckets, key);
      var ls := BucketLines(buckets, title, key);
      && (b == [] <==> ls == ["### " + title + "\n", NoneLine])
      && (b != [] ==> |ls| == |b| + 2 && ls[|ls| - 1] == "\n"
                      && forall i :: 0 <= i < |b| ==> ls[i + 1] == BulletLine(b[i]))
  {
    var b := BucketOf(buckets, key);
    var ls := BucketLines(buckets, title, key);
    if b != [] {
      MapElements(BulletLine, b);
      assert ls[1] == BulletLine(b[0]);
      assert BulletLine(b[0])[2] == '*' && NoneLine[2] == '(';
    }
  }

  /**
   * A theme whose verdict is not a preset key gets a bucket of its own but
   * never reaches the executive summary.
   */
  lemma SummaryIgnoresOtherVerdicts(before: seq<Theme>, t: Theme, after: seq<Theme>)
    requires VerdictOf(t) !in PresetKeys
    ensures Summary(Buckets(before + [t] + after)) == Summary(Buckets(before + after))
    ensures VerdictOf(t) in Buckets(before + [t] + after)
  {
    var with, without := before + [t] + after, before + after;
    forall k | k in PresetKeys ensures WithVerdict(with, k) == WithVerdict(without, k) {
      WithVerdictSkips(before, t, after, k);
    }
    SummaryFromPresetVerdicts(with, without);
    assert with[|before|] == t;
    ThemeInExactlyOneBucket(with, t);
  }

  /** Two theme lists that agree on the themes of every preset verdict give the same summary. */
  lemma SummaryFromPresetVerdicts(x: seq<Theme>, y: seq<Theme>)
    requires forall k :: k in PresetKeys ==> WithVerdict(x, k) == WithVerdict(y, k)
    ensures Summary(Buckets(x)) == Summary(Buckets(y))
  {
    BucketsByVerdict(x);
    BucketsByVerdict(y);
    SummaryReadsPresets(Buckets(y), Buckets(x));
  }

  /** A theme with another verdict can be dropped from the input of `WithVerdict`. */
  lemma WithVerdictSkips(before: seq<Theme>, t: Theme, after: seq<Theme>, v: string)
    requires VerdictOf(t) != v
    ensures WithVerdict(before + [t] + after, v) == WithVerdict(before + after, v)
  {
    var upTo := before + [t];
    WithVerdictAppend(upTo, after, v);
    WithVerdictAppend(before, after, v);
    assert DropLast(upTo) == before && Last(upTo) == t;
    assert WithVerdict(upTo, v) == WithVerdict(before, v);
  }

  /** Selecting by verdict distributes over concatenation. */
  lemma {:induction false} WithVerdictAppend(a: seq<Theme>, b: seq<Theme>, v: string)
    ensures WithVerdict(a + b, v) == WithVerdict(a, v) + WithVerdict(b, v)
    decreases |b|
  {
    if b == [] {
      assert a + b == a;
    } else {
      assert DropLast(a + b) == a + DropLast(b) && Last(a + b) == Last(b);
      WithVerdictAppend(a, DropLast(b), v);
    }
  }

  /** The summary reads only the five preset buckets. */
  lemma SummaryReadsPresets(b: map<string, seq<Theme>>, b': map<string, seq<Theme>>)
    requires forall k :: k in PresetKeys ==> BucketOf(b', k) == BucketOf(b, k)
    ensures Summary(b') == Summary(b)
  {
    assert BucketLines(b', "Possibly not priced in", NotPricedIn) == BucketLines(b, "Possibly not priced in", NotPricedIn);
    assert BucketLines(b', "Partially priced in", PartiallyPricedIn) == BucketLines(b, "Partially priced in", PartiallyPricedIn);
    assert BucketLines(b', "Likely priced in / crowded", LikelyPricedIn) == BucketLines(b, "Likely priced in / crowded", LikelyPricedIn);
    assert BucketLines(b', "Negative priced in", NegativePricedIn) == BucketLines(b, "Negative priced in", NegativePricedIn);
    assert BucketLines(b', "Mixed / unclear", MixedUnclear) == BucketLines(b, "Mixed / unclear", MixedUnclear);
  }


  /** The five `add_bucket` calls, appending to `lines`. */
  method AddSummary(lines: seq<string>, buckets: map<string, seq<Theme>>) returns (out: seq<string>)
    ensures out == lines + Summary(buckets)
  {
    var b1 := BucketLines(buckets, "Possibly not priced in", NotPricedIn);
    var b2 := BucketLines(buckets, "Partially priced in", PartiallyPricedIn);
    var b3 := BucketLines(buckets, "Likely priced in / crowded", LikelyPricedIn);
    var b4 := BucketLines(buckets, "Negative priced in", NegativePricedIn);
    var b5 := BucketLines(buckets, "Mixed / unclear", MixedUnclear);
    out := AddBucket(lines, buckets, "Possibly not priced in", NotPricedIn);
    out := AddBucket(out, buckets, "Partially priced in", PartiallyPricedIn);
    out := AddBucket(out, buckets, "Likely priced in / crowded", LikelyPricedIn);
    out := AddBucket(out, buckets, "Negative priced in", NegativePricedIn);
    out := AddBucket(out, buckets, "Mixed / unclear", MixedUnclear);
    AppendAssoc5(lines, b1, b2, b3, b4, b5);
  }

  // ------------------------------------------------------------------
  // Details: reasons, signals, citations
  // ------------------------------------------------------------------

  const MaxReasons: nat := 8
  const MaxEvidence: nat := 4

  function VerdictLine(t: Theme): string {
    "- **Verdict:** " + VerdictOf(t) + "\n"
  }

  function SentimentLine(t: Theme): string {
    "- **Theme sentiment:** " + t.sentiment + "\n"
  }

  /** The description line, present only for a non-empty description. */
  function DescriptionLines(t: Theme): seq<string> {
    if t.description != "" then ["- **Theme:** " + MdEscape(Some(t.description)) + "\n"] else []
  }

  const WhyHeader: string := "\n**Why (LLM):**\n"
  const EtfHeader: string := "\n**ETFs checked (Yahoo Finance signals):**\n"
  const CitationsHeader: string := "\n**Citations:**\n"
  const Rule: string := "\n---\n"

  function ReasonLine(r: string): string {
    "- " + MdEscape(Some(r)) + "\n"
  }

  /** The `Why` block: nothing without reasons, else a header and at most eight escaped bullets. */
  function ReasonBlock(reasons: seq<string>): seq<string> {
    if reasons == [] then [] else [WhyHeader] + Map(ReasonLine, Take(reasons, MaxReasons))
  }

  /** An error entry shows its error; any other shows its formatted metrics. */
  function SignalLine(s: Signal): string {
    "- `" + s.ticker + "`: " + (if s.error.Some? then s.error.value else s.metrics) + "\n"
  }

  function SignalBlock(sigs: seq<Signal>): seq<string> {
    if sigs == [] then [] else [EtfHeader] + Map(SignalLine, sigs)
  }

  /** `by_url = {a["url"]: a for a in articles}` */
  function ByUrl(articles: seq<Article>): map<string, Article> {
    if articles == [] then map[] else ByUrl(DropLast(articles))[Last(articles).url := Last(articles)]
  }

  function EvidenceLine(snip: string): string {
    "  - Evidence: \U{201C}" + MdEscape(Some(snip)) + "\U{201D}\n"
  }

  /** `a.get("published") or "unknown date"` */
  function DateText(a: Article): string {
    if IsTruthy(a.published) then a.published.value else "unknown date"
  }

  /** The line of a reference no article matches. */
  function UnmatchedLine(ref: ArticleRef): string {
    "- " + ref.title.GetOr("(unknown)") + " | " + ref.url.GetOr("None") + "\n"
  }

  /** The line of a matched article. */
  function ArticleLine(a: Article): string {
    "- " + a.title.GetOr("(untitled)") + " (" + DateText(a) + ") | " + a.url + "\n"
  }

  /** The lines of one reference: a fallback line when no article has its URL, else the article and its evidence. */
  function CitationFor(ref: ArticleRef, byUrl: map<string, Article>): seq<string> {
    if ref.url.None? || ref.url.value !in byUrl then [UnmatchedLine(ref)]
    else
      var a := byUrl[ref.url.value];
      [ArticleLine(a)] + Map(EvidenceLine, Take(a.evidenceSnippets, MaxEvidence))
  }

  function CitationLines(refs: seq<ArticleRef>, byUrl: map<string, Article>): seq<string> {
    if refs == [] then [] else CitationLines(DropLast(refs), byUrl) + CitationFor(Last(refs), byUrl)
  }

  /** `### {theme}` */
  function Heading(t: Theme): string {
    "### " + t.theme + "\n"
  }

  /** Everything of a theme's section after its heading. */
  function ThemeBody(t: Theme, byUrl: map<string, Article>): seq<string> {
    [VerdictLine(t), SentimentLine(t)]
    + DescriptionLines(t)
    + ReasonBlock(ReasonsOf(t))
    + SignalBlock(t.etfSignals)
    + [CitationsHeader]
    + CitationLines(t.articles, byUrl)
    + [Rule]
  }

  function ThemeLines(t: Theme, byUrl: map<string, Article>): seq<string> {
    [Heading(t)] + ThemeBody(t, byUrl)
  }

  /** The details section: one section per theme, in theme order. */
  function Details(themes: seq<Theme>, articles: seq<Article>): seq<string> {
    if themes == [] then [] else Details(DropLast(themes), articles) + ThemeLines(Last(themes), ByUrl(articles))
  }

  function HeaderLines(now: string, siteCount: nat, articleCount: nat): seq<string> {
    ["# Insight Radar Report\n",
     "- Generated (UTC): " + now + "\n",
     "- Sites scanned: " + NatToString(siteCount) + "\n",
     "- Articles summarized: " + NatToString(articleCount) + "\n",
     Rule,
     "## Executive summary\n"]
  }

  const DetailsTitle: string := "## Themes (details)\n"
  const Disclaimer: seq<string> := ["\n## Disclaimer\n", "Not financial advice.\n"]

  /** The whole report, line by line. */
  function ReportLines(now: string, siteCount: nat, themes: seq<Theme>, articles: seq<Article>): seq<string> {
    HeaderLines(now, siteCount, |articles|)
    + Summary(Buckets(themes))
    + [Rule, DetailsTitle]
    + Details(themes, articles)
    + Disclaimer
  }

  // ------------------------------------------------------------------
  // The writer
  // ------------------------------------------------------------------

  /** `for r in reasons[:8]` and the header before it. */
  method AppendReasons(lines: seq<string>, reasons: seq<string>) returns (out: seq<string>)
    ensures out == lines + ReasonBlock(reasons)
  {
    out := lines;
    if reasons == [] {
      return;
    }
    out := out + [WhyHeader];
    var shown := Take(reasons, MaxReasons);
    for i := 0 to |shown|
      invariant out == lines + [WhyHeader] + Map(ReasonLine, shown[..i])
    {
      MapSnoc(ReasonLine, shown[..i], shown[i]);
      assert shown[..i + 1] == shown[..i] + [shown[i]];
      out := out + [ReasonLine(shown[i])];
    }
    assert shown[..|shown|] == shown;
    AppendAssoc(lines, [WhyHeader], Map(ReasonLine, shown));
  }

  /** The ETF block: a header, then one line per signal. */
  method AppendSignals(lines: seq<string>, sigs: seq<Signal>) returns (out: seq<string>)
    ensures out == lines + SignalBlock(sigs)
  {
    out := lines;
    if sigs == [] {
      return;
    }
    out := out + [EtfHeader];
    for i := 0 to |sigs|
      invariant out == lines + [EtfHeader] + Map(SignalLine, sigs[..i])
    {
      var s := sigs[i];
      MapSnoc(SignalLine, sigs[..i], s);
      assert sigs[..i + 1] == sigs[..i] + [s];
      if s.error.Some? {
        out := out + ["- `" + s.ticker + "`: " + s.error.value + "\n"];
        continue;
      }
      out := out + ["- `" + s.ticker + "`: " + s.metrics + "\n"];
    }
    assert sigs[..|sigs|] == sigs;
    AppendAssoc(lines, [EtfHeader], Map(SignalLine, sigs));
  }

  method BuildByUrl(articles: seq<Article>) returns (byUrl: map<string, Article>)
    ensures byUrl == ByUrl(articles)
  {
    byUrl := map[];
    for i := 0 to |articles|
      invariant byUrl == ByUrl(articles[..i])
    {
      assert DropLast(articles[..i + 1]) == articles[..i];
      byUrl := byUrl[articles[i].url := articles[i]];
    }
    assert articles[..|articles|] == articles;
  }

  /** The evidence loop `for snip in ev[:4]`. */
  method AppendEvidence(lines: seq<string>, ev: seq<string>) returns (out: seq<string>)
    ensures out == lines + Map(EvidenceLine, Take(ev, MaxEvidence))
  {
    out := lines;
    var shown := Take(ev, MaxEvidence);
    for i := 0 to |shown|
      invariant out == lines + Map(EvidenceLine, shown[..i])
    {
      MapSnoc(EvidenceLine, shown[..i], shown[i]);
      assert shown[..i + 1] == shown[..i] + [shown[i]];
      out := out + [EvidenceLine(shown[i])];
    }
    assert shown[..|shown|] == shown;
  }

  /** The citation loop over a theme's article references. */
  method AppendCitations(lines: seq<string>, refs: seq<ArticleRef>, byUrl: map<string, Article>)
    returns (out: seq<string>)
    ensures out == lines + CitationLines(refs, byUrl)
  {
    out := lines;
    for i := 0 to |refs|
      invariant out == lines + CitationLines(refs[..i], byUrl)
    {
      var ref := refs[i];
      assert DropLast(refs[..i + 1]) == refs[..i] && Last(refs[..i + 1]) == ref;
      var url := ref.url;
      var done := CitationLines(refs[..i], byUrl);
      if url.None? || url.value !in byUrl {
        AppendAssoc(lines, done, [UnmatchedLine(ref)]);
        out := out + [UnmatchedLine(ref)];
        continue;
      }
      var a := byUrl[url.value];
      var evidence := Map(EvidenceLine, Take(a.evidenceSnippets, MaxEvidence));
      AppendAssoc(lines + done, [ArticleLine(a)], evidence);
      AppendAssoc(lines, done, [ArticleLine(a)] + evidence);
      out := out + [ArticleLine(a)];
      out := AppendEvidence(out, a.evidenceSnippets);
    }
    assert refs[..|refs|] == refs;
  }

  /** One theme's section of the details. */
  method AppendTheme(lines: seq<string>, t: Theme, articles: seq<Article>) returns (out: seq<string>)
    ensures out == lines + ThemeLines(t, ByUrl(articles))
  {
    var reasons := ReasonsOf(t);
    out := lines + [Heading(t)] + [VerdictLine(t), SentimentLine(t)];
    var before := out;
    if t.description != "" {
      out := out + ["- **Theme:** " + MdEscape(Some(t.description)) + "\n"];
    }
    assert out == before + DescriptionLines(t);
    out := AppendReasons(out, reasons);
    out := AppendSignals(out, t.etfSignals);
    out := out + [CitationsHeader];
    var byUrl := BuildByUrl(articles);
    out := AppendCitations(out, t.articles, byUrl);
    out := out + [Rule];
    AppendAssoc8(lines, [Heading(t)], [VerdictLine(t), SentimentLine(t)], DescriptionLines(t), ReasonBlock(reasons),
                 SignalBlock(t.etfSignals), [CitationsHeader], CitationLines(t.articles, byUrl), [Rule]);
  }

  /** `write_report` up to the point where the joined lines are written to `path`. */
  method WriteReport(now: string, siteCount: nat, themes: seq<Theme>, articles: seq<Article>)
    returns (lines: seq<string>)
    ensures lines == ReportLines(now, siteCount, themes, articles)
  {
    var buckets := Bucketize(themes);
    lines := HeaderLines(now, siteCount, |articles|);
    lines := AddSummary(lines, buckets);
    lines := lines + [Rule, DetailsTitle];
    var prefix := lines;
    for i := 0 to |themes|
      invariant lines == prefix + Details(themes[..i], articles)
    {
      assert DropLast(themes[..i + 1]) == themes[..i] && Last(themes[..i + 1]) == themes[i];
      AppendAssoc(prefix, Details(themes[..i], articles), ThemeLines(themes[i], ByUrl(articles)));
      lines := AppendTheme(lines, themes[i], articles);
    }
    assert themes[..|themes|] == themes;
    lines := lines + Disclaimer;
  }

  // ------------------------------------------------------------------
  // Properties of the details
  // ------------------------------------------------------------------

  /** At most eight reasons are shown, each escaped on a line of its own, in order. */
  lemma ReasonsTruncated(reasons: seq<string>)
    ensures var block := ReasonBlock(reasons);
      var n := if |reasons| <= MaxReasons then |reasons| else MaxReasons;
      && |block| == (if reasons == [] then 0 else n + 1)
      && forall i :: 0 <= i < n ==> block[i + 1] == ReasonLine(reasons[i])
  {
    if reasons != [] {
      var shown := Take(reasons, MaxReasons);
      HeaderThenMap(WhyHeader, ReasonLine, shown);
      assert forall i :: 0 <= i < |shown| ==> shown[i] == reasons[i];
    }
  }

  /** At most four evidence snippets are shown per cited article, each escaped and quoted, in order. */
  lemma EvidenceTruncated(ref: ArticleRef, byUrl: map<string, Article>)
    requires ref.url.Some? && ref.url.value in byUrl
    ensures var ev := byUrl[ref.url.value].evidenceSnippets;
      var ls := CitationFor(ref, byUrl);
      var n := if |ev| <= MaxEvidence then |ev| else MaxEvidence;
      && |ls| == n + 1
      && forall i :: 0 <= i < n ==> ls[i + 1] == EvidenceLine(ev[i])
  {
    MapElements(EvidenceLine, Take(byUrl[ref.url.value].evidenceSnippets, MaxEvidence));
  }

  /** The lookup knows exactly the URLs of the articles. */
  lemma {:induction false} ByUrlKeys(articles: seq<Article>)
    ensures forall u :: u in ByUrl(articles) <==> exists i :: 0 <= i < |articles| && articles[i].url == u
    decreases |articles|
  {
    if articles != [] {
      var init := DropLast(articles);
      var n := |articles| - 1;
      ByUrlKeys(init);
      forall u ensures u in ByUrl(articles) <==> exists i :: 0 <= i < |articles| && articles[i].url == u {
        if u != articles[n].url {
          if exists i :: 0 <= i < |articles| && articles[i].url == u {
            var i :| 0 <= i < |articles| && articles[i].url == u;
            assert init[i].url == u;
          }
          if u in ByUrl(articles) {
            assert u in ByUrl(init);
            var i :| 0 <= i < |init| && init[i].url == u;
            assert articles[i].url == u;
          }
        }
      }
    }
  }

  /** `articles[i]` is the last article with URL `u`. */
  predicate LastWithUrl(articles: seq<Article>, u: string, i: int) {
    0 <= i < |articles| && articles[i].url == u && forall j :: i < j < |articles| ==> articles[j].url != u
  }

  /** When several articles share a URL, the last of them is the one found. */
  lemma {:induction false} ByUrlFindsLast(articles: seq<Article>, u: string)
    requires u in ByUrl(articles)
    ensures exists i :: LastWithUrl(articles, u, i) && ByUrl(articles)[u] == articles[i]
    decreases |articles|
  {
    var n := |articles| - 1;
    var init := DropLast(articles);
    if u == articles[n].url {
      assert LastWithUrl(articles, u, n);
    } else {
      ByUrlFindsLast(init, u);
      var i :| LastWithUrl(init, u, i) && ByUrl(init)[u] == init[i];
      assert LastWithUrl(articles, u, i);
    }
  }

  lemma ByUrlLastWins(articles: seq<Article>)
    ensures forall u :: u in ByUrl(articles) ==>
      exists i :: LastWithUrl(articles, u, i) && ByUrl(articles)[u] == articles[i]
  {
    forall u | u in ByUrl(articles)
      ensures exists i :: LastWithUrl(articles, u, i) && ByUrl(articles)[u] == articles[i]
    {
      ByUrlFindsLast(articles, u);
    }
  }

  /**
   * A reference whose URL no article has falls back to its own title, or
   * "(unknown)", and its URL, or "None"; a found article shows its title, or
   * "(untitled)", its date, or "unknown date", and its URL.
   */
  lemma CitationFallbacks(ref: ArticleRef, byUrl: map<string, Article>)
    ensures ref.url.None? || ref.url.value !in byUrl ==>
      CitationFor(ref, byUrl) == ["- " + ref.title.GetOr("(unknown)") + " | " + ref.url.GetOr("None") + "\n"]
    ensures ref.url.Some? && ref.url.value in byUrl ==>
      var a := byUrl[ref.url.value];
      && CitationFor(ref, byUrl)[0] == "- " + a.title.GetOr("(untitled)") + " (" + DateText(a) + ") | " + a.url + "\n"
      && (!IsTruthy(a.published) ==> DateText(a) == "unknown date")
      && (a.title.None? ==> a.title.GetOr("(untitled)") == "(untitled)")
  {
  }

  /** A `### ` heading line. */
  predicate IsHeading(line: string) {
    |line| >= 4 && line[0] == '#' && line[1] == '#' && line[2] == '#' && line[3] == ' '
  }

  predicate Plain(line: string) {
    !IsHeading(line)
  }

  /** The lines of every kind other than the theme heading start with `-`, a space or a newline. */
  lemma OtherLinesArePlain()
    ensures forall r :: Plain(ReasonLine(r))
    ensures forall s :: Plain(SignalLine(s))
    ensures forall e :: Plain(EvidenceLine(e))
    ensures forall a :: Plain(ArticleLine(a))
    ensures forall ref :: Plain(UnmatchedLine(ref))
    ensures forall t :: Plain(VerdictLine(t)) && Plain(SentimentLine(t)) && All(Plain, DescriptionLines(t))
    ensures Plain(WhyHeader) && Plain(EtfHeader) && Plain(CitationsHeader) && Plain(Rule)
  {
    forall r ensures Plain(ReasonLine(r)) { assert ReasonLine(r)[0] == '-'; }
    forall s ensures Plain(SignalLine(s)) { assert SignalLine(s)[0] == '-'; }
    forall e ensures Plain(EvidenceLine(e)) { assert EvidenceLine(e)[0] == ' '; }
    forall a ensures Plain(ArticleLine(a)) { assert ArticleLine(a)[0] == '-'; }
    forall ref ensures Plain(UnmatchedLine(ref)) { assert UnmatchedLine(ref)[0] == '-'; }
    forall t ensures Plain(VerdictLine(t)) && Plain(SentimentLine(t)) && All(Plain, DescriptionLines(t)) {
      assert VerdictLine(t)[0] == '-' && SentimentLine(t)[0] == '-';
      if t.description != "" {
        assert DescriptionLines(t)[0][0] == '-';
      }
    }
  }

  lemma {:induction false} CitationLinesArePlain(refs: seq<ArticleRef>, byUrl: map<string, Article>)
    ensures All(Plain, CitationLines(refs, byUrl))
    decreases |refs|
  {
    if refs != [] {
      var ref := Last(refs);
      CitationLinesArePlain(DropLast(refs), byUrl);
      OtherLinesArePlain();
      if ref.url.Some? && ref.url.value in byUrl {
        var a := byUrl[ref.url.value];
        AllMap(Plain, EvidenceLine, Take(a.evidenceSnippets, MaxEvidence));
        AllAppend(Plain, [ArticleLine(a)], Map(EvidenceLine, Take(a.evidenceSnippets, MaxEvidence)));
      }
      AllAppend(Plain, CitationLines(DropLast(refs), byUrl), CitationFor(ref, byUrl));
    }
  }

  /** No line of a theme's body is a heading. */
  lemma ThemeBodyHasNoHeading(t: Theme, byUrl: map<string, Article>)
    ensures All(Plain, ThemeBody(t, byUrl))
  {
    OtherLinesArePlain();
    var p1, p2 := [VerdictLine(t), SentimentLine(t)], DescriptionLines(t);
    var p3, p4 := ReasonBlock(ReasonsOf(t)), SignalBlock(t.etfSignals);
    var p6 := CitationLines(t.articles, byUrl);
    if ReasonsOf(t) != [] {
      AllMap(Plain, ReasonLine, Take(ReasonsOf(t), MaxReasons));
      AllAppend(Plain, [WhyHeader], Map(ReasonLine, Take(ReasonsOf(t), MaxReasons)));
    }
    if t.etfSignals != [] {
      AllMap(Plain, SignalLine, t.etfSignals);
      AllAppend(Plain, [EtfHeader], Map(SignalLine, t.etfSignals));
    }
    CitationLinesArePlain(t.articles, byUrl);
    AllAppend(Plain, p1, p2);
    AllAppend(Plain, p1 + p2, p3);
    AllAppend(Plain, p1 + p2 + p3, p4);
    AllAppend(Plain, p1 + p2 + p3 + p4, [CitationsHeader]);
    AllAppend(Plain, p1 + p2 + p3 + p4 + [CitationsHeader], p6);
    AllAppend(Plain, p1 + p2 + p3 + p4 + [CitationsHeader] + p6, [Rule]);
  }

  /** A theme's section holds exactly one heading, its own. */
  lemma ThemeSectionHeading(t: Theme, byUrl: map<string, Article>)
    ensures Filter(IsHeading, ThemeLines(t, byUrl)) == [Heading(t)]
  {
    ThemeBodyHasNoHeading(t, byUrl);
    FilterHeadOnly(IsHeading, Heading(t), ThemeBody(t, byUrl));
  }

  /** The details section has one `### ` heading per theme, in theme order. */
  lemma {:induction false} DetailsHeadings(themes: seq<Theme>, articles: seq<Article>)
    ensures Filter(IsHeading, Details(themes, articles)) == Map(Heading, themes)
    decreases |themes|
  {
    if themes != [] {
      var init, t := DropLast(themes), Last(themes);
      DetailsHeadings(init, articles);
      FilterAppend(IsHeading, Details(init, articles), ThemeLines(t, ByUrl(articles)));
      ThemeSectionHeading(t, ByUrl(articles));
    }
  }
}
