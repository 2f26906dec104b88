/**
 * Article selection: two source readers (syndication feeds and HTML index
 * pages), the merge of their results, the `site_name` default, the fail-open
 * recency filter and the single-pass quota selector.
 *
 * What the network and the foreign libraries answer is an `Env` of
 * functions: the HTTP fetch together with the HTML/XML parse of each source,
 * `urljoin`, `dateutil`'s parser and `dedupe_links`. Nothing is assumed about
 * any of them.
 */
module Fetchers {
  import opened Wrappers
  import opened Seqs
  import opened Text
  import opened Articles

  /** An `<item>` of a feed; each child element (`title`, `link`, `pubDate`) may be missing. */
  datatype RssEntry = RssEntry(title: Option<string>, link: Option<string>, pubDate: Option<string>)

  /** An `<a href>` element: its `href` attribute and its text as `get_text(" ", strip=True)` gives it. */
  datatype Anchor = Anchor(href: string, text: string)

  /** A configured website; `newsIndex` is the optional index page to scrape. */
  datatype Website = Website(name: string, url: string, newsIndex: Option<string>)

  /**
   * The oracles. `fetchFeed(u)` and `fetchIndex(u)` are the entries or anchors
   * of the document at `u`, or None when the request or the parse raised.
   */
  datatype Env = Env(
    fetchFeed: string -> Option<seq<RssEntry>>,
    fetchIndex: string -> Option<seq<Anchor>>,
    urlJoin: (string, string) -> string,
    parse: DateParser,
    dedupe: seq<Item> -> seq<Item>)

  datatype ProjectConfig = ProjectConfig(maxArticlesPerSite: int, maxTotalArticles: int, lookbackDays: int)

  function Max(a: int, b: int): int { if a >= b then a else b }
  function Min(a: int, b: int): int { if a <= b then a else b }

  // ------------------------------------------------------------------
  // Feed reader
  // ------------------------------------------------------------------

  /** `(child.text if child else "").strip()` */
  function ChildText(child: Option<string>): string {
    Strip(child.GetOr(""))
  }

  predicate HasLink(e: RssEntry) {
    ChildText(e.link) != ""
  }

  /** The `published` value of an entry: the ISO form of its parsed `pubDate`, if any. */
  function EntryPublished(parse: DateParser, e: RssEntry): Option<string> {
    var pub := ChildText(e.pubDate);
    if pub == "" then None
    else match parse(pub)
      case Unparseable => None
      case Parsed(dt) => Some(dt.isoFormat)
  }

  function EntryItem(feedUrl: string, parse: DateParser, e: RssEntry): Item {
    Item(ChildText(e.title), ChildText(e.link), EntryPublished(parse, e), feedUrl, None)
  }

  /** The items of a feed: one per entry that has a link, in feed order. */
  function RssItems(feedUrl: string, entries: seq<RssEntry>, parse: DateParser): seq<Item> {
    if entries == [] then []
    else
      var e := Last(entries);
      RssItems(feedUrl, DropLast(entries), parse) + (if HasLink(e) then [EntryItem(feedUrl, parse, e)] else [])
  }

  lemma RssItemsSnoc(feedUrl: string, entries: seq<RssEntry>, e: RssEntry, parse: DateParser)
    ensures RssItems(feedUrl, entries + [e], parse)
         == RssItems(feedUrl, entries, parse) + (if HasLink(e) then [EntryItem(feedUrl, parse, e)] else [])
  {
    assert DropLast(entries + [e]) == entries;
  }

  /** `_parse_rss_feed` after a successful fetch: the entries are those of the parsed feed. */
  method ParseRssFeed(feedUrl: string, entries: seq<RssEntry>, parse: DateParser) returns (items: seq<Item>)
    ensures items == RssItems(feedUrl, entries, parse)
  {
    items := [];
    for i := 0 to |entries|
      invariant items == RssItems(feedUrl, entries[..i], parse)
    {
      var entry := entries[i];
      var title := ChildText(entry.title);
      var link := ChildText(entry.link);
      var pub := ChildText(entry.pubDate);
      var published: Option<string> := None;
      if pub != "" {
        match parse(pub) {
          case Parsed(dt) => published := Some(dt.isoFormat);
          case Unparseable => published := None;
        }
      }
      if link != "" {
        items := items + [Item(title, link, published, feedUrl, None)];
      }
      assert entries[..i + 1] == entries[..i] + [entry];
      RssItemsSnoc(feedUrl, entries[..i], entry, parse);
    }
    assert entries[..|entries|] == entries;
  }

  /**
   * The feed reader keeps exactly the entries that have a link, in order:
   * its items are the entries' items filtered by `HasLink`.
   */
  lemma {:induction false} RssItemsAreLinkedEntries(feedUrl: string, entries: seq<RssEntry>, parse: DateParser)
    ensures RssItems(feedUrl, entries, parse) == Map((e: RssEntry) => EntryItem(feedUrl, parse, e), Filter(HasLink, entries))
    decreases |entries|
  {
    if entries != [] {
      var f := (e: RssEntry) => EntryItem(feedUrl, parse, e);
      var init, e := DropLast(entries), Last(entries);
      RssItemsAreLinkedEntries(feedUrl, init, parse);
      var kept := Filter(HasLink, init);
      if HasLink(e) {
        assert Filter(HasLink, entries) == kept + [e];
        MapSnoc(f, kept, e);
      } else {
        assert Filter(HasLink, entries) == kept;
      }
    }
  }

  /**
   * Entries without a link are dropped and every entry with one yields an
   * item; each item is the item of one linked entry, carries the feed URL as
   * its source and no site name, and its `published` is None exactly when
   * the entry's `pubDate` is missing, blank or unparseable.
   */
  lemma {:induction false} RssEntryAdmission(feedUrl: string, entries: seq<RssEntry>, parse: DateParser)
    ensures |RssItems(feedUrl, entries, parse)| <= |entries|
    ensures forall e :: e in entries && HasLink(e) ==> EntryItem(feedUrl, parse, e) in RssItems(feedUrl, entries, parse)
    ensures forall it :: it in RssItems(feedUrl, entries, parse) ==>
      && it.source == feedUrl && it.url != "" && it.siteName.None?
      && exists e :: e in entries && HasLink(e) && it == EntryItem(feedUrl, parse, e)
    ensures forall e :: e in entries ==>
      var pub := ChildText(e.pubDate);
      (EntryItem(feedUrl, parse, e).published.None? <==> pub == "" || parse(pub).Unparseable?)
    decreases |entries|
  {
    if entries != [] {
      var init := DropLast(entries);
      RssEntryAdmission(feedUrl, init, parse);
      assert entries == init + [Last(entries)];
    }
  }

  // ------------------------------------------------------------------
  // Index-page reader
  // ------------------------------------------------------------------

  /** Only a root-relative href is resolved against the index URL. */
  function ResolveHref(urlJoin: (string, string) -> string, indexUrl: string, href: string): string {
    if "/" <= href then urlJoin(indexUrl, href) else href
  }

  /** The link filter: a non-blank href that resolves to an `http…` URL, and text of 8 characters or more. */
  predicate AnchorAdmitted(urlJoin: (string, string) -> string, indexUrl: string, a: Anchor) {
    var href := Strip(a.href);
    href != "" && "http" <= ResolveHref(urlJoin, indexUrl, href) && |a.text| >= 8
  }

  function AnchorItem(urlJoin: (string, string) -> string, indexUrl: string, a: Anchor): Item {
    Item(a.text, ResolveHref(urlJoin, indexUrl, Strip(a.href)), None, indexUrl, None)
  }

  /** The links of an index page: one per admitted anchor, in document order. */
  function IndexItems(indexUrl: string, anchors: seq<Anchor>, urlJoin: (string, string) -> string): seq<Item> {
    if anchors == [] then []
    else
      var a := Last(anchors);
      IndexItems(indexUrl, DropLast(anchors), urlJoin)
        + (if AnchorAdmitted(urlJoin, indexUrl, a) then [AnchorItem(urlJoin, indexUrl, a)] else [])
  }

  lemma IndexItemsSnoc(indexUrl: string, anchors: seq<Anchor>, a: Anchor, urlJoin: (string, string) -> string)
    ensures IndexItems(indexUrl, anchors + [a], urlJoin)
         == IndexItems(indexUrl, anchors, urlJoin)
            + (if AnchorAdmitted(urlJoin, indexUrl, a) then [AnchorItem(urlJoin, indexUrl, a)] else [])
  {
    assert DropLast(anchors + [a]) == anchors;
  }

  /** `_simple_news_index_scrape` after a successful fetch: the anchors are those of the parsed page. */
  method ScrapeNewsIndex(indexUrl: string, anchors: seq<Anchor>, urlJoin: (string, string) -> string)
    returns (links: seq<Item>)
    ensures links == IndexItems(indexUrl, anchors, urlJoin)
  {
    links := [];
    for i := 0 to |anchors|
      invariant links == IndexItems(indexUrl, anchors[..i], urlJoin)
    {
      var a := anchors[i];
      assert anchors[..i + 1] == anchors[..i] + [a];
      IndexItemsSnoc(indexUrl, anchors[..i], a, urlJoin);
      var href := Strip(a.href);
      var txt := a.text;
      if href == "" {
        continue;
      }
      if "/" <= href {
        href := urlJoin(indexUrl, href);
      }
      if "http" <= href && |txt| >= 8 {
        links := links + [Item(txt, href, None, indexUrl, None)];
      }
    }
    assert anchors[..|anchors|] == anchors;
  }

  /**
   * The index reader keeps exactly the admitted anchors, in document order:
   * its links are the anchors' items filtered by `AnchorAdmitted`.
   */
  lemma {:induction false} IndexItemsAreAdmittedAnchors(indexUrl: string, anchors: seq<Anchor>,
                                                        urlJoin: (string, string) -> string)
    ensures IndexItems(indexUrl, anchors, urlJoin)
         == Map((a: Anchor) => AnchorItem(urlJoin, indexUrl, a),
                Filter((a: Anchor) => AnchorAdmitted(urlJoin, indexUrl, a), anchors))
    decreases |anchors|
  {
    if anchors != [] {
      var f := (a: Anchor) => AnchorItem(urlJoin, indexUrl, a);
      var p := (a: Anchor) => AnchorAdmitted(urlJoin, indexUrl, a);
      var init, a := DropLast(anchors), Last(anchors);
      IndexItemsAreAdmittedAnchors(indexUrl, init, urlJoin);
      var kept := Filter(p, init);
      if p(a) {
        assert Filter(p, anchors) == kept + [a];
        MapSnoc(f, kept, a);
      } else {
        assert Filter(p, anchors) == kept;
      }
    }
  }

  /**
   * Every admitted anchor yields a link and every link comes from one; each
   * has an `http…` URL, a title of at least 8 characters, the index URL as
   * source and no date; an href that does not start with `/` is used as it
   * stands; a blank href never yields a link.
   */
  lemma {:induction false} IndexLinkAdmission(indexUrl: string, anchors: seq<Anchor>, urlJoin: (string, string) -> string)
    ensures |IndexItems(indexUrl, anchors, urlJoin)| <= |anchors|
    ensures forall a :: a in anchors && AnchorAdmitted(urlJoin, indexUrl, a) ==>
      AnchorItem(urlJoin, indexUrl, a) in IndexItems(indexUrl, anchors, urlJoin)
    ensures forall it :: it in IndexItems(indexUrl, anchors, urlJoin) ==>
      && "http" <= it.url && |it.title| >= 8 && it.published.None? && it.source == indexUrl && it.siteName.None?
      && exists a :: a in anchors && AnchorAdmitted(urlJoin, indexUrl, a) && it == AnchorItem(urlJoin, indexUrl, a)
    ensures forall a :: a in anchors && !("/" <= Strip(a.href)) ==> AnchorItem(urlJoin, indexUrl, a).url == Strip(a.href)
    ensures forall a :: a in anchors && Strip(a.href) == "" ==> !AnchorAdmitted(urlJoin, indexUrl, a)
    decreases |anchors|
  {
    if anchors != [] {
      var init := DropLast(anchors);
      IndexLinkAdmission(indexUrl, init, urlJoin);
      assert anchors == init + [Last(anchors)];
    }
  }

  // ------------------------------------------------------------------
  // Merging the sources
  // ------------------------------------------------------------------

  /** What one feed contributes: nothing when its fetch or parse raised. */
  function FeedItems(feed: string, env: Env): seq<Item> {
    match env.fetchFeed(feed)
    case None => []
    case Some(entries) => RssItems(feed, entries, env.parse)
  }

  /** What each feed contributes, as a function of the feed URL. */
  function FeedSource(env: Env): string -> seq<Item> {
    feed => FeedItems(feed, env)
  }

  /** The first loop's items: those of every feed, in configuration order. */
  function RssPart(feeds: seq<string>, env: Env): seq<Item> {
    FlatMap(FeedSource(env), feeds)
  }

  /** Every item of a list with `site_name` set to `name`. */
  function WithSiteName(items: seq<Item>, name: string): seq<Item> {
    if items == [] then [] else WithSiteName(DropLast(items), name) + [Last(items).(siteName := Some(name))]
  }

  /** Tagging changes the site name of every item and nothing else. */
  lemma {:induction false} WithSiteNameElements(items: seq<Item>, name: string)
    ensures |WithSiteName(items, name)| == |items|
    ensures forall k :: 0 <= k < |items| ==> WithSiteName(items, name)[k] == items[k].(siteName := Some(name))
    decreases |items|
  {
    if items != [] {
      WithSiteNameElements(DropLast(items), name);
    }
  }

  /** What one site contributes: nothing without a news index, or when its fetch or parse raised. */
  function SiteItems(site: Website, env: Env): seq<Item> {
    if !IsTruthy(site.newsIndex) then []
    else match env.fetchIndex(site.newsIndex.value)
      case None => []
      case Some(anchors) => WithSiteName(IndexItems(site.newsIndex.value, anchors, env.urlJoin), site.name)
  }

  /** What each configured site contributes, as a function of the site. */
  function SiteSource(env: Env): Website -> seq<Item> {
    site => SiteItems(site, env)
  }

  /** The second loop's items: those of every site's index page, in configuration order. */
  function IndexPart(sites: seq<Website>, env: Env): seq<Item> {
    FlatMap(SiteSource(env), sites)
  }

  /** `all_items` once both kinds of source are read: all feeds first, then all index pages. */
  function Merged(feeds: seq<string>, sites: seq<Website>, env: Env): seq<Item> {
    RssPart(feeds, env) + IndexPart(sites, env)
  }

  /** `it[“site_name”] = site.name` for each item of one index page. */
  method TagSite(items: seq<Item>, name: string) returns (tagged: seq<Item>)
    ensures tagged == WithSiteName(items, name)
  {
    tagged := items;
    for i := 0 to |items|
      invariant |tagged| == |items|
      invariant forall k :: 0 <= k < i ==> tagged[k] == items[k].(siteName := Some(name))
      invariant forall k :: i <= k < |items| ==> tagged[k] == items[k]
    {
      tagged := tagged[i := tagged[i].(siteName := Some(name))];
    }
    WithSiteNameElements(items, name);
  }

  /** One more feed appends what that feed contributes. */
  lemma RssPartSnoc(feeds: seq<string>, i: nat, env: Env)
    requires i < |feeds|
    ensures RssPart(feeds[..i + 1], env) == RssPart(feeds[..i], env) + FeedItems(feeds[i], env)
  {
    assert DropLast(feeds[..i + 1]) == feeds[..i] && Last(feeds[..i + 1]) == feeds[i];
  }

  /** One more site appends what that site contributes. */
  lemma IndexPartSnoc(sites: seq<Website>, j: nat, env: Env)
    requires j < |sites|
    ensures IndexPart(sites[..j + 1], env) == IndexPart(sites[..j], env) + SiteItems(sites[j], env)
  {
    assert DropLast(sites[..j + 1]) == sites[..j] && Last(sites[..j + 1]) == sites[j];
  }

  /** The two source loops of `collect_latest_articles`. */
  method GatherCandidates(feeds: seq<string>, sites: seq<Website>, env: Env) returns (all: seq<Item>)
    ensures all == Merged(feeds, sites, env)
  {
    all := [];
    for i := 0 to |feeds|
      invariant all == RssPart(feeds[..i], env)
    {
      var feed := feeds[i];
      RssPartSnoc(feeds, i, env);
      match env.fetchFeed(feed) {
        case None =>
          // the request or the parse raised: skip this feed
        case Some(entries) =>
          var items := ParseRssFeed(feed, entries, env.parse);
          all := all + items;
      }
    }
    assert feeds[..|feeds|] == feeds;
    ghost var rss := all;
    for j := 0 to |sites|
      invariant all == rss + IndexPart(sites[..j], env)
    {
      var site := sites[j];
      IndexPartSnoc(sites, j, env);
      if !IsTruthy(site.newsIndex) {
        continue;
      }
      match env.fetchIndex(site.newsIndex.value) {
        case None =>
          // the request or the parse raised: skip this site
        case Some(anchors) =>
          var items := ScrapeNewsIndex(site.newsIndex.value, anchors, env.urlJoin);
          items := TagSite(items, site.name);
          AppendAssoc(rss, IndexPart(sites[..j], env), items);
          all := all + items;
      }
    }
    assert sites[..|sites|] == sites;
  }

  /** A feed whose fetch or parse raised contributes nothing, and the feeds after it still contribute. */
  lemma FailedFeedIsSkipped(before: seq<string>, feed: string, after: seq<string>, env: Env)
    requires env.fetchFeed(feed).None?
    ensures RssPart(before + [feed] + after, env) == RssPart(before, env) + RssPart(after, env)
  {
    FlatMapSkip(FeedSource(env), before, feed, after);
  }

  /** A site without a news index, or whose fetch or parse raised, contributes nothing; later sites still do. */
  lemma FailedSiteIsSkipped(before: seq<Website>, site: Website, after: seq<Website>, env: Env)
    requires !IsTruthy(site.newsIndex) || env.fetchIndex(site.newsIndex.value).None?
    ensures IndexPart(before + [site] + after, env) == IndexPart(before, env) + IndexPart(after, env)
  {
    FlatMapSkip(SiteSource(env), before, site, after);
  }

  lemma {:induction false} RssPartProvenance(feeds: seq<string>, env: Env)
    ensures forall it :: it in RssPart(feeds, env) ==> it.source in feeds && it.url != "" && it.siteName.None?
    decreases |feeds|
  {
    if feeds != [] {
      var f := Last(feeds);
      RssPartProvenance(DropLast(feeds), env);
      assert forall x :: x in DropLast(feeds) ==> x in feeds;
      if env.fetchFeed(f).Some? {
        RssEntryAdmission(f, env.fetchFeed(f).value, env.parse);
      }
    }
  }

  lemma {:induction false} IndexPartProvenance(sites: seq<Website>, env: Env)
    ensures forall it :: it in IndexPart(sites, env) ==>
      it.siteName.Some? && it.published.None? && "http" <= it.url && |it.title| >= 8
    decreases |sites|
  {
    if sites != [] {
      var site := Last(sites);
      IndexPartProvenance(DropLast(sites), env);
      if IsTruthy(site.newsIndex) && env.fetchIndex(site.newsIndex.value).Some? {
        var ni := site.newsIndex.value;
        var links := IndexItems(ni, env.fetchIndex(ni).value, env.urlJoin);
        IndexLinkAdmission(ni, env.fetchIndex(ni).value, env.urlJoin);
        var tagged := WithSiteName(links, site.name);
        WithSiteNameElements(links, site.name);
        forall it | it in tagged
          ensures it.siteName.Some? && it.published.None? && "http" <= it.url && |it.title| >= 8
        {
          var k :| 0 <= k < |tagged| && tagged[k] == it;
          assert links[k] in links;
        }
      }
    }
  }

  /**
   * Feed items come first, then index items: every feed item has a source
   * among the feeds and no site name yet, every index item already has its
   * site's name, so no feed item follows an index item.
   */
  lemma MergeOrder(feeds: seq<string>, sites: seq<Website>, env: Env)
    ensures var m := Merged(feeds, sites, env);
      && (forall i :: 0 <= i < |RssPart(feeds, env)| ==> m[i].source in feeds && m[i].siteName.None?)
      && (forall i :: |RssPart(feeds, env)| <= i < |m| ==> m[i].siteName.Some? && m[i].published.None?)
      && (forall i, j :: 0 <= i < j < |m| && m[i].siteName.Some? ==> m[j].siteName.Some?)
  {
    var r := RssPart(feeds, env);
    var x := IndexPart(sites, env);
    var m := Merged(feeds, sites, env);
    RssPartProvenance(feeds, env);
    IndexPartProvenance(sites, env);
    forall i | 0 <= i < |r| ensures m[i].source in feeds && m[i].siteName.None? {
      assert m[i] == r[i] && r[i] in r;
    }
    forall i | |r| <= i < |m| ensures m[i].siteName.Some? && m[i].published.None? {
      assert m[i] == x[i - |r|] && x[i - |r|] in x;
    }
  }

  // ------------------------------------------------------------------
  // site_name default
  // ------------------------------------------------------------------

  /** `it.setdefault("site_name", "Unknown")` */
  function DefaultSiteName(it: Item): Item {
    if it.siteName.None? then it.(siteName := Some(UnknownSite)) else it
  }

  method AttachDefaultSiteNames(items: seq<Item>) returns (r: seq<Item>)
    ensures r == Map(DefaultSiteName, items)
  {
    r := items;
    for i := 0 to |items|
      invariant |r| == |items|
      invariant forall k :: 0 <= k < i ==> r[k] == DefaultSiteName(items[k])
      invariant forall k :: i <= k < |items| ==> r[k] == items[k]
    {
      if r[i].siteName.None? {
        r := r[i := r[i].(siteName := Some(UnknownSite))];
      }
    }
    MapElements(DefaultSiteName, items);
  }

  /**
   * After the default every item has a site name; a name already set (by
   * the index scrape) is kept, a missing one becomes "Unknown", nothing else
   * changes, and the site each item is counted under is unchanged.
   */
  lemma DefaultSiteNameKeepsNames(items: seq<Item>)
    ensures |Map(DefaultSiteName, items)| == |items|
    ensures forall i :: 0 <= i < |items| ==>
      var r := Map(DefaultSiteName, items)[i];
      && r.siteName.Some?
      && (items[i].siteName.Some? ==> r == items[i])
      && (items[i].siteName.None? ==> r == items[i].(siteName := Some(UnknownSite)))
      && SiteOf(r) == SiteOf(items[i])
  {
    MapElements(DefaultSiteName, items);
  }

  // ------------------------------------------------------------------
  // Recency filter
  // ------------------------------------------------------------------

  const MicrosPerDay: int := 86_400_000_000

  /** `datetime.utcnow() - timedelta(days=lookback_days)`, with `now` given. */
  function Cutoff(now: int, lookbackDays: int): int {
    now - lookbackDays * MicrosPerDay
  }

  /**
   * Whether the filter keeps an item, branch by branch: no date or an empty
   * one is kept; a parse that raises is kept; a tz-aware date cannot be
   * compared with the naive cutoff (TypeError) and is kept; a naive date is
   * kept when it is not before the cutoff.
   */
  predicate KeptByRecency(parse: DateParser, cutoff: int, it: Item) {
    if !IsTruthy(it.published) then true
    else match parse(it.published.value)
      case Unparseable => true
      case Parsed(dt) => if dt.tzAware then true else dt.instant >= cutoff
  }

  /** The one reason for dropping an item: a date that parses, is naive, and lies before the cutoff. */
  predicate IsStale(parse: DateParser, cutoff: int, it: Item) {
    && IsTruthy(it.published)
    && parse(it.published.value).Parsed?
    && !parse(it.published.value).dt.tzAware
    && parse(it.published.value).dt.instant < cutoff
  }

  function RecentItems(items: seq<Item>, parse: DateParser, cutoff: int): seq<Item> {
    Filter(it => KeptByRecency(parse, cutoff, it), items)
  }

  lemma RecentItemsSnoc(items: seq<Item>, it: Item, parse: DateParser, cutoff: int)
    ensures RecentItems(items + [it], parse, cutoff)
         == RecentItems(items, parse, cutoff) + (if KeptByRecency(parse, cutoff, it) then [it] else [])
  {
    FilterSnoc(it => KeptByRecency(parse, cutoff, it), items, it);
  }

  /** The `filtered` loop of `collect_latest_articles`. */
  method FilterRecent(items: seq<Item>, parse: DateParser, cutoff: int) returns (filtered: seq<Item>)
    ensures filtered == RecentItems(items, parse, cutoff)
  {
    filtered := [];
    for i := 0 to |items|
      invariant filtered == RecentItems(items[..i], parse, cutoff)
    {
      var it := items[i];
      assert items[..i + 1] == items[..i] + [it];
      RecentItemsSnoc(items[..i], it, parse, cutoff);
      var pub := it.published;
      if !IsTruthy(pub) {
        filtered := filtered + [it];
        continue;
      }
      match parse(pub.value) {
        case Unparseable =>
          // the parser raised
          filtered := filtered + [it];
        case Parsed(dt) =>
          if dt.tzAware {
            // comparing an aware datetime with the naive cutoff raised TypeError
            filtered := filtered + [it];
          } else if dt.instant >= cutoff {
            filtered := filtered + [it];
          }
      }
    }
    assert items[..|items|] == items;
  }

  /**
   * The filter is fail-open: it keeps, in order and with their
   * multiplicities, exactly the items that are not stale, so an undated item
   * or one whose date does not parse is never dropped, whatever the cutoff.
   */
  lemma RecencyFilterIsFailOpen(items: seq<Item>, parse: DateParser, cutoff: int)
    ensures IsSubsequence(RecentItems(items, parse, cutoff), items)
    ensures forall it :: multiset(RecentItems(items, parse, cutoff))[it]
                         == if IsStale(parse, cutoff, it) then 0 else multiset(items)[it]
    ensures forall it :: it in items ==> (it in RecentItems(items, parse, cutoff) <==> !IsStale(parse, cutoff, it))
    ensures forall it :: it in items && !IsTruthy(it.published) ==> it in RecentItems(items, parse, cutoff)
    ensures forall it :: it in items && IsTruthy(it.published) && parse(it.published.value).Unparseable?
                         ==> it in RecentItems(items, parse, cutoff)
    ensures forall it ::
      (it in items && IsTruthy(it.published) && parse(it.published.value).Parsed? && parse(it.published.value).dt.tzAware)
      ==> it in RecentItems(items, parse, cutoff)
    ensures forall it ::
      (it in items && IsTruthy(it.published) && parse(it.published.value).Parsed?
       && !parse(it.published.value).dt.tzAware && parse(it.published.value).dt.instant < cutoff)
      ==> it !in RecentItems(items, parse, cutoff)
  {
    var keep := it => KeptByRecency(parse, cutoff, it);
    FilterIsSubsequence(keep, items);
    forall it ensures multiset(RecentItems(items, parse, cutoff))[it]
                      == if IsStale(parse, cutoff, it) then 0 else multiset(items)[it]
    {
      FilterCounts(keep, items, it);
    }
  }

  // ------------------------------------------------------------------
  // Quota selector
  // ------------------------------------------------------------------

  /** How many items of `xs` are counted under site `s`. */
  function CountSite(xs: seq<Item>, s: string): nat {
    if xs == [] then 0 else CountSite(DropLast(xs), s) + (if SiteOf(Last(xs)) == s then 1 else 0)
  }

  lemma CountSiteSnoc(xs: seq<Item>, x: Item)
    ensures forall s :: CountSite(xs + [x], s) == CountSite(xs, s) + (if SiteOf(x) == s then 1 else 0)
  {
    assert DropLast(xs + [x]) == xs;
  }

  /** The pass has stopped: the last admission brought the output to the global cap. */
  predicate CapReached(out: seq<Item>, maxTotal: int) {
    out != [] && |out| >= maxTotal
  }

  /**
   * The output of the selector on `items`, defined item by item: an item is
   * admitted unless the pass has stopped or its site already has
   * `maxPerSite` admitted items.
   */
  function Selected(items: seq<Item>, maxPerSite: int, maxTotal: int): seq<Item>
    decreases |items|
  {
    if items == [] then []
    else
      var prev := Selected(DropLast(items), maxPerSite, maxTotal);
      var it := Last(items);
      if CapReached(prev, maxTotal) || CountSite(prev, SiteOf(it)) >= maxPerSite then prev
      else prev + [it]
  }

  /** One more item while the pass has not stopped: it is admitted iff its site is below quota. */
  lemma SelectedSnoc(items: seq<Item>, it: Item, maxPerSite: int, maxTotal: int)
    requires !CapReached(Selected(items, maxPerSite, maxTotal), maxTotal)
    ensures var prev := Selected(items, maxPerSite, maxTotal);
      Selected(items + [it], maxPerSite, maxTotal)
        == if CountSite(prev, SiteOf(it)) >= maxPerSite then prev else prev + [it]
  {
    assert DropLast(items + [it]) == items && Last(items + [it]) == it;
  }

  /** The `per_site` dictionary's count for `s`, with an absent site counted as none. */
  function Tally(perSite: map<string, int>, s: string): int {
    if s in perSite then perSite[s] else 0
  }

  /** The `per_site` dictionary counts the admitted items of every site. */
  ghost predicate TallyMatches(perSite: map<string, int>, out: seq<Item>) {
    forall s {:trigger Tally(perSite, s)} :: Tally(perSite, s) == CountSite(out, s)
  }

  /** An item over its site's quota is skipped while the pass goes on. */
  lemma QuotaSkip(items: seq<Item>, it: Item, perSite: map<string, int>, out: seq<Item>, maxPerSite: int, maxTotal: int)
    requires out == Selected(items, maxPerSite, maxTotal) && !CapReached(out, maxTotal)
    requires TallyMatches(perSite, out)
    requires SiteOf(it) in perSite && perSite[SiteOf(it)] >= maxPerSite
    ensures Selected(items + [it], maxPerSite, maxTotal) == out
  {
    assert Tally(perSite, SiteOf(it)) == CountSite(out, SiteOf(it));
    SelectedSnoc(items, it, maxPerSite, maxTotal);
  }

  /** An item below its site's quota is admitted and counted. */
  lemma QuotaAdmit(items: seq<Item>, it: Item, perSite: map<string, int>, out: seq<Item>, maxPerSite: int, maxTotal: int)
    requires out == Selected(items, maxPerSite, maxTotal) && !CapReached(out, maxTotal)
    requires TallyMatches(perSite, out)
    requires SiteOf(it) in perSite && perSite[SiteOf(it)] < maxPerSite
    ensures Selected(items + [it], maxPerSite, maxTotal) == out + [it]
    ensures TallyMatches(perSite[SiteOf(it) := perSite[SiteOf(it)] + 1], out + [it])
  {
    var s := SiteOf(it);
    var next := perSite[s := perSite[s] + 1];
    assert Tally(perSite, s) == CountSite(out, s);
    SelectedSnoc(items, it, maxPerSite, maxTotal);
    CountSiteSnoc(out, it);
    forall t ensures Tally(next, t) == CountSite(out + [it], t) {
      assert Tally(perSite, t) == CountSite(out, t);
    }
  }

  /** `per_site.setdefault(s, 0)`: a site seen for the first time starts at zero. */
  method SetDefault(perSite: map<string, int>, s: string) returns (r: map<string, int>)
    ensures s in r && r[s] == Tally(perSite, s)
    ensures forall t :: Tally(r, t) == Tally(perSite, t)
  {
    r := perSite;
    if s !in r {
      r := r[s := 0];
    }
  }

  /** The `per_site`/`out` loop of `collect_latest_articles`, with its `break`. */
  method SelectQuota(filtered: seq<Item>, maxPerSite: int, maxTotal: int) returns (out: seq<Item>)
    ensures out == Selected(filtered, maxPerSite, maxTotal)
  {
    var perSite: map<string, int> := map[];
    out := [];
    var i := 0;
    while i < |filtered|
      invariant 0 <= i <= |filtered|
      invariant out == Selected(filtered[..i], maxPerSite, maxTotal)
      invariant !CapReached(out, maxTotal)
      invariant TallyMatches(perSite, out)
    {
      var it := filtered[i];
      var s := SiteOf(it);
      assert filtered[..i + 1] == filtered[..i] + [it];
      perSite := SetDefault(perSite, s);
      if perSite[s] >= maxPerSite {
        QuotaSkip(filtered[..i], it, perSite, out, maxPerSite, maxTotal);
        i := i + 1;
        continue;
      }
      QuotaAdmit(filtered[..i], it, perSite, out, maxPerSite, maxTotal);
      perSite := perSite[s := perSite[s] + 1];
      out := out + [it];
      if |out| >= maxTotal {
        SelectedAfterCap(filtered, i + 1, maxPerSite, maxTotal);
        break;
      }
      i := i + 1;
    }
    if i == |filtered| {
      assert filtered[..i] == filtered;
    }
  }

  /** Once the cap is reached, later items are never examined. */
  lemma {:induction false} SelectedStopsAtCap(a: seq<Item>, b: seq<Item>, maxPerSite: int, maxTotal: int)
    requires CapReached(Selected(a, maxPerSite, maxTotal), maxTotal)
    ensures Selected(a + b, maxPerSite, maxTotal) == Selected(a, maxPerSite, maxTotal)
    decreases |b|
  {
    if b == [] {
      assert a + b == a;
    } else {
      assert DropLast(a + b) == a + DropLast(b);
      SelectedStopsAtCap(a, DropLast(b), maxPerSite, maxTotal);
    }
  }

  lemma SelectedAfterCap(items: seq<Item>, k: nat, maxPerSite: int, maxTotal: int)
    requires k <= |items|
    requires CapReached(Selected(items[..k], maxPerSite, maxTotal), maxTotal)
    ensures Selected(items, maxPerSite, maxTotal) == Selected(items[..k], maxPerSite, maxTotal)
  {
    SelectedStopsAtCap(items[..k], items[k..], maxPerSite, maxTotal);
    assert items[..k] + items[k..] == items;
  }

  /** The selection on a prefix is a prefix of the selection: earlier decisions never depend on later items. */
  lemma {:induction false} SelectedPrefix(items: seq<Item>, k: nat, maxPerSite: int, maxTotal: int)
    requires k <= |items|
    ensures Selected(items[..k], maxPerSite, maxTotal) <= Selected(items, maxPerSite, maxTotal)
    decreases |items| - k
  {
    if k < |items| {
      SelectedPrefix(items, k + 1, maxPerSite, maxTotal);
      assert DropLast(items[..k + 1]) == items[..k];
    } else {
      assert items[..k] == items;
    }
  }

  /** The selector outputs an order-preserving subsequence of its input. */
  lemma {:induction false} SelectedIsSubsequence(items: seq<Item>, maxPerSite: int, maxTotal: int)
    ensures IsSubsequence(Selected(items, maxPerSite, maxTotal), items)
    decreases |items|
  {
    if items != [] {
      var prev := Selected(DropLast(items), maxPerSite, maxTotal);
      SelectedIsSubsequence(DropLast(items), maxPerSite, maxTotal);
      if Selected(items, maxPerSite, maxTotal) == prev {
        SubsequenceExtend(prev, DropLast(items), Last(items));
      } else {
        SubsequenceSnoc(prev, DropLast(items), Last(items));
      }
      assert DropLast(items) + [Last(items)] == items;
    }
  }

  /** No site has more than `maxPerSite` items in the output (none at all when `maxPerSite <= 0`). */
  lemma {:induction false} SelectedPerSiteBound(items: seq<Item>, maxPerSite: int, maxTotal: int, s: string)
    ensures CountSite(Selected(items, maxPerSite, maxTotal), s) <= Max(maxPerSite, 0)
    decreases |items|
  {
    if items != [] {
      var prev := Selected(DropLast(items), maxPerSite, maxTotal);
      SelectedPerSiteBound(DropLast(items), maxPerSite, maxTotal, s);
      CountSiteSnoc(prev, Last(items));
    }
  }

  /** The output never exceeds the global cap, though a cap below 1 still lets one item through. */
  lemma {:induction false} SelectedTotalBound(items: seq<Item>, maxPerSite: int, maxTotal: int)
    ensures |Selected(items, maxPerSite, maxTotal)| <= Max(maxTotal, 1)
    ensures maxTotal >= 1 ==> |Selected(items, maxPerSite, maxTotal)| <= maxTotal
    decreases |items|
  {
    if items != [] {
      SelectedTotalBound(DropLast(items), maxPerSite, maxTotal);
    }
  }

  /**
   * When the pass does not stop at the global cap, every site gets exactly
   * as many items as it has in the input, up to its quota.
   */
  lemma {:induction false} SelectedFillsQuotas(items: seq<Item>, maxPerSite: int, maxTotal: int, s: string)
    requires !CapReached(Selected(items, maxPerSite, maxTotal), maxTotal)
    ensures CountSite(Selected(items, maxPerSite, maxTotal), s) == Min(CountSite(items, s), Max(maxPerSite, 0))
    decreases |items|
  {
    if items != [] {
      var prev := Selected(DropLast(items), maxPerSite, maxTotal);
      assert !CapReached(prev, maxTotal);
      SelectedFillsQuotas(DropLast(items), maxPerSite, maxTotal, s);
      SelectedPerSiteBound(DropLast(items), maxPerSite, maxTotal, s);
      CountSiteSnoc(prev, Last(items));
    }
  }

  /** Whether an item belongs to site `s`. */
  function SiteIs(s: string): Item -> bool {
    (it: Item) => SiteOf(it) == s
  }

  /** The per-site tally counts the items of that site. */
  lemma {:induction false} CountSiteIsFilterLength(xs: seq<Item>, s: string)
    ensures CountSite(xs, s) == |Filter(SiteIs(s), xs)|
    decreases |xs|
  {
    if xs != [] {
      CountSiteIsFilterLength(DropLast(xs), s);
    }
  }

  /**
   * When the pass does not stop at the global cap, the items a site keeps
   * are its earliest ones in input order, as many as its quota allows.
   */
  lemma {:induction false} SelectedKeepsEarliest(items: seq<Item>, maxPerSite: int, maxTotal: int, s: string)
    requires !CapReached(Selected(items, maxPerSite, maxTotal), maxTotal)
    ensures Filter(SiteIs(s), Selected(items, maxPerSite, maxTotal))
         == Take(Filter(SiteIs(s), items), Max(maxPerSite, 0))
    decreases |items|
  {
    if items != [] {
      var init := DropLast(items);
      assert !CapReached(Selected(init, maxPerSite, maxTotal), maxTotal);
      SelectedKeepsEarliest(init, maxPerSite, maxTotal, s);
      assert items == init + [Last(items)];
      KeepsEarliestSnoc(init, Last(items), maxPerSite, maxTotal, s);
    }
  }

  /** The inductive step of `SelectedKeepsEarliest`, for one more input item. */
  lemma KeepsEarliestSnoc(init: seq<Item>, it: Item, maxPerSite: int, maxTotal: int, s: string)
    requires !CapReached(Selected(init, maxPerSite, maxTotal), maxTotal)
    requires Filter(SiteIs(s), Selected(init, maxPerSite, maxTotal))
          == Take(Filter(SiteIs(s), init), Max(maxPerSite, 0))
    ensures Filter(SiteIs(s), Selected(init + [it], maxPerSite, maxTotal))
         == Take(Filter(SiteIs(s), init + [it]), Max(maxPerSite, 0))
  {
    var p, m := SiteIs(s), Max(maxPerSite, 0);
    var prev := Selected(init, maxPerSite, maxTotal);
    assert DropLast(init + [it]) == init && Last(init + [it]) == it;
    FilterSnoc(p, prev, it);
    FilterSnoc(p, init, it);
    if SiteOf(it) == s {
      SelectedFillsQuotas(init, maxPerSite, maxTotal, s);
      CountSiteIsFilterLength(prev, s);
      CountSiteIsFilterLength(init, s);
      EarliestStep(Filter(p, prev), Filter(p, init), it, m, CountSite(prev, s), maxPerSite);
    }
  }

  /** One more item of a site extends its earliest-first prefix exactly when it is admitted. */
  lemma EarliestStep(kept: seq<Item>, f: seq<Item>, it: Item, m: nat, count: int, maxPerSite: int)
    requires m == Max(maxPerSite, 0) && kept == Take(f, m) && count == |kept|
    ensures count >= maxPerSite ==> Take(f + [it], m) == kept
    ensures count < maxPerSite ==> Take(f + [it], m) == kept + [it]
  {
    if count < maxPerSite {
      assert Take(f, m) == f;
    }
  }

  // ------------------------------------------------------------------
  // The whole selection
  // ------------------------------------------------------------------

  /** `all_items` after the `site_name` default and `dedupe_links`. */
  function Candidates(feeds: seq<string>, sites: seq<Website>, env: Env): seq<Item> {
    env.dedupe(Map(DefaultSiteName, Merged(feeds, sites, env)))
  }

  /** `collect_latest_articles(cfg, cache)` with the wall clock read as `now`. */
  method CollectLatestArticles(cfg: ProjectConfig, feeds: seq<string>, sites: seq<Website>, env: Env, now: int)
    returns (out: seq<Item>)
    ensures out == Selected(RecentItems(Candidates(feeds, sites, env), env.parse, Cutoff(now, cfg.lookbackDays)),
                            cfg.maxArticlesPerSite, cfg.maxTotalArticles)
    ensures IsSubsequence(out, Candidates(feeds, sites, env))
    ensures forall s :: CountSite(out, s) <= Max(cfg.maxArticlesPerSite, 0)
    ensures |out| <= Max(cfg.maxTotalArticles, 1)
  {
    var all := GatherCandidates(feeds, sites, env);
    all := AttachDefaultSiteNames(all);
    all := env.dedupe(all);
    var cutoff := Cutoff(now, cfg.lookbackDays);
    var filtered := FilterRecent(all, env.parse, cutoff);
    out := SelectQuota(filtered, cfg.maxArticlesPerSite, cfg.maxTotalArticles);

    RecencyFilterIsFailOpen(all, env.parse, cutoff);
    SelectedIsSubsequence(filtered, cfg.maxArticlesPerSite, cfg.maxTotalArticles);
    SubsequenceTransitive(out, filtered, all);
    forall s ensures CountSite(out, s) <= Max(cfg.maxArticlesPerSite, 0) {
      SelectedPerSiteBound(filtered, cfg.maxArticlesPerSite, cfg.maxTotalArticles, s);
    }
    SelectedTotalBound(filtered, cfg.maxArticlesPerSite, cfg.maxTotalArticles);
  }
}
