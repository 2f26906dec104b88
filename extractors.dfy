/**
 * Article extraction with a write-through cache: an item whose record is
 * cached is answered from the cache; otherwise the page is downloaded, its
 * main text extracted, the record merged from the item and the extraction,
 * and stored under a key derived from the URL.
 *
 * The download, the extraction (with its JSON decoding), the date parser and
 * the key sanitiser are oracles, passed in an `ExtractEnv`.
 */
module Extractors {
  import opened Wrappers
  import opened Text
  import opened Articles

  /** The fields read from the extractor's JSON object; each may be missing or null. */
  datatype Extraction = Extraction(title: Option<string>, text: Option<string>, date: Option<string>)

  /**
   * What the extractor produced for a downloaded page: no output (None or
   * an empty string), output that is not valid JSON, or a decoded object.
   */
  datatype ExtractOutput = NoOutput | MalformedJson | Json(data: Extraction)

  /**
   * An extracted-article record. A failure record is the item itself with
   * an empty text, so its site name is whatever the item had.
   */
  datatype Record = Record(
    siteName: Option<string>,
    source: string,
    url: string,
    title: string,
    published: Option<string>,
    text: string)

  /** The result of one call: a record, or the exception `json.loads` raised. */
  datatype Outcome = Raises | Returns(rec: Record)

  datatype ExtractEnv = ExtractEnv(
    safeKey: string -> string,               // `cache.safe_key`
    fetchUrl: string -> Option<string>,      // `trafilatura.fetch_url`; None when nothing was downloaded
    extract: string -> ExtractOutput,        // `trafilatura.extract(..., output_format="json")` then `json.loads`
    parse: DateParser)                       // `dateutil.parser.parse`

  const CachePrefix: string := "extracted/"
  const CacheSuffix: string := ".json"

  /** `f"extracted/{cache.safe_key(url)}.json"` */
  function CacheKey(safeKey: string -> string, url: string): string {
    CachePrefix + safeKey(url) + CacheSuffix
  }

  /** Two URLs share a cache entry only when the sanitiser maps them to the same key. */
  lemma CacheKeyInjective(safeKey: string -> string, u1: string, u2: string)
    ensures CacheKey(safeKey, u1) == CacheKey(safeKey, u2) <==> safeKey(u1) == safeKey(u2)
  {
    if CacheKey(safeKey, u1) == CacheKey(safeKey, u2) {
      var k1, k2 := safeKey(u1), safeKey(u2);
      assert |k1| == |k2|;
      assert forall i :: 0 <= i < |k1| ==> k1[i] == CacheKey(safeKey, u1)[|CachePrefix| + i];
      assert k1 == k2;
    }
  }

  /** `{**item, "text": ""}` */
  function FailureRecord(item: Item): Record {
    Record(item.siteName, item.source, item.url, item.title, item.published, "")
  }

  /** `data.get("title") or item.get("title") or ""` */
  function MergedTitle(item: Item, data: Extraction): string {
    if IsTruthy(data.title) then data.title.value
    else if item.title != "" then item.title
    else ""
  }

  /** `data.get("text") or ""` */
  function MergedText(data: Extraction): string {
    data.text.GetOr("")
  }

  /**
   * `pub = item.get("published") or data.get("date")`, then, when `pub` is
   * truthy, its calendar date if it parses and `str(pub)` (itself) if not.
   */
  function MergedPublished(item: Item, data: Extraction, parse: DateParser): Option<string> {
    var pub := if IsTruthy(item.published) then item.published else data.date;
    if !IsTruthy(pub) then pub
    else match parse(pub.value)
      case Parsed(dt) => Some(dt.calendarDate)
      case Unparseable => pub
  }

  function SuccessRecord(item: Item, data: Extraction, parse: DateParser): Record {
    Record(Some(SiteOf(item)), item.source, item.url, MergedTitle(item, data), MergedPublished(item, data, parse),
           MergedText(data))
  }

  /** What a call returns when the record is not cached. */
  function FreshOutcome(item: Item, env: ExtractEnv): Outcome {
    var downloaded := env.fetchUrl(item.url);
    if !IsTruthy(downloaded) then Returns(FailureRecord(item))
    else match env.extract(downloaded.value)
      case NoOutput => Returns(FailureRecord(item))
      case MalformedJson => Raises
      case Json(data) => Returns(SuccessRecord(item, data, env.parse))
  }

  /** The outcome of one call together with the cache contents after it. */
  datatype Step = Step(outcome: Outcome, store: map<string, Record>)

  /** One call of `extract_article` on cache contents `store`. */
  function ExtractStep(store: map<string, Record>, item: Item, env: ExtractEnv): Step {
    var key := CacheKey(env.safeKey, item.url);
    if key in store then Step(Returns(store[key]), store)
    else
      var outcome := FreshOutcome(item, env);
      match outcome
      case Raises => Step(Raises, store)
      case Returns(rec) => Step(outcome, store[key := rec])
  }

  /** The JSON cache, as the map from key to the record stored under it. */
  class Cache {
    var store: map<string, Record>

    constructor ()
      ensures store == map[]
    {
      store := map[];
    }

    /** `get_json`: the stored record, or None when there is none. */
    method GetJson(key: string) returns (r: Option<Record>)
      ensures r.Some? <==> key in store
      ensures r.Some? ==> r.value == store[key]
    {
      if key in store {
        r := Some(store[key]);
      } else {
        r := None;
      }
    }

    /** `save_json`: store `rec` under `key`, replacing what was there. */
    method SaveJson(key: string, rec: Record)
      modifies this
      ensures store == old(store)[key := rec]
    {
      store := store[key := rec];
    }
  }

  /** `extract_article(item, cfg, cache)` */
  method ExtractArticle(item: Item, cache: Cache, env: ExtractEnv) returns (r: Outcome)
    modifies cache
    ensures Step(r, cache.store) == ExtractStep(old(cache.store), item, env)
  {
    var url := item.url;
    var cacheKey := CacheKey(env.safeKey, url);
    var cached := cache.GetJson(cacheKey);
    if cached.Some? {
      return Returns(cached.value);
    }
    var downloaded := env.fetchUrl(url);
    if !IsTruthy(downloaded) {
      var out := FailureRecord(item);
      cache.SaveJson(cacheKey, out);
      return Returns(out);
    }
    var extracted := env.extract(downloaded.value);
    match extracted {
      case NoOutput =>
        var out := FailureRecord(item);
        cache.SaveJson(cacheKey, out);
        return Returns(out);
      case MalformedJson =>
        // json.loads raised; the exception leaves the function before any write
        return Raises;
      case Json(data) =>
        var title := if IsTruthy(data.title) then data.title.value else if item.title != "" then item.title else "";
        var text := data.text.GetOr("");
        var pub := if IsTruthy(item.published) then item.published else data.date;
        if IsTruthy(pub) {
          match env.parse(pub.value) {
            case Parsed(dt) => pub := Some(dt.calendarDate);
            case Unparseable => pub := Some(pub.value);
          }
        }
        var out := Record(Some(item.siteName.GetOr(UnknownSite)), item.source, url, title, pub, text);
        cache.SaveJson(cacheKey, out);
        return Returns(out);
    }
  }

  // ------------------------------------------------------------------
  // Properties
  // ------------------------------------------------------------------

  /**
   * A cached record is returned as it is, the cache is left unchanged, and
   * neither the network nor the extractor is consulted: any two
   * environments with the same key sanitiser give the same step.
   */
  lemma CacheHitIsPure(store: map<string, Record>, item: Item, env: ExtractEnv, other: ExtractEnv)
    requires CacheKey(env.safeKey, item.url) in store
    requires other.safeKey == env.safeKey
    ensures ExtractStep(store, item, env) == Step(Returns(store[CacheKey(env.safeKey, item.url)]), store)
    ensures ExtractStep(store, item, other) == ExtractStep(store, item, env)
  {
  }

  /**
   * A call that returns leaves its record cached under the item's key and
   * every other entry as it was; one that raises changes nothing.
   */
  lemma StepWritesOnlyItsKey(store: map<string, Record>, item: Item, env: ExtractEnv)
    ensures var st := ExtractStep(store, item, env);
      var key := CacheKey(env.safeKey, item.url);
      && (st.outcome.Returns? ==> key in st.store && st.store[key] == st.outcome.rec)
      && (st.outcome.Raises? ==> st.store == store)
      && st.store.Keys <= store.Keys + {key}
      && (forall k :: k in store && k != key ==> k in st.store && st.store[k] == store[k])
      && (key in store ==> st.store == store)
  {
  }

  /**
   * Calling again on the cache a call left behind returns the same record
   * and changes nothing more: the second call is a cache hit.
   */
  lemma ExtractIsIdempotent(store: map<string, Record>, item: Item, env: ExtractEnv)
    requires ExtractStep(store, item, env).outcome.Returns?
    ensures var st := ExtractStep(store, item, env);
      ExtractStep(st.store, item, env) == st
  {
    StepWritesOnlyItsKey(store, item, env);
  }

  /**
   * A page that cannot be downloaded, or from which nothing is extracted,
   * gives the item back unchanged with an empty text.
   */
  lemma FailureKeepsItem(item: Item, env: ExtractEnv)
    requires !IsTruthy(env.fetchUrl(item.url)) || env.extract(env.fetchUrl(item.url).value).NoOutput?
    ensures FreshOutcome(item, env) == Returns(FailureRecord(item))
    ensures var rec := FreshOutcome(item, env).rec;
      && rec.text == "" && rec.url == item.url && rec.title == item.title && rec.source == item.source
      && rec.published == item.published && rec.siteName == item.siteName
  {
  }

  /**
   * A merged record names a site (the item's, or "Unknown"); its title is
   * the extracted one when there is one and the item's otherwise, so it is
   * empty only when both are; the text is the extracted text or empty.
   */
  lemma SuccessRecordFields(item: Item, data: Extraction, parse: DateParser)
    ensures var rec := SuccessRecord(item, data, parse);
      && rec.siteName == Some(SiteOf(item))
      && rec.url == item.url && rec.source == item.source
      && (IsTruthy(data.title) ==> rec.title == data.title.value)
      && (!IsTruthy(data.title) ==> rec.title == item.title)
      && (rec.title == "" <==> !IsTruthy(data.title) && item.title == "")
      && (data.text.Some? ==> rec.text == data.text.value)
      && (data.text.None? ==> rec.text == "")
  {
  }

  /**
   * The item's own date takes precedence: when it has one, the extracted
   * date plays no part; only without one is the extracted date used.
   */
  lemma ItemDateTakesPrecedence(item: Item, d1: Extraction, d2: Extraction, parse: DateParser)
    requires IsTruthy(item.published)
    ensures MergedPublished(item, d1, parse) == MergedPublished(item, d2, parse)
    ensures MergedPublished(item, d1, parse) == MergedPublished(item.(published := None), d1.(date := item.published), parse)
  {
  }

  /**
   * A date that parses is reduced to its calendar date; one that does not
   * is kept verbatim; with no date at all the record's date is whichever of
   * the two empty values `or` produced.
   */
  lemma PublishedNormalization(item: Item, data: Extraction, parse: DateParser)
    ensures var pub := if IsTruthy(item.published) then item.published else data.date;
      var r := MergedPublished(item, data, parse);
      && (IsTruthy(pub) && parse(pub.value).Parsed? ==> r == Some(parse(pub.value).dt.calendarDate))
      && (IsTruthy(pub) && parse(pub.value).Unparseable? ==> r == pub)
      && (!IsTruthy(pub) ==> r == data.date && !IsTruthy(r))
  {
  }
}
