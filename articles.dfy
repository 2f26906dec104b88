/** The candidate-article record that the readers produce and the extractor consumes. */
module Articles {
  import opened Wrappers

  /** What the pipeline reads of a `datetime` returned by the date parser. */
  datatype DateTime = DateTime(
    instant: int,          // microseconds since the epoch, as UTC wall-clock time
    tzAware: bool,         // the value carries a `tzinfo`
    isoFormat: string,     // `dt.isoformat()`
    calendarDate: string)  // `dt.date().isoformat()`

  /** The outcome of `dateparser.parse(s)`: a datetime, or an exception. */
  datatype DateParse = Unparseable | Parsed(dt: DateTime)

  /** The date parser, an oracle: nothing is assumed about its answers. */
  type DateParser = string -> DateParse

  /**
   * A candidate item dict: `title`, `url`, `published` (an ISO string or
   * None), `source` (the feed or index page it came from) and `site_name`,
   * which is absent until a site is known.
   */
  datatype Item = Item(
    title: string,
    url: string,
    published: Option<string>,
    source: string,
    siteName: Option<string>)

  const UnknownSite: string := "Unknown"

  /** `it.get("site_name", "Unknown")`: the site an item is counted under. */
  function SiteOf(it: Item): string {
    it.siteName.GetOr(UnknownSite)
  }
}
