/**
 * The records the monitor receives from its external sources, as the fields
 * it reads. A field is `None` when the element or key is absent or null.
 */
module Feeds {
  import opened Wrappers

  /** One `<item>` of the GDACS RSS feed: the raw text of each child element used. */
  datatype GdacsItem = GdacsItem(
    title: Option<string>,
    country: Option<string>,      // gdacs:country
    fromDate: Option<string>,     // gdacs:fromdate, e.g. "Mon, 06 Jan 2025 10:00:00 GMT"
    alertLevel: Option<string>,   // gdacs:alertlevel
    eventType: Option<string>,    // gdacs:eventtype
    description: Option<string>,
    link: Option<string>)

  /** One element of the `results` list returned by the NewsData news API. */
  datatype NewsArticle = NewsArticle(
    title: Option<string>,
    description: Option<string>,
    pubDate: Option<string>,
    sourceId: Option<string>,
    link: Option<string>)

  /** One element of the list returned by the public-holiday API. */
  datatype HolidayEntry = HolidayEntry(date: Option<string>, name: Option<string>)
}
