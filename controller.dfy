/**
 * The deterministic part of the logistics check: country-code resolution,
 * the date window, the per-source record selection and formatting, and the
 * control flow of `run_logistics_check`.
 *
 * Dates are day ordinals. Everything the check receives from outside (the
 * country database, the HTTP sources, date parsing and printing, the clock
 * and the three language-model chains) is a parameter.
 */
module Controller {
  import opened Wrappers
  import opened Text
  import opened Seqs
  import opened Feeds

  // ------------------------------------------------------------ countries

  /** A country record of the country database. */
  datatype Country = Country(
    alpha2: Option<string>,
    alpha3: string,
    name: string,
    commonName: Option<string>)

  /** The country database, reached by upper-case alpha-2 and alpha-3 code. */
  datatype CountryTable = CountryTable(byAlpha2: map<string, Country>, byAlpha3: map<string, Country>)

  /** Each country is filed under its own codes. */
  ghost predicate WellFormed(t: CountryTable) {
    && (forall k :: k in t.byAlpha2 ==> t.byAlpha2[k].alpha2 == Some(k))
    && (forall k :: k in t.byAlpha3 ==> t.byAlpha3[k].alpha3 == k)
  }

  function Lookup(m: map<string, Country>, k: string): (r: Option<Country>)
    ensures r.Some? <==> k in m
    ensures r.Some? ==> r.value == m[k]
  {
    if k in m then Some(m[k]) else None
  }

  /** `code.strip().upper()` */
  function NormalizeCode(code: string): string {
    Upper(Strip(code))
  }

  /** `_resolve`: look the normalised code up as alpha-3 when it has three
      characters and as alpha-2 otherwise. */
  function Resolve(t: CountryTable, code: string): (c: Option<Country>)
    ensures c.None? <==> NormalizeCode(code) !in (if |NormalizeCode(code)| == 3 then t.byAlpha3 else t.byAlpha2)
    ensures WellFormed(t) && c.Some? && |NormalizeCode(code)| == 3 ==> c.value.alpha3 == NormalizeCode(code)
    ensures WellFormed(t) && c.Some? && |NormalizeCode(code)| != 3 ==> c.value.alpha2 == Some(NormalizeCode(code))
  {
    var n := NormalizeCode(code);
    if |n| == 3 then Lookup(t.byAlpha3, n) else Lookup(t.byAlpha2, n)
  }

  /** Normalising is itself insensitive to case and to surrounding whitespace. */
  lemma NormalizeCodeIdempotent(code: string)
    ensures NormalizeCode(NormalizeCode(code)) == NormalizeCode(code)
    ensures NormalizeCode(Lower(code)) == NormalizeCode(code)
  {
    StripUpper(Strip(code));
    StripIdempotent(code);
    UpperIdempotent(Strip(code));
    StripLower(code);
    UpperOfLower(Strip(code));
  }

  /** A code resolves to the same country in any case and with any padding
      that `strip()` removes. */
  lemma ResolveIgnoresCaseAndPadding(t: CountryTable, code: string)
    ensures Resolve(t, NormalizeCode(code)) == Resolve(t, code)
    ensures Resolve(t, Lower(code)) == Resolve(t, code)
  {
    NormalizeCodeIdempotent(code);
  }

  /** `to_iso2`: the resolved country's alpha-2 code, else the first two
      characters of the code as given (not stripped), upper-cased. */
  function ToIso2(t: CountryTable, code: string): (r: string)
    ensures Resolve(t, code).Some? && Resolve(t, code).value.alpha2.Some?
            ==> r == Resolve(t, code).value.alpha2.value
    ensures !(Resolve(t, code).Some? && Resolve(t, code).value.alpha2.Some?)
            ==> |r| == (if |code| < 2 then |code| else 2) && r == Upper(code[..|r|])
  {
    match Resolve(t, code)
    case Some(c) => if c.alpha2.Some? then c.alpha2.value else Upper(Take(code, 2))
    case None => Upper(Take(code, 2))
  }

  /** A listed alpha-2 code, in any case and padding, maps to itself
      normalised; a listed alpha-3 code maps to its country's alpha-2 code. */
  lemma ToIso2OfListedCode(t: CountryTable, code: string)
    requires WellFormed(t)
    ensures |NormalizeCode(code)| != 3 && NormalizeCode(code) in t.byAlpha2
            ==> ToIso2(t, code) == NormalizeCode(code)
    ensures |NormalizeCode(code)| == 3 && NormalizeCode(code) in t.byAlpha3
            && t.byAlpha3[NormalizeCode(code)].alpha2.Some?
            ==> ToIso2(t, code) == t.byAlpha3[NormalizeCode(code)].alpha2.value
  {
  }

  /** `_terms`: the lower-cased name variants searched for in feed text. */
  function Terms(t: CountryTable, code: string): (r: set<string>)
    ensures Resolve(t, code).None? ==> r == {Lower(code)}
    ensures Resolve(t, code).Some? ==>
      var c := Resolve(t, code).value;
      && Lower(c.name) in r && Lower(c.alpha3) in r
      && (c.commonName.Some? ==> Lower(c.commonName.value) in r)
      && forall x :: x in r ==>
           x == Lower(c.name) || x == Lower(c.alpha3)
           || (c.commonName.Some? && x == Lower(c.commonName.value))
  {
    match Resolve(t, code)
    case Some(c) =>
      var base := {Lower(c.name), Lower(c.alpha3)};
      if c.commonName.Some? then base + {Lower(c.commonName.value)} else base
    case None => {Lower(code)}
  }

  /** Every term is already lower case, so it can match lower-cased text. */
  lemma TermsAreLowerCase(t: CountryTable, code: string)
    ensures 1 <= |Terms(t, code)| <= 3
    ensures forall x :: x in Terms(t, code) ==> Lower(x) == x
  {
    LowerIdempotent(code);
    match Resolve(t, code)
    case Some(c) =>
      LowerIdempotent(c.name);
      LowerIdempotent(c.alpha3);
      if c.commonName.Some? {
        LowerIdempotent(c.commonName.value);
        var r := Terms(t, code);
        assert r == {Lower(c.name), Lower(c.alpha3), Lower(c.commonName.value)};
      }
    case None =>
  }

  // ---------------------------------------------------------- date window

  /** A `date` or a `datetime`, by its day ordinal. */
  datatype Moment = Date(day: int) | DateTime(day: int, secondOfDay: nat)

  /** An inclusive day range; `hi` is `None` when the caller passed no end date. */
  datatype Window = Window(lo: int, hi: Option<int>)

  function DayOpt(m: Option<Moment>): Option<int> {
    match m
    case Some(x) => Some(x.day)
    case None => None
  }

  /** The arguments name the same calendar day. */
  predicate SingleDay(from: Moment, to: Option<Moment>) {
    to.Some? && to.value.day == from.day
  }

  /** `expand`: truncate datetimes to dates; a single-day query becomes
      the 15 days centred on that day, any other pair is left as it is. */
  function Expand(from: Moment, to: Option<Moment>): (w: Window)
    ensures SingleDay(from, to) ==>
      w.lo + 7 == from.day && w.hi == Some(from.day + 7) && w.hi.value - w.lo + 1 == 15
    ensures !SingleDay(from, to) ==> w.lo == from.day && w.hi == DayOpt(to)
  {
    var lo := from.day;
    var hi := DayOpt(to);
    if hi == Some(lo) then Window(lo - 7, Some(lo + 7)) else Window(lo, hi)
  }

  // --------------------------------------------------------- event records

  /** One formatted disruption event, field by field. */
  datatype EventRecord = EventRecord(
    source: string, alert: string, kind: string, title: string,
    date: string, placeLabel: string, place: string, details: string, link: string)

  /** The source tag that opens the text block for one event. */
  function SourceTag(r: EventRecord): string {
    "SOURCE:" + r.source + " |"
  }

  /** The pieces of the text block after the source tag, in order. */
  function Pieces(r: EventRecord): seq<string> {
    [" ALERT:", r.alert, " | TYPE:", r.kind, " | ", r.title, "\n",
     "  Date: ", r.date, " | ", r.placeLabel, ": ", r.place, "\n",
     "  Details: ", r.details, "\n",
     "  Link: ", r.link]
  }

  /** The text block the check passes to the disaster chain for one event
      (the f-string: the source tag, then the concatenation of the pieces). */
  function Render(r: EventRecord): string {
    SourceTag(r) + Join("", Pieces(r))
  }

  /** A rendered record begins with its source tag. */
  lemma RenderStartsWithSource(r: EventRecord)
    ensures var tag := "SOURCE:" + r.source + " |";
      |tag| <= |Render(r)| && Render(r)[..|tag|] == tag
  {
    assert Render(r)[..|SourceTag(r)|] == SourceTag(r);
  }

  const GdacsTag := "SOURCE:GDACS |"
  const NewsdataTag := "SOURCE:NEWSDATA |"

  predicate IsGdacsEvent(e: string) {
    |GdacsTag| <= |e| && e[..|GdacsTag|] == GdacsTag
  }

  predicate IsNewsdataEvent(e: string) {
    |NewsdataTag| <= |e| && e[..|NewsdataTag|] == NewsdataTag
  }

  /** The two sources' events can always be told apart. */
  lemma SourcesDistinct(e: string)
    ensures !(IsGdacsEvent(e) && IsNewsdataEvent(e))
  {
    if IsGdacsEvent(e) {
      assert e[7] == GdacsTag[7] == 'G';
      assert NewsdataTag[7] == 'N';
    }
  }

  // ----------------------------------------------------------------- GDACS

  /** The helper `g`: an element's text stripped, or "" when it is absent or empty. */
  function Field(raw: Option<string>): string {
    match raw
    case Some(text) => Strip(text)
    case None => ""
  }

  /** Some term occurs in the lower-cased `title + " " + country`. */
  predicate CountryMatches(terms: set<string>, title: string, country: string) {
    exists term :: term in terms && Contains(Lower(title + " " + country), term)
  }

  /** The date filter; an unparseable date passes. Without an upper bound the
      comparison with `None` raises inside the `try` and the item is kept, once
      the lower bound holds. */
  predicate DateInWindow(d: Option<int>, w: Window) {
    match d
    case None => true
    case Some(e) => w.lo <= e && (w.hi.None? || e <= w.hi.value)
  }

  /** How many characters of `gdacs:fromdate` the code hands to the parser. */
  const RssDatePrefixAsWritten := 16

  /** The length of a stamp such as "Mon, 06 Jan 2025 10:00": the part of
      `gdacs:fromdate` that the format "%a, %d %b %Y %H:%M" describes. */
  const RssStampLength := 22

  /** The shortest text the format "%a, %d %b %Y %H:%M" matches, such as
      "Mon, 6 Jan 2025 1:0": the year takes exactly four digits, and the day,
      the hour, the minute and each gap at least one character. */
  const MinRssStampLength := 19

  /** What any date parser for that format shares with `strptime`: text
      shorter than the shortest stamp never parses. */
  ghost predicate RejectsShortStamps(parseDate: string -> Option<int>) {
    forall s :: |s| < MinRssStampLength ==> parseDate(s).None?
  }

  /** The acceptance rule for one feed item, when the parser sees the first
      `n` characters of its stripped `gdacs:fromdate`. */
  predicate KeepItemWith(n: nat, terms: set<string>, w: Window, parseDate: string -> Option<int>, item: GdacsItem) {
    && CountryMatches(terms, Field(item.title), Field(item.country))
    && DateInWindow(parseDate(Take(Field(item.fromDate), n)), w)
  }

  /** The rule as the code writes it: the parser sees 16 characters. */
  predicate KeepItemAsWritten(terms: set<string>, w: Window, parseDate: string -> Option<int>, item: GdacsItem) {
    KeepItemWith(RssDatePrefixAsWritten, terms, w, parseDate, item)
  }

  /** The rule as intended: the parser sees the whole date-and-time stamp. */
  predicate KeepItem(terms: set<string>, w: Window, parseDate: string -> Option<int>, item: GdacsItem) {
    KeepItemWith(RssStampLength, terms, w, parseDate, item)
  }

  /** As written, the date filter never drops an item: 16 characters are too
      few for the format, so the parse always fails and the `except` keeps
      the item. Only the country match decides. */
  lemma DateFilterInertAsWritten(terms: set<string>, w: Window, parseDate: string -> Option<int>, item: GdacsItem)
    requires RejectsShortStamps(parseDate)
    ensures KeepItemAsWritten(terms, w, parseDate, item)
            <==> CountryMatches(terms, Field(item.title), Field(item.country))
  {
    assert |Take(Field(item.fromDate), RssDatePrefixAsWritten)| < MinRssStampLength;
  }

  /** A concrete case: a South African flood alert dated 6 January 2025 (day
      739257) is kept as written for a window months later, and dropped by
      the intended rule. The parser accepts that one stamp and nothing else. */
  lemma StaleAlertKeptAsWritten()
    ensures var stamp := "Mon, 06 Jan 2025 10:00";
      var item := GdacsItem(Some("za"), Some(""), Some(stamp + ":00 GMT"), None, None, None, None);
      var parse := (s: string) => if s == stamp then Some(739257) else None;
      var w := Window(739400, Some(739414));
      && RejectsShortStamps(parse)
      && KeepItemAsWritten({"za"}, w, parse, item)
      && !KeepItem({"za"}, w, parse, item)
  {
    var stamp := "Mon, 06 Jan 2025 10:00";
    var raw := stamp + ":00 GMT";
    var item := GdacsItem(Some("za"), Some(""), Some(raw), None, None, None, None);
    assert LeadingSpaces(raw) == 0 && TrailingSpaces(raw) == 0;
    assert Field(item.fromDate) == raw;
    assert LeadingSpaces("za") == 0 && TrailingSpaces("za") == 0;
    assert Field(item.title) == "za";
    assert Field(item.country) == "";
    var text := Lower("za" + " " + "");
    assert text[0] == 'z' && text[1] == 'a' && |text| == 3;
    assert OccursAt(text, "za", 0);
    assert CountryMatches({"za"}, "za", "");
    assert Take(raw, RssStampLength) == stamp;
  }

  /** As intended, the window decides for every item whose stamp parses. */
  lemma DateFilterApplies(terms: set<string>, w: Window, parseDate: string -> Option<int>,
                          item: GdacsItem, e: int)
    requires parseDate(Take(Field(item.fromDate), RssStampLength)) == Some(e)
    ensures KeepItem(terms, w, parseDate, item)
            <==> && CountryMatches(terms, Field(item.title), Field(item.country))
                 && w.lo <= e && (w.hi.None? || e <= w.hi.value)
  {
  }

  /** The acceptance rule as a condition on items, for a parser that sees
      the first `n` characters of the stamp. */
  function GdacsKeep(n: nat, terms: set<string>, w: Window, parseDate: string -> Option<int>): GdacsItem -> bool {
    item => KeepItemWith(n, terms, w, parseDate, item)
  }

  /** The country match alone, as a condition on items. */
  function CountryKeep(terms: set<string>): GdacsItem -> bool {
    (item: GdacsItem) => CountryMatches(terms, Field(item.title), Field(item.country))
  }

  /** The fields of the event text built for a kept feed item. */
  function GdacsRecord(item: GdacsItem): EventRecord {
    EventRecord("GDACS", Upper(Field(item.alertLevel)), Upper(Field(item.eventType)), Field(item.title),
                Field(item.fromDate), "Country", Field(item.country),
                Take(Field(item.description), 200), Field(item.link))
  }

  /** The fields of a GDACS event: the stripped element texts, the alert level
      and type upper-cased, and the first 200 characters of the description. */
  lemma GdacsRecordFields(item: GdacsItem)
    ensures var r := GdacsRecord(item);
      && r.source == "GDACS" && r.placeLabel == "Country"
      && r.alert == Upper(Field(item.alertLevel)) && r.kind == Upper(Field(item.eventType))
      && r.title == Field(item.title) && r.place == Field(item.country)
      && r.date == Field(item.fromDate) && r.link == Field(item.link)
      && |r.details| == (if |Field(item.description)| < 200 then |Field(item.description)| else 200)
      && IsPrefix(r.details, Field(item.description))
      && (|Field(item.description)| <= 200 ==> r.details == Field(item.description))
  {
  }

  function FormatGdacs(item: GdacsItem): string {
    Render(GdacsRecord(item))
  }

  /** The events of `fetch_gdacs_rss` when the parser sees `n` characters
      of each stamp: none when the request fails, otherwise the kept items,
      formatted, in feed order. */
  function GdacsEvents(n: nat, t: CountryTable, code: string, from: Moment, to: Option<Moment>,
                       feed: Option<seq<GdacsItem>>, parseDate: string -> Option<int>): seq<string>
  {
    match feed
    case None => []
    case Some(items) => Map(Filter(items, GdacsKeep(n, Terms(t, code), Expand(from, to), parseDate)), FormatGdacs)
  }

  /** `fetch_gdacs_rss` as written: expand the window, then walk the feed,
      handing the parser 16 characters of each stamp. */
  method FetchGdacsRss(t: CountryTable, code: string, from: Moment, to: Option<Moment>,
                       feed: Option<seq<GdacsItem>>, parseDate: string -> Option<int>)
    returns (events: seq<string>)
    ensures events == GdacsEvents(RssDatePrefixAsWritten, t, code, from, to, feed, parseDate)
  {
    var w := Expand(from, to);
    if feed.None? {
      return [];
    }
    events := SelectGdacsItems(feed.value, RssDatePrefixAsWritten, Terms(t, code), w, parseDate);
  }

  /** The loop of `fetch_gdacs_rss`: append each accepted item, formatted,
      when the parser sees the first `n` characters of each stamp. */
  method SelectGdacsItems(items: seq<GdacsItem>, n: nat, terms: set<string>, w: Window,
                          parseDate: string -> Option<int>)
    returns (events: seq<string>)
    ensures events == Map(Filter(items, GdacsKeep(n, terms, w, parseDate)), FormatGdacs)
  {
    ghost var keep := GdacsKeep(n, terms, w, parseDate);
    events := [];
    var i := 0;
    while i < |items|
      invariant 0 <= i <= |items|
      invariant events == Map(Filter(items[..i], keep), FormatGdacs)
    {
      var item := items[i];
      var title := Field(item.title);
      var country := Field(item.country);
      FilterMapStep(items, i, keep, FormatGdacs);
      if CountryMatches(terms, title, country) {
        var eventDate := parseDate(Take(Field(item.fromDate), n));
        if DateInWindow(eventDate, w) {
          events := events + [FormatGdacs(item)];
        }
      }
      i := i + 1;
    }
    assert items[..|items|] == items;
  }

  /** An item yields an event exactly when some term is a substring of its
      lower-cased title and country and its date passes the window, the date
      being parsed from the first `n` characters of the stamp (22 for the
      whole stamp, 16 as written). Events keep feed order. */
  lemma GdacsSelection(n: nat, t: CountryTable, code: string, from: Moment, to: Option<Moment>,
                       items: seq<GdacsItem>, parseDate: string -> Option<int>, item: GdacsItem)
    ensures var keep := GdacsKeep(n, Terms(t, code), Expand(from, to), parseDate);
      && (item in Filter(items, keep) <==>
           && item in items
           && (exists term, i :: term in Terms(t, code)
                 && OccursAt(Lower(Field(item.title) + " " + Field(item.country)), term, i))
           && DateInWindow(parseDate(Take(Field(item.fromDate), n)), Expand(from, to)))
      && IsSubsequence(Filter(items, keep), items)
      && GdacsEvents(n, t, code, from, to, Some(items), parseDate) == Map(Filter(items, keep), FormatGdacs)
  {
    var keep := GdacsKeep(n, Terms(t, code), Expand(from, to), parseDate);
    FilterMember(items, keep, item);
    FilterIsSubsequence(items, keep);
  }

  /** As written, `fetch_gdacs_rss` ignores the query dates: with a parser
      that rejects short stamps it returns the country matches, formatted,
      whatever the window. */
  lemma GdacsEventsAsWritten(t: CountryTable, code: string, from: Moment, to: Option<Moment>,
                             from2: Moment, to2: Option<Moment>,
                             items: seq<GdacsItem>, parseDate: string -> Option<int>)
    requires RejectsShortStamps(parseDate)
    ensures GdacsEvents(RssDatePrefixAsWritten, t, code, from, to, Some(items), parseDate)
            == Map(Filter(items, CountryKeep(Terms(t, code))), FormatGdacs)
    ensures GdacsEvents(RssDatePrefixAsWritten, t, code, from, to, Some(items), parseDate)
            == GdacsEvents(RssDatePrefixAsWritten, t, code, from2, to2, Some(items), parseDate)
  {
    var terms := Terms(t, code);
    forall w: Window, item | item in items
      ensures GdacsKeep(RssDatePrefixAsWritten, terms, w, parseDate)(item) == CountryKeep(terms)(item)
    {
      DateFilterInertAsWritten(terms, w, parseDate, item);
    }
    FilterCongruent(items, GdacsKeep(RssDatePrefixAsWritten, terms, Expand(from, to), parseDate), CountryKeep(terms));
    FilterCongruent(items, GdacsKeep(RssDatePrefixAsWritten, terms, Expand(from2, to2), parseDate), CountryKeep(terms));
  }

  /** For a single-day query the date filter accepts exactly the days within
      a week of it, both ends included. */
  lemma SingleDayWindowInclusive(day: int, e: int)
    ensures DateInWindow(Some(e), Expand(Date(day), Some(Date(day)))) <==> day - 7 <= e <= day + 7
  {
  }

  lemma FormatGdacsTagged(item: GdacsItem)
    ensures IsGdacsEvent(FormatGdacs(item))
  {
    var r := GdacsRecord(item);
    RenderStartsWithSource(r);
    assert "SOURCE:" + r.source + " |" == GdacsTag;
  }

  /** Every GDACS event carries the GDACS tag. */
  lemma GdacsEventsTagged(n: nat, t: CountryTable, code: string, from: Moment, to: Option<Moment>,
                          feed: Option<seq<GdacsItem>>, parseDate: string -> Option<int>)
    ensures forall e :: e in GdacsEvents(n, t, code, from, to, feed, parseDate) ==> IsGdacsEvent(e)
  {
    if feed.Some? {
      var kept := Filter(feed.value, GdacsKeep(n, Terms(t, code), Expand(from, to), parseDate));
      var events := Map(kept, FormatGdacs);
      assert events == GdacsEvents(n, t, code, from, to, feed, parseDate);
      forall e | e in events ensures IsGdacsEvent(e) {
        var k :| 0 <= k < |events| && events[k] == e;
        FormatGdacsTagged(kept[k]);
      }
    }
  }

  // -------------------------------------------------------------- NewsData

  /** Python's `value or default` for an optional string: the value when it
      is truthy, else the default. */
  function OrDefault(v: Option<string>, default: string): (r: string)
    ensures r == default || v == Some(r)
    ensures default != "" ==> r != ""
  {
    if v.Some? && v.value != "" then v.value else default
  }

  /** The fields of the event text built for one article. */
  function NewsdataRecord(a: NewsArticle): EventRecord {
    EventRecord("NEWSDATA", "NEWS", "NEWS", OrDefault(a.title, "No title"),
                Take(OrDefault(a.pubDate, ""), 10), "Source", OrDefault(a.sourceId, "unknown"),
                Take(OrDefault(a.description, ""), 200), OrDefault(a.link, ""))
  }

  /** The fields of a NewsData event: each value when it is present and
      non-empty, else its default; the date cut to 10 characters and the
      description to 200. */
  lemma NewsdataRecordFields(a: NewsArticle)
    ensures var r := NewsdataRecord(a);
      && r.source == "NEWSDATA" && r.alert == "NEWS" && r.kind == "NEWS" && r.placeLabel == "Source"
      && r.title == (if a.title.Some? && a.title.value != "" then a.title.value else "No title")
      && r.place == (if a.sourceId.Some? && a.sourceId.value != "" then a.sourceId.value else "unknown")
      && r.title != "" && r.place != ""
      && r.link == (if a.link.Some? then a.link.value else "")
    ensures var r := NewsdataRecord(a);
      var pub := if a.pubDate.Some? then a.pubDate.value else "";
      && |r.date| == (if |pub| < 10 then |pub| else 10) && IsPrefix(r.date, pub)
      && (|pub| <= 10 ==> r.date == pub)
    ensures var r := NewsdataRecord(a);
      var desc := if a.description.Some? then a.description.value else "";
      && |r.details| == (if |desc| < 200 then |desc| else 200) && IsPrefix(r.details, desc)
      && (|desc| <= 200 ==> r.details == desc)
  {
  }

  function FormatNewsdata(a: NewsArticle): string {
    Render(NewsdataRecord(a))
  }

  /** The NewsData request is made for the lower-cased alpha-2 code and the
      expanded window; every returned article becomes one event. */
  function NewsdataEvents(t: CountryTable, code: string, from: Moment, to: Option<Moment>,
                          api: (string, int, Option<int>) -> Option<seq<NewsArticle>>): seq<string>
  {
    var w := Expand(from, to);
    match api(Lower(ToIso2(t, code)), w.lo, w.hi)
    case None => []
    case Some(results) => Map(results, FormatNewsdata)
  }

  /** `fetch_newsdata`: build the request, then format the articles. */
  method FetchNewsdata(t: CountryTable, code: string, from: Moment, to: Option<Moment>,
                       api: (string, int, Option<int>) -> Option<seq<NewsArticle>>)
    returns (events: seq<string>)
    ensures events == NewsdataEvents(t, code, from, to, api)
  {
    var w := Expand(from, to);
    var iso2 := Lower(ToIso2(t, code));
    var response := api(iso2, w.lo, w.hi);
    if response.None? {
      return [];
    }
    events := FormatArticles(response.value);
  }

  /** The loop of `fetch_newsdata`: one event per article, in order. */
  method FormatArticles(results: seq<NewsArticle>) returns (events: seq<string>)
    ensures events == Map(results, FormatNewsdata)
  {
    events := [];
    var i := 0;
    while i < |results|
      invariant 0 <= i <= |results|
      invariant events == Map(results[..i], FormatNewsdata)
    {
      assert results[..i + 1] == results[..i] + [results[i]];
      events := events + [FormatNewsdata(results[i])];
      i := i + 1;
    }
    assert results[..|results|] == results;
  }

  lemma FormatNewsdataTagged(a: NewsArticle)
    ensures IsNewsdataEvent(FormatNewsdata(a))
  {
    var r := NewsdataRecord(a);
    RenderStartsWithSource(r);
    assert "SOURCE:" + r.source + " |" == NewsdataTag;
  }

  /** Every NewsData event carries the NewsData tag. */
  lemma NewsdataEventsTagged(t: CountryTable, code: string, from: Moment, to: Option<Moment>,
                             api: (string, int, Option<int>) -> Option<seq<NewsArticle>>)
    ensures forall e :: e in NewsdataEvents(t, code, from, to, api) ==> IsNewsdataEvent(e)
  {
    var w := Expand(from, to);
    var response := api(Lower(ToIso2(t, code)), w.lo, w.hi);
    if response.Some? {
      var events := Map(response.value, FormatNewsdata);
      assert events == NewsdataEvents(t, code, from, to, api);
      forall e | e in events ensures IsNewsdataEvent(e) {
        var k :| 0 <= k < |events| && events[k] == e;
        FormatNewsdataTagged(response.value[k]);
      }
    }
  }

  // -------------------------------------------------------------- holidays

  /** An entry with both a date and a name. */
  predicate HolidayComplete(h: HolidayEntry) {
    h.date.Some? && h.date.value != "" && h.name.Some? && h.name.value != ""
  }

  function FormatHoliday(h: HolidayEntry): string {
    OrDefault(h.date, "") + " | " + OrDefault(h.name, "")
  }

  /** `fetch_holidays`: "date | name" for each complete entry, in order;
      nothing when the request fails. */
  function FetchHolidays(t: CountryTable, code: string, year: string,
                         api: (string, string) -> Option<seq<HolidayEntry>>): seq<string>
  {
    match api(ToIso2(t, code), year)
    case None => []
    case Some(entries) => Map(Filter(entries, HolidayComplete), FormatHoliday)
  }

  /** Each hit is the date and name of a complete entry; every complete entry
      gives a hit. */
  lemma HolidayHits(t: CountryTable, code: string, year: string,
                    api: (string, string) -> Option<seq<HolidayEntry>>)
    ensures var hits := FetchHolidays(t, code, year, api);
      && (api(ToIso2(t, code), year).None? ==> hits == [])
      && (forall k :: 0 <= k < |hits| ==>
            exists h :: h in api(ToIso2(t, code), year).value && HolidayComplete(h)
                      && hits[k] == h.date.value + " | " + h.name.value)
      && (forall h :: (api(ToIso2(t, code), year).Some? && h in api(ToIso2(t, code), year).value
                       && HolidayComplete(h)) ==> h.date.value + " | " + h.name.value in hits)
  {
    var response := api(ToIso2(t, code), year);
    if response.Some? {
      var entries := response.value;
      var kept := Filter(entries, HolidayComplete);
      var hits := FetchHolidays(t, code, year, api);
      forall k | 0 <= k < |hits|
        ensures exists h :: h in entries && HolidayComplete(h) && hits[k] == h.date.value + " | " + h.name.value
      {
        assert kept[k] in kept;
      }
      forall h | h in entries && HolidayComplete(h) ensures h.date.value + " | " + h.name.value in hits {
        FilterMember(entries, HolidayComplete, h);
        var k :| 0 <= k < |kept| && kept[k] == h;
        assert hits[k] == FormatHoliday(h);
      }
    }
  }

  const NoPublicHolidays := "NO_PUBLIC_HOLIDAYS"
  const NoDisruptionEvents := "NO_DISRUPTION_EVENTS"

  /** `"\n".join(holiday_list) or "NO_PUBLIC_HOLIDAYS"` */
  function HolidayText(hits: seq<string>): string {
    var joined := Join("\n", hits);
    if joined == "" then NoPublicHolidays else joined
  }

  /** The sentinel stands for the holiday list exactly when no holiday was found. */
  lemma HolidayFallback(t: CountryTable, code: string, year: string,
                        api: (string, string) -> Option<seq<HolidayEntry>>)
    ensures var hits := FetchHolidays(t, code, year, api);
      && (HolidayText(hits) == NoPublicHolidays <==> hits == [])
      && (hits != [] ==> HolidayText(hits) == Join("\n", hits))
  {
    var hits := FetchHolidays(t, code, year, api);
    if hits != [] {
      var entries := api(ToIso2(t, code), year).value;
      var first := Filter(entries, HolidayComplete)[0];
      var date := OrDefault(first.date, "");
      var joined := Join("\n", hits);
      assert hits[0] == date + " | " + OrDefault(first.name, "");
      assert joined[..|hits[0]|] == hits[0];
      assert joined[|date|] == ' ';
      assert ' ' !in NoPublicHolidays;
    }
  }

  // ----------------------------------------------------- the whole check

  /** The arguments of `run_logistics_check`. */
  datatype CheckRequest = CheckRequest(
    countryName: string, countryCode: string, fromDateStr: string, dateDisplay: string,
    dateMode: string, selectedDate: Option<int>, startDate: Option<int>, endDate: Option<int>)

  datatype HolidayPrompt = HolidayPrompt(
    countryName: string, countryCode: string, dateStart: string, dateEnd: string, knownHolidays: string)

  datatype DisasterPrompt = DisasterPrompt(events: string, countryName: string, dateDisplay: string)

  datatype SummaryPrompt = SummaryPrompt(processedInput: string, countryName: string, dateDisplay: string)

  /** What the check draws on from outside. */
  datatype Services = Services(
    today: int,
    countries: CountryTable,
    holidayApi: (string, string) -> Option<seq<HolidayEntry>>,     // (alpha-2 code, year)
    gdacsFeed: Option<seq<GdacsItem>>,
    newsApi: (string, int, Option<int>) -> Option<seq<NewsArticle>>, // (alpha-2 code, from, to)
    parseIsoDate: string -> Option<int>,                             // strptime "%Y-%m-%d"
    parseRssDate: string -> Option<int>,                             // strptime "%a, %d %b %Y %H:%M"
    showDate: int -> string,                                         // str(date)
    holidayChain: HolidayPrompt -> string,
    disasterChain: DisasterPrompt -> string,
    summaryChain: SummaryPrompt -> string)

  const SingleDateMode := "Single date"

  function StartDate(req: CheckRequest): Option<int> {
    if req.dateMode == SingleDateMode then req.selectedDate else req.startDate
  }

  function EndDate(req: CheckRequest): Option<int> {
    if req.dateMode == SingleDateMode then req.selectedDate else req.endDate
  }

  datatype PeriodType = Future | PastOrPresent

  function PeriodTypeOf(start: int, today: int): (p: PeriodType)
    ensures p == Future <==> start > today
  {
    if start > today then Future else PastOrPresent
  }

  /** The holiday prompt: the holidays are looked up for the year, the text
      before the first "-"; the period ends seven days after the parsed start
      date. */
  function HolidayPromptOf(req: CheckRequest, env: Services, base: int): (p: HolidayPrompt)
    ensures p.dateStart == req.fromDateStr && p.dateEnd == env.showDate(base + 7)
    ensures p.countryCode == Upper(req.countryCode) && p.countryName == req.countryName
    ensures var year := Split(req.fromDateStr, "-")[0];
      p.knownHolidays == HolidayText(FetchHolidays(env.countries, req.countryCode, year, env.holidayApi))
  {
    var year := Split(req.fromDateStr, "-")[0];
    var hits := FetchHolidays(env.countries, req.countryCode, year, env.holidayApi);
    HolidayPrompt(req.countryName, Upper(req.countryCode), req.fromDateStr, env.showDate(base + 7), HolidayText(hits))
  }

  /** The end of the requested period as `expand` receives it. */
  function EndMoment(req: CheckRequest): Option<Moment> {
    if EndDate(req).Some? then Some(Date(EndDate(req).value)) else None
  }

  function GdacsPart(req: CheckRequest, env: Services, start: int): seq<string> {
    GdacsEvents(RssDatePrefixAsWritten, env.countries, req.countryCode, Date(start), EndMoment(req),
                env.gdacsFeed, env.parseRssDate)
  }

  function NewsdataPart(req: CheckRequest, env: Services, start: int): seq<string> {
    NewsdataEvents(env.countries, req.countryCode, Date(start), EndMoment(req), env.newsApi)
  }

  /** The merged event list: GDACS events, then NewsData events. */
  function DisruptionEvents(req: CheckRequest, env: Services, start: int): seq<string> {
    GdacsPart(req, env, start) + NewsdataPart(req, env, start)
  }

  /** The disaster chain runs only when there are events. */
  function DisasterOutput(events: seq<string>, req: CheckRequest, chain: DisasterPrompt -> string): string {
    if events == [] then NoDisruptionEvents
    else chain(DisasterPrompt(Join("\n\n", events), req.countryName, req.dateDisplay))
  }

  /** `run_logistics_check` as a function of its request and its services. */
  function LogisticsCheck(req: CheckRequest, env: Services): Result<string> {
    match StartDate(req)
    case None => Err(TypeError)
    case Some(start) =>
      match env.parseIsoDate(req.fromDateStr)
      case None => Err(ValueError)
      case Some(base) =>
        var holidayOutput := env.holidayChain(HolidayPromptOf(req, env, base));
        if PeriodTypeOf(start, env.today) == Future then Success(Strip(holidayOutput))
        else
          var disasterOutput := DisasterOutput(DisruptionEvents(req, env, start), req, env.disasterChain);
          var processed := "=== HOLIDAYS ===\n" + holidayOutput + "\n\n=== DISRUPTIONS ===\n" + disasterOutput;
          Success(Strip(env.summaryChain(SummaryPrompt(processed, req.countryName, req.dateDisplay))))
  }

  /** `run_logistics_check` step by step. */
  method RunLogisticsCheck(req: CheckRequest, env: Services) returns (r: Result<string>)
    ensures r == LogisticsCheck(req, env)
  {
    var chosen := if req.dateMode == SingleDateMode then req.selectedDate else req.startDate;
    if chosen.None? {
      return Err(TypeError);
    }
    var period := PeriodTypeOf(chosen.value, env.today);
    var year := Split(req.fromDateStr, "-")[0];
    var holidayList := FetchHolidays(env.countries, req.countryCode, year, env.holidayApi);
    var holidayText := HolidayText(holidayList);
    var baseDate := env.parseIsoDate(req.fromDateStr);
    if baseDate.None? {
      return Err(ValueError);
    }
    var lookahead := env.showDate(baseDate.value + 7);
    var prompt := HolidayPrompt(req.countryName, Upper(req.countryCode), req.fromDateStr, lookahead, holidayText);
    assert prompt == HolidayPromptOf(req, env, baseDate.value);
    var holidayOutput := env.holidayChain(prompt);
    if period == Future {
      return Success(Strip(holidayOutput));
    }
    var fd := Date(chosen.value);
    var td := EndDate(req);
    var to := if td.Some? then Some(Date(td.value)) else None;
    var gdacs := FetchGdacsRss(env.countries, req.countryCode, fd, to, env.gdacsFeed, env.parseRssDate);
    var news := FetchNewsdata(env.countries, req.countryCode, fd, to, env.newsApi);
    assert gdacs == GdacsPart(req, env, chosen.value);
    assert news == NewsdataPart(req, env, chosen.value);
    var allEvents := gdacs + news;
    var disasterOutput;
    if allEvents == [] {
      disasterOutput := NoDisruptionEvents;
    } else {
      disasterOutput := env.disasterChain(DisasterPrompt(Join("\n\n", allEvents), req.countryName, req.dateDisplay));
    }
    assert allEvents == DisruptionEvents(req, env, chosen.value);
    assert disasterOutput == DisasterOutput(allEvents, req, env.disasterChain);
    var summary := env.summaryChain(SummaryPrompt(
      "=== HOLIDAYS ===\n" + holidayOutput + "\n\n=== DISRUPTIONS ===\n" + disasterOutput,
      req.countryName, req.dateDisplay));
    return Success(Strip(summary));
  }

  /** A future period is answered from the holiday chain alone: the disaster
      sources and the disaster and summary chains do not affect the answer. */
  lemma FutureAnswersFromHolidays(req: CheckRequest, env: Services, base: int,
                                  feed: Option<seq<GdacsItem>>,
                                  newsApi: (string, int, Option<int>) -> Option<seq<NewsArticle>>,
                                  disasterChain: DisasterPrompt -> string,
                                  summaryChain: SummaryPrompt -> string)
    requires StartDate(req).Some? && StartDate(req).value > env.today
    requires env.parseIsoDate(req.fromDateStr) == Some(base)
    ensures LogisticsCheck(req, env) == Success(Strip(env.holidayChain(HolidayPromptOf(req, env, base))))
    ensures LogisticsCheck(req, env.(gdacsFeed := feed, newsApi := newsApi,
                                     disasterChain := disasterChain, summaryChain := summaryChain))
            == LogisticsCheck(req, env)
  {
    var env2 := env.(gdacsFeed := feed, newsApi := newsApi,
                     disasterChain := disasterChain, summaryChain := summaryChain);
    assert HolidayPromptOf(req, env2, base) == HolidayPromptOf(req, env, base);
  }

  /** With no events at all the disaster chain is never consulted: the
      disruption part of the summary input is the sentinel, whatever the chain. */
  lemma NoEventsSkipsDisasterChain(req: CheckRequest, env: Services, start: int,
                                   disasterChain: DisasterPrompt -> string)
    requires StartDate(req) == Some(start) && start <= env.today
    requires DisruptionEvents(req, env, start) == []
    ensures LogisticsCheck(req, env.(disasterChain := disasterChain)) == LogisticsCheck(req, env)
    ensures DisasterOutput(DisruptionEvents(req, env, start), req, disasterChain) == NoDisruptionEvents
  {
    var env2 := env.(disasterChain := disasterChain);
    assert DisruptionEvents(req, env2, start) == DisruptionEvents(req, env, start);
    assert forall b :: HolidayPromptOf(req, env2, b) == HolidayPromptOf(req, env, b);
  }

  /** In `a + b`, the positions before `|a|` hold `a` and the rest hold `b`. */
  lemma ConcatTagged(a: seq<string>, b: seq<string>)
    requires forall e :: e in a ==> IsGdacsEvent(e)
    requires forall e :: e in b ==> IsNewsdataEvent(e)
    ensures forall i :: 0 <= i < |a| ==> IsGdacsEvent((a + b)[i])
    ensures forall i :: |a| <= i < |a + b| ==> IsNewsdataEvent((a + b)[i])
  {
    forall i | 0 <= i < |a| ensures IsGdacsEvent((a + b)[i]) {
      assert (a + b)[i] == a[i] && a[i] in a;
    }
    forall i | |a| <= i < |a + b| ensures IsNewsdataEvent((a + b)[i]) {
      assert (a + b)[i] == b[i - |a|] && b[i - |a|] in b;
    }
  }

  /** The merged list holds every GDACS event before every NewsData event. */
  lemma GdacsBeforeNewsdata(req: CheckRequest, env: Services, start: int)
    ensures var events := DisruptionEvents(req, env, start);
      var k := |GdacsPart(req, env, start)|;
      && k <= |events|
      && (forall i :: 0 <= i < k ==> IsGdacsEvent(events[i]))
      && (forall i :: k <= i < |events| ==> IsNewsdataEvent(events[i]))
      && (forall i :: 0 <= i < |events| ==> (IsGdacsEvent(events[i]) <==> i < k))
  {
    GdacsEventsTagged(RssDatePrefixAsWritten, env.countries, req.countryCode, Date(start), EndMoment(req), env.gdacsFeed, env.parseRssDate);
    NewsdataEventsTagged(env.countries, req.countryCode, Date(start), EndMoment(req), env.newsApi);
    ConcatTagged(GdacsPart(req, env, start), NewsdataPart(req, env, start));
    var events := DisruptionEvents(req, env, start);
    forall i | |GdacsPart(req, env, start)| <= i < |events| ensures !IsGdacsEvent(events[i]) {
      SourcesDistinct(events[i]);
    }
  }
}
