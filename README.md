# Logistics disruption monitor — a Dafny model

This project models the deterministic core of a logistics disruption monitor.
The monitor gathers raw material for language-model summaries: public holidays,
GDACS disaster alerts and NewsData articles for one country and period. The
Streamlit page of the monitor passes its headlines to a chain only when at
least one of them names an active disruption, and colours the report's
paragraphs by severity.

Two program files are modelled:

- `controller.py`, as module `Controller` in `controller.dfy`. It covers
  country-code resolution, the ±7-day query window, GDACS item selection and
  formatting, NewsData and holiday formatting, and the control flow of
  `run_logistics_check`.
- `streamlit.py`, as module `Streamlit` in `streamlit.dfy`. It covers the
  active-keyword filter, the NewsData headlines, the deduplicate-and-gate step
  of `get_new_headlines`, and the severity styling of the report.

There are three supporting modules:

- `Text` (`text.dfy`): the Python string operations the code uses, over
  `seq<char>`. These are ASCII `lower`/`upper`, `strip()`, `s[:n]`, `in`,
  `split` and `join`.
- `Seqs` (`seqs.dfy`): list comprehensions and append loops, as `Filter` and
  `Map`.
- `Feeds` (`feeds.dfy`) and `Wrappers` (`wrappers.dfy`): the records received
  from the feeds, with `None` for a missing field, plus the `Option` and
  `Result` types.

Each loop of the source is a Dafny method with loop invariants, proved
equal to a specification function:

- `SelectGdacsItems` (the item loop of `fetch_gdacs_rss`) and
  `FormatArticles` (the article loop of `fetch_newsdata`);
- `FilterActiveEvents` and `ClassifyReport`.

`Deduplicate` is a loop too. It is specified by a relation, because the order
of a `set` is not fixed. Five methods without loops call these:

- `FetchGdacsRss`, `FetchNewsdata` and `RunLogisticsCheck` are proved equal to
  specification functions.
- `GetNewHeadlines` and `ShowReport` are specified by relations between input
  and output.

The properties are proved as lemmas about the specification functions.

Everything the code obtains from outside is a parameter:

- the HTTP responses, already decoded;
- `strptime` and `str(date)`;
- today's date;
- the country database;
- the three language-model chains and the one on the Streamlit page.

Dates are day ordinals. A `datetime` is a day plus a time of day, and `expand`
truncates it to its day.

## Model

| member | source | states |
|---|---|---|
| `Controller.Resolve` | controller.py:67-69 | No country is found exactly when the stripped, upper-cased code is missing from the alpha-3 table (three characters) or the alpha-2 table (any other length). In a well-formed table, the country found carries that code. |
| `Controller.NormalizeCodeIdempotent` | controller.py:68 | Normalising twice is normalising once, and lower-casing the input first changes nothing. |
| `Controller.ResolveIgnoresCaseAndPadding` | controller.py:67-69 | A code resolves to the same country after normalisation or lower-casing. |
| `Controller.ToIso2` | controller.py:71-73 | The result is the resolved country's alpha-2 code. Failing that, it is the first two characters of the raw, unstripped code, upper-cased, and its length is at most 2. |
| `Controller.ToIso2OfListedCode` | controller.py:71-73 | In a well-formed table, a listed alpha-2 code maps to itself normalised, and a listed alpha-3 code maps to its country's alpha-2 code. |
| `Controller.Terms` | controller.py:75-82 | An unresolved code gives only the lower-cased code. A resolved code gives exactly the lower-cased name and alpha-3 code, plus the common name when there is one. |
| `Controller.TermsAreLowerCase` | controller.py:75-82 | There are one to three terms, and each is its own lower-case form, so it can match lower-cased text. |
| `Controller.Expand` | controller.py:84-91 | When both ends are the same day, the window covers the 15 days from 7 before to 7 after. Otherwise the truncated ends are kept as they are. |
| `Controller.SingleDayWindowInclusive` | controller.py:88-90 | For a single-day query, the date filter `DateInWindow` accepts a parsed day exactly when it is within 7 days of the query day, both ends included. |
| `Controller.GdacsRecordFields` | controller.py:114-138 | These are the fields of a GDACS event built by `GdacsRecord`. Each element text is taken through `Field` (the helper `g`: stripped text, or "" when the element or its text is missing). The fields are: the title, country, `fromdate` and link as-is from `Field`; the alert level and event type upper-cased; and the first `min(200, n)` characters of the description, all of it when it fits. |
| `Controller.SelectGdacsItems` | controller.py:113-138 | The item loop returns the kept items, formatted, in feed order. An item is kept when it satisfies `KeepItemWith(n, …)`, where the parser sees the first `n` characters of the stamp. |
| `Controller.FetchGdacsRss` | controller.py:97-141 | As written, the result is what the loop selects from the feed for the expanded window, with the parser seeing 16 characters of each stamp (`fromdate_str[:16]`). A failed request gives no events. |
| `Controller.GdacsSelection` | controller.py:113-131 | For any prefix length `n`, an item yields an event exactly when all three hold: it is in the feed; a term occurs in its lower-cased "title country" (`CountryMatches`); and the date parsed from the first `n` characters of its stamp passes the window (`DateInWindow`). An unparseable date passes. With no upper bound, any date from the lower bound on passes. The events keep feed order. With `n` = 22 this is the corrected rule, and with `n` = 16 the rule as written. |
| `Controller.GdacsEventsAsWritten` | controller.py:97-141 | As written, with a parser that rejects text shorter than 19 characters, `fetch_gdacs_rss` returns exactly the items whose country matches, formatted, in feed order. The result is the same for every query window. |
| `Controller.DateFilterInertAsWritten` | controller.py:125-131 | As written, the parser sees 16 characters. If the parser, like `strptime` for this format, cannot parse fewer than 19 characters, an item is kept exactly when its country matches: the date window has no effect. |
| `Controller.StaleAlertKeptAsWritten` | controller.py:125-131 | A concrete item dated 6 January 2025 is kept as written for a window in late May 2025, and dropped under the corrected rule. |
| `Controller.DateFilterApplies` | controller.py:125-131 | Under the corrected rule `KeepItem`, an item whose stamp parses is kept exactly when its country matches and its day lies in the window. |
| `Controller.RenderStartsWithSource` | controller.py:133-138 | Every formatted event (`Render`) starts with `SOURCE:<source> \|`. |
| `Controller.GdacsEventsTagged` | controller.py:133-138 | Every GDACS event carries the GDACS tag. |
| `Controller.SourcesDistinct` | controller.py:134 | No event text carries both the GDACS and the NewsData tag. |
| `Controller.OrDefault` | controller.py:177-181 | `value or default` is the default or the given value, never anything else. With a non-empty default, the result is never empty. |
| `Controller.NewsdataRecordFields` | controller.py:176-188 | These are the fields of a NewsData event built by `NewsdataRecord`. The title is the article's title when present and non-empty, else "No title". The source is the source id when present and non-empty, else "unknown". The link is the link, or "". The date is the first `min(10, n)` characters of the publication date, all of it when it fits. The details are the first `min(200, n)` characters of the description, all of it when it fits. |
| `Controller.FormatArticles` | controller.py:176-188 | The article loop formats every article, in order. |
| `Controller.FetchNewsdata` | controller.py:145-191 | The request is built from the lower-cased alpha-2 code and the expanded window, and every returned article becomes an event. A failed request gives no events. |
| `Controller.NewsdataEventsTagged` | controller.py:183-188 | Every NewsData event carries the NewsData tag. |
| `Controller.HolidayHits` | controller.py:195-206 | `FetchHolidays` gives no hits when the request fails. Every hit is `date \| name` of an entry that has both. Every such entry gives a hit. |
| `Controller.HolidayFallback` | controller.py:224 | The holiday text is `NO_PUBLIC_HOLIDAYS` exactly when no holiday was found, and otherwise it is the hits joined by newlines. |
| `Controller.PeriodTypeOf` | controller.py:216-218 | The period is future exactly when the chosen start date is after today. |
| `Controller.HolidayPromptOf` | controller.py:222-233 | The holiday prompt has the start string as given, the end seven days after the parsed start, and the country code upper-cased. Its known holidays are the holiday text (`HolidayText`: the hits or `NO_PUBLIC_HOLIDAYS`) of the holidays fetched for the year. The year is the text before the first "-" of the start string. |
| `Controller.RunLogisticsCheck` | controller.py:210-261 | The step-by-step check equals its specification `LogisticsCheck`. A missing chosen start date is a `TypeError`. A start string that does not parse is then a `ValueError`. A future period returns the stripped holiday output. Otherwise it returns the stripped summary of the holiday output and the disaster output, where the GDACS events, selected as written with 16 characters of each stamp, come before the NewsData events. |
| `Controller.FutureAnswersFromHolidays` | controller.py:216-237 | For a start after today, the answer is the stripped holiday-chain output. It does not depend on the GDACS feed, the NewsData API, or the disaster or summary chains. |
| `Controller.NoEventsSkipsDisasterChain` | controller.py:246-252 | With no events, the disaster part is `NO_DISRUPTION_EVENTS` and the disaster chain cannot affect the answer. |
| `Controller.GdacsBeforeNewsdata` | controller.py:243 | In the merged event list, every GDACS event comes before every NewsData event. An event is a GDACS event exactly when its position is before the split point, so the split point is unique. |
| `Streamlit.IsActive` | streamlit.py:60-69 | An event is active exactly when some listed keyword occurs in it, ignoring case. |
| `Streamlit.IsActiveIgnoresCase` | streamlit.py:69 | Upper- or lower-casing an event does not change whether it is active. |
| `Streamlit.FilterActiveEvents` | streamlit.py:66-71 | The loop keeps exactly the active events, in their original order, so the result is a subsequence of the input. |
| `Streamlit.ActiveFilterIdempotent` | streamlit.py:66-71 | Filtering the filtered list again changes nothing. |
| `Streamlit.HeadlinesOfTitledArticles` | streamlit.py:88-93 | `NewsHeadlines` gives one headline per article with a non-empty title, in order. Each headline is `title - description`, and a missing description shows as `None`. |
| `Streamlit.Deduplicate` | streamlit.py:116 | `list(set(...))` lists every distinct headline exactly once. |
| `Streamlit.GetNewHeadlines` | streamlit.py:112-122 | There is no report exactly when no headline is active. Otherwise the chain gets every distinct headline, active or not, joined line by line. |
| `Streamlit.SeverityPrecedence` | streamlit.py:136-143 | `Classify` gives each block one of four outcomes. It styles a block high exactly when the block contains HIGH. It styles it medium exactly when it contains MEDIUM and not HIGH. It styles it low exactly when it contains LOW and neither of the others. Otherwise the block is plain text. Text mentioning HIGH stays high whatever surrounds it. |
| `Streamlit.ClassifyReport` | streamlit.py:135-143 | The blocks are the paragraphs of the report, in order, each with its severity. No block contains a blank line, and joining them back gives the report. |
| `Streamlit.ShowReport` | streamlit.py:129-146 | A missing or empty report shows the "no active disruptions" notice. Any other report is shown as its classified `"\n\n"` paragraphs, in order, and together they give the whole report. |
| `Text.Strip` | controller.py:116 | `strip()` removes exactly the whitespace at both ends. The result neither starts nor ends with whitespace. |
| `Text.StripIdempotent` | controller.py:116 | Stripping twice is stripping once. |
| `Text.StripUpper` | controller.py:68 | Stripping and upper-casing commute. |
| `Text.Take` | controller.py:136 | `s[:n]` is the first `min(n, len(s))` characters of `s`. |
| `Text.FindFrom` | streamlit.py:69 | The search finds the leftmost occurrence at or after the start position, or reports that there is none. |
| `Text.Contains` | controller.py:121 | `pat in text` holds exactly when the pattern occurs at some position. |
| `Text.ContainsExtend` | streamlit.py:136-141 | Text that contains a pattern still contains it with anything added before or after. |
| `Text.Split` | controller.py:222 | `split(sep)` gives at least one part, and no part contains the separator. |
| `Text.SplitCuts` | streamlit.py:135 | The cuts are Python's leftmost ones. The first part is the text up to the first occurrence of the separator, or the whole text when there is none. The remaining parts are the split of the text after that occurrence. |
| `Text.JoinSplit` | streamlit.py:135 | Joining the parts of a split with the same separator gives back the original text. |
| `Text.LowerIdempotent` | controller.py:79-82 | Lower-casing twice is lower-casing once. |
| `Seqs.FilterIsSubsequence` | streamlit.py:66-71 | A comprehension with a condition keeps the order of its input. |
| `Seqs.FilterMember` | controller.py:201 | An element is kept exactly when it is in the input and satisfies the condition. |
| `Seqs.FilterEmpty` | streamlit.py:119 | The filtered list is empty exactly when no element satisfies the condition. |

## Findings

| source | as written | input that shows it | evidently intended | confidence | as-written member | corrected member |
|---|---|---|---|---|---|---|
| controller.py:125-131 | The GDACS date filter parses only the first 16 characters of `gdacs:fromdate`, but the format "%a, %d %b %Y %H:%M" matches at least 19 (four-digit year, at least one character for day, hour, minute and each gap). Every parse fails, and the `except` keeps the item, so no item is ever dropped by date. | An item for the queried country with `gdacs:fromdate` "Mon, 06 Jan 2025 10:00:00 GMT", queried for a window in late May 2025: it is kept. | Parse the 22-character stamp "Mon, 06 Jan 2025 10:00", so that items dated outside the window are dropped. | high; not executed | `Controller.DateFilterInertAsWritten`, `Controller.StaleAlertKeptAsWritten`, `Controller.GdacsEventsAsWritten` | `Controller.KeepItem`, `Controller.DateFilterApplies`, `Controller.GdacsSelection` |

Both rules are `KeepItemWith`, which takes the number of characters of the
stamp the parser sees. `GdacsKeep`, `SelectGdacsItems`, `GdacsEvents` and
`GdacsSelection` take that number too. With 22 they give the corrected
selection, and `DateFilterApplies` shows that its window decides.
`FetchGdacsRss`, and through it `RunLogisticsCheck`, pass 16, as the code
does. So `run_logistics_check` sees the GDACS events of the program as written.

## Left out

- HTTP requests, time-outs and `raise_for_status` are not modelled. Each source is a parameter that gives the decoded response, or `None` for a failed request, which the code turns into an empty list.
- XML and JSON parsing are not modelled. In `fetch_gdacs_rss` and `fetch_newsdata`, `ET.fromstring` and `r.json()` run outside the `try`, so a malformed body raises. In `fetch_holidays`, `r.json()` runs inside the `try`, so a malformed body gives `[]`, which the model's `None` response covers. The model takes the parsed items as given.
- JSON fields that are not strings are not modelled. Every field is an optional string.
- `strptime` and `str(date)` are parameters (`parseIsoDate`, `parseRssDate`, `showDate`). Of `strptime` for the RSS format, only its shortest accepted length is stated (`RejectsShortStamps`).
- The language-model chains, their prompt templates and the Tavily search are parameters. The prompts are records of their input variables.
- An exception raised by a chain propagates out of `run_logistics_check` and `get_new_headlines`. Chains are total functions in the model, so this case is not modelled.
- Day ordinals are unbounded, so the `OverflowError` that `± timedelta(days=7)` raises next to `date.min` or `date.max` is not modelled.
- The `pycountry` database is an abstract table keyed by alpha-2 and alpha-3 code. Its case-insensitive lookup is modelled by normalising the code before the lookup.
- Only ASCII letters are case-mapped, and only ASCII whitespace is stripped. Python's Unicode `lower`, `upper` and `strip` do more.
- `Streamlit.Deduplicate`: the order of `set` iteration is not determined. The model lets it be any order and proves only membership and the absence of duplicates.
- `Streamlit.GetNewHeadlines`: the result is stated for some order of the distinct headlines, not for the runtime's particular order.
- A Tavily result without `content` gives `""` in the source. The model takes the contents as a list of strings.
- The `run_logistics_check` inputs are assumed to be well-typed. A `None` chosen start date is modelled as the `TypeError` that `>` raises. Other ill-typed inputs are not modelled.
- Logging, environment loading and timestamps (`datetime.now()` in messages) are not modelled, because they do not affect results.
- Streamlit rendering is not modelled. The page is reduced to which blocks are shown and with what severity, with the colours in `Streamlit.Colour`.
- The other program files are not part of this model: `streamlit_app.py`, `main.py`, `sa_monitor.py` and `test_dotenv.py`.
