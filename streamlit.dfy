/**
 * The deterministic part of the Streamlit disruption monitor: the active-event
 * keyword filter, the NewsData headline list, the deduplicate/filter gate in
 * front of the language-model chain, and the per-block severity styling of the
 * report it returns.
 */
module Streamlit {
  import opened Wrappers
  import opened Text
  import opened Seqs
  import opened Feeds

  // -------------------------------------------------------- keyword filter

  const ActiveKeywords: seq<string> := [
    "border closed", "port closed", "strike ongoing", "road blocked",
    "shipment delayed", "warehouse fire", "customs backlog",
    "transport disruption", "freight delay", "package delay"
  ]

  /** Some keyword occurs in the event text, ignoring ASCII case. */
  function IsActive(e: string): (r: bool)
    ensures r <==> exists k, i :: k in ActiveKeywords && OccursAt(Lower(e), Lower(k), i)
  {
    exists k :: k in ActiveKeywords && Contains(Lower(e), Lower(k))
  }

  /** Whether an event is active does not depend on the case of its text. */
  lemma IsActiveIgnoresCase(e: string)
    ensures IsActive(Upper(e)) == IsActive(e)
    ensures IsActive(Lower(e)) == IsActive(e)
  {
    LowerOfUpper(e);
    LowerIdempotent(e);
  }

  /** `filter_active_events`: keep, in order, the events that mention a keyword. */
  method FilterActiveEvents(events: seq<string>) returns (filtered: seq<string>)
    ensures filtered == Filter(events, IsActive)
    ensures IsSubsequence(filtered, events)
    ensures forall e :: e in filtered <==> e in events && IsActive(e)
  {
    filtered := [];
    var i := 0;
    while i < |events|
      invariant 0 <= i <= |events|
      invariant filtered == Filter(events[..i], IsActive)
    {
      var e := events[i];
      FilterStep(events, i, IsActive);
      if IsActive(e) {
        filtered := filtered + [e];
      }
      i := i + 1;
    }
    assert events[..|events|] == events;
    FilterIsSubsequence(events, IsActive);
    forall e ensures e in filtered <==> e in events && IsActive(e) {
      FilterMember(events, IsActive, e);
    }
  }

  /** Filtering the filtered list changes nothing; nothing in gives nothing out. */
  lemma ActiveFilterIdempotent(events: seq<string>)
    ensures Filter(Filter(events, IsActive), IsActive) == Filter(events, IsActive)
    ensures events == [] ==> Filter(events, IsActive) == []
  {
    FilterIdempotent(events, IsActive);
  }

  // ------------------------------------------------------ NewsData headlines

  predicate HasTitle(a: NewsArticle) {
    a.title.Some? && a.title.value != ""
  }

  /** `str()` of an optional string, as an f-string shows it. */
  function PyStr(v: Option<string>): string {
    match v
    case Some(s) => s
    case None => "None"
  }

  function Headline(a: NewsArticle): string {
    PyStr(a.title) + " - " + PyStr(a.description)
  }

  /** `fetch_newsdata`: "title - description" for each article with a
      title, in result order; nothing when the request fails. */
  function NewsHeadlines(response: Option<seq<NewsArticle>>): seq<string> {
    match response
    case None => []
    case Some(results) => Map(Filter(results, HasTitle), Headline)
  }

  /** The headlines are exactly the titled articles, in order, each shown as
      its title, " - " and its description ("None" when it has none). */
  lemma HeadlinesOfTitledArticles(results: seq<NewsArticle>)
    ensures var titled := Filter(results, HasTitle);
      var headlines := NewsHeadlines(Some(results));
      && IsSubsequence(titled, results)
      && (forall a :: a in titled <==> a in results && HasTitle(a))
      && |headlines| == |titled|
      && forall k :: 0 <= k < |headlines| ==>
           && HasTitle(titled[k])
           && headlines[k] == PyStr(titled[k].title) + " - " + PyStr(titled[k].description)
  {
    var titled := Filter(results, HasTitle);
    FilterIsSubsequence(results, HasTitle);
    forall a ensures a in titled <==> a in results && HasTitle(a) {
      FilterMember(results, HasTitle, a);
    }
    forall k | 0 <= k < |titled| ensures HasTitle(titled[k]) {
      assert titled[k] in titled;
    }
  }

  // ------------------------------------------------------- dedupe and gate

  /** `hs` lists every element of `s` exactly once, in some order. */
  ghost predicate ListsSetOf(hs: seq<string>, s: seq<string>) {
    NoDuplicates(hs) && forall x :: x in hs <==> x in s
  }

  /** `list(set(s))`: each distinct element once, in an order the runtime picks. */
  method Deduplicate(s: seq<string>) returns (r: seq<string>)
    ensures ListsSetOf(r, s)
  {
    var rest := set x | x in s;
    r := [];
    while rest != {}
      invariant NoDuplicates(r)
      invariant forall x :: x in r ==> x !in rest
      invariant forall x :: x in s <==> x in r || x in rest
      decreases |rest|
    {
      var x :| x in rest;
      r := r + [x];
      rest := rest - {x};
    }
  }

  /** `get_new_headlines`: no report when no headline is active; otherwise the
      chain sees every deduplicated headline, active or not. */
  method GetNewHeadlines(newsResponse: Option<seq<NewsArticle>>, tavilyContents: seq<string>,
                         chain: string -> string)
    returns (report: Option<string>)
    ensures report.None? <==> forall h :: h in tavilyContents + NewsHeadlines(newsResponse) ==> !IsActive(h)
    ensures report.Some? ==>
      exists hs :: ListsSetOf(hs, tavilyContents + NewsHeadlines(newsResponse))
                   && report.value == chain(Join("\n", hs))
  {
    var newsdataArticles := NewsHeadlines(newsResponse);
    var allHeadlines := Deduplicate(tavilyContents + newsdataArticles);
    var activeEvents := FilterActiveEvents(allHeadlines);
    FilterEmpty(allHeadlines, IsActive);
    if activeEvents == [] {
      return None;
    }
    report := Some(chain(Join("\n", allHeadlines)));
  }

  // --------------------------------------------------------- severity styling

  datatype Severity = High | Medium | Low | Unrated

  /** The style a report block gets: the first of HIGH, MEDIUM, LOW it contains
      (case-sensitive), else none. */
  function Classify(block: string): Severity {
    if Contains(block, "HIGH") then High
    else if Contains(block, "MEDIUM") then Medium
    else if Contains(block, "LOW") then Low
    else Unrated
  }

  /** Each style stands for its word and for the absence of the stronger
      words; a block with none of the three is plain text. Text that mentions
      HIGH is red whatever surrounds it; MEDIUM beats LOW. */
  lemma SeverityPrecedence(block: string, before: string, after: string)
    ensures Classify(block) == High <==> Contains(block, "HIGH")
    ensures Classify(block) == Medium <==> Contains(block, "MEDIUM") && !Contains(block, "HIGH")
    ensures Classify(block) == Low <==>
      Contains(block, "LOW") && !Contains(block, "MEDIUM") && !Contains(block, "HIGH")
    ensures Classify(block) == Unrated <==>
      !Contains(block, "HIGH") && !Contains(block, "MEDIUM") && !Contains(block, "LOW")
    ensures Contains(block, "HIGH") ==> Classify(before + block + after) == High
    ensures Contains(block, "MEDIUM") ==> Classify(before + block + after) in {High, Medium}
    ensures Contains(block, "LOW") ==> Classify(before + block + after) != Unrated
  {
    if Contains(block, "HIGH") { ContainsExtend(block, "HIGH", before, after); }
    if Contains(block, "MEDIUM") { ContainsExtend(block, "MEDIUM", before, after); }
    if Contains(block, "LOW") { ContainsExtend(block, "LOW", before, after); }
  }

  /** The background colour of a styled block. */
  function Colour(s: Severity): Option<string> {
    match s
    case High => Some("#ff4c4c")
    case Medium => Some("#ffcc00")
    case Low => Some("#90ee90")
    case Unrated => None
  }

  datatype Block = Block(severity: Severity, text: string)

  function ClassifyBlock(text: string): Block {
    Block(Classify(text), text)
  }

  function BlockText(b: Block): string {
    b.text
  }

  const BlockSeparator := "\n\n"

  /** The loop over `report.split("\n\n")`: one styled block per paragraph. */
  method ClassifyReport(report: string) returns (blocks: seq<Block>)
    ensures blocks == Map(Split(report, BlockSeparator), ClassifyBlock)
    ensures Join(BlockSeparator, Map(blocks, BlockText)) == report
    ensures forall k :: 0 <= k < |blocks| ==>
      !Contains(blocks[k].text, BlockSeparator) && blocks[k].severity == Classify(blocks[k].text)
  {
    var parts := Split(report, BlockSeparator);
    blocks := [];
    var i := 0;
    while i < |parts|
      invariant 0 <= i <= |parts|
      invariant blocks == Map(parts[..i], ClassifyBlock)
    {
      var block := parts[i];
      var severity;
      if Contains(block, "HIGH") {
        severity := High;
      } else if Contains(block, "MEDIUM") {
        severity := Medium;
      } else if Contains(block, "LOW") {
        severity := Low;
      } else {
        severity := Unrated;
      }
      assert parts[..i + 1] == parts[..i] + [parts[i]];
      blocks := blocks + [Block(severity, block)];
      i := i + 1;
    }
    assert parts[..|parts|] == parts;
    JoinSplit(report, BlockSeparator);
    assert Map(blocks, BlockText) == parts;
  }

  /** What the page shows after a run. */
  datatype Screen = NoActiveDisruptions | ReportShown(blocks: seq<Block>)

  /** The main section: an empty or missing report gives the "no active
      disruptions" notice; otherwise every paragraph of it is shown, in order. */
  method ShowReport(report: Option<string>) returns (screen: Screen)
    ensures screen.NoActiveDisruptions? <==> (report.None? || report.value == "")
    ensures screen.ReportShown? ==>
      && screen.blocks == Map(Split(report.value, BlockSeparator), ClassifyBlock)
      && Join(BlockSeparator, Map(screen.blocks, BlockText)) == report.value
      && forall k :: 0 <= k < |screen.blocks| ==> screen.blocks[k].severity == Classify(screen.blocks[k].text)
  {
    if report.None? || report.value == "" {
      return NoActiveDisruptions;
    }
    var blocks := ClassifyReport(report.value);
    return ReportShown(blocks);
  }
}
