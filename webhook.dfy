/** The Discord message texts of geo_job_sentinel/discord_integration/webhook.py:
    the label heuristics, the job card and the scan summary. Posting to the
    webhook is outside the model. */
module Webhook {
  import opened Text
  import opened Models
  import Pipeline

  /** The "Type" line of a job card. */
  function LocationTypeEmoji(t: LocationType): string
  {
    match t
    case Remote => "\U{1F310} Remote"
    case Hybrid => "\U{1F3E0}/\U{1F3E2} Hybrid"
    case Onsite => "\U{1F3E2} Onsite"
    case Unknown => "\U{2753} Unknown"
  }

  /** The four location types get four different labels. */
  lemma LocationTypeEmojiInjective(a: LocationType, b: LocationType)
    ensures LocationTypeEmoji(a) == LocationTypeEmoji(b) <==> a == b
  {
    if a != b {
      assert LocationTypeEmoji(a)[0] != LocationTypeEmoji(b)[0];
    }
  }

  const GovernmentLabel: string := "\U{1F3DB}\U{FE0F} Government"
  const GeneralLabel: string := "\U{1F4CA} General GIS"

  /** Searched in the lower-cased title, company and snippet joined by spaces. */
  const GovernmentTextMarkers: seq<string> := [" county", " city", " government", ".gov"]
  /** Searched in the lower-cased URL. */
  const GovernmentUrlMarkers: seq<string> := [".gov", "county"]

  /** The text searched for government markers: the same lower-cased
      space-join the location classifier uses, over title, company and snippet
      (JoinedTextParts shows it is the join of the lower-cased parts). */
  function CategoryText(job: JobPosting): string
  {
    JoinedText(job.title, job.company, job.descriptionSnippet)
  }

  function CategoryLabel(job: JobPosting): (r: string)
    ensures r == GovernmentLabel || r == GeneralLabel
  {
    if HasMarker(CategoryText(job), GovernmentTextMarkers)
       || HasMarker(Lower(job.url), GovernmentUrlMarkers)
    then GovernmentLabel
    else GeneralLabel
  }

  /** A company whose name starts with "City" (in any case) is a government
      employer: the space that joins it to the title completes the marker " city". */
  lemma CompanyCityIsGovernment(job: JobPosting)
    requires "city" <= Lower(job.company)
    ensures CategoryLabel(job) == GovernmentLabel
  {
    var text := CategoryText(job);
    JoinedTextParts(job.title, job.company, job.descriptionSnippet);
    var i := |job.title|;
    assert text[i..] == " " + Lower(job.company) + " " + Lower(job.descriptionSnippet);
    assert text[i..][..5] == " city";
    ContainsAt(text, " city", i);
    assert " city" in GovernmentTextMarkers;
  }

  /** The URL test needs no leading space: "county" anywhere in the URL, in
      any case, makes the posting a government one. */
  lemma CountyInUrlIsGovernment(job: JobPosting)
    requires Contains(Lower(job.url), "county")
    ensures CategoryLabel(job) == GovernmentLabel
  {
    assert "county" in GovernmentUrlMarkers;
  }

  /** A ".gov" address, in any case, makes the posting a government one. */
  lemma GovUrlIsGovernment(job: JobPosting)
    requires Contains(Lower(job.url), ".gov")
    ensures CategoryLabel(job) == GovernmentLabel
  {
    assert ".gov" in GovernmentUrlMarkers;
  }

  /** Both outcomes of the category label in closed form: General GIS exactly
      when no government marker occurs in the joined text or in the URL. */
  lemma CategoryOutcomes(job: JobPosting)
    ensures (CategoryLabel(job) == GeneralLabel)
        <==> !HasMarker(CategoryText(job), GovernmentTextMarkers) && !HasMarker(Lower(job.url), GovernmentUrlMarkers)
    ensures (CategoryLabel(job) == GovernmentLabel)
        <==> HasMarker(CategoryText(job), GovernmentTextMarkers) || HasMarker(Lower(job.url), GovernmentUrlMarkers)
  {
    assert GovernmentLabel[0] != GeneralLabel[0];
  }

  const FreshLabel: string := "\U{1F7E2} Fresh"
  const StandardLabel: string := "\U{1F535} Standard"
  const OlderLabel: string := "\U{1F7E0} Older"

  const FreshMarkers: seq<string> := ["hour", "minute", "today"]
  const DayMarkers: seq<string> := ["day", "yesterday"]

  /** The lower-cased "date" entry of the raw result, or "" when the posting
      has no raw result or the result has no date. */
  function DateText(job: JobPosting): string
  {
    match job.rawSource
    case None => ""
    case Some(item) => if "date" in item then Lower(item["date"]) else ""
  }

  function FreshnessLabel(job: JobPosting): (r: string)
    ensures r == FreshLabel || r == StandardLabel || r == OlderLabel
  {
    var date := DateText(job);
    if HasMarker(date, FreshMarkers) then FreshLabel
    else if HasMarker(date, DayMarkers) then StandardLabel
    else if date != "" then OlderLabel
    else StandardLabel
  }

  /** Each freshness outcome in closed form. The marker "yesterday" is
      subsumed by "day", so only "day" decides between Standard and Older. */
  lemma FreshnessOutcomes(job: JobPosting)
    ensures var date, r := DateText(job), FreshnessLabel(job);
      && (r == FreshLabel <==> HasMarker(date, FreshMarkers))
      && (r == OlderLabel <==> !HasMarker(date, FreshMarkers) && !Contains(date, "day") && date != "")
      && (r == StandardLabel <==> !HasMarker(date, FreshMarkers) && (Contains(date, "day") || date == ""))
  {
    var date := DateText(job);
    DayMarkerIsDay(date);
    assert FreshLabel != StandardLabel && FreshLabel != OlderLabel && StandardLabel != OlderLabel by {
      assert FreshLabel[0] != StandardLabel[0] && FreshLabel[0] != OlderLabel[0];
      assert StandardLabel[0] != OlderLabel[0];
    }
  }

  /** `"yesterday"` adds nothing to the day markers: it contains "day". */
  lemma DayMarkerIsDay(date: string)
    ensures HasMarker(date, DayMarkers) <==> Contains(date, "day")
  {
    assert "day" in DayMarkers && "yesterday" in DayMarkers;
    if Contains(date, "yesterday") {
      assert "yesterday"[6..] == "day";
      ContainsAt("yesterday", "day", 6);
      ContainsTrans(date, "yesterday", "day");
    }
  }

  /** "today" contains "day", but the Fresh test comes first. */
  lemma TodayIsFresh(job: JobPosting)
    requires Contains(DateText(job), "today")
    ensures FreshnessLabel(job) == FreshLabel
  {
    assert "today" in FreshMarkers;
  }

  /** Without a raw result, or without a date in it, a posting is Standard. */
  lemma NoDateIsStandard(job: JobPosting)
    requires job.rawSource.None? || "date" !in job.rawSource.value
    ensures FreshnessLabel(job) == StandardLabel
  {
    assert DateText(job) == "";
    forall m | m in FreshMarkers + DayMarkers
      ensures !Contains("", m)
    {
      ContainsInEmpty(m);
    }
  }

  const MediumLabel: string := "\U{1F7E1} Medium (~50-100 applicants)"
  const LowLabel: string := "\U{1F7E2} Low Competition (~10-30 applicants)"

  function CompetitionLabel(job: JobPosting): (r: string)
    ensures r == MediumLabel || r == LowLabel
  {
    if job.locationType in {Remote, Hybrid} then MediumLabel else LowLabel
  }

  /** For a posting straight from the normaliser, competition is Medium exactly
      when the classifier found a remote or a hybrid marker in its text. */
  lemma CompetitionOfNormalized(item: RawItem, source: string, now: string)
    ensures var j := Pipeline.NormalizeResult(item, source, now);
      var text := JoinedText(j.title, j.descriptionSnippet, j.location);
      (CompetitionLabel(j) == MediumLabel) <==> (HasMarker(text, RemoteMarkers) || HasMarker(text, HybridMarkers))
  {
    var j := Pipeline.NormalizeResult(item, source, now);
    Pipeline.NormalizedFields(item, source, now);
    ClassifyOutcomes(j.title, j.descriptionSnippet, j.location);
    assert MediumLabel[0] != LowLabel[0];
  }

  /** Characters of the snippet a card shows. */
  const SnippetLimit: nat := 280

  /** The snippet as a card shows it: its first 280 characters, then "...",
      whether or not anything was cut. */
  function SnippetPreview(snippet: string): (r: string)
    ensures |r| == Min(SnippetLimit, |snippet|) + 3
    ensures r[..|r| - 3] <= snippet && r[|r| - 3..] == "..."
    ensures |snippet| <= SnippetLimit ==> r == snippet + "..."
  {
    snippet[..Min(SnippetLimit, |snippet|)] + "..."
  }

  /** The lines of a job card, in order; the card is these lines joined by
      newlines, the blank entries giving its two empty lines. */
  function JobCardLines(job: JobPosting): (r: seq<string>)
    ensures |r| == 19 && r[2] == "" && r[17] == ""
  {
    [ "**" + job.title + "**",
      SnippetPreview(job.descriptionSnippet),
      "",
      "\U{1F3E2} Company", job.company,
      "\U{1F4CD} Location", job.location,
      "\U{1F50D} Source", job.source,
      "\U{1F4C2} Category", CategoryLabel(job),
      "\U{23F0} Freshness", FreshnessLabel(job),
      "\U{1F465} Competition", CompetitionLabel(job),
      "\U{1F3F7}\U{FE0F} Type", LocationTypeEmoji(job.locationType),
      "",
      "\U{1F517} " + job.url ]
  }

  function JobCardContent(job: JobPosting): string
  {
    Join("\n", JobCardLines(job))
  }

  /** Every line of a card occurs in its text. */
  lemma CardShowsEachLine(job: JobPosting)
    ensures forall k :: 0 <= k < |JobCardLines(job)| ==> Contains(JobCardContent(job), JobCardLines(job)[k])
  {
    forall k | 0 <= k < |JobCardLines(job)|
      ensures Contains(JobCardContent(job), JobCardLines(job)[k])
    {
      JoinContainsPart("\n", JobCardLines(job), k);
    }
  }

  /** Where each field stands among the lines of a card. */
  lemma CardFieldPositions(job: JobPosting)
    ensures var lines := JobCardLines(job);
      && lines[1] == SnippetPreview(job.descriptionSnippet)
      && lines[4] == job.company && lines[6] == job.location && lines[8] == job.source
      && lines[18] == "\U{1F517} " + job.url
  {
  }

  /** Where each label stands among the lines of a card. */
  lemma CardLabelPositions(job: JobPosting)
    ensures var lines := JobCardLines(job);
      && lines[10] == CategoryLabel(job) && lines[12] == FreshnessLabel(job)
      && lines[14] == CompetitionLabel(job) && lines[16] == LocationTypeEmoji(job.locationType)
  {
  }

  /** The card shows the snippet preview, the company, the location, the
      source and the URL. */
  lemma JobCardShowsFields(job: JobPosting)
    ensures var card := JobCardContent(job);
      && Contains(card, SnippetPreview(job.descriptionSnippet))
      && Contains(card, job.company) && Contains(card, job.location) && Contains(card, job.source)
      && Contains(card, job.url)
  {
    var lines := JobCardLines(job);
    CardShowsEachLine(job);
    CardFieldPositions(job);
    assert lines[18][2..] == job.url;
    ContainsAt(lines[18], job.url, 2);
    ContainsTrans(JobCardContent(job), lines[18], job.url);
  }

  /** The card shows all four labels. */
  lemma JobCardShowsLabels(job: JobPosting)
    ensures var card := JobCardContent(job);
      && Contains(card, CategoryLabel(job)) && Contains(card, FreshnessLabel(job))
      && Contains(card, CompetitionLabel(job)) && Contains(card, LocationTypeEmoji(job.locationType))
  {
    CardShowsEachLine(job);
    CardLabelPositions(job);
  }

  /** The statistics a summary is sent with; each entry may be missing.
      `bySource` keeps the insertion order of the source dictionary. */
  datatype SummaryStats = SummaryStats(
    newJobs: Option<int>,
    totalScanned: Option<int>,
    duplicatesFiltered: Option<int>,
    bySource: Option<seq<(string, int)>>)

  /** `stats.get(key, default)`. */
  function GetOr(entry: Option<int>, default: int): int
  {
    if entry.Some? then entry.value else default
  }

  function BySource(stats: SummaryStats): seq<(string, int)>
  {
    if stats.bySource.Some? then stats.bySource.value else []
  }

  const SummaryTitle: string := "\U{1F4CA} **GeoJob-Sentinel Scan Summary**"
  const BySourceHeading: string := "Jobs by Source:"

  function SourceLine(entry: (string, int)): string
  {
    "- " + entry.0 + ": " + IntToString(entry.1)
  }

  /** The four lines every summary starts with; a missing count falls back to
      the number of jobs, a missing duplicate count to 0. */
  function SummaryHeader(jobCount: nat, stats: SummaryStats): seq<string>
  {
    [ SummaryTitle,
      "New Jobs Found: **" + IntToString(GetOr(stats.newJobs, jobCount)) + "**",
      "Total Scanned: **" + IntToString(GetOr(stats.totalScanned, jobCount)) + "**",
      "Duplicates Filtered: **" + IntToString(GetOr(stats.duplicatesFiltered, 0)) + "**" ]
  }

  /** One line per source, in the order of the entries. */
  function SourceLines(entries: seq<(string, int)>): (r: seq<string>)
    ensures |r| == |entries|
    ensures forall k :: 0 <= k < |entries| ==> r[k] == SourceLine(entries[k])
  {
    seq(|entries|, k requires 0 <= k < |entries| => SourceLine(entries[k]))
  }

  lemma SourceLinesStep(entries: seq<(string, int)>, i: nat)
    requires i < |entries|
    ensures SourceLines(entries[..i + 1]) == SourceLines(entries[..i]) + [SourceLine(entries[i])]
  {
    assert SourceLines(entries[..i + 1]) == SourceLines(entries[..i]) + [SourceLine(entries[i])];
  }

  /** The lines of the summary, as the loop of `send_summary` builds them. */
  function SummaryLineList(jobCount: nat, stats: SummaryStats): seq<string>
  {
    var entries := BySource(stats);
    var header := SummaryHeader(jobCount, stats);
    if entries == [] then header else header + [BySourceHeading] + SourceLines(entries)
  }

  /** Splitting a concatenation at the join gives back its two parts. */
  lemma SplitAppend(front: seq<string>, back: seq<string>)
    ensures (front + back)[..|front|] == front && (front + back)[|front|..] == back
  {
  }

  /** The summary has four lines when there is nothing by source, and
      otherwise a heading and then one line per source, in order (SourceLines). */
  lemma SummaryShape(jobCount: nat, stats: SummaryStats)
    ensures var lines, entries := SummaryLineList(jobCount, stats), BySource(stats);
      && |lines| == (if entries == [] then 4 else 5 + |entries|)
      && lines[..4] == SummaryHeader(jobCount, stats)
      && (entries != [] ==> lines[4] == BySourceHeading && lines[5..] == SourceLines(entries))
  {
    var lines, entries := SummaryLineList(jobCount, stats), BySource(stats);
    var header := SummaryHeader(jobCount, stats);
    assert |header| == 4;
    if entries != [] {
      SplitAppend(header, [BySourceHeading]);
      SplitAppend(header + [BySourceHeading], SourceLines(entries));
      assert |header + [BySourceHeading]| == 5;
      assert lines[..4] == (header + [BySourceHeading])[..4][..4];
    }
  }

  /** The defaults of a summary sent without statistics. */
  lemma SummaryDefaults(jobCount: nat)
    ensures SummaryLineList(jobCount, SummaryStats(None, None, None, None))
         == [ SummaryTitle,
              "New Jobs Found: **" + NatToString(jobCount) + "**",
              "Total Scanned: **" + NatToString(jobCount) + "**",
              "Duplicates Filtered: **0**" ]
  {
    var stats := SummaryStats(None, None, None, None);
    assert BySource(stats) == [];
    assert IntToString(0) == "0";
    assert "Duplicates Filtered: **" + "0" + "**" == "Duplicates Filtered: **0**";
  }

  /** The statistics of a scan as the summary reads them. */
  function FromScan(stats: Pipeline.ScanStats): SummaryStats
  {
    SummaryStats(Some(stats.newJobs), Some(stats.totalScanned),
                 Some(stats.duplicatesFiltered), Some(stats.bySource))
  }

  /** The positions of a four-line header followed by two more lines. */
  lemma HeaderThenTwo(lines: seq<string>, header: seq<string>, x: string, y: string)
    requires |header| == 4 && lines == header + [x] + [y]
    ensures |lines| == 6 && lines[1] == header[1] && lines[5] == y
  {
  }

  /** The second summary line counts the new jobs. */
  lemma NewJobsLine(n: nat, summary: SummaryStats)
    requires summary.newJobs == Some(n)
    ensures SummaryHeader(n, summary)[1] == "New Jobs Found: **" + NatToString(n) + "**"
  {
  }

  /** The summary line of the one source of a GIS scan. */
  lemma SerperLine(n: nat)
    ensures SourceLine((Pipeline.SerperSource, n)) == "- Serper/Google: " + NatToString(n)
  {
    assert "- " + Pipeline.SerperSource + ": " == "- Serper/Google: ";
  }

  /** The summary of a GIS scan: six lines, the last naming the one source
      and its count of new jobs. */
  lemma ScanSummary(jobs: seq<JobPosting>, stats: Pipeline.ScanStats)
    requires stats.newJobs == |jobs|
    requires stats.bySource == [(Pipeline.SerperSource, |jobs|)]
    ensures var lines := SummaryLineList(|jobs|, FromScan(stats));
      && |lines| == 6
      && lines[1] == "New Jobs Found: **" + NatToString(|jobs|) + "**"
      && lines[5] == "- Serper/Google: " + NatToString(|jobs|)
  {
    var summary := FromScan(stats);
    var line := SourceLine((Pipeline.SerperSource, |jobs|));
    assert BySource(summary) == [(Pipeline.SerperSource, |jobs|)];
    assert SourceLines(BySource(summary)) == [line];
    HeaderThenTwo(SummaryLineList(|jobs|, summary), SummaryHeader(|jobs|, summary), BySourceHeading, line);
    NewJobsLine(|jobs|, summary);
    SerperLine(|jobs|);
  }

  /** The message text of a summary: its lines joined by newlines. */
  function SummaryText(jobCount: nat, stats: SummaryStats): string
  {
    Join("\n", SummaryLineList(jobCount, stats))
  }

  /** Every line of the summary occurs in its message text. */
  lemma SummaryTextShowsEachLine(jobCount: nat, stats: SummaryStats)
    ensures forall k :: 0 <= k < |SummaryLineList(jobCount, stats)| ==>
      Contains(SummaryText(jobCount, stats), SummaryLineList(jobCount, stats)[k])
  {
    forall k | 0 <= k < |SummaryLineList(jobCount, stats)|
      ensures Contains(SummaryText(jobCount, stats), SummaryLineList(jobCount, stats)[k])
    {
      JoinContainsPart("\n", SummaryLineList(jobCount, stats), k);
    }
  }

  /** The line-building loop of `send_summary`. */
  method SummaryLines(jobs: seq<JobPosting>, stats: SummaryStats) returns (lines: seq<string>)
    ensures lines == SummaryLineList(|jobs|, stats)
  {
    var header := SummaryHeader(|jobs|, stats);
    lines := header;
    var entries := BySource(stats);
    if entries != [] {
      lines := lines + [BySourceHeading];
      var i := 0;
      while i < |entries|
        invariant 0 <= i <= |entries|
        invariant lines == header + [BySourceHeading] + SourceLines(entries[..i])
      {
        SourceLinesStep(entries, i);
        lines := lines + [SourceLine(entries[i])];
        i := i + 1;
      }
      assert entries[..i] == entries;
    }
  }
}
