/** Normalisation of raw search results and the single-source GIS scan of
    geo_job_sentinel/search/pipeline.py. The search call itself is outside the
    model: the scan receives the items the provider returned. */
module Pipeline {
  import opened Text
  import opened Models
  import QueryBuilder

  /** `item.get(key)` read through Python's truthiness: a missing key and an
      empty value are both absent. */
  predicate Present(item: RawItem, key: string)
  {
    key in item && item[key] != ""
  }

  /** `item.get(key) or ""`. */
  function Field(item: RawItem, key: string): string
  {
    if Present(item, key) then item[key] else ""
  }

  /** Python's `a or b` on strings. */
  function Or(a: string, b: string): string
  {
    if a != "" then a else b
  }

  /** The source tag of the single scan the module runs. */
  const SerperSource: string := "Serper/Google"

  /** One raw item as a JobPosting. `now` is the ISO text of the clock reading
      that names a result without a URL. */
  function NormalizeResult(item: RawItem, source: string, now: string): (r: JobPosting)
    ensures r.id != "" && r.title != "" && r.company != "" && r.location != ""
    ensures r.source == source && r.rawSource == Some(item) && r.discoveredAt == now
  {
    var title := Or(Field(item, "title"), "Unknown title");
    var snippet := Or(Field(item, "snippet"), "");
    var url := Or(Or(Field(item, "link"), Field(item, "url")), "");
    var company := Or(Field(item, "source"), "Unknown Company");
    var location := Or(Or(Field(item, "location"), Field(item, "city")), "Unknown");
    var posting := NewJobPosting(Or(url, title + "-" + now), title, company, location,
                                 source, url, snippet, now);
    posting.(locationType := ClassifyLocationType(title, snippet, location), rawSource := Some(item))
  }

  /** Where each field of a normalised posting comes from: the first present
      key of its fallback chain, else the sentinel. The id is the URL, or the
      title and clock reading when there is no URL, so it is never empty. */
  lemma NormalizedFields(item: RawItem, source: string, now: string)
    ensures var j := NormalizeResult(item, source, now);
      && j.title == (if Present(item, "title") then item["title"] else "Unknown title")
      && j.descriptionSnippet == Field(item, "snippet")
      && j.url == (if Present(item, "link") then item["link"]
                   else if Present(item, "url") then item["url"] else "")
      && j.company == (if Present(item, "source") then item["source"] else "Unknown Company")
      && j.location == (if Present(item, "location") then item["location"]
                        else if Present(item, "city") then item["city"] else "Unknown")
      && (j.url != "" ==> j.id == j.url)
      && (j.url == "" ==> j.id == j.title + "-" + now)
      && j.id != "" && j.title != "" && j.company != "" && j.location != ""
      && j.locationType == ClassifyLocationType(j.title, j.descriptionSnippet, j.location)
      && j.source == source && j.rawSource == Some(item) && j.discoveredAt == now
      && j.category == DefaultCategory && !j.isNewCompany
  {
  }

  /** Normalisation of an empty item: every field takes its sentinel. */
  lemma NormalizeEmptyItem(source: string, now: string)
    ensures var j := NormalizeResult(map[], source, now);
      && j.title == "Unknown title" && j.company == "Unknown Company"
      && j.location == "Unknown" && j.url == "" && j.descriptionSnippet == ""
      && j.id == "Unknown title-" + now
  {
    var empty: RawItem := map[];
    assert !Present(empty, "title") && !Present(empty, "link") && !Present(empty, "url");
    assert !Present(empty, "source") && !Present(empty, "location") && !Present(empty, "city");
    assert "Unknown title" + "-" == "Unknown title-";
  }

  /** The items of one search response, each normalised with its own clock reading. */
  function NormalizeAll(rawResults: seq<RawItem>, source: string, clock: seq<string>): (r: seq<JobPosting>)
    requires |clock| == |rawResults|
    ensures |r| == |rawResults|
    ensures forall k :: 0 <= k < |r| ==> r[k] == NormalizeResult(rawResults[k], source, clock[k])
  {
    seq(|rawResults|, k requires 0 <= k < |rawResults| => NormalizeResult(rawResults[k], source, clock[k]))
  }

  function Ids(jobs: seq<JobPosting>): set<string>
  {
    set j | j in jobs :: j.id
  }

  predicate DistinctIds(jobs: seq<JobPosting>)
  {
    forall a, b :: 0 <= a < b < |jobs| ==> jobs[a].id != jobs[b].id
  }

  lemma IdsAppend(jobs: seq<JobPosting>, x: JobPosting)
    ensures Ids(jobs + [x]) == Ids(jobs) + {x.id}
  {
    assert forall j :: j in jobs + [x] <==> j in jobs || j == x;
  }

  /** The jobs the scan keeps: the first job of each id, in input order.
      Defined on prefixes, as the scan loop consumes its input. */
  function Dedup(jobs: seq<JobPosting>): (r: seq<JobPosting>)
    ensures |r| <= |jobs|
    ensures Ids(r) == Ids(jobs)
    ensures DistinctIds(r)
    decreases |jobs|
  {
    if jobs == [] then []
    else
      var init, last := jobs[..|jobs| - 1], jobs[|jobs| - 1];
      var kept := Dedup(init);
      assert jobs == init + [last];
      IdsAppend(init, last);
      IdsAppend(kept, last);
      if last.id in Ids(kept) then kept
      else
        assert forall k :: 0 <= k < |kept| ==> kept[k].id in Ids(kept);
        kept + [last]
  }

  /** The position of the first job carrying `id`. */
  function FirstIndex(jobs: seq<JobPosting>, id: string): (i: nat)
    requires id in Ids(jobs)
    ensures i < |jobs| && jobs[i].id == id
    ensures forall k :: 0 <= k < i ==> jobs[k].id != id
  {
    if jobs[0].id == id then 0
    else
      assert id in Ids(jobs[1..]) by {
        var j :| j in jobs && j.id == id;
        var k :| 0 <= k < |jobs| && jobs[k] == j;
        assert jobs[1..][k - 1] == j;
      }
      1 + FirstIndex(jobs[1..], id)
  }

  /** The first occurrence of an id does not move when jobs are appended. */
  lemma FirstIndexAppend(jobs: seq<JobPosting>, more: seq<JobPosting>, id: string)
    requires id in Ids(jobs)
    ensures id in Ids(jobs + more) && FirstIndex(jobs + more, id) == FirstIndex(jobs, id)
  {
    var i := FirstIndex(jobs, id);
    assert (jobs + more)[i] == jobs[i];
  }

  /** An id first seen at the end of the input is first seen there. */
  lemma FirstIndexOfNew(jobs: seq<JobPosting>, x: JobPosting)
    requires x.id !in Ids(jobs)
    ensures x.id in Ids(jobs + [x]) && FirstIndex(jobs + [x], x.id) == |jobs|
  {
    IdsAppend(jobs, x);
    assert forall k :: 0 <= k < |jobs| ==> jobs[k] in jobs && (jobs + [x])[k] == jobs[k];
  }

  /** Dedup of a longer input: the new job is kept exactly when its id is new. */
  lemma DedupStep(jobs: seq<JobPosting>, x: JobPosting)
    ensures Dedup(jobs + [x]) == if x.id in Ids(jobs) then Dedup(jobs) else Dedup(jobs) + [x]
  {
    assert (jobs + [x])[..|jobs|] == jobs;
  }

  /** One step of the scan loop: the jobs kept from a prefix grow by the next
      job exactly when its id has not been seen. */
  lemma KeepIfNew(all: seq<JobPosting>, i: nat, jobs: seq<JobPosting>)
    requires i < |all| && jobs == Dedup(all[..i])
    ensures Dedup(all[..i + 1]) == if all[i].id in Ids(jobs) then jobs else jobs + [all[i]]
    ensures Ids(jobs + [all[i]]) == Ids(jobs) + {all[i].id}
  {
    assert all[..i + 1] == all[..i] + [all[i]];
    DedupStep(all[..i], all[i]);
    IdsAppend(jobs, all[i]);
  }

  /** The first-occurrence step: the jobs kept from `init` are still the first
      jobs of their ids once one more job is read, and so is that job when kept. */
  lemma FirstStep(init: seq<JobPosting>, last: JobPosting, kept: seq<JobPosting>, d: seq<JobPosting>)
    requires d == if last.id in Ids(init) then kept else kept + [last]
    requires forall k :: 0 <= k < |kept| ==>
      kept[k].id in Ids(init) && kept[k] == init[FirstIndex(init, kept[k].id)]
    ensures forall k :: 0 <= k < |d| ==>
      d[k].id in Ids(init + [last]) && d[k] == (init + [last])[FirstIndex(init + [last], d[k].id)]
  {
    forall k | 0 <= k < |d|
      ensures d[k].id in Ids(init + [last]) && d[k] == (init + [last])[FirstIndex(init + [last], d[k].id)]
    {
      if k < |kept| {
        assert d[k] == kept[k];
        FirstIndexAppend(init, [last], kept[k].id);
      } else {
        assert last.id !in Ids(init) && d[k] == last;
        FirstIndexOfNew(init, last);
      }
    }
  }

  /** Every job Dedup keeps is the first job of its id in the input. */
  lemma {:induction false} DedupKeepsFirstOccurrences(jobs: seq<JobPosting>)
    ensures var d := Dedup(jobs);
      forall k :: 0 <= k < |d| ==>
        d[k].id in Ids(jobs) && d[k] == jobs[FirstIndex(jobs, d[k].id)]
    decreases |jobs|
  {
    if jobs != [] {
      var init, last := jobs[..|jobs| - 1], jobs[|jobs| - 1];
      assert jobs == init + [last];
      DedupStep(init, last);
      DedupKeepsFirstOccurrences(init);
      FirstStep(init, last, Dedup(init), Dedup(jobs));
    }
  }

  /** Appending a job keeps the order of first occurrences already seen. */
  lemma OrderAfterAppend(init: seq<JobPosting>, last: JobPosting, x: string, y: string)
    requires x in Ids(init) && y in Ids(init)
    requires FirstIndex(init, x) < FirstIndex(init, y)
    ensures x in Ids(init + [last]) && y in Ids(init + [last])
    ensures FirstIndex(init + [last], x) < FirstIndex(init + [last], y)
  {
    FirstIndexAppend(init, [last], x);
    FirstIndexAppend(init, [last], y);
  }

  /** Two jobs kept from `init` in first-occurrence order stay in that order
      once one more job is read, whether or not that job is kept. */
  lemma OrderPair(init: seq<JobPosting>, last: JobPosting, kept: seq<JobPosting>, d: seq<JobPosting>, a: nat, b: nat)
    requires Ids(kept) == Ids(init)
    requires d == if last.id in Ids(init) then kept else kept + [last]
    requires forall k :: 0 <= k < |kept| ==> kept[k].id in Ids(init)
    requires forall p, q :: 0 <= p < q < |kept| ==> FirstIndex(init, kept[p].id) < FirstIndex(init, kept[q].id)
    requires a < b < |d|
    ensures d[a].id in Ids(init + [last]) && d[b].id in Ids(init + [last])
    ensures FirstIndex(init + [last], d[a].id) < FirstIndex(init + [last], d[b].id)
  {
    assert d[a] == kept[a];
    if b < |kept| {
      assert d[b] == kept[b];
      OrderAfterAppend(init, last, kept[a].id, kept[b].id);
    } else {
      assert last.id !in Ids(init) && d[b] == last;
      FirstIndexAppend(init, [last], kept[a].id);
      FirstIndexOfNew(init, last);
    }
  }

  /** The order step for the whole list kept so far. */
  lemma OrderStep(init: seq<JobPosting>, last: JobPosting, kept: seq<JobPosting>, d: seq<JobPosting>)
    requires Ids(kept) == Ids(init)
    requires d == if last.id in Ids(init) then kept else kept + [last]
    requires forall k :: 0 <= k < |kept| ==> kept[k].id in Ids(init)
    requires forall a, b :: 0 <= a < b < |kept| ==> FirstIndex(init, kept[a].id) < FirstIndex(init, kept[b].id)
    ensures forall k :: 0 <= k < |d| ==> d[k].id in Ids(init + [last])
    ensures forall a, b :: 0 <= a < b < |d| ==>
      FirstIndex(init + [last], d[a].id) < FirstIndex(init + [last], d[b].id)
  {
    IdsAppend(init, last);
    assert forall k :: 0 <= k < |d| ==> k < |kept| || d[k] == last;
    forall a, b | 0 <= a < b < |d|
      ensures FirstIndex(init + [last], d[a].id) < FirstIndex(init + [last], d[b].id)
    {
      OrderPair(init, last, kept, d, a, b);
    }
  }

  /** The jobs Dedup keeps stand in the order of their first occurrences. */
  lemma {:induction false} DedupKeepsInputOrder(jobs: seq<JobPosting>)
    ensures var d := Dedup(jobs);
      forall k :: 0 <= k < |d| ==> d[k].id in Ids(jobs)
    ensures var d := Dedup(jobs);
      forall a, b :: 0 <= a < b < |d| ==> FirstIndex(jobs, d[a].id) < FirstIndex(jobs, d[b].id)
    decreases |jobs|
  {
    if jobs != [] {
      var init, last := jobs[..|jobs| - 1], jobs[|jobs| - 1];
      assert jobs == init + [last];
      DedupStep(init, last);
      DedupKeepsInputOrder(init);
      OrderStep(init, last, Dedup(init), Dedup(jobs));
    }
  }

  /** A list whose ids are already distinct passes through unchanged. */
  lemma {:induction false} DedupOfDistinct(jobs: seq<JobPosting>)
    requires DistinctIds(jobs)
    ensures Dedup(jobs) == jobs
    decreases |jobs|
  {
    if jobs != [] {
      var init, last := jobs[..|jobs| - 1], jobs[|jobs| - 1];
      DedupOfDistinct(init);
      assert jobs == init + [last];
      DedupStep(init, last);
    }
  }

  /** Deduplicating the scan's own output changes nothing. */
  lemma DedupIdempotent(jobs: seq<JobPosting>)
    ensures Dedup(Dedup(jobs)) == Dedup(jobs)
  {
    DedupOfDistinct(Dedup(jobs));
  }

  /** The per-run statistics. `bySource` keeps the insertion order of the
      source dictionary. */
  datatype ScanStats = ScanStats(newJobs: int, totalScanned: int, duplicatesFiltered: int,
                                 bySource: seq<(string, int)>)

  /** The query configuration: query family name to its list-valued settings. */
  type BaseQueries = map<string, map<string, seq<string>>>

  /** `base_queries.get("gis_default", {}).get("title_keywords", [])`. */
  function GisTitleKeywords(baseQueries: BaseQueries): seq<string>
  {
    if "gis_default" in baseQueries && "title_keywords" in baseQueries["gis_default"]
    then baseQueries["gis_default"]["title_keywords"]
    else []
  }

  /** One GIS scan. `rawResults` stands for the provider's answer to `query`
      and `clock` for the clock reading taken while normalising each item. */
  method RunGisScan(atsDomains: seq<string>, baseQueries: BaseQueries,
                    rawResults: seq<RawItem>, clock: seq<string>)
    returns (query: string, jobs: seq<JobPosting>, stats: ScanStats)
    requires |clock| == |rawResults|
    ensures query == QueryBuilder.BuildBooleanQuery(atsDomains, GisTitleKeywords(baseQueries))
    ensures jobs == Dedup(NormalizeAll(rawResults, SerperSource, clock))
    ensures DistinctIds(jobs) && Ids(jobs) == Ids(NormalizeAll(rawResults, SerperSource, clock))
    ensures stats.newJobs == |jobs| && stats.totalScanned == |rawResults|
    ensures stats.newJobs + stats.duplicatesFiltered == stats.totalScanned
    ensures stats.duplicatesFiltered >= 0
    ensures stats.bySource == [(SerperSource, |jobs|)]
  {
    query := QueryBuilder.BuildBooleanQuery(atsDomains, GisTitleKeywords(baseQueries));
    jobs := [];
    var seenIds: set<string> := {};
    ghost var normalized := NormalizeAll(rawResults, SerperSource, clock);
    var i := 0;
    while i < |rawResults|
      invariant 0 <= i <= |rawResults|
      invariant jobs == Dedup(normalized[..i])
      invariant seenIds == Ids(jobs)
    {
      var job := NormalizeResult(rawResults[i], SerperSource, clock[i]);
      KeepIfNew(normalized, i, jobs);
      if job.id !in seenIds {
        seenIds := seenIds + {job.id};
        jobs := jobs + [job];
      }
      i := i + 1;
    }
    assert normalized[..i] == normalized;
    stats := ScanStats(|jobs|, |rawResults|, |rawResults| - |jobs|, [(SerperSource, |jobs|)]);
  }
}
