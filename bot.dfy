/** The configuration edits behind the Discord commands of
    geo_job_sentinel/discord_integration/bot.py: `add_ats`, `list_ats` and
    `add_keyword`. Each command loads a JSON file, edits it and saves it; here
    the loaded value is a field of an object and saving is the update of that
    field. */
module Bot {
  import opened Text
  import QueryBuilder
  import Pipeline

  /** The ATS domain list `add_ats` edits and `list_ats` shows. */
  function AddedAts(domains: seq<string>, domain: string): (r: seq<string>)
    ensures Strip(domain) in r && domains <= r && |r| <= |domains| + 1
  {
    var d := Strip(domain);
    if d in domains then domains else domains + [d]
  }

  class AtsList {
    var domains: seq<string>

    constructor(domains: seq<string>)
      ensures this.domains == domains
    {
      this.domains := domains;
    }

    /** `add_ats`: strip the argument, and append it unless it is present.
        `saved` tells whether the list was written back. */
    method AddAts(domain: string) returns (saved: bool)
      modifies this
      ensures saved <==> Strip(domain) !in old(domains)
      ensures domains == AddedAts(old(domains), domain)
    {
      var d := Strip(domain);
      if d in domains {
        return false;
      }
      domains := domains + [d];
      saved := true;
    }

    /** The reply of `list_ats`. */
    function ListAts(): string
      reads this
    {
      "Configured ATS domains (" + NatToString(|domains|) + "): " + AtsPreview(domains)
    }
  }

  /** A present domain leaves the list as it was; a new one is appended at
      the end, stripped, and every earlier entry keeps its place. */
  lemma AddAtsEffect(domains: seq<string>, domain: string)
    ensures var r := AddedAts(domains, domain);
      && (Strip(domain) in domains ==> r == domains)
      && (Strip(domain) !in domains ==>
            |r| == |domains| + 1 && r[..|domains|] == domains && r[|domains|] == Strip(domain))
      && Strip(domain) in r
  {
    var r := AddedAts(domains, domain);
    if Strip(domain) !in domains {
      assert r[|domains|] == Strip(domain);
    }
  }

  /** Adding the same domain twice is adding it once. */
  lemma AddAtsIdempotent(domains: seq<string>, domain: string)
    ensures AddedAts(AddedAts(domains, domain), domain) == AddedAts(domains, domain)
  {
    AddAtsEffect(domains, domain);
  }

  /** Surrounding whitespace makes no difference: the argument is stripped
      before the membership test. */
  lemma AddAtsIgnoresWhitespace(domains: seq<string>, w1: string, domain: string, w2: string)
    requires forall k :: 0 <= k < |w1| ==> w1[k] in Whitespace
    requires forall k :: 0 <= k < |w2| ==> w2[k] in Whitespace
    ensures AddedAts(domains, w1 + domain + w2) == AddedAts(domains, domain)
  {
    StripIgnoresPadding(w1, domain, w2);
  }

  predicate NoDuplicates(xs: seq<string>)
  {
    forall a, b :: 0 <= a < b < |xs| ==> xs[a] != xs[b]
  }

  /** A list built only by `add_ats` never holds a domain twice. */
  lemma AddAtsKeepsNoDuplicates(domains: seq<string>, domain: string)
    requires NoDuplicates(domains)
    ensures NoDuplicates(AddedAts(domains, domain))
  {
    var r := AddedAts(domains, domain);
    if Strip(domain) !in domains {
      forall a, b | 0 <= a < b < |r|
        ensures r[a] != r[b]
      {
        if b == |domains| {
          assert r[a] == domains[a];
        }
      }
    }
  }

  /** A newly added domain takes part in the next scan: the query names it
      as a `site:` term. */
  lemma AddedAtsInQuery(domains: seq<string>, domain: string, titleKeywords: seq<string>)
    ensures Contains(QueryBuilder.BuildBooleanQuery(AddedAts(domains, domain), titleKeywords),
                     "site:" + Strip(domain))
  {
    var r := AddedAts(domains, domain);
    AddAtsEffect(domains, domain);
    var k :| 0 <= k < |r| && r[k] == Strip(domain);
    QueryBuilder.QueryMentionsEveryTerm(r, titleKeywords);
  }

  /** How many domains `list_ats` names before it summarises the rest. */
  const PreviewLimit: nat := 20

  /** The " … (+k more)" tail of the `list_ats` reply. */
  function MoreSuffix(count: nat): string
  {
    if count <= PreviewLimit then "" else " \U{2026} (+" + NatToString(count - PreviewLimit) + " more)"
  }

  /** The first twenty domains joined by ", ", then the tail. */
  function AtsPreview(domains: seq<string>): string
  {
    Join(", ", domains[..Min(PreviewLimit, |domains|)]) + MoreSuffix(|domains|)
  }

  /** The tail appears exactly when there are more than twenty domains, and
      then counts the ones left out. */
  lemma MoreSuffixShape(count: nat)
    ensures MoreSuffix(count) != "" <==> count > PreviewLimit
    ensures count > PreviewLimit ==>
      MoreSuffix(count) == " \U{2026} (+" + NatToString(count - PreviewLimit) + " more)"
  {
  }

  /** Each of the first twenty domains is named in the preview. */
  lemma PreviewNamesFirstTwenty(domains: seq<string>, k: nat)
    requires k < |domains| && k < PreviewLimit
    ensures Contains(AtsPreview(domains), domains[k])
  {
    var shown := domains[..Min(PreviewLimit, |domains|)];
    assert shown[k] == domains[k];
    JoinContainsPart(", ", shown, k);
    ContainsLeft(Join(", ", shown), MoreSuffix(|domains|), domains[k]);
  }

  /** Up to twenty domains are all shown, with no tail. */
  lemma ShortListShownWhole(domains: seq<string>)
    requires |domains| <= PreviewLimit
    ensures AtsPreview(domains) == Join(", ", domains)
  {
    assert domains[..|domains|] == domains;
  }

  /** Already quoted: starts and ends with a double quote. A lone `"` counts. */
  predicate IsQuoted(k: string)
  {
    |k| > 0 && k[0] == '"' && k[|k| - 1] == '"'
  }

  /** The quoting of `add_keyword`: the keyword as stored and as displayed. */
  function QuoteKeyword(keyword: string): (r: (string, string))
    ensures IsQuoted(r.0)
  {
    if !IsQuoted(keyword) then ("\"" + keyword + "\"", keyword)
    else (keyword, StripChars(keyword, {'"'}))
  }

  /** The stored keyword is always quoted, an unquoted keyword gets one quote
      on each side and keeps its text, a quoted one is stored as given. */
  lemma QuoteKeywordShape(keyword: string)
    ensures IsQuoted(QuoteKeyword(keyword).0)
    ensures !IsQuoted(keyword) ==> QuoteKeyword(keyword) == ("\"" + keyword + "\"", keyword)
    ensures IsQuoted(keyword) ==> QuoteKeyword(keyword).0 == keyword
    ensures var display := QuoteKeyword(keyword).1;
      IsQuoted(keyword) ==>
        && (|display| > 0 ==> display[0] != '"' && display[|display| - 1] != '"')
        && exists i, j :: 0 <= i <= j <= |keyword| && display == keyword[i..j]
                          && (forall k :: 0 <= k < i ==> keyword[k] == '"')
                          && (forall k :: j <= k < |keyword| ==> keyword[k] == '"')
  {
  }

  /** Quoting a stored keyword again changes nothing. */
  lemma QuoteKeywordIdempotent(keyword: string)
    ensures QuoteKeyword(QuoteKeyword(keyword).0).0 == QuoteKeyword(keyword).0
  {
    QuoteKeywordShape(keyword);
  }

  /** A lone double quote is taken as already quoted: stored as it is and
      displayed as the empty string. */
  lemma LoneQuote()
    ensures QuoteKeyword("\"") == ("\"", "")
  {
    assert StripLeft("\"", {'"'}) == StripLeft("", {'"'});
  }

  /** A keyword with an opening quote only is wrapped once more. */
  lemma HalfQuoted(rest: string)
    requires |rest| > 0 && rest[|rest| - 1] != '"'
    ensures QuoteKeyword("\"" + rest).0 == "\"\"" + rest + "\""
  {
    assert ("\"" + rest)[|rest|] == rest[|rest| - 1];
  }

  /** The configuration `add_keyword` edits. */
  type BaseQueries = Pipeline.BaseQueries

  const GisDefault: string := "gis_default"
  const TitleKeywords: string := "title_keywords"

  /** The configuration after `add_keyword`: the quoted keyword appended to
      the GIS title keywords unless present, creating the family and its
      keyword list when missing. */
  function AddedKeyword(queries: BaseQueries, keyword: string): (r: BaseQueries)
    ensures QuoteKeyword(keyword).0 in Pipeline.GisTitleKeywords(r)
  {
    var stored := QuoteKeyword(keyword).0;
    var titles := Pipeline.GisTitleKeywords(queries);
    if stored in titles then queries
    else
      var family := if GisDefault in queries then queries[GisDefault] else map[];
      queries[GisDefault := family[TitleKeywords := titles + [stored]]]
  }

  class QueryConfig {
    var queries: BaseQueries

    constructor(queries: BaseQueries)
      ensures this.queries == queries
    {
      this.queries := queries;
    }

    /** `add_keyword`: quote the keyword, and append it to the GIS title
        keywords unless present. `display` is the keyword as the reply shows it. */
    method AddKeyword(keyword: string) returns (saved: bool, display: string)
      modifies this
      ensures saved <==> QuoteKeyword(keyword).0 !in Pipeline.GisTitleKeywords(old(queries))
      ensures display == QuoteKeyword(keyword).1
      ensures queries == AddedKeyword(old(queries), keyword)
    {
      var family: map<string, seq<string>> := map[];
      if GisDefault in queries {
        family := queries[GisDefault];
      }
      var titles: seq<string> := [];
      if TitleKeywords in family {
        titles := family[TitleKeywords];
      }
      var stored := keyword;
      if !IsQuoted(keyword) {
        display := keyword;
        stored := "\"" + keyword + "\"";
      } else {
        display := StripChars(keyword, {'"'});
      }
      if stored in titles {
        return false, display;
      }
      titles := titles + [stored];
      queries := queries[GisDefault := family[TitleKeywords := titles]];
      saved := true;
    }
  }

  /** Adding a keyword touches only the GIS title keywords: every other query
      family and every other setting of the GIS family keep their values. */
  lemma AddKeywordTouchesOnlyTitles(queries: BaseQueries, keyword: string)
    ensures var r := AddedKeyword(queries, keyword);
      && (forall f :: f != GisDefault ==> (f in r <==> f in queries))
      && (forall f :: f != GisDefault && f in queries ==> r[f] == queries[f])
      && (GisDefault in queries ==> forall s :: s != TitleKeywords ==>
            (s in r[GisDefault] <==> s in queries[GisDefault]))
      && (GisDefault in queries ==> forall s :: s != TitleKeywords && s in queries[GisDefault] ==>
            r[GisDefault][s] == queries[GisDefault][s])
  {
  }

  /** The title keywords afterwards: the quoted keyword appended at the end
      exactly when it was not there yet. */
  lemma AddKeywordTitles(queries: BaseQueries, keyword: string)
    ensures var before, after := Pipeline.GisTitleKeywords(queries),
                                 Pipeline.GisTitleKeywords(AddedKeyword(queries, keyword));
      var stored := QuoteKeyword(keyword).0;
      && (stored in before ==> after == before)
      && (stored !in before ==> after == before + [stored])
      && stored in after
  {
  }

  /** Adding the same keyword twice is adding it once. */
  lemma AddKeywordIdempotent(queries: BaseQueries, keyword: string)
    ensures AddedKeyword(AddedKeyword(queries, keyword), keyword) == AddedKeyword(queries, keyword)
  {
    AddKeywordTitles(queries, keyword);
  }

  /** A newly added keyword takes part in the next scan: the query holds it
      verbatim, quotes included. */
  lemma AddedKeywordInQuery(queries: BaseQueries, keyword: string, atsDomains: seq<string>)
    ensures Contains(
      QueryBuilder.BuildBooleanQuery(atsDomains, Pipeline.GisTitleKeywords(AddedKeyword(queries, keyword))),
      QuoteKeyword(keyword).0)
  {
    var after := Pipeline.GisTitleKeywords(AddedKeyword(queries, keyword));
    AddKeywordTitles(queries, keyword);
    var k :| 0 <= k < |after| && after[k] == QuoteKeyword(keyword).0;
    QueryBuilder.QueryMentionsEveryTerm(atsDomains, after);
  }
}
