/** The Google-style Boolean query of geo_job_sentinel/query_builder.py. */
module QueryBuilder {
  import opened Text

  /** Each ATS domain as a `site:` restriction, in input order. */
  function SiteTerms(domains: seq<string>): (r: seq<string>)
    ensures |r| == |domains|
    ensures forall k :: 0 <= k < |domains| ==> r[k] == "site:" + domains[k]
  {
    seq(|domains|, k requires 0 <= k < |domains| => "site:" + domains[k])
  }

  function BuildBooleanQuery(atsDomains: seq<string>, titleKeywords: seq<string>): (r: string)
    ensures |r| >= 9 && r[0] == '(' && r[|r| - 1] == ')'
  {
    "(" + Join(" OR ", SiteTerms(atsDomains)) + ") AND (" + Join(" OR ", titleKeywords) + ")"
  }

  /** Every domain appears as `site:<domain>` and every keyword appears exactly
      as given: no quoting or escaping is added. */
  lemma QueryMentionsEveryTerm(atsDomains: seq<string>, titleKeywords: seq<string>)
    ensures forall k :: 0 <= k < |atsDomains| ==>
      Contains(BuildBooleanQuery(atsDomains, titleKeywords), "site:" + atsDomains[k])
    ensures forall k :: 0 <= k < |titleKeywords| ==>
      Contains(BuildBooleanQuery(atsDomains, titleKeywords), titleKeywords[k])
  {
    var sites := Join(" OR ", SiteTerms(atsDomains));
    var titles := Join(" OR ", titleKeywords);
    assert BuildBooleanQuery(atsDomains, titleKeywords) == "(" + sites + (") AND (" + titles + ")");
    forall k | 0 <= k < |atsDomains|
      ensures Contains(BuildBooleanQuery(atsDomains, titleKeywords), "site:" + atsDomains[k])
    {
      JoinContainsPart(" OR ", SiteTerms(atsDomains), k);
      ContainsInside("(", sites, ") AND (" + titles + ")", "site:" + atsDomains[k]);
    }
    assert BuildBooleanQuery(atsDomains, titleKeywords) == "(" + sites + ") AND (" + titles + ")";
    forall k | 0 <= k < |titleKeywords|
      ensures Contains(BuildBooleanQuery(atsDomains, titleKeywords), titleKeywords[k])
    {
      JoinContainsPart(" OR ", titleKeywords, k);
      ContainsInside("(" + sites + ") AND (", titles, ")", titleKeywords[k]);
    }
  }

  /** Nothing guards the empty lists: no domains gives a leading "()", no
      keywords a trailing "()". */
  lemma EmptyClauses(atsDomains: seq<string>, titleKeywords: seq<string>)
    ensures atsDomains == [] ==> "() AND (" <= BuildBooleanQuery(atsDomains, titleKeywords)
    ensures titleKeywords == [] ==>
      var q := BuildBooleanQuery(atsDomains, titleKeywords);
      |q| >= 2 && q[|q| - 2..] == "()"
  {
  }

  /** A single domain and a single keyword contribute no " OR ". */
  lemma SingleTerms(domain: string, keyword: string)
    ensures BuildBooleanQuery([domain], [keyword]) == "(site:" + domain + ") AND (" + keyword + ")"
  {
  }

  /** One more domain extends the domain clause by " OR site:<domain>" and
      leaves the rest of the query as it was. */
  lemma AppendDomain(atsDomains: seq<string>, domain: string, titleKeywords: seq<string>)
    requires |atsDomains| > 0
    ensures BuildBooleanQuery(atsDomains + [domain], titleKeywords)
         == "(" + (Join(" OR ", SiteTerms(atsDomains)) + " OR " + ("site:" + domain))
            + ") AND (" + Join(" OR ", titleKeywords) + ")"
  {
    assert SiteTerms(atsDomains + [domain]) == SiteTerms(atsDomains) + ["site:" + domain];
    JoinAppend(" OR ", SiteTerms(atsDomains), "site:" + domain);
  }

  /** The same for one more keyword. */
  lemma AppendKeyword(atsDomains: seq<string>, titleKeywords: seq<string>, keyword: string)
    requires |titleKeywords| > 0
    ensures BuildBooleanQuery(atsDomains, titleKeywords + [keyword])
         == "(" + Join(" OR ", SiteTerms(atsDomains)) + ") AND ("
            + (Join(" OR ", titleKeywords) + " OR " + keyword) + ")"
  {
    JoinAppend(" OR ", titleKeywords, keyword);
  }

  /** The shape of the example in the function's documentation: two domains
      and two keywords, each pair joined by one " OR ". */
  lemma TwoTerms(d1: string, d2: string, k1: string, k2: string)
    ensures BuildBooleanQuery([d1, d2], [k1, k2])
         == "(site:" + d1 + " OR site:" + d2 + ") AND (" + k1 + " OR " + k2 + ")"
  {
    var sites := SiteTerms([d1, d2]);
    assert sites[1..] == ["site:" + d2];
    assert Join(" OR ", sites) == "site:" + d1 + " OR " + "site:" + d2;
    assert [k1, k2][1..] == [k2];
    assert Join(" OR ", [k1, k2]) == k1 + " OR " + k2;
    assert "(" + "site:" == "(site:";
    assert " OR " + "site:" == " OR site:";
  }
}
