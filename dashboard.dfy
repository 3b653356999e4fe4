/**
 * The dashboard page: the ASEAN country table, the search filters, the style
 * lookups, the campaign that asks the analyze route about every country in
 * turn, and the sentiment totals over the analyses gathered so far.
 */
module Dashboard {
  import opened Base
  import opened Text
  import opened Recommendation
  import opened Aggregation
  import AnalyzeGovernment

  /** One row of the `countries` table. */
  datatype Country = Country(code: string, name: string, fullName: string, color: string, flag: string)

  /**
   * `countries`: the ten ASEAN members in display order. The flag texts are
   * the characters the page source holds: each regional-indicator pair read
   * back byte by byte as Mac Roman text.
   */
  const Countries: seq<Country> := [
    Country("BN", "Brunei", "Brunei Darussalam Government", "bg-yellow-500",
      "\U{F8FF}\U{FC}\U{E1}\U{DF}\U{F8FF}\U{FC}\U{E1}\U{2265}"),
    Country("KH", "Kamboja", "Cambodia Government", "bg-blue-600",
      "\U{F8FF}\U{FC}\U{E1}\U{221E}\U{F8FF}\U{FC}\U{E1}\U{2260}"),
    Country("ID", "Indonesia", "Indonesia Government", "bg-red-500",
      "\U{F8FF}\U{FC}\U{E1}\U{C6}\U{F8FF}\U{FC}\U{E1}\U{A9}"),
    Country("LA", "Laos", "Laos Government", "bg-red-600",
      "\U{F8FF}\U{FC}\U{E1}\U{B1}\U{F8FF}\U{FC}\U{E1}\U{B6}"),
    Country("MY", "Malaysia", "Malaysia Government", "bg-blue-500",
      "\U{F8FF}\U{FC}\U{E1}\U{2264}\U{F8FF}\U{FC}\U{E1}\U{E6}"),
    Country("MM", "Myanmar", "Myanmar Government", "bg-yellow-600",
      "\U{F8FF}\U{FC}\U{E1}\U{2264}\U{F8FF}\U{FC}\U{E1}\U{2264}"),
    Country("PH", "Filipina", "Philippines Government", "bg-blue-700",
      "\U{F8FF}\U{FC}\U{E1}\U{B5}\U{F8FF}\U{FC}\U{E1}\U{2260}"),
    Country("SG", "Singapura", "Singapore Government", "bg-green-500",
      "\U{F8FF}\U{FC}\U{E1}\U{220F}\U{F8FF}\U{FC}\U{E1}\U{A8}"),
    Country("TH", "Thailand", "Thailand Government", "bg-purple-500",
      "\U{F8FF}\U{FC}\U{E1}\U{3C0}\U{F8FF}\U{FC}\U{E1}\U{2260}"),
    Country("VN", "Vietnam", "Vietnam Government", "bg-red-700",
      "\U{F8FF}\U{FC}\U{E1}\U{AA}\U{F8FF}\U{FC}\U{E1}\U{2265}")]

  const DefaultColor: string := "bg-gray-500"

  /** The fallback flag text, stored the same way as the table's flags. */
  const DefaultFlag: string := "\U{F8FF}\U{FC}\U{E8}\U{F5}\U{D4}\U{220F}\U{E8}"

  // ---------------------------------------------------------------- search

  /** Case-insensitive `text.includes(term)`. */
  predicate MatchesTerm(text: string, searchTerm: string)
  {
    Includes(ToLower(text), ToLower(searchTerm))
  }

  /** The `filteredCountries` test: the term occurs in the code or in the name. */
  function CountryFilter(searchTerm: string): Country -> bool
  {
    (c: Country) => MatchesTerm(c.code, searchTerm) || MatchesTerm(c.name, searchTerm)
  }

  /** The `filteredAnalyses` test: the term occurs in the analysis's country code. */
  function AnalysisFilter(searchTerm: string): GovernmentAnalysis -> bool
  {
    (a: GovernmentAnalysis) => MatchesTerm(a.country, searchTerm)
  }

  function FilteredCountries(countries: seq<Country>, searchTerm: string): (r: seq<Country>)
    ensures |r| <= |countries|
  {
    Filter(countries, CountryFilter(searchTerm))
  }

  function FilteredAnalyses(analyses: seq<GovernmentAnalysis>, searchTerm: string): (r: seq<GovernmentAnalysis>)
    ensures |r| <= |analyses|
  {
    Filter(analyses, AnalysisFilter(searchTerm))
  }

  /**
   * A country is shown exactly when the lower-cased term occurs in its
   * lower-cased code or name, and the shown countries keep the table order.
   */
  lemma FilteredCountriesSpec(countries: seq<Country>, searchTerm: string, c: Country)
    ensures c in FilteredCountries(countries, searchTerm) <==>
      c in countries && (MatchesTerm(c.code, searchTerm) || MatchesTerm(c.name, searchTerm))
    ensures Subsequence(FilteredCountries(countries, searchTerm), countries)
  {
    FilterMembership(countries, CountryFilter(searchTerm), c);
    FilterIsSubsequence(countries, CountryFilter(searchTerm));
  }

  /** An analysis is shown exactly when the term occurs in its country code; order is kept. */
  lemma FilteredAnalysesSpec(analyses: seq<GovernmentAnalysis>, searchTerm: string, a: GovernmentAnalysis)
    ensures a in FilteredAnalyses(analyses, searchTerm) <==> a in analyses && MatchesTerm(a.country, searchTerm)
    ensures Subsequence(FilteredAnalyses(analyses, searchTerm), analyses)
  {
    FilterMembership(analyses, AnalysisFilter(searchTerm), a);
    FilterIsSubsequence(analyses, AnalysisFilter(searchTerm));
  }

  /** The empty search term shows everything, in order. */
  lemma EmptySearchShowsAll(countries: seq<Country>, analyses: seq<GovernmentAnalysis>)
    ensures FilteredCountries(countries, "") == countries
    ensures FilteredAnalyses(analyses, "") == analyses
  {
    assert ToLower("") == "";
    forall i | 0 <= i < |countries|
      ensures CountryFilter("")(countries[i])
    {
      IncludesEmpty(ToLower(countries[i].code));
    }
    FilterKeepsAll(countries, CountryFilter(""));
    forall i | 0 <= i < |analyses|
      ensures AnalysisFilter("")(analyses[i])
    {
      IncludesEmpty(ToLower(analyses[i].country));
    }
    FilterKeepsAll(analyses, AnalysisFilter(""));
  }

  // --------------------------------------------------------------- lookups

  /** `countries.find((c) => c.code === countryCode)`: the first row with that code. */
  function FindCountry(countries: seq<Country>, code: string): (r: Option<Country>)
    ensures r.None? <==> forall i :: 0 <= i < |countries| ==> countries[i].code != code
    ensures r.Some? ==> r.value in countries && r.value.code == code
  {
    if countries == [] then None
    else if countries[0].code == code then Some(countries[0])
    else
      var r := FindCountry(countries[1..], code);
      assert forall i :: 1 <= i < |countries| ==> countries[i] == countries[1..][i - 1];
      r
  }

  /** `getCountryColor`: the row's colour, or grey when no row has the code. */
  function CountryColor(code: string): string
  {
    match FindCountry(Countries, code)
    case Some(c) => if c.color != "" then c.color else DefaultColor
    case None => DefaultColor
  }

  /** `getCountryFlag`: the row's flag, or the building emoji when no row has the code. */
  function CountryFlag(code: string): string
  {
    match FindCountry(Countries, code)
    case Some(c) => if c.flag != "" then c.flag else DefaultFlag
    case None => DefaultFlag
  }

  /** No two rows share a code, so `find` lands on the row itself. */
  lemma CodesDistinct()
    ensures forall i, j :: 0 <= i < j < |Countries| ==> Countries[i].code != Countries[j].code
  {
    forall i, j | 0 <= i < j < |Countries|
      ensures Countries[i].code != Countries[j].code
    {
      assert Countries[i].code[0] != Countries[j].code[0] || Countries[i].code[1] != Countries[j].code[1];
    }
  }

  /** A listed code gets its own row's colour and flag. */
  lemma ListedCountryLookups(i: nat)
    requires i < |Countries|
    ensures CountryColor(Countries[i].code) == Countries[i].color
    ensures CountryFlag(Countries[i].code) == Countries[i].flag
  {
    CodesDistinct();
    FindListed(Countries, i);
  }

  /** In a table without repeated codes, `find` on a row's code returns that row. */
  lemma FindListed(countries: seq<Country>, i: nat)
    requires i < |countries|
    requires forall j, k :: 0 <= j < k < |countries| ==> countries[j].code != countries[k].code
    ensures FindCountry(countries, countries[i].code) == Some(countries[i])
  {
    var r := FindCountry(countries, countries[i].code);
    var k :| 0 <= k < |countries| && countries[k] == r.value;
    assert k == i;
  }

  /** An unlisted code gets the defaults. */
  lemma UnlistedCountryLookups(code: string)
    requires forall i :: 0 <= i < |Countries| ==> Countries[i].code != code
    ensures CountryColor(code) == DefaultColor
    ensures CountryFlag(code) == DefaultFlag
  {
  }

  // ---------------------------------------------------------------- styles

  /** The three colour families the page uses for sentiments and recommendations. */
  datatype Tone = Green | Red | Yellow

  /** The case analysis shared by `getSentimentIcon` and `getSentimentColor`. */
  function SentimentTone(sentiment: string): Tone
  {
    match sentiment
    case "Positif" => Green
    case "Negatif" => Red
    case _ => Yellow
  }

  /** `getSentimentColor` */
  function SentimentColor(sentiment: string): string
  {
    match SentimentTone(sentiment)
    case Green => "bg-green-50 text-green-700 border-green-200"
    case Red => "bg-red-50 text-red-700 border-red-200"
    case Yellow => "bg-yellow-50 text-yellow-700 border-yellow-200"
  }

  /** The case analysis of `getRecommendationColor`. */
  function RecommendationTone(recommendation: string): Tone
  {
    match recommendation
    case "POSITIF" => Green
    case "NEGATIF" => Red
    case _ => Yellow
  }

  /** `getRecommendationColor` */
  function RecommendationColor(recommendation: string): string
  {
    match RecommendationTone(recommendation)
    case Green => "bg-green-500 hover:bg-green-600 text-white shadow-green-100"
    case Red => "bg-red-500 hover:bg-red-600 text-white shadow-red-100"
    case Yellow => "bg-yellow-500 hover:bg-yellow-600 text-white shadow-yellow-100"
  }

  /**
   * Through the English route's mapping, a raw classifier label is shown in
   * green exactly when it is some casing of "positive" or the literal
   * "Positif", and in red exactly when it is some casing of "negative" or the
   * literal "Negatif"; every other label, passed through, is yellow.
   */
  lemma {:induction false} MappedLabelTone(rawLabel: string)
    ensures SentimentTone(AnalyzeGovernment.MapSentiment(rawLabel)) == Green <==>
      ToLower(rawLabel) == "positive" || rawLabel == "Positif"
    ensures SentimentTone(AnalyzeGovernment.MapSentiment(rawLabel)) == Red <==>
      ToLower(rawLabel) == "negative" || rawLabel == "Negatif"
  {
    assert ToLower("Positif") == "positif";
    assert ToLower("Negatif") == "negatif";
  }

  /**
   * The recommendation badge is green exactly when at least three fifths of a
   * non-empty summary is positive, and red exactly when instead at least
   * three fifths is negative.
   */
  lemma RecommendationToneMatchesThresholds(s: Summary)
    ensures RecommendationTone(GetRecommendation(s)) == Green <==> Total(s) > 0 && 5 * s.positif >= 3 * Total(s)
    ensures RecommendationTone(GetRecommendation(s)) == Red <==>
      Total(s) > 0 && 5 * s.positif < 3 * Total(s) && 5 * s.negatif >= 3 * Total(s)
  {
  }

  // -------------------------------------------------------------- campaign

  /** What one request of the campaign produced: it threw, or it answered. */
  datatype CampaignReply =
    | Thrown
    | Response(ok: bool, body: Option<GovernmentAnalysis>)  // `None`: `response.json()` threw or gave no object

  /** The analysis appended for one reply: only an ok answer with a readable body is kept. */
  function Kept(reply: CampaignReply): Option<GovernmentAnalysis>
  {
    if reply.Response? && reply.ok then reply.body else None
  }

  /** The analyses the campaign collects from `countries`, in visiting order. */
  function KeptAnalyses(countries: seq<Country>, respond: string -> CampaignReply): seq<GovernmentAnalysis>
  {
    if countries == [] then []
    else
      var last := Kept(respond(countries[|countries| - 1].code));
      KeptAnalyses(countries[..|countries| - 1], respond) + (if last.Some? then [last.value] else [])
  }

  /** The countries whose request yields an analysis. */
  function Answered(respond: string -> CampaignReply): Country -> bool
  {
    (c: Country) => Kept(respond(c.code)).Some?
  }

  /**
   * The collected analyses are, one for one and in order, the answers of the
   * countries that answered: an order-preserving subsequence of the table,
   * where a failing country is skipped without stopping the campaign.
   */
  lemma {:induction false} KeptAnalysesFollowCountries(countries: seq<Country>, respond: string -> CampaignReply)
    ensures |KeptAnalyses(countries, respond)| == |Filter(countries, Answered(respond))|
    ensures forall k :: 0 <= k < |KeptAnalyses(countries, respond)| ==>
      Kept(respond(Filter(countries, Answered(respond))[k].code)) == Some(KeptAnalyses(countries, respond)[k])
    ensures Subsequence(Filter(countries, Answered(respond)), countries)
  {
    FilterIsSubsequence(countries, Answered(respond));
    if countries != [] {
      var init, last := countries[..|countries| - 1], countries[|countries| - 1];
      KeptAnalysesFollowCountries(init, respond);
      assert countries == init + [last];
      FilterAppend(init, [last], Answered(respond));
      assert Filter([last], Answered(respond)) == (if Answered(respond)(last) then [last] else []);
    }
  }

  /** Progress shown before visiting the `i`-th of `n` countries: `i / n * 100`. */
  function ProgressAt(i: nat, n: nat): real
    requires n > 0
  {
    (i as real / n as real) * 100.0
  }

  /** The progress values shown before each of the first `i` countries. */
  function ProgressPrefix(i: nat, n: nat): (steps: seq<real>)
    requires i <= n && n > 0
    ensures |steps| == i
    ensures forall k :: 0 <= k < i ==> steps[k] == ProgressAt(k, n)
  {
    seq(i, k requires 0 <= k < i => ProgressAt(k, n))
  }

  lemma ProgressPrefixStep(i: nat, n: nat)
    requires i < n
    ensures ProgressPrefix(i + 1, n) == ProgressPrefix(i, n) + [ProgressAt(i, n)]
  {
  }

  /** One more visited country extends the collected analyses and the visited codes. */
  lemma CampaignStep(countries: seq<Country>, i: nat, respond: string -> CampaignReply)
    requires i < |countries|
    ensures var last := Kept(respond(countries[i].code));
      KeptAnalyses(countries[..i + 1], respond) ==
        KeptAnalyses(countries[..i], respond) + (if last.Some? then [last.value] else [])
    ensures Codes(countries[..i + 1]) == Codes(countries[..i]) + [countries[i].code]
  {
    assert countries[..i + 1][..i] == countries[..i];
  }

  /** Every progress value a campaign over `n` countries shows: 0, each step, then 100. */
  function ProgressTrace(n: nat): (trace: seq<real>)
    requires n > 0
    ensures |trace| == n + 2
  {
    [0.0] + ProgressPrefix(n, n) + [100.0]
  }

  /** `i / n` grows with `i` and stays within `[0, 1]`. */
  lemma ProgressStep(i: nat, j: nat, n: nat)
    requires i <= j <= n && n > 0
    ensures 0.0 <= ProgressAt(i, n) <= ProgressAt(j, n) <= 100.0
  {
    var d := n as real;
    assert (j as real) / d - (i as real) / d == ((j - i) as real) / d;
    assert (n as real) / d == 1.0;
    assert (n as real) / d - (j as real) / d == ((n - j) as real) / d;
  }

  /** The progress bar never moves backwards, and ends full. */
  lemma ProgressNonDecreasing(n: nat)
    requires n > 0
    ensures forall a, b :: 0 <= a <= b < |ProgressTrace(n)| ==> ProgressTrace(n)[a] <= ProgressTrace(n)[b]
    ensures ProgressTrace(n)[|ProgressTrace(n)| - 1] == 100.0
  {
    var trace := ProgressTrace(n);
    forall a, b | 0 <= a <= b < |trace|
      ensures trace[a] <= trace[b]
    {
      if 0 < a <= b <= n {
        ProgressStep(a - 1, b - 1, n);
      } else if a == 0 && 0 < b <= n {
        ProgressStep(0, b - 1, n);
      } else if 0 < a <= n {
        ProgressStep(a - 1, n, n);
      }
    }
  }

  /** The codes of `countries`, in order. */
  function Codes(countries: seq<Country>): (codes: seq<string>)
    ensures |codes| == |countries|
    ensures forall i :: 0 <= i < |countries| ==> codes[i] == countries[i].code
  {
    seq(|countries|, i requires 0 <= i < |countries| => countries[i].code)
  }

  /** What `checkApiStatus` learnt from the status route. */
  datatype StatusFetch = StatusThrown | StatusNotOk | StatusBody(gnews: bool, huggingface: bool)

  const BothApisRequired: string := "Kedua API harus terhubung untuk menjalankan analisis"

  /** The page state the campaign reads and writes. */
  class Page {
    var analyses: seq<GovernmentAnalysis>
    var loading: bool
    var currentCountry: string
    var progress: real
    var error: Option<string>
    var gnewsConnected: bool
    var huggingfaceConnected: bool
    /** Every progress value set during the last campaign, in order. */
    ghost var progressTrace: seq<real>
    /** The country codes requested during the last campaign, in order. */
    ghost var visited: seq<string>

    /** The initial `useState` values: nothing analysed, both services unchecked. */
    constructor()
      ensures analyses == [] && !loading && currentCountry == "" && progress == 0.0 && error == None
      ensures !gnewsConnected && !huggingfaceConnected
      ensures progressTrace == [] && visited == []
    {
      analyses, loading, currentCountry, progress, error := [], false, "", 0.0, None;
      gnewsConnected, huggingfaceConnected := false, false;
      progressTrace, visited := [], [];
    }

    /**
     * `checkApiStatus`: an ok answer sets both flags from its body, a throw
     * clears both, and any other answer leaves them as they were.
     */
    method CheckApiStatus(outcome: StatusFetch)
      modifies this`gnewsConnected, this`huggingfaceConnected
      ensures outcome.StatusBody? ==> gnewsConnected == outcome.gnews && huggingfaceConnected == outcome.huggingface
      ensures outcome.StatusThrown? ==> !gnewsConnected && !huggingfaceConnected
      ensures outcome.StatusNotOk? ==>
        gnewsConnected == old(gnewsConnected) && huggingfaceConnected == old(huggingfaceConnected)
    {
      match outcome
      case StatusBody(g, h) =>
        gnewsConnected, huggingfaceConnected := g, h;
      case StatusThrown =>
        gnewsConnected, huggingfaceConnected := false, false;
      case StatusNotOk =>
    }

    /**
     * `analyzeGovernments`: unless both services are connected only the error
     * is set. Otherwise the list is cleared and every country is requested in
     * table order, one at a time; ok answers are appended, everything else is
     * skipped, and the progress runs from 0 to 100.
     */
    method AnalyzeGovernments(respond: string -> CampaignReply)
      modifies this
      ensures gnewsConnected == old(gnewsConnected) && huggingfaceConnected == old(huggingfaceConnected)
      ensures !(old(gnewsConnected) && old(huggingfaceConnected)) ==>
        && error == Some(BothApisRequired)
        && analyses == old(analyses) && loading == old(loading) && currentCountry == old(currentCountry)
        && progress == old(progress) && progressTrace == old(progressTrace) && visited == old(visited)
      ensures old(gnewsConnected) && old(huggingfaceConnected) ==>
        && error == None && !loading && currentCountry == ""
        && analyses == KeptAnalyses(Countries, respond)
        && visited == Codes(Countries)
        && progressTrace == ProgressTrace(|Countries|)
        && progress == 100.0
    {
      if !(gnewsConnected && huggingfaceConnected) {
        error := Some(BothApisRequired);
        return;
      }
      loading, analyses, progress, error := true, [], 0.0, None;
      VisitCountries(Countries, respond);
      progress := 100.0;
      progressTrace := progressTrace + [progress];
      loading, currentCountry := false, "";
    }

    /**
     * The `for` loop of `analyzeGovernments` over `countries`: one request per
     * country, in order, appending each kept analysis and showing the
     * progress before each request.
     */
    method VisitCountries(countries: seq<Country>, respond: string -> CampaignReply)
      requires |countries| > 0
      requires analyses == []
      modifies this`analyses, this`currentCountry, this`progress, this`progressTrace, this`visited
      ensures analyses == KeptAnalyses(countries, respond)
      ensures visited == Codes(countries)
      ensures progressTrace == [0.0] + ProgressPrefix(|countries|, |countries|)
    {
      progressTrace, visited := [0.0], [];
      var n := |countries|;
      for i := 0 to n
        invariant analyses == KeptAnalyses(countries[..i], respond)
        invariant visited == Codes(countries[..i])
        invariant progressTrace == [0.0] + ProgressPrefix(i, n)
      {
        var country := countries[i];
        currentCountry := country.name;
        progress := ProgressAt(i, n);
        progressTrace := progressTrace + [progress];
        visited := visited + [country.code];
        var reply := respond(country.code);
        var analysis := Kept(reply);
        if analysis.Some? {
          analyses := analyses + [analysis.value];
        }
        CampaignStep(countries, i, respond);
        ProgressPrefixStep(i, n);
      }
      assert countries[..n] == countries;
    }

    /** `getTotalSentimentStats`: bucket by bucket, the sum over every analysis. */
    method TotalSentimentStats() returns (total: Summary)
      ensures total == SumSummaries(analyses)
    {
      total := Summary(0, 0, 0);
      for i := 0 to |analyses|
        invariant total == SumSummaries(analyses[..i])
      {
        var s := analyses[i].sentimentSummary;
        total := Summary(total.positif + s.positif, total.netral + s.netral, total.negatif + s.negatif);
        assert analyses[..i + 1][..i] == analyses[..i];
      }
      assert analyses[..|analyses|] == analyses;
    }
  }

  /** Bucket-wise sum of two summaries. */
  function Add(a: Summary, b: Summary): Summary
  {
    Summary(a.positif + b.positif, a.netral + b.netral, a.negatif + b.negatif)
  }

  /** The bucket-wise sum of the summaries of `analyses`. */
  function SumSummaries(analyses: seq<GovernmentAnalysis>): Summary
  {
    if analyses == [] then Summary(0, 0, 0)
    else Add(SumSummaries(analyses[..|analyses| - 1]), analyses[|analyses| - 1].sentimentSummary)
  }

  /** The totals of a longer list are the totals of its parts added up. */
  lemma {:induction false} SumSummariesAppend(xs: seq<GovernmentAnalysis>, ys: seq<GovernmentAnalysis>)
    ensures SumSummaries(xs + ys) == Add(SumSummaries(xs), SumSummaries(ys))
    decreases |ys|
  {
    if ys == [] {
      assert xs + ys == xs;
    } else {
      var init := ys[..|ys| - 1];
      SumSummariesAppend(xs, init);
      assert (xs + ys)[..|xs + ys| - 1] == xs + init;
    }
  }

  /** The number of articles over all analyses. */
  function ArticleCount(analyses: seq<GovernmentAnalysis>): nat
  {
    if analyses == [] then 0
    else ArticleCount(analyses[..|analyses| - 1]) + analyses[|analyses| - 1].totalArticles
  }

  /**
   * When every analysis counts no more articles in its buckets than it has,
   * as the analyze routes guarantee, the page totals count no more than all
   * articles together.
   */
  lemma {:induction false} TotalsBoundedByArticles(analyses: seq<GovernmentAnalysis>)
    requires forall i :: 0 <= i < |analyses| ==> Total(analyses[i].sentimentSummary) <= analyses[i].totalArticles
    ensures Total(SumSummaries(analyses)) <= ArticleCount(analyses)
  {
    if analyses != [] {
      var init := analyses[..|analyses| - 1];
      assert forall i :: 0 <= i < |init| ==> init[i] == analyses[i];
      TotalsBoundedByArticles(init);
    }
  }
}
