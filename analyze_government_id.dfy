/**
 * The Indonesian-language analyze route: several quoted search terms joined
 * with OR, a bilingual label mapping, a two-path news fetch (fetch, then the
 * https module) and a `POST` that refuses an empty news list.
 */
module AnalyzeGovernmentId {
  import opened Base
  import opened Text
  import opened Upstream
  import opened Classifier
  import opened Recommendation
  import opened Aggregation
  import AnalyzeGovernment

  /** The four codes `countryQueries` has an entry for. */
  predicate Configured(country: string)
  {
    country == "ID" || country == "MY" || country == "SG" || country == "TH"
  }

  /** `countryQueries`: four search terms for each configured code, else `pemerintah <code>`. */
  function QueryTerms(country: string): (terms: seq<string>)
    ensures |terms| >= 1
    ensures Configured(country) ==> |terms| == 4
    ensures !Configured(country) ==> terms == ["pemerintah " + country]
  {
    match country
    case "ID" => ["pemerintah indonesia", "indonesia government", "jokowi", "presiden indonesia"]
    case "MY" => ["pemerintah malaysia", "malaysia government", "anwar ibrahim", "perdana menteri malaysia"]
    case "SG" => ["pemerintah singapura", "singapore government", "lee hsien loong", "perdana menteri singapura"]
    case "TH" => ["pemerintah thailand", "thailand government", "prayut", "perdana menteri thailand"]
    case _ => ["pemerintah " + country]
  }

  /** A term in double quotes. */
  function Quote(term: string): string
  {
    "\"" + term + "\""
  }

  /** `queries.map((q) => `"${q}"`).join(" OR ")`: the single query sent to GNews. */
  function OrQuery(country: string): string
  {
    var terms := QueryTerms(country);
    Join(seq(|terms|, i requires 0 <= i < |terms| => Quote(terms[i])), " OR ")
  }

  /** Every configured term reaches the query, in quotes. */
  lemma OrQueryMentionsEveryTerm(country: string, i: nat)
    requires i < |QueryTerms(country)|
    ensures Includes(OrQuery(country), Quote(QueryTerms(country)[i]))
  {
    var terms := QueryTerms(country);
    JoinIncludesPart(seq(|terms|, k requires 0 <= k < |terms| => Quote(terms[k])), " OR ", i);
  }

  /** The terms keep their configured order: each is followed in the query by " OR " and the next one. */
  lemma OrQueryKeepsOrder(country: string, i: nat)
    requires i + 1 < |QueryTerms(country)|
    ensures var terms := QueryTerms(country);
      Includes(OrQuery(country), Quote(terms[i]) + " OR " + Quote(terms[i + 1]))
  {
    var terms := QueryTerms(country);
    JoinIncludesAdjacent(seq(|terms|, k requires 0 <= k < |terms| => Quote(terms[k])), " OR ", i);
  }

  /** An unconfigured code is used as it is, without lower-casing, in a single quoted term. */
  lemma UnconfiguredCountryQuery(country: string)
    requires !Configured(country)
    ensures OrQuery(country) == "\"pemerintah " + country + "\""
  {
    var terms := QueryTerms(country);
    var quoted := seq(|terms|, i requires 0 <= i < |terms| => Quote(terms[i]));
    assert quoted == [Quote("pemerintah " + country)];
  }

  /** `mapSentiment` for the Indonesian model: English and Indonesian labels, ignoring case. */
  function MapSentimentBilingual(rawLabel: string): (r: string)
    ensures r != rawLabel ==> Canonical(r)
    ensures r != rawLabel ==>
      ToLower(rawLabel) in {"positive", "positif", "neutral", "netral", "negative", "negatif"}
  {
    var normalizedLabel := ToLower(rawLabel);
    if normalizedLabel == "positive" || normalizedLabel == "positif" then "Positif"
    else if normalizedLabel == "neutral" || normalizedLabel == "netral" then "Netral"
    else if normalizedLabel == "negative" || normalizedLabel == "negatif" then "Negatif"
    else rawLabel
  }

  /** The result is one of the three buckets, or the label itself when it names none. */
  lemma BilingualOutcome(rawLabel: string)
    ensures Canonical(MapSentimentBilingual(rawLabel)) || MapSentimentBilingual(rawLabel) == rawLabel
  {
  }

  /**
   * The Positif bucket holds exactly the labels that lower-case to "positive"
   * or "positif"; unlike the English mapper, a label lands there only through
   * the mapping.
   */
  lemma {:induction false} BilingualPositiveBucket(rawLabel: string)
    ensures MapSentimentBilingual(rawLabel) == "Positif" <==>
      ToLower(rawLabel) == "positive" || ToLower(rawLabel) == "positif"
  {
    assert ToLower("Positif") == "positif";
  }

  /** The three bucket names map to themselves. */
  lemma BucketNamesFixed()
    ensures MapSentimentBilingual("Positif") == "Positif"
    ensures MapSentimentBilingual("Netral") == "Netral"
    ensures MapSentimentBilingual("Negatif") == "Negatif"
  {
    // each name either lowers to its own Indonesian label or passes through; a letter rules out the rest
    assert ToLower("Positif")[0] == 'p';
    assert ToLower("Negatif")[0] == 'n' && ToLower("Negatif")[2] == 'g';
  }

  /** Mapping twice is mapping once. */
  lemma {:induction false} BilingualIdempotent(rawLabel: string)
    ensures MapSentimentBilingual(MapSentimentBilingual(rawLabel)) == MapSentimentBilingual(rawLabel)
  {
    var mapped := MapSentimentBilingual(rawLabel);
    if mapped == "Positif" || mapped == "Netral" || mapped == "Negatif" {
      BucketNamesFixed();
    } else {
      assert mapped == rawLabel;
    }
  }

  /** On every label the English mapper recognises, the bilingual mapper agrees with it. */
  lemma BilingualExtendsEnglish(rawLabel: string)
    requires AnalyzeGovernment.MapSentiment(rawLabel) != rawLabel
    ensures MapSentimentBilingual(rawLabel) == AnalyzeGovernment.MapSentiment(rawLabel)
  {
  }

  /** Every way `getNewsFromGNews` can throw in this route. */
  datatype NewsError =
    | MissingNewsKey        // no GNEWS_API_KEY
    | RequestError          // the https request failed or timed out
    | HttpStatus(status: int)  // the https answer was not 200
    | GNewsApiError         // the body carries a non-empty `errors` array
    | NoArticles            // `articles` is missing or not an array
    | ParseFailed           // the body did not parse, was `null`, or an article lacks `source`

  /**
   * The body checks both paths share: an embedded error, then an `articles`
   * array, which may be empty, then the normalisation.
   */
  function ReadArticles(p: Payload): (r: Result<seq<Article>, NewsError>)
    ensures r.Success? <==> p.Doc? && !HasErrors(p) && p.articles.Items? && Normalize(p.articles.items).Some?
    ensures r.Success? ==> Normalize(p.articles.items) == Some(r.value)
    ensures r == Failure(GNewsApiError) <==> HasErrors(p)
    ensures r == Failure(NoArticles) <==> p.Doc? && !HasErrors(p) && !p.articles.Items?
  {
    match p
    case Unparseable => Failure(ParseFailed)
    case Null => Failure(ParseFailed)
    case Doc(errors, articles) =>
      if errors.Some? && |errors.value| > 0 then Failure(GNewsApiError)
      else if !articles.Items? then Failure(NoArticles)
      else
        match Normalize(articles.items)
        case Some(normalized) => Success(normalized)
        case None => Failure(ParseFailed)
  }

  /** An `articles` array with no element is accepted: the route fetches zero articles. */
  lemma EmptyArticlesAccepted()
    ensures ReadArticles(Doc(None, Items([]))) == Success([])
  {
  }

  /** The five-strategy English route rejects the same body. */
  lemma EnglishRouteRejectsEmptyArticles()
    ensures AnalyzeGovernment.Accept(Some(Doc(None, Items([])))) == None
  {
  }

  /** The two paths, in the order they are tried. */
  datatype Path = FetchPath | HttpsPath

  /** What GNews answers to a path sending the query. */
  type IdNet = (Path, string) -> Reply<Payload>

  /** The fetch path: an ok answer whose body passes the checks; any failure is swallowed. */
  function FetchArticles(reply: Reply<Payload>): (r: Option<seq<Article>>)
    ensures r.Some? <==> Ok(reply) && ReadArticles(reply.body).Success?
    ensures r.Some? ==> ReadArticles(reply.body) == Success(r.value)
  {
    if Ok(reply) then
      match ReadArticles(reply.body)
      case Success(articles) => Some(articles)
      case Failure(_) => None
    else None
  }

  /** `getNewsWithHttps`: only status 200 is read; its failure is what the route reports. */
  function HttpsArticles(reply: Reply<Payload>): (r: Result<seq<Article>, NewsError>)
    ensures reply.Failed? ==> r == Failure(RequestError)
    ensures reply.Answer? && reply.status != 200 ==> r == Failure(HttpStatus(reply.status))
    ensures reply.Answer? && reply.status == 200 ==> r == ReadArticles(reply.body)
  {
    match reply
    case Failed(_, _) => Failure(RequestError)
    case Answer(status, body) => if status == 200 then ReadArticles(body) else Failure(HttpStatus(status))
  }

  /** `getNewsFromGNews`: the fetch path, and on any failure of it the https path. */
  function NewsFromGNewsId(country: string, hasKey: bool, net: IdNet): (r: Result<seq<Article>, NewsError>)
  {
    if !hasKey then Failure(MissingNewsKey)
    else
      var query := OrQuery(country);
      match FetchArticles(net(FetchPath, query))
      case Some(articles) => Success(articles)
      case None => HttpsArticles(net(HttpsPath, query))
  }

  /**
   * The fetch succeeds iff the key is present and one of the two paths
   * accepts its answer; the fetch path wins when both would, and when both
   * fail the https path's error is the one reported.
   */
  lemma NewsFromGNewsIdOutcome(country: string, hasKey: bool, net: IdNet)
    ensures var r := NewsFromGNewsId(country, hasKey, net);
      var fetched := FetchArticles(net(FetchPath, OrQuery(country)));
      var viaHttps := HttpsArticles(net(HttpsPath, OrQuery(country)));
      && (r.Success? <==> hasKey && (fetched.Some? || viaHttps.Success?))
      && (hasKey && fetched.Some? ==> r == Success(fetched.value))
      && (hasKey && fetched.None? ==> r == viaHttps)
      && (!hasKey ==> r == Failure(MissingNewsKey))
  {
  }

  datatype PostError =
    | CountryRequired                          // 400: the body has no country
    | FetchFailed(fetch: NewsError)            // 500
    | ClassificationFailed(cause: ClassifierError)  // 500
    | NoArticlesFound                          // 500: "Tidak ada berita yang ditemukan"

  /** The HTTP status each error is answered with. */
  function StatusCode(e: PostError): int
  {
    if e == CountryRequired then 400 else 500
  }

  /**
   * `POST`: fetch, classify every headline in order with the bilingual
   * mapping, and answer with the analysis; an empty news list, which this
   * route's fetch can return, is an error.
   */
  method Post(country: string, hasNewsKey: bool, hasClassifierKey: bool, net: IdNet, classify: ClassifierCalls)
    returns (r: Result<GovernmentAnalysis, PostError>)
    ensures r == Failure(CountryRequired) <==> country == ""
    ensures r.Failure? ==> StatusCode(r.error) == if country == "" then 400 else 500
    ensures country != "" && NewsFromGNewsId(country, hasNewsKey, net).Failure? ==>
      r == Failure(FetchFailed(NewsFromGNewsId(country, hasNewsKey, net).error))
    ensures country != "" && NewsFromGNewsId(country, hasNewsKey, net).Success? ==>
      |NewsFromGNewsId(country, hasNewsKey, net).value| > 0 ==>
      var news := NewsFromGNewsId(country, hasNewsKey, net).value;
      var k := FirstFailure(news, hasClassifierKey, classify, 0);
      && (r.Success? <==> k == |news|)
      && (k < |news| ==> r == Failure(ClassificationFailed(Classification(news, k, hasClassifierKey, classify).error)))
    ensures r == Failure(NoArticlesFound) <==>
      country != "" && NewsFromGNewsId(country, hasNewsKey, net) == Success([])
    ensures r.Success? ==> country != "" && NewsFromGNewsId(country, hasNewsKey, net).Success?
    ensures r.Success? ==>
      var news := NewsFromGNewsId(country, hasNewsKey, net).value;
      var a := r.value;
      && a.country == country
      && |a.articles| == |news| > 0
      && a.totalArticles == |a.articles|
      && (forall i :: 0 <= i < |news| ==>
            Classification(news, i, hasClassifierKey, classify).Success? &&
            a.articles[i] == Processed(news[i], Classification(news, i, hasClassifierKey, classify).value, MapSentimentBilingual))
      && a.sentimentSummary == SummaryOf(a.articles)
      && Total(a.sentimentSummary) <= a.totalArticles
      && a.recommendation == GetRecommendation(a.sentimentSummary)
    ensures r.Failure? && r.error.ClassificationFailed? ==>
      var news := NewsFromGNewsId(country, hasNewsKey, net).value;
      var k := FirstFailure(news, hasClassifierKey, classify, 0);
      k < |news| && r.error.cause == Classification(news, k, hasClassifierKey, classify).error
  {
    if country == "" {
      return Failure(CountryRequired);
    }
    var news := NewsFromGNewsId(country, hasNewsKey, net);
    if news.Failure? {
      return Failure(FetchFailed(news.error));
    }
    if |news.value| > 0 {
      var outcome := Aggregate(news.value, hasClassifierKey, classify, MapSentimentBilingual);
      if outcome.Failure? {
        return Failure(ClassificationFailed(outcome.error));
      }
      var (articles, sentimentSummary) := outcome.value;
      BucketsBoundedByArticles(articles);
      var recommendation := GetRecommendation(sentimentSummary);
      r := Success(GovernmentAnalysis(country, articles, sentimentSummary, recommendation, |articles|));
    } else {
      r := Failure(NoArticlesFound);
    }
  }
}
