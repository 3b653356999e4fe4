/**
 * The English analyze route: the search query per ASEAN country, the label
 * mapping for an English sentiment model, the five-strategy news fetch and
 * the `POST` handler that puts them together.
 */
module AnalyzeGovernment {
  import opened Base
  import opened Text
  import opened Upstream
  import opened Classifier
  import opened Recommendation
  import opened Aggregation

  /** `countryQueries`: the search query configured for each of the ten ASEAN codes. */
  function CountryQuery(country: string): Option<string>
  {
    match country
    case "BN" => Some("brunei government")
    case "KH" => Some("cambodia government")
    case "ID" => Some("indonesia government")
    case "LA" => Some("laos government")
    case "MY" => Some("malaysia government")
    case "MM" => Some("myanmar government")
    case "PH" => Some("philippines government")
    case "SG" => Some("singapore government")
    case "TH" => Some("thailand government")
    case "VN" => Some("vietnam government")
    case _ => None
  }

  /** The lower-case country word each case of the `getAlternativeQueries` switch uses. */
  function SwitchSubject(country: string): Option<string>
  {
    match country
    case "BN" => Some("brunei")
    case "KH" => Some("cambodia")
    case "ID" => Some("indonesia")
    case "LA" => Some("laos")
    case "MY" => Some("malaysia")
    case "MM" => Some("myanmar")
    case "PH" => Some("philippines")
    case "SG" => Some("singapore")
    case "TH" => Some("thailand")
    case "VN" => Some("vietnam")
    case _ => None
  }

  /**
   * The two tables agree: they configure the same ten codes, and each
   * configured query is the switch's country word followed by " government".
   */
  lemma {:induction false} TablesAgree(country: string)
    ensures CountryQuery(country).Some? <==> SwitchSubject(country).Some?
    ensures CountryQuery(country).Some? ==>
      CountryQuery(country).value == SwitchSubject(country).value + " government"
  {
    match country
    case "BN" => assert "brunei government" == "brunei" + " government";
    case "KH" => assert "cambodia government" == "cambodia" + " government";
    case "ID" => assert "indonesia government" == "indonesia" + " government";
    case "LA" => assert "laos government" == "laos" + " government";
    case "MY" => assert "malaysia government" == "malaysia" + " government";
    case "MM" => assert "myanmar government" == "myanmar" + " government";
    case "PH" => assert "philippines government" == "philippines" + " government";
    case "SG" => assert "singapore government" == "singapore" + " government";
    case "TH" => assert "thailand government" == "thailand" + " government";
    case "VN" => assert "vietnam government" == "vietnam" + " government";
    case _ =>
  }

  /** The country word the alternative queries are built from: the switch's, else the lower-cased code. */
  function AlternativeSubject(country: string): string
  {
    match SwitchSubject(country)
    case Some(subject) => subject
    case None => ToLower(country)
  }

  /**
   * The query every strategy but the last one sends: the table entry, else
   * `<code lower-cased> government`. Either way it is the alternative
   * queries' country word followed by " government".
   */
  function SearchQuery(country: string): (q: string)
    ensures |q| >= 11 && q[|q| - 11..] == " government"
    ensures q[..|q| - 11] == AlternativeSubject(country)
    ensures CountryQuery(country).Some? ==> q == CountryQuery(country).value
  {
    TablesAgree(country);
    match CountryQuery(country)
    case Some(query) => query
    case None => ToLower(country) + " government"
  }

  /**
   * `getAlternativeQueries` as written: the first entry is
   * `countryQueries[countryCode]`, which for an unknown code is `undefined`;
   * `encodeURIComponent(undefined)` then sends the text "undefined". The
   * first entry is the search query exactly for the configured codes.
   */
  function AlternativeQueriesAsWritten(country: string): (qs: seq<string>)
    ensures |qs| == 4
    ensures qs[0] == SearchQuery(country) <==> CountryQuery(country).Some?
    ensures CountryQuery(country).None? ==> qs[0] == "undefined"
    ensures qs[1] == AlternativeSubject(country) + " politics"
    ensures qs[2] == AlternativeSubject(country) + " news"
    ensures qs[3] == AlternativeSubject(country)
  {
    var base := if CountryQuery(country).Some? then CountryQuery(country).value else "undefined";
    var subject := AlternativeSubject(country);
    [base, subject + " politics", subject + " news", subject]
  }

  /** `getAlternativeQueries` with the base query falling back as the main search query does. */
  function AlternativeQueries(country: string): (qs: seq<string>)
    ensures |qs| == 4
    ensures qs[0] == SearchQuery(country)
    ensures qs[1..] == AlternativeQueriesAsWritten(country)[1..]
  {
    var subject := AlternativeSubject(country);
    [SearchQuery(country), subject + " politics", subject + " news", subject]
  }

  /**
   * For every unconfigured code the first alternative query as written is
   * "undefined", which is not the search query.
   */
  lemma UnknownCodeQueriesUndefined(country: string)
    requires CountryQuery(country).None?
    ensures AlternativeQueriesAsWritten(country)[0] == "undefined" != SearchQuery(country)
  {
  }

  /** For the code "XX" the first query as written is "undefined"; the corrected one is "xx government". */
  lemma UnknownCodeExample()
    ensures AlternativeQueriesAsWritten("XX")[0] == "undefined"
    ensures AlternativeQueries("XX")[0] == "xx government"
  {
    assert "XX"[0] == 'X';
    assert CountryQuery("XX").None? && SwitchSubject("XX").None?;
    assert ToLower("XX") == "xx";
  }

  /** The correction changes nothing for the ten configured codes. */
  lemma AlternativeQueriesAgreeOnKnownCodes(country: string)
    requires CountryQuery(country).Some?
    ensures AlternativeQueries(country) == AlternativeQueriesAsWritten(country)
  {
  }

  /**
   * For each of the ten codes the alternative queries are `<c> government`,
   * `<c> politics`, `<c> news`, `<c>` for one country word `c`.
   */
  lemma KnownCodeAlternatives(country: string)
    requires CountryQuery(country).Some?
    ensures SwitchSubject(country).Some?
    ensures var c := SwitchSubject(country).value;
      AlternativeQueries(country) == [c + " government", c + " politics", c + " news", c]
  {
    TablesAgree(country);
  }

  /** `mapSentiment` for the English model: only the English labels are mapped, ignoring case. */
  function MapSentiment(rawLabel: string): (r: string)
    ensures r != rawLabel ==> Canonical(r)
    ensures r != rawLabel ==>
      ToLower(rawLabel) == "positive" || ToLower(rawLabel) == "neutral" || ToLower(rawLabel) == "negative"
  {
    var normalizedLabel := ToLower(rawLabel);
    if normalizedLabel == "positive" then "Positif"
    else if normalizedLabel == "neutral" then "Netral"
    else if normalizedLabel == "negative" then "Negatif"
    else rawLabel
  }

  /**
   * Case does not matter: two labels equal up to case map to the same value,
   * unless both are passed through unchanged.
   */
  lemma MapSentimentIgnoresCase(a: string, b: string)
    requires ToLower(a) == ToLower(b)
    ensures MapSentiment(a) == MapSentiment(b) || (MapSentiment(a) == a && MapSentiment(b) == b)
  {
  }

  /** Mapping a mapped label again changes nothing: the outputs are not themselves English labels. */
  lemma {:induction false} MapSentimentIdempotent(rawLabel: string)
    ensures MapSentiment(MapSentiment(rawLabel)) == MapSentiment(rawLabel)
  {
    // the lengths and a distinguishing letter keep each bucket name apart from every English label
    assert ToLower("Positif")[0] == 'p';
    assert ToLower("Negatif")[2] == 'g';
  }

  /**
   * Which labels land in the Positif bucket: any casing of "positive", and
   * the label "Positif" itself, which is passed through verbatim.
   */
  lemma {:induction false} MapSentimentPositiveBucket(rawLabel: string)
    ensures MapSentiment(rawLabel) == "Positif" <==> ToLower(rawLabel) == "positive" || rawLabel == "Positif"
  {
    assert ToLower("Positif")[0] == 'p';
  }

  /** The Netral bucket: any casing of "neutral", and the label "Netral" passed through verbatim. */
  lemma {:induction false} MapSentimentNeutralBucket(rawLabel: string)
    ensures MapSentiment(rawLabel) == "Netral" <==> ToLower(rawLabel) == "neutral" || rawLabel == "Netral"
  {
    assert |ToLower("Netral")| == 6;
  }

  /** The Negatif bucket: any casing of "negative", and the label "Negatif" passed through verbatim. */
  lemma {:induction false} MapSentimentNegativeBucket(rawLabel: string)
    ensures MapSentiment(rawLabel) == "Negatif" <==> ToLower(rawLabel) == "negative" || rawLabel == "Negatif"
  {
    assert ToLower("Negatif")[2] == 'g';
  }

  /** An Indonesian label is not recognised by this mapper: it is returned verbatim. */
  lemma IndonesianLabelPassesThrough()
    ensures MapSentiment("positif") == "positif"
  {
    assert ToLower("positif")[0] == 'p';
  }

  /** The five retrieval strategies, in the order they are tried. */
  datatype Strategy = BrowserStyle | SimpleFetch | CurlStyle | HttpsModule | QueryVariations

  const Strategies: seq<Strategy> := [BrowserStyle, SimpleFetch, CurlStyle, HttpsModule, QueryVariations]

  /** What GNews answers to a strategy sending a query. */
  type NewsNet = (Strategy, string) -> Reply<Payload>

  /** The request of the alternative-queries strategy, as a function of the query. */
  function VariationSender(net: NewsNet): string -> Reply<Payload>
  {
    q => net(QueryVariations, q)
  }

  /**
   * The body a strategy hands to the acceptance test, or `None` when the
   * strategy produced none: fetch-based strategies need an ok response, the
   * https module exactly status 200, and the alternative-queries strategy
   * takes the first query whose response is ok.
   */
  function StrategyPayload(s: Strategy, country: string, net: NewsNet): Option<Payload>
  {
    match s
    case HttpsModule =>
      var reply := net(HttpsModule, SearchQuery(country));
      if reply.Answer? && reply.status == 200 then Some(reply.body) else None
    case QueryVariations =>
      var queries := AlternativeQueriesAsWritten(country);
      var k := FirstOk(queries, VariationSender(net));
      if k < |queries| then Some(net(QueryVariations, queries[k]).body) else None
    case _ =>
      var reply := net(s, SearchQuery(country));
      if Ok(reply) then Some(reply.body) else None
  }

  /**
   * The success test every strategy applies to its body: no embedded
   * `errors`, and an `articles` array that is non-empty and normalises.
   */
  function Accept(data: Option<Payload>): (r: Option<seq<Article>>)
    ensures r.Some? ==> |r.value| > 0
    ensures r.Some? <==>
      data.Some? && data.value.Doc? && !HasErrors(data.value) &&
      data.value.articles.Items? && |data.value.articles.items| > 0 &&
      Normalize(data.value.articles.items).Some?
    ensures r.Some? ==> r == Normalize(data.value.articles.items)
  {
    match data
    case None => None
    case Some(Unparseable) => None
    case Some(Null) => None
    case Some(Doc(errors, articles)) =>
      if errors.Some? && |errors.value| > 0 then None
      else if articles.Items? && |articles.items| > 0 then Normalize(articles.items)
      else None
  }

  /** Index of the first strategy whose body is accepted, or `|strategies|`. */
  function FirstAccepted(strategies: seq<Strategy>, country: string, net: NewsNet): (k: nat)
    ensures k <= |strategies|
    ensures forall j :: 0 <= j < k ==> Accept(StrategyPayload(strategies[j], country, net)).None?
    ensures k < |strategies| ==> Accept(StrategyPayload(strategies[k], country, net)).Some?
  {
    if strategies == [] then 0
    else if Accept(StrategyPayload(strategies[0], country, net)).Some? then 0
    else 1 + FirstAccepted(strategies[1..], country, net)
  }

  datatype FetchError = MissingNewsKey | AllMethodsFailed

  /** What `getNewsFromGNews` returns or throws. */
  function NewsFromGNews(country: string, hasKey: bool, net: NewsNet): (r: Result<seq<Article>, FetchError>)
    ensures r.Success? ==> |r.value| > 0
  {
    if !hasKey then Failure(MissingNewsKey)
    else
      var k := FirstAccepted(Strategies, country, net);
      if k < |Strategies| then Success(Accept(StrategyPayload(Strategies[k], country, net)).value)
      else Failure(AllMethodsFailed)
  }

  /**
   * The fetch succeeds exactly when the key is present and some strategy is
   * accepted, and then returns what the first accepted strategy normalised.
   */
  lemma {:induction false} NewsFromGNewsFirstSuccess(country: string, hasKey: bool, net: NewsNet)
    ensures NewsFromGNews(country, hasKey, net).Success? <==>
      hasKey && exists i :: 0 <= i < |Strategies| && Accept(StrategyPayload(Strategies[i], country, net)).Some?
    ensures NewsFromGNews(country, hasKey, net).Success? ==>
      exists i :: 0 <= i < |Strategies| &&
        (forall j :: 0 <= j < i ==> Accept(StrategyPayload(Strategies[j], country, net)).None?) &&
        Accept(StrategyPayload(Strategies[i], country, net)) == Some(NewsFromGNews(country, hasKey, net).value)
  {
    var k := FirstAccepted(Strategies, country, net);
    if hasKey && k < |Strategies| {
      assert Accept(StrategyPayload(Strategies[k], country, net)).Some?;
    }
  }

  /** `tryGNewsAlternativeQueries`: the first query, in list order, whose response is ok, with its body. */
  method TryAlternativeQueries(country: string, net: NewsNet) returns (found: Option<(string, Payload)>)
    ensures var queries := AlternativeQueriesAsWritten(country);
      var k := FirstOk(queries, VariationSender(net));
      (k < |queries| ==> found == Some((queries[k], net(QueryVariations, queries[k]).body))) &&
      (k == |queries| ==> found == None)
  {
    var queries := AlternativeQueriesAsWritten(country);
    var k := TryInOrder(queries, VariationSender(net));
    if k < |queries| {
      found := Some((queries[k], net(QueryVariations, queries[k]).body));
    } else {
      found := None;
    }
  }

  /**
   * For an unconfigured code the fifth strategy sends "undefined" first: an
   * ok answer to it is the body handed on, whatever the other queries get.
   */
  lemma UnknownCodeTriesUndefinedFirst(country: string, net: NewsNet)
    requires CountryQuery(country).None?
    requires Ok(net(QueryVariations, "undefined"))
    ensures StrategyPayload(QueryVariations, country, net) == Some(net(QueryVariations, "undefined").body)
  {
    var queries := AlternativeQueriesAsWritten(country);
    assert Ok(VariationSender(net)(queries[0]));
  }

  /**
   * On the ten configured codes the fifth strategy as written behaves as the
   * corrected table would: it takes the first ok reply among `AlternativeQueries`.
   */
  lemma KnownCodeVariations(country: string, net: NewsNet)
    requires CountryQuery(country).Some?
    ensures var queries := AlternativeQueries(country);
      var k := FirstOk(queries, VariationSender(net));
      StrategyPayload(QueryVariations, country, net) ==
        if k < |queries| then Some(net(QueryVariations, queries[k]).body) else None
  {
    AlternativeQueriesAgreeOnKnownCodes(country);
  }

  /** One strategy's request and the body it yields. */
  method RunStrategy(s: Strategy, country: string, net: NewsNet) returns (data: Option<Payload>)
    ensures data == StrategyPayload(s, country, net)
  {
    if s == QueryVariations {
      var found := TryAlternativeQueries(country, net);
      data := if found.Some? then Some(found.value.1) else None;
    } else if s == HttpsModule {
      var reply := net(HttpsModule, SearchQuery(country));
      data := if reply.Answer? && reply.status == 200 then Some(reply.body) else None;
    } else {
      var reply := net(s, SearchQuery(country));
      data := if Ok(reply) then Some(reply.body) else None;
    }
  }

  /**
   * `getNewsFromGNews`: the strategies are tried strictly in order (`tried`
   * lists them) until one is accepted; an embedded error or an empty list
   * moves on to the next, and exhausting all five fails.
   */
  method GetNewsFromGNews(country: string, hasKey: bool, net: NewsNet)
    returns (r: Result<seq<Article>, FetchError>, tried: seq<Strategy>)
    ensures r == NewsFromGNews(country, hasKey, net)
    ensures !hasKey ==> tried == []
    ensures hasKey && r.Success? ==> tried == Strategies[..FirstAccepted(Strategies, country, net) + 1]
    ensures hasKey && r.Failure? ==> tried == Strategies
  {
    if !hasKey {
      return Failure(MissingNewsKey), [];
    }
    tried := [];
    var i := 0;
    while i < |Strategies|
      invariant 0 <= i <= |Strategies|
      invariant tried == Strategies[..i]
      invariant forall j :: 0 <= j < i ==> Accept(StrategyPayload(Strategies[j], country, net)).None?
    {
      var s := Strategies[i];
      tried := tried + [s];
      var data := RunStrategy(s, country, net);
      var articles := Accept(data);
      if articles.Some? {
        assert FirstAccepted(Strategies, country, net) == i;
        return Success(articles.value), tried;
      }
      i := i + 1;
    }
    assert FirstAccepted(Strategies, country, net) == |Strategies|;
    r := Failure(AllMethodsFailed);
  }

  datatype PostError =
    | CountryRequired                          // 400: the body has no country
    | FetchFailed(fetch: FetchError)           // 500
    | ClassificationFailed(cause: ClassifierError)  // 500
    | NoArticlesFound                          // 500

  /** The HTTP status each error is answered with. */
  function StatusCode(e: PostError): int
  {
    if e == CountryRequired then 400 else 500
  }

  /**
   * `POST`: fetch the news for `country`, classify every headline in order,
   * and answer with the articles, their summary and the recommendation. The
   * "no articles" branch is never taken, because the fetch never succeeds
   * with an empty list.
   */
  method Post(country: string, hasNewsKey: bool, hasClassifierKey: bool, net: NewsNet, classify: ClassifierCalls)
    returns (r: Result<GovernmentAnalysis, PostError>)
    ensures r == Failure(CountryRequired) <==> country == ""
    ensures r != Failure(NoArticlesFound)
    ensures r.Failure? ==> StatusCode(r.error) == if country == "" then 400 else 500
    ensures country != "" && NewsFromGNews(country, hasNewsKey, net).Failure? ==>
      r == Failure(FetchFailed(NewsFromGNews(country, hasNewsKey, net).error))
    ensures country != "" && NewsFromGNews(country, hasNewsKey, net).Success? ==>
      var news := NewsFromGNews(country, hasNewsKey, net).value;
      var k := FirstFailure(news, hasClassifierKey, classify, 0);
      && (r.Success? <==> k == |news|)
      && (k < |news| ==> r == Failure(ClassificationFailed(Classification(news, k, hasClassifierKey, classify).error)))
    ensures r.Success? ==> country != "" && NewsFromGNews(country, hasNewsKey, net).Success?
    ensures r.Success? ==>
      var news := NewsFromGNews(country, hasNewsKey, net).value;
      var a := r.value;
      && a.country == country
      && |a.articles| == |news| > 0
      && a.totalArticles == |a.articles|
      && (forall i :: 0 <= i < |news| ==>
            Classification(news, i, hasClassifierKey, classify).Success? &&
            a.articles[i] == Processed(news[i], Classification(news, i, hasClassifierKey, classify).value, MapSentiment))
      && a.sentimentSummary == SummaryOf(a.articles)
      && Total(a.sentimentSummary) <= a.totalArticles
      && a.recommendation == GetRecommendation(a.sentimentSummary)
    ensures r.Failure? && r.error.ClassificationFailed? ==>
      var news := NewsFromGNews(country, hasNewsKey, net).value;
      var k := FirstFailure(news, hasClassifierKey, classify, 0);
      k < |news| && r.error.cause == Classification(news, k, hasClassifierKey, classify).error
  {
    if country == "" {
      return Failure(CountryRequired);
    }
    var news, _ := GetNewsFromGNews(country, hasNewsKey, net);
    if news.Failure? {
      return Failure(FetchFailed(news.error));
    }
    if |news.value| > 0 {
      var outcome := Aggregate(news.value, hasClassifierKey, classify, MapSentiment);
      if outcome.Failure? {
        return Failure(ClassificationFailed(outcome.error));
      }
      var (articles, sentimentSummary) := outcome.value;
      BucketsBoundedByArticles(articles);
      var recommendation := GetRecommendation(sentimentSummary);
      r := Success(GovernmentAnalysis(country, articles, sentimentSummary, recommendation, |articles|));
    } else {
      r := Failure(NoArticlesFound);
    }
  }
}
