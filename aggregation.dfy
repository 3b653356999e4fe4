/**
 * The loop at the heart of both analyze routes' `POST`: classify each
 * headline in order, keep a processed article for it, and bump the bucket its
 * mapped sentiment names. The two routes differ only in the label mapping,
 * which is a parameter here.
 */
module Aggregation {
  import opened Base
  import opened Upstream
  import opened Classifier
  import opened Recommendation

  /** `NewsArticle`: an article with the classifier's verdict attached. */
  datatype NewsArticle = NewsArticle(
    title: string, url: string, publisher: string, publishedDate: string,
    sentiment: string, score: real, originalLabel: string)

  /** `GovernmentAnalysis`: the JSON a successful `POST` answers with. */
  datatype GovernmentAnalysis = GovernmentAnalysis(
    country: string, articles: seq<NewsArticle>, sentimentSummary: Summary,
    recommendation: string, totalArticles: nat)

  /** The classifier outcome of call number `i`, for the text it was given. */
  type ClassifierCalls = (nat, string) -> Reply<ClassifierBody>

  /** What `analyzeSentiment` gives for the `i`-th headline. */
  function Classification(news: seq<Article>, i: nat, hasKey: bool, classify: ClassifierCalls): (r: Result<Prediction, ClassifierError>)
    requires i < |news|
    ensures !hasKey ==> r == Failure(MissingApiKey)
    ensures r.Success? ==> Ok(classify(i, news[i].title)) && DecodeBody(classify(i, news[i].title).body) == r
    ensures hasKey && Ok(classify(i, news[i].title)) ==> r == DecodeBody(classify(i, news[i].title).body)
  {
    AnalyzeSentiment(hasKey, classify(i, news[i].title))
  }

  /** The `processedArticle` record built from a fetched article and its prediction. */
  function Processed(a: Article, p: Prediction, mapSentiment: string -> string): NewsArticle
  {
    NewsArticle(a.title, a.url, a.publisher, a.publishedDate, mapSentiment(p.labelName), p.score, p.labelName)
  }

  /** How many processed articles carry exactly the sentiment `bucket`. */
  function CountSentiment(articles: seq<NewsArticle>, bucket: string): nat
  {
    if articles == [] then 0
    else CountSentiment(articles[..|articles| - 1], bucket) + (if articles[|articles| - 1].sentiment == bucket then 1 else 0)
  }

  /** The summary each bucket of which counts exactly the articles whose sentiment names it. */
  function SummaryOf(articles: seq<NewsArticle>): Summary
  {
    Summary(CountSentiment(articles, "Positif"), CountSentiment(articles, "Netral"), CountSentiment(articles, "Negatif"))
  }

  /** An article counts in at most one bucket; unmapped labels count in none. */
  predicate Canonical(sentiment: string)
  {
    sentiment == "Positif" || sentiment == "Netral" || sentiment == "Negatif"
  }

  /**
   * The buckets never add up to more than the number of articles, and add up
   * to exactly that many iff every sentiment is one of the three canonical ones.
   */
  lemma {:induction false} BucketsBoundedByArticles(articles: seq<NewsArticle>)
    ensures Total(SummaryOf(articles)) <= |articles|
    ensures Total(SummaryOf(articles)) == |articles| <==>
      forall i :: 0 <= i < |articles| ==> Canonical(articles[i].sentiment)
  {
    if articles != [] {
      var init := articles[..|articles| - 1];
      BucketsBoundedByArticles(init);
      assert forall i :: 0 <= i < |init| ==> init[i] == articles[i];
    }
  }

  /** Appending one article bumps exactly the bucket its sentiment names, if any. */
  lemma SummaryOfSnoc(articles: seq<NewsArticle>, a: NewsArticle)
    ensures var before := SummaryOf(articles);
      SummaryOf(articles + [a]) == Summary(
        before.positif + (if a.sentiment == "Positif" then 1 else 0),
        before.netral + (if a.sentiment == "Netral" then 1 else 0),
        before.negatif + (if a.sentiment == "Negatif" then 1 else 0))
  {
    var xs := articles + [a];
    assert xs[..|xs| - 1] == articles;
  }

  /** Index of the first headline whose classification fails, or `|news|` when none does. */
  function FirstFailure(news: seq<Article>, hasKey: bool, classify: ClassifierCalls, from: nat): (k: nat)
    requires from <= |news|
    ensures from <= k <= |news|
    ensures forall j :: from <= j < k ==> Classification(news, j, hasKey, classify).Success?
    ensures k < |news| ==> Classification(news, k, hasKey, classify).Failure?
    decreases |news| - from
  {
    if from == |news| then from
    else if Classification(news, from, hasKey, classify).Failure? then from
    else FirstFailure(news, hasKey, classify, from + 1)
  }

  /**
   * The `for` loop of `POST`. Any classification error aborts the whole run
   * with that error; otherwise every headline yields one processed article,
   * in order, and the counters hold the bucket counts of those articles.
   */
  method Aggregate(news: seq<Article>, hasKey: bool, classify: ClassifierCalls, mapSentiment: string -> string)
    returns (r: Result<(seq<NewsArticle>, Summary), ClassifierError>)
    ensures r.Failure? <==> FirstFailure(news, hasKey, classify, 0) < |news|
    ensures r.Failure? ==> r.error == Classification(news, FirstFailure(news, hasKey, classify, 0), hasKey, classify).error
    ensures r.Success? ==> |r.value.0| == |news|
    ensures r.Success? ==> forall i :: 0 <= i < |news| ==>
      Classification(news, i, hasKey, classify).Success? &&
      r.value.0[i] == Processed(news[i], Classification(news, i, hasKey, classify).value, mapSentiment)
    ensures r.Success? ==> r.value.1 == SummaryOf(r.value.0)
  {
    var articles: seq<NewsArticle> := [];
    var positif, netral, negatif := 0, 0, 0;
    for i := 0 to |news|
      invariant |articles| == i
      invariant forall j :: 0 <= j < i ==>
        Classification(news, j, hasKey, classify).Success? &&
        articles[j] == Processed(news[j], Classification(news, j, hasKey, classify).value, mapSentiment)
      invariant Summary(positif, netral, negatif) == SummaryOf(articles)
    {
      var results := AnalyzeSentiment(hasKey, classify(i, news[i].title));
      if results.Failure? {
        FirstFailureIs(news, hasKey, classify, 0, i);
        return Failure(results.error);
      }
      var sentiment := mapSentiment(results.value.labelName);
      var processedArticle := Processed(news[i], results.value, mapSentiment);
      SummaryOfSnoc(articles, processedArticle);
      articles := articles + [processedArticle];
      if sentiment == "Positif" {
        positif := positif + 1;
      } else if sentiment == "Netral" {
        netral := netral + 1;
      } else if sentiment == "Negatif" {
        negatif := negatif + 1;
      }
    }
    FirstFailureIs(news, hasKey, classify, 0, |news|);
    r := Success((articles, Summary(positif, netral, negatif)));
  }

  /** The first failure is the one found by scanning from the left. */
  lemma FirstFailureIs(news: seq<Article>, hasKey: bool, classify: ClassifierCalls, from: nat, k: nat)
    requires from <= k <= |news|
    requires forall j :: from <= j < k ==> Classification(news, j, hasKey, classify).Success?
    requires k < |news| ==> Classification(news, k, hasKey, classify).Failure?
    ensures FirstFailure(news, hasKey, classify, from) == k
  {
  }
}
