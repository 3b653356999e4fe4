/**
 * The upstream services as the route handlers see them. Every network call
 * (fetch, the https module, a socket, a curl subprocess) is replaced by the
 * outcome it produced, and every JSON body by the few shapes the handlers
 * distinguish.
 */
module Upstream {
  import opened Base

  /** One HTTP exchange: it threw (network error, or an abort when `aborted`), or it answered. */
  datatype Reply<B> = Failed(aborted: bool, message: string) | Answer(status: int, body: B)

  /** `Response.ok`: the exchange answered with a status in 200..299. */
  predicate Ok<B>(r: Reply<B>)
  {
    r.Answer? && 200 <= r.status <= 299
  }

  /** One element of a GNews `articles` array; `source` is `None` when the object is missing. */
  datatype RawArticle = RawArticle(title: string, url: string, source: Option<string>, publishedAt: string)

  /** What a GNews body holds under `articles`. */
  datatype ArticlesField = Absent | NotAnArray | Items(items: seq<RawArticle>)

  /**
   * A GNews body after `response.json()` / `JSON.parse`. A JSON value that is
   * not an object (a number, a string, an array) reads as `Doc(None, Absent)`:
   * the handlers only read its `errors` and `articles` properties.
   */
  datatype Payload =
    | Unparseable                                         // parsing threw
    | Null                                                // the JSON text `null`
    | Doc(errors: Option<seq<string>>, articles: ArticlesField)

  /** `data.errors && data.errors.length > 0` */
  predicate HasErrors(p: Payload)
  {
    p.Doc? && p.errors.Some? && |p.errors.value| > 0
  }

  /** The normalised article every fetch path returns. */
  datatype Article = Article(title: string, url: string, publisher: string, publishedDate: string)

  /**
   * `articles.map(a => ({title, url, publisher: {title: a.source.name}, published_date}))`.
   * Reading `source.name` throws when `source` is missing, so the whole map fails.
   */
  function Normalize(items: seq<RawArticle>): (r: Option<seq<Article>>)
    ensures r.Some? <==> forall i :: 0 <= i < |items| ==> items[i].source.Some?
    ensures r.Some? ==> |r.value| == |items|
    ensures r.Some? ==> forall i :: 0 <= i < |items| ==>
      r.value[i] == Article(items[i].title, items[i].url, items[i].source.value, items[i].publishedAt)
  {
    if items == [] then Some([])
    else
      var head := items[0];
      match (head.source, Normalize(items[1..]))
      case (Some(name), Some(rest)) => Some([Article(head.title, head.url, name, head.publishedAt)] + rest)
      case _ => None
  }

  /** One candidate of the classifier's output. */
  datatype Prediction = Prediction(labelName: string, score: real)

  /** The first element of the classifier's output array. */
  datatype Element = Ranked(candidates: seq<Prediction>) | Single(prediction: Prediction) | NullElement

  /**
   * A Hugging Face inference body after `response.json()`: an object whose
   * `error` is a string, an array, `null`, any other JSON value, or text that
   * is not JSON at all.
   */
  datatype ClassifierBody =
    | ErrorObject(error: string)
    | Predictions(items: seq<Element>)
    | NullBody
    | OtherValue
    | NotJson

  /**
   * Index of the first target whose reply is ok, or `|targets|` when none is:
   * the loops that try alternative queries or URLs one after another.
   */
  function FirstOk<X, B>(targets: seq<X>, send: X -> Reply<B>): (k: nat)
    ensures k <= |targets|
    ensures forall j :: 0 <= j < k ==> !Ok(send(targets[j]))
    ensures k < |targets| ==> Ok(send(targets[k]))
  {
    if targets == [] then 0
    else if Ok(send(targets[0])) then 0
    else 1 + FirstOk(targets[1..], send)
  }

  /** Try each target in list order and stop at the first ok reply. */
  method TryInOrder<X, B>(targets: seq<X>, send: X -> Reply<B>) returns (k: nat)
    ensures k == FirstOk(targets, send)
  {
    k := 0;
    while k < |targets|
      invariant k <= |targets|
      invariant forall j :: 0 <= j < k ==> !Ok(send(targets[j]))
    {
      if Ok(send(targets[k])) {
        return;
      }
      k := k + 1;
    }
  }
}
