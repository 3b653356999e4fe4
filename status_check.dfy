/**
 * The status route under `app/api/check-status`: a `results` record whose two
 * fields start disconnected and are overwritten by a GNews test (a
 * browser-style request, then a curl-style one when the first answers
 * non-ok) and by a Hugging Face test.
 */
module StatusCheck {
  import opened Base
  import opened Text
  import opened Upstream
  import StatusProbes

  /** One field of `results`; `Errored` carries the HTTP status when a non-ok answer caused it. */
  datatype Health = Disconnected | Connected | Loading | Errored(httpStatus: Option<int>) | NoKey

  function StatusText(h: Health): string
  {
    match h
    case Disconnected => "disconnected"
    case Connected => "connected"
    case Loading => "loading"
    case Errored(_) => "error"
    case NoKey => "no-key"
  }

  /** The `connected` flag stored with each status. */
  predicate ConnectedFlag(h: Health)
  {
    h == Connected || h == Loading
  }

  /** A field after a test: overwritten when the test produced a value, else as it was. */
  function Apply(update: Option<Health>, previous: Health): Health
  {
    if update.Some? then update.value else previous
  }

  /** `data.articles && Array.isArray(data.articles)` */
  predicate HasArticleArray(p: Payload)
  {
    p.Doc? && p.articles.Items?
  }

  /**
   * What the GNews test writes into `results.gnews`, or `None` when it
   * leaves the field alone. Reading a property of a body that did not parse
   * or is `null` throws, and every throw is reported as an error.
   */
  function GNewsUpdate(hasKey: bool, browser: Reply<Payload>, curl: Reply<Payload>): (u: Option<Health>)
    ensures u != Some(Loading) && u != Some(Disconnected)
    ensures u.Some? && u.value.Errored? ==> u.value.httpStatus.None?
  {
    if !hasKey then Some(NoKey)
    else
      match browser
      case Failed(_, _) => Some(Errored(None))
      case Answer(status, data) =>
        if 200 <= status <= 299 then
          match data
          case Doc(errors, articles) =>
            if articles.Items? then Some(Connected)
            else if errors.Some? then Some(Errored(None))   // `errors` is truthy, even when empty
            else None
          case _ => Some(Errored(None))
        else
          match curl
          case Failed(_, _) => Some(Errored(None))
          case Answer(curlStatus, curlData) =>
            if 200 <= curlStatus <= 299 then
              match curlData
              case Doc(_, articles) => if articles.Items? then Some(Connected) else None
              case _ => Some(Errored(None))
            else None
  }

  /**
   * GNews is connected exactly when the key is set and either the browser
   * request is ok with an `articles` array, or it answered non-ok and the curl
   * request is ok with an `articles` array.
   */
  lemma GNewsConnectedExactly(hasKey: bool, browser: Reply<Payload>, curl: Reply<Payload>)
    ensures GNewsUpdate(hasKey, browser, curl) == Some(Connected) <==>
      hasKey &&
      ((Ok(browser) && HasArticleArray(browser.body)) ||
       (browser.Answer? && !Ok(browser) && Ok(curl) && HasArticleArray(curl.body)))
  {
  }

  /**
   * GNews is an error exactly when the key is set and the browser request
   * threw, or was ok with a body that did not parse, was `null`, or had an
   * `errors` field but no `articles` array; or it answered non-ok and the
   * curl request threw or was ok with a body that did not parse or was `null`.
   */
  lemma GNewsErrorExactly(hasKey: bool, browser: Reply<Payload>, curl: Reply<Payload>)
    ensures GNewsUpdate(hasKey, browser, curl) == Some(Errored(None)) <==>
      hasKey &&
      (browser.Failed? ||
       (Ok(browser) && (!browser.body.Doc? || (!browser.body.articles.Items? && browser.body.errors.Some?))) ||
       (browser.Answer? && !Ok(browser) && (curl.Failed? || (Ok(curl) && !curl.body.Doc?))))
    ensures GNewsUpdate(hasKey, browser, curl) == Some(NoKey) <==> !hasKey
  {
  }

  /**
   * The two status routes disagree on a body whose `errors` is an empty
   * array and which has no `articles`: this one reports an error, the probe
   * route reports connected.
   */
  lemma EmptyErrorsDisagreement(status: int, curl: Reply<Payload>)
    requires 200 <= status <= 299
    ensures GNewsUpdate(true, Answer(status, Doc(Some([]), Absent)), curl) == Some(Errored(None))
    ensures StatusProbes.Verdict(Some(Doc(Some([]), Absent))) == Some(StatusProbes.GConnected)
  {
  }

  /**
   * What the Hugging Face test writes into `results.huggingface`, or `None`
   * when it leaves the field alone. `parseError` is the message
   * `response.json()` throws when the body is not JSON.
   */
  function HfUpdate(hasKey: bool, reply: Reply<ClassifierBody>, parseError: string): (u: Option<Health>)
    ensures u != Some(Disconnected)
    ensures u.Some? && u.value.Errored? && u.value.httpStatus.Some? ==>
      hasKey && reply.Answer? && !Ok(reply) && u.value.httpStatus.value == reply.status
  {
    if !hasKey then Some(NoKey)
    else
      match reply
      case Failed(_, message) => if Includes(message, "loading") then Some(Loading) else Some(Errored(None))
      case Answer(status, body) =>
        if 200 <= status <= 299 then
          match body
          case NotJson => if Includes(parseError, "loading") then Some(Loading) else Some(Errored(None))
          case Predictions(items) => if |items| > 0 then Some(Connected) else None
          case _ => None
        else Some(Errored(Some(status)))
  }

  /**
   * Hugging Face is connected exactly when the key is set and an ok answer is
   * a non-empty array; it is loading exactly when the thrown error's message
   * mentions "loading", and an error without a status when it does not; a
   * non-ok answer is an error carrying its status; no key is "no-key"; and
   * any other ok answer leaves the field as it was.
   */
  lemma HfOutcome(hasKey: bool, reply: Reply<ClassifierBody>, parseError: string)
    ensures HfUpdate(hasKey, reply, parseError) == Some(Connected) <==>
      hasKey && Ok(reply) && reply.body.Predictions? && |reply.body.items| > 0
    ensures HfUpdate(hasKey, reply, parseError) == Some(Loading) <==>
      hasKey &&
      ((reply.Failed? && Includes(reply.message, "loading")) ||
       (Ok(reply) && reply.body.NotJson? && Includes(parseError, "loading")))
    ensures hasKey && reply.Answer? && !Ok(reply) ==>
      HfUpdate(hasKey, reply, parseError) == Some(Errored(Some(reply.status)))
    ensures HfUpdate(hasKey, reply, parseError) == Some(NoKey) <==> !hasKey
    ensures HfUpdate(hasKey, reply, parseError) == Some(Errored(None)) <==>
      hasKey &&
      ((reply.Failed? && !Includes(reply.message, "loading")) ||
       (Ok(reply) && reply.body.NotJson? && !Includes(parseError, "loading")))
    ensures HfUpdate(hasKey, reply, parseError) == None <==>
      hasKey && Ok(reply) && !reply.body.NotJson? && !(reply.body.Predictions? && |reply.body.items| > 0)
  {
  }

  /** An ok answer whose body is `null`, an empty array or an error object leaves the field disconnected. */
  lemma HfOkButUnrecognised(status: int, parseError: string)
    requires 200 <= status <= 299
    ensures HfUpdate(true, Answer(status, NullBody), parseError) == None
    ensures HfUpdate(true, Answer(status, Predictions([])), parseError) == None
    ensures HfUpdate(true, Answer(status, ErrorObject("Model is loading")), parseError) == None
  {
  }

  /** The `results` record. */
  class StatusReport {
    var gnews: Health
    var huggingface: Health

    /** Both services start disconnected. */
    constructor()
      ensures gnews == Disconnected && huggingface == Disconnected
    {
      gnews, huggingface := Disconnected, Disconnected;
    }

    /**
     * The GNews test: overwrites `gnews` only, and sends the curl-style
     * request only when the browser-style one answered non-ok.
     */
    method TestGNews(hasKey: bool, browser: Reply<Payload>, curl: Reply<Payload>) returns (curlTried: bool)
      modifies this`gnews
      ensures gnews == Apply(GNewsUpdate(hasKey, browser, curl), old(gnews))
      ensures curlTried <==> hasKey && browser.Answer? && !Ok(browser)
    {
      curlTried := false;
      if !hasKey {
        gnews := NoKey;
        return;
      }
      if browser.Failed? {
        gnews := Errored(None);
      } else if Ok(browser) {
        var data := browser.body;
        if !data.Doc? {
          gnews := Errored(None);
        } else if data.articles.Items? {
          gnews := Connected;
        } else if data.errors.Some? {
          gnews := Errored(None);
        }
      } else {
        curlTried := true;
        if curl.Failed? {
          gnews := Errored(None);
        } else if Ok(curl) {
          var data := curl.body;
          if !data.Doc? {
            gnews := Errored(None);
          } else if data.articles.Items? {
            gnews := Connected;
          }
        }
      }
    }

    /** The Hugging Face test: overwrites `huggingface` only. */
    method TestHuggingFace(hasKey: bool, reply: Reply<ClassifierBody>, parseError: string)
      modifies this`huggingface
      ensures huggingface == Apply(HfUpdate(hasKey, reply, parseError), old(huggingface))
    {
      if !hasKey {
        huggingface := NoKey;
        return;
      }
      match reply
      case Failed(_, message) =>
        huggingface := if Includes(message, "loading") then Loading else Errored(None);
      case Answer(status, body) =>
        if !(200 <= status <= 299) {
          huggingface := Errored(Some(status));
        } else if body.NotJson? {
          huggingface := if Includes(parseError, "loading") then Loading else Errored(None);
        } else if body.Predictions? && |body.items| > 0 {
          huggingface := Connected;
        }
    }
  }

  /**
   * `GET`: a fresh record, the GNews test, then the Hugging Face test; each
   * field ends as its own test left it, starting from disconnected.
   */
  method Get(gnewsKey: bool, browser: Reply<Payload>, curl: Reply<Payload>,
             hfKey: bool, hf: Reply<ClassifierBody>, parseError: string)
    returns (results: StatusReport)
    ensures fresh(results)
    ensures results.gnews == Apply(GNewsUpdate(gnewsKey, browser, curl), Disconnected)
    ensures results.huggingface == Apply(HfUpdate(hfKey, hf, parseError), Disconnected)
  {
    results := new StatusReport();
    var _ := results.TestGNews(gnewsKey, browser, curl);
    results.TestHuggingFace(hfKey, hf, parseError);
  }

  /** Neither field is ever left connected without its key. */
  lemma ConnectedNeedsKey(gnewsKey: bool, browser: Reply<Payload>, curl: Reply<Payload>,
                          hfKey: bool, hf: Reply<ClassifierBody>, parseError: string)
    ensures ConnectedFlag(Apply(GNewsUpdate(gnewsKey, browser, curl), Disconnected)) ==> gnewsKey
    ensures ConnectedFlag(Apply(HfUpdate(hfKey, hf, parseError), Disconnected)) ==> hfKey
  {
  }
}
