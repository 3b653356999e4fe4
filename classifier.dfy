/**
 * `analyzeSentiment`: one call to the hosted text classifier and the decoding
 * of its JSON answer into a single best label and score. Both analyze routes
 * carry the same function; only the model name and the timeout differ.
 */
module Classifier {
  import opened Base
  import opened Text
  import opened Upstream

  /** Every way `analyzeSentiment` can throw. */
  datatype ClassifierError =
    | MissingApiKey            // no HUGGINGFACE_API_KEY: nothing is sent
    | RequestFailed            // fetch threw: network error or the abort timeout
    | HttpError(status: int)   // the answer was not ok
    | InvalidJson              // response.json() threw
    | NullResult               // a property of `null` was read
    | ModelLoading             // the body's `error` mentions "loading": the model is warming up
    | EmptyCandidates          // `reduce` over an empty candidate list threw
    | UnexpectedFormat         // none of the accepted shapes

  /**
   * `prediction.reduce((prev, current) => prev.score > current.score ? prev : current)`:
   * a left fold that keeps the running best and replaces it unless it is strictly better.
   */
  function BestPrediction(cs: seq<Prediction>): (p: Prediction)
    requires |cs| > 0
    ensures p in cs
    ensures forall i :: 0 <= i < |cs| ==> cs[i].score <= p.score
  {
    if |cs| == 1 then cs[0]
    else
      var prev := BestPrediction(cs[..|cs| - 1]);
      var current := cs[|cs| - 1];
      assert forall i :: 0 <= i < |cs| - 1 ==> cs[i] == cs[..|cs| - 1][i];
      if prev.score > current.score then prev else current
  }

  /**
   * Ties go to the later candidate: the winner is the LAST candidate that
   * reaches the maximum score, because the comparison is strict.
   */
  lemma {:induction false} LastMaximumWins(cs: seq<Prediction>, k: nat)
    requires k < |cs|
    requires forall i :: 0 <= i < |cs| ==> cs[i].score <= cs[k].score
    requires forall i :: k < i < |cs| ==> cs[i].score < cs[k].score
    ensures BestPrediction(cs) == cs[k]
  {
    if |cs| > 1 {
      var init := cs[..|cs| - 1];
      if k < |cs| - 1 {
        assert forall i :: 0 <= i < |init| ==> init[i] == cs[i];
        LastMaximumWins(init, k);
      } else {
        assert BestPrediction(init) in cs;
      }
    }
  }

  /** Decoding of an ok answer's body (the part of `analyzeSentiment` after `response.json()`). */
  function DecodeBody(body: ClassifierBody): (r: Result<Prediction, ClassifierError>)
    // warm-up is reported exactly when the body is an error object that mentions "loading"
    ensures r == Failure(ModelLoading) <==> body.ErrorObject? && Includes(body.error, "loading")
    // only the two documented shapes are accepted
    ensures r.Success? <==>
      body.Predictions? && |body.items| > 0 &&
      ((body.items[0].Ranked? && |body.items[0].candidates| > 0) ||
       (body.items[0].Single? && body.items[0].prediction.labelName != "" && body.items[0].prediction.score != 0.0))
    // a ranked list yields one of its candidates with the highest score
    ensures r.Success? && body.items[0].Ranked? ==>
      r.value in body.items[0].candidates &&
      forall c :: c in body.items[0].candidates ==> c.score <= r.value.score
    // a single object is returned as it is
    ensures r.Success? && body.items[0].Single? ==> r.value == body.items[0].prediction
  {
    match body
    case NotJson => Failure(InvalidJson)
    case NullBody => Failure(NullResult)
    case ErrorObject(e) => if Includes(e, "loading") then Failure(ModelLoading) else Failure(UnexpectedFormat)
    case OtherValue => Failure(UnexpectedFormat)
    case Predictions(items) =>
      if items == [] then Failure(UnexpectedFormat)
      else
        match items[0]
        case Ranked(cs) => if cs == [] then Failure(EmptyCandidates) else Success(BestPrediction(cs))
        case Single(p) =>
          if p.labelName != "" && p.score != 0.0 then Success(p) else Failure(UnexpectedFormat)
        case NullElement => Failure(NullResult)
  }

  /** `analyzeSentiment(text)`, given whether the key is configured and what the request produced. */
  function AnalyzeSentiment(hasKey: bool, reply: Reply<ClassifierBody>): (r: Result<Prediction, ClassifierError>)
    ensures !hasKey ==> r == Failure(MissingApiKey)
    ensures hasKey && reply.Failed? ==> r == Failure(RequestFailed)
    ensures hasKey && reply.Answer? && !Ok(reply) ==> r == Failure(HttpError(reply.status))
    ensures r.Success? ==> hasKey && Ok(reply) && DecodeBody(reply.body) == r
    ensures hasKey && Ok(reply) ==> r == DecodeBody(reply.body)
  {
    if !hasKey then Failure(MissingApiKey)
    else
      match reply
      case Failed(_, _) => Failure(RequestFailed)
      case Answer(status, body) =>
        if !(200 <= status <= 299) then Failure(HttpError(status)) else DecodeBody(body)
  }

  /** A single-object prediction whose score is 0 is falsy and is rejected. */
  lemma ZeroScoreRejected(labelName: string, rest: seq<Element>)
    ensures DecodeBody(Predictions([Single(Prediction(labelName, 0.0))] + rest)) == Failure(UnexpectedFormat)
  {
  }
}
