/**
 * The status route under `api/check-status`: five GNews probes tried in a
 * fixed order, the raw HTTP/1.1 text one of them writes to a socket and the
 * header/body split of what comes back, and the Hugging Face check with its
 * status-code classification.
 */
module StatusProbes {
  import opened Base
  import opened Text
  import opened Upstream
  import AnalyzeGovernment

  /** The GNews probes, in the order `checkGNewsAPI` tries them. */
  datatype Probe = CustomFetch | Proxy | Alternative | Curl | RawHttp

  const Probes: seq<Probe> := [CustomFetch, Proxy, Alternative, Curl, RawHttp]

  /** How the `curl` child process ended: it could not be spawned, or it closed with a code and its output. */
  datatype CurlRun = SpawnFailed | Exited(code: int, stdout: string)

  /** How the socket ended: an error or a timeout, or a close with everything it received. */
  datatype SocketRun = SocketFailed | Closed(responseData: string)

  /**
   * Everything the probes learn from the outside: the answer to each fetch
   * (by probe and URL), the curl and socket runs, and `JSON.parse` on a text
   * (`Unparseable` when it throws).
   */
  datatype ProbeNet = ProbeNet(
    get: (Probe, string) -> Reply<Payload>,
    curl: CurlRun,
    socket: SocketRun,
    parse: string -> Payload)

  const ApiBase: string := "https://gnews.io/api/v4"

  function CustomFetchUrl(apiKey: string): string
  {
    ApiBase + "/search?q=test&lang=en&max=1&apikey=" + apiKey
  }

  function ProxyUrl(apiKey: string): string
  {
    ApiBase + "/search?q=news&lang=en&max=1&apikey=" + apiKey
  }

  /** `testUrls` of `tryGNewsAlternative`, in the order they are tried. */
  function AlternativeUrls(apiKey: string): (urls: seq<string>)
    ensures |urls| == 3
  {
    [ApiBase + "/search?q=bitcoin&apikey=" + apiKey,
     ApiBase + "/search?q=news&lang=en&apikey=" + apiKey,
     ApiBase + "/top-headlines?lang=en&apikey=" + apiKey]
  }

  /** The request of the alternative probe, as a function of the URL. */
  function AlternativeSender(net: ProbeNet): string -> Reply<Payload>
  {
    url => net.get(Alternative, url)
  }

  /**
   * `tryGNewsAlternative`: the URLs are tried in list order and the first ok
   * answer is returned with its URL; when none is ok it throws (`None`).
   */
  method TryGNewsAlternative(apiKey: string, net: ProbeNet) returns (found: Option<(string, Payload)>)
    ensures var urls := AlternativeUrls(apiKey);
      var k := FirstOk(urls, AlternativeSender(net));
      (k < |urls| ==> found == Some((urls[k], net.get(Alternative, urls[k]).body))) &&
      (k == |urls| ==> found == None)
  {
    var urls := AlternativeUrls(apiKey);
    var k := TryInOrder(urls, AlternativeSender(net));
    if k < |urls| {
      found := Some((urls[k], net.get(Alternative, urls[k]).body));
    } else {
      found := None;
    }
  }

  // ------------------------------------------------------------- raw HTTP

  const CRLF: string := "\r\n"
  const Separator: string := "\r\n\r\n"

  /** The request text the raw probe writes: request line, three headers and an empty line, joined by CRLF. */
  function RawRequest(path: string, host: string): string
  {
    Join(["GET " + path + " HTTP/1.1", "Host: " + host, "User-Agent: curl/7.68.0", "Accept: */*",
          "Connection: close", "", ""], CRLF)
  }

  /**
   * The joined lines form an HTTP/1.1 message head (section 2.1 of RFC 9112):
   * every line ends in CRLF and the head ends with the empty line.
   */
  lemma RawRequestText(path: string, host: string)
    ensures RawRequest(path, host) ==
      "GET " + path + " HTTP/1.1" + CRLF + "Host: " + host + CRLF + "User-Agent: curl/7.68.0" + CRLF +
      "Accept: */*" + CRLF + "Connection: close" + CRLF + CRLF
  {
    var lines := ["GET " + path + " HTTP/1.1", "Host: " + host, "User-Agent: curl/7.68.0", "Accept: */*",
                  "Connection: close", "", ""];
    var tail5 := CRLF;
    assert Join(lines[5..], CRLF) == tail5;
    var tail4 := "Connection: close" + CRLF + tail5;
    assert Join(lines[4..], CRLF) == tail4;
    var tail3 := "Accept: */*" + CRLF + tail4;
    assert Join(lines[3..], CRLF) == tail3;
    var tail2 := "User-Agent: curl/7.68.0" + CRLF + tail3;
    assert Join(lines[2..], CRLF) == tail2;
    var tail1 := "Host: " + host + CRLF + tail2;
    assert Join(lines[1..], CRLF) == tail1;
    assert Join(lines, CRLF) == "GET " + path + " HTTP/1.1" + CRLF + tail1;
  }

  /** So the request ends with the blank line that closes the head. */
  lemma RawRequestEndsWithBlankLine(path: string, host: string)
    ensures var r := RawRequest(path, host);
      |r| >= 4 && r[|r| - 4..] == Separator
  {
    RawRequestText(path, host);
  }

  /**
   * The socket's response split at `\r\n\r\n`: everything after the first
   * separator, the later parts joined back; no separator at all is rejected.
   */
  function ResponseBody(responseData: string): (r: Option<string>)
    ensures r.Some? ==> |r.value| + |Separator| <= |responseData|
  {
    var parts := Split(responseData, Separator);
    if |parts| >= 2 then
      SplitTail(responseData, Separator);
      Some(Join(parts[1..], Separator))
    else None
  }

  /** A response is rejected exactly when it holds no separator. */
  lemma ResponseBodyRejects(responseData: string)
    ensures ResponseBody(responseData).None? <==> !Includes(responseData, Separator)
  {
  }

  /** The body is exactly the text after the first separator, later separators included. */
  lemma ResponseBodyAfterFirstSeparator(responseData: string)
    requires Includes(responseData, Separator)
    ensures var i := IndexOf(responseData, Separator);
      ResponseBody(responseData) == Some(responseData[i + |Separator|..])
  {
    SplitTail(responseData, Separator);
  }

  /** A head without a blank line, the separator, and any body: the body comes back unchanged. */
  lemma ResponseBodyRoundTrip(head: string, body: string)
    requires forall j :: 0 <= j < |head| ==> !OccursAt(head + Separator + body, Separator, j)
    ensures ResponseBody(head + Separator + body) == Some(body)
  {
    var data := head + Separator + body;
    assert OccursAt(data, Separator, |head|);
    var i := IndexOf(data, Separator);
    assert i == |head|;
    ResponseBodyAfterFirstSeparator(data);
    assert data[|head| + |Separator|..] == body;
  }

  // ---------------------------------------------------------------- GNews

  /**
   * The parsed body a probe hands to the verdict, or `None` when the probe
   * threw or its answer was not usable.
   */
  function ProbeData(p: Probe, apiKey: string, net: ProbeNet): Option<Payload>
  {
    match p
    case CustomFetch =>
      var reply := net.get(CustomFetch, CustomFetchUrl(apiKey));
      if Ok(reply) then Some(reply.body) else None
    case Proxy =>
      var reply := net.get(Proxy, ProxyUrl(apiKey));
      if Ok(reply) then Some(reply.body) else None
    case Alternative =>
      var urls := AlternativeUrls(apiKey);
      var k := FirstOk(urls, AlternativeSender(net));
      if k < |urls| then Some(net.get(Alternative, urls[k]).body) else None
    case Curl =>
      (match net.curl
       case Exited(code, stdout) => if code == 0 && stdout != "" then Some(net.parse(stdout)) else None
       case SpawnFailed => None)
    case RawHttp =>
      match net.socket
      case Closed(responseData) =>
        (match ResponseBody(responseData)
         case Some(body) => Some(net.parse(body))
         case None => None)
      case SocketFailed => None
  }

  /** The `status` values `checkGNewsAPI` returns; `connected` is true for `GConnected` only. */
  datatype GNewsStatus = GNoKey | GConnected | GApiError | GAllMethodsFailed

  function GNewsStatusText(s: GNewsStatus): string
  {
    match s
    case GNoKey => "no_key"
    case GConnected => "connected"
    case GApiError => "api_error"
    case GAllMethodsFailed => "all_methods_failed"
  }

  /**
   * What a probe's body decides: a body that did not parse, or `null`, makes
   * the probe fail so the next one runs; otherwise a non-empty `errors` is
   * an API error and anything else counts as connected.
   */
  function Verdict(data: Option<Payload>): (r: Option<GNewsStatus>)
    ensures r.Some? <==> data.Some? && data.value.Doc?
    ensures r == Some(GApiError) <==> data.Some? && HasErrors(data.value)
  {
    match data
    case Some(Doc(errors, articles)) =>
      if errors.Some? && |errors.value| > 0 then Some(GApiError) else Some(GConnected)
    case _ => None
  }

  /** A body with no `articles` at all, or an empty list, still counts as connected. */
  lemma ConnectedWithoutArticles()
    ensures Verdict(Some(Doc(None, Absent))) == Some(GConnected)
    ensures Verdict(Some(Doc(None, Items([])))) == Some(GConnected)
    ensures Verdict(Some(Doc(Some([]), NotAnArray))) == Some(GConnected)
  {
  }

  /** The analyze route refuses the same bodies: the status can read connected while every analysis fails. */
  lemma AnalyzeRouteRefusesThem()
    ensures AnalyzeGovernment.Accept(Some(Doc(None, Absent))) == None
    ensures AnalyzeGovernment.Accept(Some(Doc(None, Items([])))) == None
  {
  }

  /** Index of the first probe whose body decides, or `|probes|`. */
  function FirstDecided(probes: seq<Probe>, apiKey: string, net: ProbeNet): (k: nat)
    ensures k <= |probes|
    ensures forall j :: 0 <= j < k ==> Verdict(ProbeData(probes[j], apiKey, net)).None?
    ensures k < |probes| ==> Verdict(ProbeData(probes[k], apiKey, net)).Some?
  {
    if probes == [] then 0
    else if Verdict(ProbeData(probes[0], apiKey, net)).Some? then 0
    else 1 + FirstDecided(probes[1..], apiKey, net)
  }

  /** What `checkGNewsAPI` returns. */
  function GNewsCheck(apiKey: string, net: ProbeNet): GNewsStatus
  {
    if apiKey == "" then GNoKey
    else
      var k := FirstDecided(Probes, apiKey, net);
      if k < |Probes| then Verdict(ProbeData(Probes[k], apiKey, net)).value else GAllMethodsFailed
  }

  /**
   * The GNews status is connected exactly when the key is set and the first
   * probe to produce a body gets one without errors, an API error exactly
   * when that body has errors, and all-methods-failed exactly when no probe
   * produces a body.
   */
  lemma GNewsCheckOutcome(apiKey: string, net: ProbeNet)
    ensures GNewsCheck(apiKey, net) == GNoKey <==> apiKey == ""
    ensures var k := FirstDecided(Probes, apiKey, net);
      && (GNewsCheck(apiKey, net) == GAllMethodsFailed <==> apiKey != "" && k == |Probes|)
      && (GNewsCheck(apiKey, net) == GApiError <==>
            apiKey != "" && k < |Probes| && HasErrors(ProbeData(Probes[k], apiKey, net).value))
      && (GNewsCheck(apiKey, net) == GConnected <==>
            apiKey != "" && k < |Probes| && !HasErrors(ProbeData(Probes[k], apiKey, net).value))
  {
  }

  /** One probe run, with the body it yields. */
  method RunProbe(p: Probe, apiKey: string, net: ProbeNet) returns (data: Option<Payload>)
    ensures data == ProbeData(p, apiKey, net)
  {
    match p
    case CustomFetch =>
      var reply := net.get(CustomFetch, CustomFetchUrl(apiKey));
      data := if Ok(reply) then Some(reply.body) else None;
    case Proxy =>
      var reply := net.get(Proxy, ProxyUrl(apiKey));
      data := if Ok(reply) then Some(reply.body) else None;
    case Alternative =>
      var found := TryGNewsAlternative(apiKey, net);
      data := if found.Some? then Some(found.value.1) else None;
    case Curl =>
      data := None;
      if net.curl.Exited? && net.curl.code == 0 && net.curl.stdout != "" {
        data := Some(net.parse(net.curl.stdout));
      }
    case RawHttp =>
      data := None;
      if net.socket.Closed? {
        var body := ResponseBody(net.socket.responseData);
        if body.Some? {
          data := Some(net.parse(body.value));
        }
      }
  }

  /**
   * `checkGNewsAPI`: without a key no probe runs; otherwise the probes run in
   * order (`tried`) until one decides, so an API error stops the remaining
   * probes just as a success does.
   */
  method CheckGNewsAPI(apiKey: string, net: ProbeNet) returns (status: GNewsStatus, tried: seq<Probe>)
    ensures status == GNewsCheck(apiKey, net)
    ensures apiKey == "" ==> tried == []
    ensures apiKey != "" && status != GAllMethodsFailed ==> tried == Probes[..FirstDecided(Probes, apiKey, net) + 1]
    ensures apiKey != "" && status == GAllMethodsFailed ==> tried == Probes
  {
    if apiKey == "" {
      return GNoKey, [];
    }
    tried := [];
    var i := 0;
    while i < |Probes|
      invariant 0 <= i <= |Probes|
      invariant tried == Probes[..i]
      invariant forall j :: 0 <= j < i ==> Verdict(ProbeData(Probes[j], apiKey, net)).None?
    {
      var p := Probes[i];
      tried := tried + [p];
      var data := RunProbe(p, apiKey, net);
      var verdict := Verdict(data);
      if verdict.Some? {
        assert FirstDecided(Probes, apiKey, net) == i;
        return verdict.value, tried;
      }
      i := i + 1;
    }
    assert FirstDecided(Probes, apiKey, net) == |Probes|;
    status := GAllMethodsFailed;
  }

  // --------------------------------------------------------- Hugging Face

  /** The `status` values `checkHuggingFaceAPI` returns. */
  datatype HfStatus =
    | HfNoKey | HfLoading | HfConnected
    | Unauthorized | RateLimit | ServiceUnavailable | ModelNotFound | HttpError
    | Timeout | NetworkError

  function HfStatusText(s: HfStatus): string
  {
    match s
    case HfNoKey => "no_key"
    case HfLoading => "loading"
    case HfConnected => "connected"
    case Unauthorized => "unauthorized"
    case RateLimit => "rate_limit"
    case ServiceUnavailable => "service_unavailable"
    case ModelNotFound => "model_not_found"
    case HttpError => "http_error"
    case Timeout => "timeout"
    case NetworkError => "network_error"
  }

  /** The `connected` flag that goes with each status. */
  predicate HfConnectedFlag(s: HfStatus)
  {
    s == HfLoading || s == HfConnected
  }

  /** The classification of a non-ok answer by its status code. */
  function ClassifyStatus(status: int): HfStatus
  {
    if status == 401 then Unauthorized
    else if status == 429 then RateLimit
    else if status == 503 then ServiceUnavailable
    else if status == 404 then ModelNotFound
    else HttpError
  }

  /** `checkHuggingFaceAPI`, given the key (empty when unset) and what the test request produced. */
  function CheckHuggingFaceAPI(apiKey: string, reply: Reply<ClassifierBody>): (s: HfStatus)
    ensures s == HfNoKey <==> apiKey == ""
    ensures s == Timeout ==> reply.Failed? && reply.aborted
    ensures s in {Unauthorized, RateLimit, ServiceUnavailable, ModelNotFound, HttpError} ==>
      reply.Answer? && !Ok(reply)
  {
    if apiKey == "" then HfNoKey
    else
      match reply
      case Failed(aborted, _) => if aborted then Timeout else NetworkError
      case Answer(status, body) =>
        if 200 <= status <= 299 then
          match body
          case NotJson => NetworkError      // response.json() threw
          case NullBody => NetworkError     // reading `error` of null threw
          case ErrorObject(e) => if Includes(e, "loading") then HfLoading else HfConnected
          case _ => HfConnected
        else ClassifyStatus(status)
  }

  /**
   * Hugging Face reads as connected exactly when the key is set and an ok
   * answer carries a JSON value other than `null`; it is "loading" exactly
   * when that value is an error object mentioning "loading".
   */
  lemma HuggingFaceConnected(apiKey: string, reply: Reply<ClassifierBody>)
    ensures HfConnectedFlag(CheckHuggingFaceAPI(apiKey, reply)) <==>
      apiKey != "" && Ok(reply) && !reply.body.NotJson? && !reply.body.NullBody?
    ensures CheckHuggingFaceAPI(apiKey, reply) == HfLoading <==>
      apiKey != "" && Ok(reply) && reply.body.ErrorObject? && Includes(reply.body.error, "loading")
  {
  }

  /**
   * A non-ok answer is classified by its code alone: 401 Unauthorized and
   * 404 Not Found (sections 15.5.2 and 15.5.5 of RFC 9110), 429 Too Many
   * Requests (section 4 of RFC 6585), 503 Service Unavailable (section
   * 15.6.4 of RFC 9110), and every other code as a plain HTTP error.
   */
  lemma HuggingFaceErrorCodes(apiKey: string, status: int, body: ClassifierBody)
    requires apiKey != "" && !(200 <= status <= 299)
    ensures var s := CheckHuggingFaceAPI(apiKey, Answer(status, body));
      && !HfConnectedFlag(s)
      && (s == Unauthorized <==> status == 401)
      && (s == RateLimit <==> status == 429)
      && (s == ServiceUnavailable <==> status == 503)
      && (s == ModelNotFound <==> status == 404)
      && (s == HttpError <==> status !in {401, 404, 429, 503})
  {
  }

  /** A request that throws is a timeout exactly when it was aborted. */
  lemma HuggingFaceThrown(apiKey: string, aborted: bool, message: string)
    requires apiKey != ""
    ensures CheckHuggingFaceAPI(apiKey, Failed(aborted, message)) == (if aborted then Timeout else NetworkError)
  {
  }
}
