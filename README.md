# ASEAN government news sentiment: a verified model

This project models the decision logic of a Next.js application that rates the governments of the ten ASEAN
member states by the sentiment of recent news headlines. For each country code the application:

1. asks the GNews search API for recent headlines, falling back across several request strategies;
2. sends each headline to a Hugging Face sentiment classifier;
3. maps the classifier's label to `Positif`, `Netral` or `Negatif` and counts each bucket;
4. turns the three counts into a recommendation (`POSITIF`, `NEGATIF` or `NETRAL`) with a 0.6 ratio threshold.

A dashboard page runs this for every country in turn, searches and colours the results, and sums the counts.
Two status routes report whether both upstream services are reachable.

Every network exchange is a parameter of the model, never performed. An exchange either fails in transport
(`Failed`, optionally by time-out) or answers with an HTTP status and an already-parsed body
(`Upstream.Reply`). News bodies are `Upstream.Payload`: a body that is not JSON, `null`, or an object with
optional `errors` and `articles` fields. Classifier bodies are `Upstream.ClassifierBody`. A presence flag, or an
empty string for "unset", stands in for each environment key. Each strategy's request and its outcome are an
oracle function over the strategy (and query).

Modules, one per source file, over three shared ones:

- `Base` (option/result types, order-preserving `Filter`, subsequences), `Text` (ASCII lower-casing, substring
  search, join/split) and `Upstream` (reply and body shapes, article normalisation, first-ok search over a
  list, with the loop `TryInOrder` proved against it).
- `Classifier`, `Recommendation`, `Aggregation`: the classifier decoder, the recommendation rule and the
  per-country classification loop. The two analysis routes share these, since their code is identical apart
  from the label mapping.
- `AnalyzeGovernment` — `app/api/analyze-government/route.ts`: English queries, five-strategy fallback, `POST`.
- `AnalyzeGovernmentId` — `api/analyze-government/route.ts`: Indonesian OR-joined query, fetch→https
  fallback, bilingual labels, `POST`.
- `Dashboard` — `app/page.tsx`: the country table, search filters, lookups, styles, and a `Page` class whose
  fields are the component's state. Its methods are the status refresh, the campaign loop and the totals.
- `StatusProbes` — `api/check-status/route.ts`: five ordered GNews probes, the raw HTTP/1.1 request and
  response split (section 2.1 of RFC 9112), and the Hugging Face status classification.
- `StatusCheck` — `app/api/check-status/route.ts`: a `StatusReport` class for the mutable `results` record,
  with one method per service test.

Points of the code worth knowing, which the model follows as written:

- A classification failure aborts the whole `POST` request; no headline is skipped.
- Exhausting the news strategies gives one `AllMethodsFailed`, with no per-strategy causes.
- In the English route the "no articles found" branch cannot be reached (`AnalyzeGovernment.Post`), because
  the fetch never succeeds with an empty list.
- The flag emoji in `app/page.tsx` are stored as mis-decoded text, UTF-8 bytes read as Mac Roman; for example
  the default flag is `"üèõÔ∏è"`. `Dashboard.Countries` and `Dashboard.DefaultFlag` hold exactly those
  characters.

## Model

| member | source | states |
|---|---|---|
| Upstream.Normalize | app/api/analyze-government/route.ts:343-350 | Normalisation succeeds iff every raw article has a `source`. It keeps the length and order, and maps title, url, source name and date one to one. |
| Upstream.FirstOk | app/api/analyze-government/route.ts:287-313 | The index returned is the first target whose reply is ok. Every earlier target's reply is not ok; the list length means none was ok. |
| Upstream.TryInOrder | app/api/analyze-government/route.ts:287-313 | The loop over targets stops at exactly the index `FirstOk` specifies. |
| Classifier.BestPrediction | app/api/analyze-government/route.ts:85 | The `reduce` pick over a non-empty candidate list is one of the candidates and has a score at least every other score. |
| Classifier.LastMaximumWins | app/api/analyze-government/route.ts:85 | With the strict `>` comparison, the pick is the last of the candidates sharing the highest score. |
| Classifier.DecodeBody | app/api/analyze-government/route.ts:75-98 | Warm-up is reported iff the body is an error object mentioning "loading". Success requires a non-empty array whose first element is a non-empty ranked list, or a single object with truthy label and score. A ranked list yields a top-scoring candidate, and a single object is returned as is. |
| Classifier.AnalyzeSentiment | app/api/analyze-government/route.ts:55-99 | A missing key, a transport failure and a non-ok status each give their own error. The non-ok error carries the status. With the key set, an ok reply's result is exactly what `DecodeBody` makes of its body, and success comes from nothing else. |
| Classifier.ZeroScoreRejected | app/api/analyze-government/route.ts:90-98 | A single prediction whose score is 0 is falsy, so it is rejected as an unexpected format. |
| Recommendation.GetRecommendation | app/api/analyze-government/route.ts:465-476 | The result is one of `POSITIF`, `NEGATIF`, `NETRAL`. |
| Recommendation.GetRecommendationMatchesRatio | app/api/analyze-government/route.ts:465-476 | The integer rule equals the real-number rule: `NETRAL` on an empty total, then positive ratio ≥ 0.6, then negative ratio ≥ 0.6, else `NETRAL`. |
| Recommendation.RatioAtLeastThreeFifths | app/api/analyze-government/route.ts:470-474 | For a positive total, `count/total >= 0.6` iff `5*count >= 3*total`. |
| Recommendation.ScaleInvariant | app/api/analyze-government/route.ts:465-476 | Scaling all three counts by any k > 0 leaves the recommendation unchanged. |
| Recommendation.ThresholdsExclusive | app/api/analyze-government/route.ts:473-474 | The positive and negative thresholds can never both hold, so the order of the two checks does not matter. |
| Recommendation.BoundaryIsInclusive | app/api/analyze-government/route.ts:473 | Exactly 60% positive (6 of 10) is `POSITIF`: the comparison is inclusive. |
| Recommendation.BelowBoundaryIsNeutral | app/api/analyze-government/route.ts:473-475 | 5 positive and 4 negative of 10 is `NETRAL`. |
| Aggregation.Classification | app/api/analyze-government/route.ts:521-528 | Headline `i` is classified by the request for its own title: without a key it fails with the missing-key error, and with the key set an ok reply to that request gives exactly its decoded body, which is the only way to succeed. |
| Aggregation.BucketsBoundedByArticles | app/api/analyze-government/route.ts:546-552 | The three buckets sum to at most the number of articles, with equality iff every mapped sentiment is one of the three bucket names. |
| Aggregation.SummaryOfSnoc | app/api/analyze-government/route.ts:546-552 | Appending one article raises exactly the counter its sentiment names, and no counter when it names none. |
| Aggregation.FirstFailure | app/api/analyze-government/route.ts:519-558 | The index returned is the first article whose classification fails. All earlier ones succeed; the article count means none failed. |
| Aggregation.Aggregate | app/api/analyze-government/route.ts:519-558 | The loop fails iff some classification fails, and then with the first failure's error. Otherwise it yields one processed article per headline, in order, with the counts equal to the buckets of those articles. |
| AnalyzeGovernment.TablesAgree | app/api/analyze-government/route.ts:26-283 | The query table and the alternative-query switch configure the same ten codes, and each configured query is the switch's country word + " government". |
| AnalyzeGovernment.SearchQuery | app/api/analyze-government/route.ts:323 | Every search query ends in " government", preceded by the country word the alternative queries use (the lower-cased code when unconfigured). A configured code sends its table entry. |
| AnalyzeGovernment.AlternativeQueriesAsWritten | app/api/analyze-government/route.ts:256-283 | The table as written has four entries: the base query, then the country word + " politics", + " news", and alone. The base query equals the search query iff the code is configured; otherwise it is the text "undefined". |
| AnalyzeGovernment.AlternativeQueries | app/api/analyze-government/route.ts:256-283 | Corrected table: the first query is the route's own search query, and the last three are those of the table as written. |
| AnalyzeGovernment.UnknownCodeQueriesUndefined | app/api/analyze-government/route.ts:256-283 | For every unconfigured code the table as written starts with "undefined", which is not the search query. |
| AnalyzeGovernment.UnknownCodeExample | app/api/analyze-government/route.ts:256-283 | For code "XX" the table as written starts with "undefined", where the corrected one starts with "xx government". |
| AnalyzeGovernment.AlternativeQueriesAgreeOnKnownCodes | app/api/analyze-government/route.ts:256-279 | On the ten configured codes the corrected table equals the table as written. |
| AnalyzeGovernment.KnownCodeAlternatives | app/api/analyze-government/route.ts:256-279 | For each configured code with name c the list is [c government, c politics, c news, c]. |
| AnalyzeGovernment.MapSentiment | app/api/analyze-government/route.ts:40-52 | A label that is changed becomes a bucket name, and only a label that lower-cases to "positive", "neutral" or "negative" is changed. |
| AnalyzeGovernment.MapSentimentIgnoresCase | app/api/analyze-government/route.ts:40-52 | Two labels with the same lower-case form map alike, unless both pass through unchanged. |
| AnalyzeGovernment.MapSentimentIdempotent | app/api/analyze-government/route.ts:40-52 | Mapping a mapped label again changes nothing. |
| AnalyzeGovernment.MapSentimentPositiveBucket | app/api/analyze-government/route.ts:40-52 | The result is `Positif` iff the label lower-cases to "positive" or already is `Positif`. |
| AnalyzeGovernment.MapSentimentNeutralBucket | app/api/analyze-government/route.ts:40-52 | The result is `Netral` iff the label lower-cases to "neutral" or already is `Netral`. |
| AnalyzeGovernment.MapSentimentNegativeBucket | app/api/analyze-government/route.ts:40-52 | The result is `Negatif` iff the label lower-cases to "negative" or already is `Negatif`. |
| AnalyzeGovernment.IndonesianLabelPassesThrough | app/api/analyze-government/route.ts:40-52 | "positif" is returned verbatim, not bucketed. |
| AnalyzeGovernment.Accept | app/api/analyze-government/route.ts:333-352 | A strategy's data is accepted iff it is an object without non-empty `errors`, with a non-empty `articles` array, all of whose articles normalise. The accepted list is that normalisation, and is never empty. |
| AnalyzeGovernment.FirstAccepted | app/api/analyze-government/route.ts:329-456 | The index returned is the first strategy whose data is accepted. All earlier ones are rejected; the list length means none was accepted. |
| AnalyzeGovernment.NewsFromGNews | app/api/analyze-government/route.ts:317-461 | The fetch never succeeds with an empty list. |
| AnalyzeGovernment.NewsFromGNewsFirstSuccess | app/api/analyze-government/route.ts:317-461 | The fetch succeeds iff the key is set and some strategy's data is accepted. It then returns the articles of the first such strategy, every earlier one having been rejected. |
| AnalyzeGovernment.TryAlternativeQueries | app/api/analyze-government/route.ts:252-313 | The fifth strategy returns the first query of the table as written with an ok reply, together with its body, or nothing when every query fails. |
| AnalyzeGovernment.UnknownCodeTriesUndefinedFirst | app/api/analyze-government/route.ts:257-291 | For an unconfigured code, an ok answer to the query "undefined" is the body the fifth strategy hands on, whatever the other queries get. |
| AnalyzeGovernment.KnownCodeVariations | app/api/analyze-government/route.ts:256-313 | For a configured code the fifth strategy as written takes the first ok reply among the corrected queries. |
| AnalyzeGovernment.RunStrategy | app/api/analyze-government/route.ts:102-313 | Running one strategy yields the body of its ok reply, or nothing. The fifth strategy goes through the query loop over the table as written. |
| AnalyzeGovernment.GetNewsFromGNews | app/api/analyze-government/route.ts:316-461 | The strategy loop returns the fetch result. It tries no strategy without a key, the strategies up to the first accepted one on success, and all five on failure. |
| AnalyzeGovernment.Post | app/api/analyze-government/route.ts:478-587 | The handler behaves as follows. It fails with "country required" (400) iff the country is empty; every other failure is a 500. A fetch failure propagates its error. It never fails with "no articles". After a successful fetch it succeeds iff every headline is classified, and otherwise fails with the first failing headline's error. On success it returns one processed article per fetched headline, in order, with `totalArticles` equal to their number, counts equal to their buckets (bounded by the total), and the recommendation of those counts. |
| AnalyzeGovernmentId.QueryTerms | api/analyze-government/route.ts:105 | Every country has at least one query term: four for each of ID, MY, SG and TH, and for every other code the single term "pemerintah <code>". |
| AnalyzeGovernmentId.OrQueryMentionsEveryTerm | api/analyze-government/route.ts:105-108 | The OR-joined query contains every configured term in double quotes. |
| AnalyzeGovernmentId.OrQueryKeepsOrder | api/analyze-government/route.ts:105-108 | The quoted terms keep their configured order: each is followed in the query by " OR " and the next term. |
| AnalyzeGovernmentId.UnconfiguredCountryQuery | api/analyze-government/route.ts:105-108 | Every unconfigured code `c`, used without lower-casing, gives exactly the query `"pemerintah c"`. |
| AnalyzeGovernmentId.MapSentimentBilingual | api/analyze-government/route.ts:34-46 | A label that is changed becomes a bucket name, and only a label that lower-cases to one of the six English or Indonesian labels is changed. |
| AnalyzeGovernmentId.BilingualOutcome | api/analyze-government/route.ts:34-46 | The bilingual mapping yields a bucket name or the label unchanged. |
| AnalyzeGovernmentId.BilingualPositiveBucket | api/analyze-government/route.ts:34-46 | The result is `Positif` iff the label lower-cases to "positive" or "positif". |
| AnalyzeGovernmentId.BucketNamesFixed | api/analyze-government/route.ts:34-46 | The bucket names `Positif`, `Netral` and `Negatif` map to themselves. |
| AnalyzeGovernmentId.BilingualIdempotent | api/analyze-government/route.ts:34-46 | Mapping a mapped label again changes nothing. |
| AnalyzeGovernmentId.BilingualExtendsEnglish | api/analyze-government/route.ts:34-46 | Every label the English mapping buckets is bucketed the same way by the bilingual one. |
| AnalyzeGovernmentId.ReadArticles | api/analyze-government/route.ts:143-158 | Reading a body succeeds iff there are no non-empty `errors` and `articles` is an array whose entries all normalise. Non-empty `errors` gives the API error, and a missing or non-array `articles` gives "no articles". |
| AnalyzeGovernmentId.EmptyArticlesAccepted | api/analyze-government/route.ts:147-158 | An empty `articles` array is a success with no articles. |
| AnalyzeGovernmentId.EnglishRouteRejectsEmptyArticles | app/api/analyze-government/route.ts:343 | The English route's strategies reject that same body. |
| AnalyzeGovernmentId.FetchArticles | api/analyze-government/route.ts:113-159 | The fetch path yields articles iff the reply is ok and its body reads successfully, and then yields those articles. |
| AnalyzeGovernmentId.HttpsArticles | api/analyze-government/route.ts:169-256 | The https path gives a transport failure as a request error, any status but 200 as an HTTP error with that status, and reads the body on 200. |
| AnalyzeGovernmentId.NewsFromGNewsIdOutcome | api/analyze-government/route.ts:99-165 | Without a key the fetch fails at once. Otherwise it returns the fetch path's articles when that succeeds, and exactly the https path's result when it does not. The https path is tried once. |
| AnalyzeGovernmentId.Post | api/analyze-government/route.ts:272-370 | As `AnalyzeGovernment.Post`, with the bilingual mapping: 400 iff the country is empty, else 500 on failure; after a non-empty fetch it succeeds iff every headline is classified, else it fails with the first failure's error. It fails with "no articles" iff the fetch succeeds with an empty list. |
| Dashboard.FilteredCountries | app/page.tsx:186-190 | The country filter never adds entries. |
| Dashboard.FilteredCountriesSpec | app/page.tsx:186-190 | A country is kept iff it is listed and the lower-cased term occurs in its lower-cased code or name. The result is an order-preserving subsequence. |
| Dashboard.FilteredAnalyses | app/page.tsx:192-194 | The analysis filter never adds entries. |
| Dashboard.FilteredAnalysesSpec | app/page.tsx:192-194 | An analysis is kept iff it is present and the lower-cased term occurs in its lower-cased country. The result is an order-preserving subsequence. |
| Dashboard.EmptySearchShowsAll | app/page.tsx:186-194 | The empty search term keeps every country and every analysis. |
| Dashboard.FindCountry | app/page.tsx:281-289 | The lookup finds nothing iff no entry has the code. Otherwise it finds a listed entry with that code. |
| Dashboard.CodesDistinct | app/page.tsx:71-82 | The ten country codes are pairwise distinct. |
| Dashboard.ListedCountryLookups | app/page.tsx:281-289 | The colour and flag of a listed code are that country's own. |
| Dashboard.UnlistedCountryLookups | app/page.tsx:281-289 | An unlisted code gets "bg-gray-500" and the default flag. |
| Dashboard.MappedLabelTone | app/page.tsx:248-268 | A mapped label is shown green iff it lower-cases to "positive" or is `Positif`, and red iff it lower-cases to "negative" or is `Negatif`. Everything else is yellow. |
| Dashboard.RecommendationToneMatchesThresholds | app/page.tsx:270-279 | The recommendation is green iff the positive threshold holds, and red iff only the negative one holds. |
| Dashboard.KeptAnalysesFollowCountries | app/page.tsx:209-231 | The campaign keeps exactly one analysis per country whose answer was ok, in country order. Those countries form a subsequence of the table. |
| Dashboard.ProgressPrefix | app/page.tsx:212 | The progress values set before countries 0..i-1 are, in order, k/n·100. |
| Dashboard.ProgressNonDecreasing | app/page.tsx:204-238 | The whole progress trace (0, then k/n·100 per country, then 100) never decreases and ends at 100. |
| Dashboard.ProgressStep | app/page.tsx:212 | Each progress value lies in [0, 100] and grows with the country index. |
| Dashboard.Page.constructor | app/page.tsx:85-100 | The page starts with no analyses, not loading, progress 0, no error and neither service connected. |
| Dashboard.Page.CheckApiStatus | app/page.tsx:124-160 | An ok status reply copies both connection flags. A thrown request clears both. A non-ok reply leaves both unchanged. Nothing else changes. |
| Dashboard.Page.AnalyzeGovernments | app/page.tsx:196-246 | Unless both services are connected, only the error is set. Otherwise the campaign leaves exactly the kept analyses in country order, having visited every code in order. The progress trace is as specified and ends at 100, loading is off, and the error is clear. |
| Dashboard.Page.VisitCountries | app/page.tsx:209-237 | The loop appends each ok answer's analysis in country order, and records every code visited and each progress value. |
| Dashboard.Page.TotalSentimentStats | app/page.tsx:309-317 | The totals loop returns the bucket-wise sum over all analyses. |
| Dashboard.SumSummariesAppend | app/page.tsx:309-317 | Totals distribute over concatenation of the analysis list. |
| Dashboard.TotalsBoundedByArticles | app/page.tsx:309-317 | When every analysis's buckets are bounded by its article count, the summed totals are bounded by the summed article counts. |
| StatusProbes.AlternativeUrls | api/check-status/route.ts:140-146 | There are three alternative URLs. |
| StatusProbes.TryGNewsAlternative | api/check-status/route.ts:138-174 | The URL loop returns the first URL with an ok reply, together with its body, or nothing when all three fail. |
| StatusProbes.RawRequestText | api/check-status/route.ts:59-67 | The raw request is the request line and three headers, each ended by CRLF, followed by an empty line. |
| StatusProbes.RawRequestEndsWithBlankLine | api/check-status/route.ts:59-67 | The raw request ends with CRLFCRLF. |
| StatusProbes.ResponseBody | api/check-status/route.ts:78-85 | A body that is found is shorter than the response by at least the separator's four characters. |
| StatusProbes.ResponseBodyRejects | api/check-status/route.ts:78-85 | The response split fails iff the response contains no CRLFCRLF. |
| StatusProbes.ResponseBodyAfterFirstSeparator | api/check-status/route.ts:78-85 | The body is everything after the first CRLFCRLF, later separators included. |
| StatusProbes.ResponseBodyRoundTrip | api/check-status/route.ts:78-85 | Splitting a head without a separator, plus CRLFCRLF, plus a body gives the body back. |
| StatusProbes.Verdict | api/check-status/route.ts:245-258 | A probe decides iff it produced an object. The verdict is `api_error` iff that object has non-empty `errors`. |
| StatusProbes.ConnectedWithoutArticles | api/check-status/route.ts:253-257 | An object with no `articles`, an empty `articles` or a non-array `articles` counts as connected. |
| StatusProbes.AnalyzeRouteRefusesThem | app/api/analyze-government/route.ts:343 | The analysis route rejects two of those same bodies. |
| StatusProbes.FirstDecided | api/check-status/route.ts:241-349 | The index returned is the first probe that decides. All earlier ones produced nothing; the list length means none did. |
| StatusProbes.GNewsCheckOutcome | api/check-status/route.ts:228-365 | With no key the status is `no_key`. Otherwise it is `all_methods_failed` iff no probe decides, and `api_error` or `connected` by the first deciding probe's `errors`. |
| StatusProbes.RunProbe | api/check-status/route.ts:17-226 | Running one probe yields exactly the data that probe's specification gives. |
| StatusProbes.CheckGNewsAPI | api/check-status/route.ts:228-365 | The probe loop returns the specified status. It tries no probe without a key, the probes up to the deciding one, or all five. |
| StatusProbes.CheckHuggingFaceAPI | api/check-status/route.ts:368-479 | The status is `no_key` iff the key is empty. `timeout` only comes from an aborted request, and the five HTTP-error statuses only from a non-ok answer. |
| StatusProbes.HuggingFaceConnected | api/check-status/route.ts:402-427 | The flag is connected iff the key is set and an ok reply carried a JSON non-null body. The status is `loading` iff that body is an error mentioning "loading". |
| StatusProbes.HuggingFaceErrorCodes | api/check-status/route.ts:428-462 | A non-ok status is unauthorized iff 401 (section 15.5.2 of RFC 9110), model_not_found iff 404 (section 15.5.5 of RFC 9110), rate_limit iff 429 (section 4 of RFC 6585), service_unavailable iff 503 (section 15.6.4 of RFC 9110), else http_error. None of these is connected. |
| StatusProbes.HuggingFaceThrown | api/check-status/route.ts:463-479 | A thrown request is `timeout` when aborted, else `network_error`. |
| StatusCheck.GNewsUpdate | app/api/check-status/route.ts:21-111 | The GNews test never writes "loading" or "disconnected", and an error it writes never carries an HTTP status. |
| StatusCheck.HfUpdate | app/api/check-status/route.ts:116-174 | The Hugging Face test never writes "disconnected". An error carrying a status comes only from a non-ok answer, with the key set, and carries that answer's status. |
| StatusCheck.GNewsConnectedExactly | app/api/check-status/route.ts:52-95 | GNews is connected iff the key is set and either the browser-style reply is ok with an `articles` array, or it is non-ok and the curl-style reply is ok with an `articles` array. |
| StatusCheck.GNewsErrorExactly | app/api/check-status/route.ts:21-111 | GNews is an error iff the key is set and one of these holds: a request threw; the browser-style ok body did not parse or is `null`; it has `errors` but no `articles` array; or the curl-style ok body did not parse or is `null`. It is `no-key` iff the key is missing. |
| StatusCheck.EmptyErrorsDisagreement | app/api/check-status/route.ts:61-66 | An ok body with an empty `errors` array and no articles is an error here, while the probe route calls it connected. |
| StatusCheck.HfOutcome | app/api/check-status/route.ts:116-174 | With the key set: connected iff an ok body is a non-empty array; loading iff the thrown message (of the request or of the JSON parse) mentions "loading", and an error without a status iff it does not; a non-ok reply is an error carrying its status; any other ok body leaves the field unchanged. Without the key the field is "no-key", and only then. |
| StatusCheck.HfOkButUnrecognised | app/api/check-status/route.ts:133-141 | An ok `null`, an empty array or an error object leaves the field disconnected. |
| StatusCheck.StatusReport.constructor | app/api/check-status/route.ts:6-17 | Both fields start disconnected. |
| StatusCheck.StatusReport.TestGNews | app/api/check-status/route.ts:21-111 | The GNews test sets only `gnews`, to its specified update or its old value. It sends the curl-style request iff the key is set and the browser-style reply was non-ok. |
| StatusCheck.StatusReport.TestHuggingFace | app/api/check-status/route.ts:116-174 | The Hugging Face test sets only `huggingface`, to its specified update or its old value. |
| StatusCheck.Get | app/api/check-status/route.ts:3-182 | The handler returns a fresh record whose two fields are each service's update applied to "disconnected". |
| StatusCheck.ConnectedNeedsKey | app/api/check-status/route.ts:21-174 | No service is reported connected without its key. |

## Left out

- Transport is not modelled: `fetch`, `https.request`, sockets, the `curl` subprocess, time-outs and the 500 ms pacing sleeps. Each exchange is an outcome given as a parameter; chunk accumulation in the socket, curl and https paths is folded into that outcome.
- JSON parsing and URL encoding are library behaviour. Bodies arrive as parsed values, and queries are passed as unencoded text.
- `Text.ToLower`: lower-cases ASCII letters only, because JavaScript's full Unicode case mapping is out of scope.
- Classifier scores are `real`. Floating-point rounding, `toFixed` and the progress percentage's binary rounding are not modelled.
- Log output, human-readable `message` strings, `lastUpdated`, `lastChecked`, `lastDataFetch` and the page clock are not modelled: they do not affect any decision.
- The 24-hour `from`/`to` window of the Indonesian query is not modelled: it is date arithmetic on the clock.
- React rendering, icons and the status badge colours in `app/page.tsx` are not modelled; the page's state is the `Dashboard.Page` fields.
- Environment keys are presence flags. The probe route's key is a string with "" for unset.
- The outer `catch` blocks are not modelled because no modelled step can throw past them. This covers the probe route's `critical_error` and its `GET` 500 reply, and the campaign's outer error message. The probe route's `GET` only pairs `CheckGNewsAPI` with `CheckHuggingFaceAPI`.
- An `errors` field that is present but not an array, and country codes that name JavaScript prototype members (such as "constructor", for which the country tables return a function), are not modelled.
- CheckHuggingFaceAPI and DecodeBody: a classifier body whose `error` field is truthy but not a string is not modelled; `Upstream.ClassifierBody` has no case for it, and such a body is an `OtherValue`. In the source, `result.error.includes("loading")` then throws a TypeError, so for `{"error": 5}` the probe route reports `network_error` where the model reports `connected`. An array `error` holding "loading" is reported as `loading` by the source and cannot be expressed here.
- The message that `response.json()` throws on a body that is not JSON is a parameter (`parseError`) of the Hugging Face test in `StatusCheck`, since its text depends on the runtime's parser.

## Findings

| source | as written | input that shows it | evidently intended | confidence | as-written member | corrected member |
|---|---|---|---|---|---|---|
| app/api/analyze-government/route.ts:256-283 | For an unconfigured code, the first alternative query is `countryQueries[code]`, which is `undefined`, so the first query sent is the text "undefined". | country "XX" | The first alternative should be the route's own fallback query, "xx government". | not executed | AnalyzeGovernment.UnknownCodeTriesUndefinedFirst | AnalyzeGovernment.AlternativeQueries |

The fetch pipeline (`StrategyPayload`, `TryAlternativeQueries`, `NewsFromGNews`, `Post`) follows the code as written: its fifth strategy sends the table as written, "undefined" first for an unconfigured code. `AnalyzeGovernment.AlternativeQueries` is the corrected table, with its intended property (the first query is the search query) proved. `AnalyzeGovernment.KnownCodeVariations` shows that on the ten configured codes the pipeline already sends exactly the corrected queries.
