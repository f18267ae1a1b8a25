/**
 * The FastAPI backend: `POST /api/enrich` forwards the company name to the
 * enrichment API and maps what comes back (or what is raised) to an HTTP
 * response; `GET /` reports that the service is up. The outbound HTTP call
 * is a foreign call; the handler receives its result.
 */
module Backend {
  import opened Wrappers
  import opened JsonValues

  const UpstreamUrl: string := "https://api.enrichmentapi.io/company"
  const UpstreamTimeoutSeconds: nat := 10
  const FetchFailedDetail: string := "Error fetching data from API"
  const InternalErrorPrefix: string := "Internal server error: "
  const NoDataDetail: string := "No data found for the requested company"

  /** A Python exception, classified by the handler's two `except` clauses. */
  datatype PyException =
    | RequestException(text: string)                  // requests.exceptions.RequestException or a subclass
    | HttpException(statusCode: nat, detail: string)  // fastapi.HTTPException
    | OtherException(text: string)                    // any other Exception

  /** What `response.json()` gives: the parsed body, or what it raises. */
  datatype Decoded = Parsed(data: Json) | DecodeRaised(error: PyException)

  /** The result of `requests.get(...)`: what it raised, or the response's
      status code and decoded body. */
  datatype Upstream =
    | Raised(error: PyException)
    | Answered(status: int, body: Decoded)

  /** The JSON body of `LeadInfo`. */
  datatype LeadInfo = LeadInfo(companyName: string)

  /** An incoming request: headers and the validated body. */
  datatype ApiRequest = ApiRequest(headers: map<string, string>, lead: LeadInfo)

  datatype HttpResponse = HttpResponse(status: int, body: Json)

  /** The query string of the outbound call: `requests` drops a parameter
      whose value is None, so an unset API key is left out. */
  function UpstreamQuery(apiKey: Option<string>, lead: LeadInfo): (q: map<string, string>)
    ensures "company" in q && q["company"] == lead.companyName
    ensures "api_key" in q <==> apiKey.Some?
    ensures apiKey.Some? ==> q["api_key"] == apiKey.value
    ensures q.Keys <= {"api_key", "company"}
  {
    var base := map["company" := lead.companyName];
    if apiKey.Some? then base["api_key" := apiKey.value] else base
  }

  /** `raise_for_status()` raises an HTTPError (a RequestException) for client
      and server errors, and for nothing else. */
  predicate RaisesForStatus(status: int)
    ensures 200 <= status < 300 ==> !RaisesForStatus(status)
    ensures 400 <= status < 500 || 500 <= status < 600 ==> RaisesForStatus(status)
    ensures RaisesForStatus(status) ==> 400 <= status < 600
  {
    400 <= status < 600
  }

  /** Decimal digits of a natural number. */
  function Decimal(n: nat): (s: string)
    ensures |s| >= 1
    decreases n
  {
    if n < 10 then [Digit(n)] else Decimal(n / 10) + [Digit(n % 10)]
  }

  function Digit(d: nat): char
    requires d < 10
  {
    "0123456789"[d]
  }

  /** `str(e)`: the exception's own text; an HTTPException prints as
      "<status>: <detail>". */
  function PyStr(e: PyException): (r: string)
    ensures !e.HttpException? ==> r == e.text
    ensures e.HttpException? ==>
      && |r| >= |e.detail| + 3
      && r[|r| - |e.detail| - 2..|r| - |e.detail|] == ": "
      && r[|r| - |e.detail|..] == e.detail
  {
    match e
    case RequestException(text) => text
    case HttpException(code, detail) => Decimal(code) + ": " + detail
    case OtherException(text) => text
  }

  /** FastAPI's response for an HTTPException leaving the handler. */
  function ErrorResponse(status: int, detail: string): (r: HttpResponse)
    ensures r.status == status
    ensures Member(Some(r.body), "detail") == Some(Str(detail))
    ensures r.body == Single("detail", Str(detail))
  {
    HttpResponse(status, Single("detail", Str(detail)))
  }

  /** The two `except` clauses: a RequestException becomes a 500 with a fixed
      detail, anything else a 500 naming the exception. */
  function HandleException(e: PyException): (r: HttpResponse)
    ensures r.status == 500
    ensures e.RequestException? ==> r == ErrorResponse(500, FetchFailedDetail)
    ensures !e.RequestException? ==> r == ErrorResponse(500, InternalErrorPrefix + PyStr(e))
  {
    match e
    case RequestException(_) => ErrorResponse(500, FetchFailedDetail)
    case _ => ErrorResponse(500, InternalErrorPrefix + PyStr(e))
  }

  /** The exception the handler raises for an empty upstream answer. */
  const NoDataFound: PyException := HttpException(404, NoDataDetail)

  /** Whether the upstream call ends in data the handler returns. */
  predicate DeliversData(upstream: Upstream) {
    && upstream.Answered?
    && !RaisesForStatus(upstream.status)
    && upstream.body.Parsed?
    && PyTruthy(upstream.body.data)
  }

  /** `enrich_lead` as written: the whole body, including the 404 raised for
      empty data, sits inside one `try`, so the 404 meets
      `except Exception` and leaves as a 500. */
  function EnrichLead(upstream: Upstream): (r: HttpResponse)
    ensures r.status == 200 || r.status == 500
    ensures r.status == 200 <==> DeliversData(upstream)
    ensures r.status == 200 ==> r.body == upstream.body.data
  {
    match upstream
    case Raised(e) => HandleException(e)
    case Answered(status, body) =>
      if RaisesForStatus(status) then HandleException(RequestException("HTTPError"))
      else match body
        case DecodeRaised(e) => HandleException(e)
        case Parsed(data) =>
          if PyTruthy(data) then HttpResponse(200, data)
          else HandleException(NoDataFound)
  }

  /** The route: the handler reads only the body's `companyName`, issues the
      outbound query and maps its result. */
  datatype Exchange = Exchange(
    url: string,
    query: map<string, string>,
    timeoutSeconds: nat,
    response: HttpResponse)

  function HandleEnrich(request: ApiRequest, apiKey: Option<string>, upstream: Upstream): (x: Exchange)
    ensures x.url == UpstreamUrl && x.timeoutSeconds == UpstreamTimeoutSeconds
    ensures x.query == UpstreamQuery(apiKey, request.lead)
    ensures x.response == EnrichLead(upstream)
  {
    Exchange(UpstreamUrl, UpstreamQuery(apiKey, request.lead), UpstreamTimeoutSeconds,
             EnrichLead(upstream))
  }

  /** Headers, the Authorization header included, never change what the
      endpoint queries or answers. */
  lemma HeadersIgnored(r1: ApiRequest, r2: ApiRequest, apiKey: Option<string>, upstream: Upstream)
    requires r1.lead == r2.lead
    ensures HandleEnrich(r1, apiKey, upstream) == HandleEnrich(r2, apiKey, upstream)
  {
  }

  /** Truthy upstream data under a status `raise_for_status` accepts (any
      status outside 400-599) is passed through unchanged. */
  lemma TruthyDataPassesThrough(status: int, data: Json)
    requires !RaisesForStatus(status) && PyTruthy(data)
    ensures EnrichLead(Answered(status, Parsed(data))) == HttpResponse(200, data)
  {
  }

  /** Every failure the `requests` library reports (connection error,
      timeout, error status, a decode error of its own) gives the same 500. */
  lemma RequestFailuresGive500(upstream: Upstream)
    requires
      || (upstream.Raised? && upstream.error.RequestException?)
      || (upstream.Answered? && RaisesForStatus(upstream.status))
      || (upstream.Answered? && upstream.body.DecodeRaised? && upstream.body.error.RequestException?)
    ensures EnrichLead(upstream) == ErrorResponse(500, FetchFailedDetail)
  {
  }

  /** Any other exception gives a 500 whose detail names it. */
  lemma OtherFailuresGive500(upstream: Upstream)
    requires
      || (upstream.Raised? && !upstream.error.RequestException?)
      || (upstream.Answered? && !RaisesForStatus(upstream.status)
          && upstream.body.DecodeRaised? && !upstream.body.error.RequestException?)
    ensures var e := if upstream.Raised? then upstream.error else upstream.body.error;
      EnrichLead(upstream) == ErrorResponse(500, InternalErrorPrefix + PyStr(e))
  {
  }

  /** Empty data never reaches the client as a 404: it arrives as a 500
      whose detail starts with the internal-error prefix. */
  lemma EmptyDataBecomes500(status: int, data: Json)
    requires !RaisesForStatus(status) && !PyTruthy(data)
    ensures EnrichLead(Answered(status, Parsed(data))).status == 500
    ensures EnrichLead(Answered(status, Parsed(data)))
      == ErrorResponse(500, InternalErrorPrefix + PyStr(NoDataFound))
    ensures PyStr(NoDataFound) == "404" + ": " + NoDataDetail
  {
    assert Decimal(4) == "4";
    assert Decimal(40) == "40";
  }

  /** The handler as evidently intended: the 404 raised for empty data
      passes through (`except HTTPException: raise` ahead of the broad
      clause), everything else is handled as written. */
  function EnrichLeadIntended(upstream: Upstream): (r: HttpResponse)
    ensures r.status in {200, 404, 500}
    ensures r.status == 404 <==>
      upstream.Answered? && !RaisesForStatus(upstream.status)
      && upstream.body.Parsed? && !PyTruthy(upstream.body.data)
    ensures r.status == 404 ==> r == ErrorResponse(404, NoDataDetail)
    ensures r.status != 404 ==> r == EnrichLead(upstream)
  {
    match upstream
    case Answered(status, Parsed(data)) =>
      if !RaisesForStatus(status) && !PyTruthy(data) then ErrorResponse(404, NoDataDetail)
      else EnrichLead(upstream)
    case _ => EnrichLead(upstream)
  }

  /** `GET /`: a fixed welcome message. */
  function Root(): (r: HttpResponse)
    ensures r.status == 200 && r.body.Obj?
    ensures r.body.fields.Keys == {"message", "status"}
    ensures r.body.fields["message"] == Str("Welcome to the Lead Enrichment API")
    ensures r.body.fields["status"] == Str("operational")
  {
    HttpResponse(200, Obj(map["message" := Str("Welcome to the Lead Enrichment API"),
                              "status" := Str("operational")]))
  }
}
