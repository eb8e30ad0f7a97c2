/** The /prices endpoint of server.ts: choosing JSON or an RDF syntax from the
    client's Accept preferences (the selection half of content negotiation,
    section 12.5.1 of RFC 9110), defaulting the query parameters, fetching the
    prices and filling in the response, with every failure mapped to
    status 500.

    Parsing the Accept header into a priority-ordered list of media types is
    not part of this model: the handler receives that list. */
module Server {
  import opened Wrappers
  import opened Types
  import opened Prices
  import opened Client

  datatype Format = Json | Rdf

  /** The chosen format and the Content-Type sent with it. */
  datatype Negotiated = Negotiated(format: Format, contentType: string)

  /** The RDF syntaxes the writer can produce. */
  const RdfMediaTypes: seq<string> := [
    "text/turtle",
    "application/n-triples",
    "application/n-quads",
    "application/trig",
    "text/n3",
    "application/ld+json"
  ]

  const JsonMediaType := "application/json"

  /** A media type the endpoint can answer with. */
  predicate Acceptable(mediaType: string) {
    mediaType == JsonMediaType || mediaType in RdfMediaTypes
  }

  /** The answer for an acceptable media type: JSON for application/json, and
      otherwise RDF in exactly that syntax. */
  function Selected(mediaType: string): (r: Negotiated)
    requires Acceptable(mediaType)
    ensures r.contentType == mediaType
    ensures r.format == Json <==> mediaType == JsonMediaType
  {
    if mediaType == JsonMediaType then Negotiated(Json, JsonMediaType) else Negotiated(Rdf, mediaType)
  }

  /** determineResponseFormat over the parsed Accept list, highest priority
      first. The answer is always JSON with application/json or RDF with one
      of the six RDF media types, and it is either text/turtle or one of the
      listed media types, verbatim. */
  function DetermineResponseFormat(mediaTypes: seq<string>): (r: Negotiated)
    ensures r.format == Json <==> r.contentType == JsonMediaType
    ensures r.contentType == JsonMediaType || r.contentType in RdfMediaTypes
    ensures r.contentType == "text/turtle" || r.contentType in mediaTypes
  {
    if mediaTypes == [] then
      Negotiated(Rdf, "text/turtle")
    else if mediaTypes[0] == JsonMediaType then
      Negotiated(Json, JsonMediaType)
    else if mediaTypes[0] in RdfMediaTypes then
      Negotiated(Rdf, mediaTypes[0])
    else
      DetermineResponseFormat(mediaTypes[1..])
  }

  /** The first acceptable entry decides, whatever follows it. */
  lemma {:induction false} FirstMatchDecides(mediaTypes: seq<string>, i: int)
    requires 0 <= i < |mediaTypes| && Acceptable(mediaTypes[i])
    requires forall j :: 0 <= j < i ==> !Acceptable(mediaTypes[j])
    ensures DetermineResponseFormat(mediaTypes) == Selected(mediaTypes[i])
    decreases i
  {
    if i > 0 {
      FirstMatchDecides(mediaTypes[1..], i - 1);
    }
  }

  /** Without an acceptable entry, the empty list included, the answer is
      Turtle. */
  lemma {:induction false} NoMatchIsTurtle(mediaTypes: seq<string>)
    requires forall j :: 0 <= j < |mediaTypes| ==> !Acceptable(mediaTypes[j])
    ensures DetermineResponseFormat(mediaTypes) == Negotiated(Rdf, "text/turtle")
    decreases |mediaTypes|
  {
    if mediaTypes != [] {
      NoMatchIsTurtle(mediaTypes[1..]);
    }
  }

  /** Media types appended after an acceptable entry never change the answer. */
  lemma {:induction false} AppendAfterMatch(a: seq<string>, b: seq<string>, i: int)
    requires 0 <= i < |a| && Acceptable(a[i])
    ensures DetermineResponseFormat(a + b) == DetermineResponseFormat(a)
    decreases i
  {
    if !Acceptable(a[0]) {
      assert (a + b)[1..] == a[1..] + b;
      AppendAfterMatch(a[1..], b, i - 1);
    }
  }

  /** URLSearchParams.get: the value of the first pair with that name. */
  function SearchParam(params: seq<(string, string)>, name: string): (r: Option<string>)
    ensures r.None? <==> forall i :: 0 <= i < |params| ==> params[i].0 != name
    ensures r.Some? ==> exists i :: 0 <= i < |params| && params[i] == (name, r.value)
                                   && forall j :: 0 <= j < i ==> params[j].0 != name
  {
    if params == [] then None
    else if params[0].0 == name then Some(params[0].1)
    else SearchParam(params[1..], name)
  }

  /** JavaScript's value || fallback on a possibly absent text: an absent or
      empty text gives the fallback. */
  function OrElse(value: Option<string>, fallback: string): string {
    if value.None? || value.value == "" then fallback else value.value
  }

  /** The parts of an incoming request the handler reads. */
  datatype Request = Request(accept: seq<string>, searchParams: seq<(string, string)>)

  /** Response bodies the handler assigns: the fetched prices as JSON, the
      converted RDF document, or an error object. */
  datatype Body =
    | NoBody
    | JsonPrices(prices: PriceResponse)
    | RdfText(document: RdfDocument)
    | JsonError(error: string)

  const FetchFailedMessage := "Failed to fetch energy price data"

  /** The mutable response of the request context. */
  class Response {
    var status: int
    var headers: map<string, string>
    var body: Body

    constructor (status: int, headers: map<string, string>)
      ensures this.status == status && this.headers == headers && body == NoBody
    {
      this.status := status;
      this.headers := headers;
      body := NoBody;
    }
  }

  /** Whether the handler ends in its catch block: the fetch failed, or the
      RDF conversion threw because a timestamp lies outside the range of a
      Date. */
  predicate HandlerFails(format: Format, result: Result<PriceResponse, Error>) {
    result.Failure? || (format == Rdf && !AllRepresentable(result.value.unixSeconds))
  }

  /** The GET /prices handler. It requests bzn (default DE-LU), start and
      end (default "") upstream. When the fetch or the conversion fails, it
      sets status 500 and the error body and leaves the headers alone.
      Otherwise the status is left alone, Content-Type is set to the
      negotiated media type, and the body is the fetched prices unchanged
      (JSON) or the converted document with Vary: Accept added (RDF). */
  method HandlePrices(request: Request, response: Response, client: EnergyChartsClient,
                      outcomes: seq<Attempt<PriceResponse>>)
    returns (upstream: Url, run: FetchRun<PriceResponse>)
    requires client.maxRetries <= |outcomes|
    modifies response
    ensures upstream.location == client.baseUrl + "price"
    ensures upstream.searchParams == [
      ("bzn", OrElse(SearchParam(request.searchParams, "bzn"), "DE-LU")),
      ("start", OrElse(SearchParam(request.searchParams, "start"), "")),
      ("end", OrElse(SearchParam(request.searchParams, "end"), ""))]
    ensures FollowsRetryPolicy(outcomes, client.maxRetries, run)
    ensures HandlerFails(DetermineResponseFormat(request.accept).format, run.result) ==>
      && response.status == 500
      && response.headers == old(response.headers)
      && response.body == JsonError(FetchFailedMessage)
    ensures !HandlerFails(DetermineResponseFormat(request.accept).format, run.result) ==>
      response.status == old(response.status)
    ensures run.result.Success? && DetermineResponseFormat(request.accept).format == Json ==>
      && response.headers == old(response.headers)["Content-Type" := JsonMediaType]
      && response.body == JsonPrices(run.result.value)
    ensures !HandlerFails(DetermineResponseFormat(request.accept).format, run.result)
            && DetermineResponseFormat(request.accept).format == Rdf ==>
      var contentType := DetermineResponseFormat(request.accept).contentType;
      && response.headers == old(response.headers)["Content-Type" := contentType]["Vary" := "Accept"]
      && response.body.RdfText?
      && response.body.document.prefixes == PrefixTable
      && response.body.document.contentType == Some(contentType)
      && response.body.document.quads
         == Graph(run.result.value.unixSeconds, run.result.value.price)
  {
    var negotiated := DetermineResponseFormat(request.accept);
    var bzn := OrElse(SearchParam(request.searchParams, "bzn"), "DE-LU");
    var start := OrElse(SearchParam(request.searchParams, "start"), "");
    var end := OrElse(SearchParam(request.searchParams, "end"), "");
    upstream, run := client.GetPrices(PriceRequestParams(Some(bzn), Some(start), Some(end)), outcomes);
    if run.result.Failure? {
      response.status := 500;
      response.body := JsonError(FetchFailedMessage);
      return;
    }
    var prices := run.result.value;
    if negotiated.format == Json {
      response.headers := response.headers["Content-Type" := negotiated.contentType];
      response.body := JsonPrices(prices);
    } else {
      var converted := PricesToRdf(prices, Some(negotiated.contentType));
      if converted.Failure? {
        response.status := 500;
        response.body := JsonError(FetchFailedMessage);
        return;
      }
      response.headers := response.headers["Content-Type" := negotiated.contentType];
      response.headers := response.headers["Vary" := "Accept"];
      response.body := RdfText(converted.value);
    }
  }
}
