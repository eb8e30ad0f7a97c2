/** The energy-charts API client of src/client.ts: query-string building,
    the retry loop with exponential backoff around fetch, and the price
    request with its bidding-zone default.

    The network is not modelled. What the i-th fetch attempt sees (a parsed
    body, an HTTP error status, or a thrown error such as the AbortError of a
    timeout) is given as the i-th element of a sequence of outcomes, and each
    sleep between attempts is recorded as a delay instead of being waited. */
module Client {
  import opened Wrappers
  import opened Numerals
  import opened Config
  import opened Types

  /** A JavaScript Error, reduced to the two properties the loop reads. */
  datatype Error = Error(name: string, message: string)

  /** The error thrown when the loop runs no attempt at all. */
  const UnknownError := Error("Error", "Unknown error occurred")

  /** What one fetch attempt observes. A body that fails to parse, and any
      other exception inside the attempt, is a Threw outcome. */
  datatype Attempt<T> =
    | Ok(body: T)
    | NotOk(status: int, text: string)
    | Threw(error: Error)

  /** The error an unsuccessful attempt leaves in lastError. */
  function AttemptError<T>(a: Attempt<T>): (e: Error)
    requires !a.Ok?
    ensures a.NotOk? ==> e.name == "Error"
    ensures a.Threw? ==> e == a.error
  {
    match a
    case NotOk(status, text) =>
      Error("Error", "HTTP error! Status: " + IntToString(status) + ", Message: " + text)
    case Threw(error) => error
  }

  /** A failed attempt after which the loop tries again, unless it was the
      last one: anything but an ok response or an AbortError. */
  predicate Retryable<T>(a: Attempt<T>) {
    !a.Ok? && AttemptError(a).name != "AbortError"
  }

  /** What the loop returns or throws when it stops at attempt a. */
  function Outcome<T>(a: Attempt<T>): (r: Result<T, Error>)
    ensures r.Success? <==> a.Ok?
  {
    if a.Ok? then Success(a.body) else Failure(AttemptError(a))
  }

  function Pow2(n: nat): (p: nat)
    ensures p >= 1
  {
    if n == 0 then 1 else 2 * Pow2(n - 1)
  }

  /** Math.min(1000 * 2 ** (attempt - 1), 5000): the delay in milliseconds
      after failed attempt `attempt`. */
  function Backoff(attempt: int): int
    requires attempt >= 1
  {
    var exponential := 1000 * Pow2(attempt - 1);
    if exponential < 5000 then exponential else 5000
  }

  /** The result of fetchFromEndpoint's loop: the value returned or the error
      thrown, how many attempts were made, and the delays slept in between. */
  datatype FetchRun<T> = FetchRun(result: Result<T, Error>, attempts: nat, delays: seq<int>)

  /** The retry policy of fetchFromEndpoint. With maxRetries below 1 no
      attempt is made and "Unknown error occurred" is thrown. Otherwise the
      loop makes between 1 and maxRetries attempts; every attempt before the
      last was retryable; it stops before maxRetries only at an ok response or
      an AbortError; it slept Backoff(k) after each attempt k but the last; and
      it returns the last attempt's body or throws the last attempt's error. */
  ghost predicate FollowsRetryPolicy<T>(outcomes: seq<Attempt<T>>, maxRetries: int, run: FetchRun<T>) {
    if maxRetries < 1 then
      run == FetchRun(Failure(UnknownError), 0, [])
    else
      && 1 <= run.attempts <= maxRetries && run.attempts <= |outcomes|
      && (forall i :: 0 <= i < run.attempts - 1 ==> Retryable(outcomes[i]))
      && (run.attempts < maxRetries ==> !Retryable(outcomes[run.attempts - 1]))
      && |run.delays| == run.attempts - 1
      && (forall k :: 0 <= k < |run.delays| ==> run.delays[k] == Backoff(k + 1))
      && run.result == Outcome(outcomes[run.attempts - 1])
  }

  /** The retry policy leaves no choice: given the outcomes of the attempts,
      at most one run follows it. */
  lemma RetryPolicyDeterministic<T>(outcomes: seq<Attempt<T>>, maxRetries: int,
                                    run1: FetchRun<T>, run2: FetchRun<T>)
    requires FollowsRetryPolicy(outcomes, maxRetries, run1)
    requires FollowsRetryPolicy(outcomes, maxRetries, run2)
    ensures run1 == run2
  {
  }

  /** The loop stops at the first attempt k that is ok or an AbortError, or
      at the last allowed attempt: it made k + 1 attempts, slept k times, and
      returns that attempt's body or rethrows its error. In particular the
      first ok response wins, an AbortError is never retried, a non-ok status
      is retried while attempts remain, and when all attempts fail the last
      attempt's error is thrown. */
  lemma StopsAtFirstDecisive<T>(outcomes: seq<Attempt<T>>, maxRetries: int,
                                run: FetchRun<T>, k: int)
    requires FollowsRetryPolicy(outcomes, maxRetries, run)
    requires 0 <= k < maxRetries && k < |outcomes|
    requires forall i :: 0 <= i < k ==> Retryable(outcomes[i])
    requires !Retryable(outcomes[k]) || k == maxRetries - 1
    ensures run.attempts == k + 1
    ensures |run.delays| == k
    ensures run.result == Outcome(outcomes[k])
  {
  }

  lemma {:induction false} Pow2Monotone(a: nat, b: nat)
    requires a <= b
    ensures Pow2(a) <= Pow2(b)
    decreases b - a
  {
    if a < b {
      Pow2Monotone(a, b - 1);
    }
  }

  /** Every delay lies between one and five seconds. */
  lemma BackoffBounds(attempt: int)
    requires attempt >= 1
    ensures 1000 <= Backoff(attempt) <= 5000
  {
  }

  /** Later attempts never wait less. */
  lemma BackoffMonotone(a: int, b: int)
    requires 1 <= a <= b
    ensures Backoff(a) <= Backoff(b)
  {
    Pow2Monotone(a - 1, b - 1);
  }

  /** The schedule is 1000, 2000, 4000, then 5000 ms from the fourth failed
      attempt on. */
  lemma BackoffSchedule(attempt: int)
    requires attempt >= 1
    ensures attempt == 1 ==> Backoff(attempt) == 1000
    ensures attempt == 2 ==> Backoff(attempt) == 2000
    ensures attempt == 3 ==> Backoff(attempt) == 4000
    ensures attempt >= 4 ==> Backoff(attempt) == 5000
  {
    if attempt >= 4 {
      Pow2Monotone(3, attempt - 1);
      assert Pow2(3) == 8;
    } else {
      assert Pow2(2) == 4;
    }
  }

  // Query parameters

  /** A parameter value: a JavaScript value as buildUrl distinguishes them.
      Plain objects are not modelled. */
  datatype Value =
    | Undefined
    | Null
    | Bool(b: bool)
    | Text(s: string)
    | Integer(n: int)
    | List(items: seq<Value>)

  /** Array.prototype.join with separator ",". */
  function JoinStrings(parts: seq<string>): string {
    if |parts| == 0 then ""
    else if |parts| == 1 then parts[0]
    else JoinStrings(parts[..|parts| - 1]) + "," + parts[|parts| - 1]
  }

  /** The text a value is written as: the element conversion of
      Array.prototype.join (undefined and null give "", an array is joined
      again), which for a defined parameter also is what buildUrl appends. */
  function Stringify(v: Value): string
    decreases v, 1
  {
    match v
    case Undefined => ""
    case Null => ""
    case Bool(b) => if b then "true" else "false"
    case Text(s) => s
    case Integer(n) => IntToString(n)
    case List(items) => JoinValues(items)
  }

  /** items.join(","). */
  function JoinValues(items: seq<Value>): string
    decreases items, 0
  {
    JoinStrings(seq(|items|, i requires 0 <= i < |items| => Stringify(items[i])))
  }

  /** The query pairs the parameters give: one pair per defined value, in
      entry order. */
  function QueryOf(params: seq<(string, Value)>): seq<(string, string)> {
    if params == [] then
      []
    else
      var last := params[|params| - 1];
      QueryOf(params[..|params| - 1])
      + (if last.1.Undefined? then [] else [(last.0, Stringify(last.1))])
  }

  /** Query pairs are produced entry by entry, in order: the pairs of a
      concatenation are the concatenation of the pairs. */
  lemma {:induction false} QueryOfAppend(a: seq<(string, Value)>, b: seq<(string, Value)>)
    ensures QueryOf(a + b) == QueryOf(a) + QueryOf(b)
    decreases |b|
  {
    if b == [] {
      assert a + b == a;
    } else {
      var n := |b| - 1;
      assert (a + b)[..|a + b| - 1] == a + b[..n];
      QueryOfAppend(a, b[..n]);
    }
  }

  /** An undefined value adds no pair; any other value adds exactly one,
      under its own key. */
  lemma QueryOfSingle(key: string, v: Value)
    ensures v.Undefined? ==> QueryOf([(key, v)]) == []
    ensures !v.Undefined? ==> QueryOf([(key, v)]) == [(key, Stringify(v))]
  {
  }

  predicate NoComma(s: string) {
    forall i :: 0 <= i < |s| ==> s[i] != ','
  }

  /** String.prototype.split(","). */
  function Split(s: string): (r: seq<string>)
    ensures |r| >= 1
  {
    if s == [] then
      [""]
    else
      var init := Split(s[..|s| - 1]);
      var c := s[|s| - 1];
      if c == ',' then init + [""]
      else init[..|init| - 1] + [init[|init| - 1] + [c]]
  }

  lemma {:induction false} SplitPlain(s: string)
    requires NoComma(s)
    ensures Split(s) == [s]
    decreases |s|
  {
    if s != [] {
      SplitPlain(s[..|s| - 1]);
      assert s[..|s| - 1] + [s[|s| - 1]] == s;
    }
  }

  lemma {:induction false} SplitAfterComma(x: string, p: string)
    requires NoComma(p)
    ensures Split(x + "," + p) == Split(x) + [p]
    decreases |p|
  {
    var s := x + "," + p;
    if p == [] {
      assert s[..|s| - 1] == x;
    } else {
      var q := p[..|p| - 1];
      assert s[..|s| - 1] == x + "," + q;
      SplitAfterComma(x, q);
      assert q + [p[|p| - 1]] == p;
    }
  }

  /** Joining a non-empty list of comma-free strings loses nothing: splitting
      the joined text at the commas gives the list back. */
  lemma {:induction false} SplitJoinStrings(parts: seq<string>)
    requires |parts| >= 1
    requires forall i :: 0 <= i < |parts| ==> NoComma(parts[i])
    ensures Split(JoinStrings(parts)) == parts
    decreases |parts|
  {
    if |parts| == 1 {
      SplitPlain(parts[0]);
    } else {
      var n := |parts| - 1;
      SplitJoinStrings(parts[..n]);
      SplitAfterComma(JoinStrings(parts[..n]), parts[n]);
      assert parts[..n] + [parts[n]] == parts;
    }
  }

  /** A URL as buildUrl leaves it: the text given to new URL and the
      search parameters appended to it, in order. */
  datatype Url = Url(location: string, searchParams: seq<(string, string)>)

  /** The defaulting of getPrices: params.bzn || "DE-LU". */
  function BiddingZone(bzn: Option<string>): (zone: string)
    ensures zone != ""
    ensures zone == "DE-LU" <==> bzn == None || bzn == Some("") || bzn == Some("DE-LU")
  {
    if bzn.None? || bzn.value == "" then "DE-LU" else bzn.value
  }

  function OptionalText(s: Option<string>): Value {
    if s.Some? then Text(s.value) else Undefined
  }

  class EnergyChartsClient {
    const baseUrl: string
    const maxRetries: int
    const timeout: int

    /** The constructor's parameter defaults apply to omitted arguments. */
    constructor (baseUrl: Option<string>, maxRetries: Option<int>, timeout: Option<int>)
      ensures this.baseUrl == (if baseUrl.Some? then baseUrl.value else ApiBaseUrl)
      ensures this.maxRetries == (if maxRetries.Some? then maxRetries.value else 3)
      ensures this.timeout == (if timeout.Some? then timeout.value else 10000)
    {
      this.baseUrl := if baseUrl.Some? then baseUrl.value else ApiBaseUrl;
      this.maxRetries := if maxRetries.Some? then maxRetries.value else 3;
      this.timeout := if timeout.Some? then timeout.value else 10000;
    }

    /** buildUrl: the base URL followed by the endpoint, with one search
        parameter appended per defined parameter, in entry order. */
    method BuildUrl(endpoint: string, params: seq<(string, Value)>) returns (url: Url)
      ensures url.location == baseUrl + endpoint
      ensures url.searchParams == QueryOf(params)
    {
      var searchParams: seq<(string, string)> := [];
      var i := 0;
      while i < |params|
        invariant 0 <= i <= |params|
        invariant searchParams == QueryOf(params[..i])
      {
        var key, value := params[i].0, params[i].1;
        if !value.Undefined? {
          if value.Bool? {
            searchParams := searchParams + [(key, if value.b then "true" else "false")];
          } else if value.List? {
            searchParams := searchParams + [(key, JoinValues(value.items))];
          } else {
            var text := match value
              case Integer(n) => IntToString(n)
              case Text(s) => s
              case _ => "";
            searchParams := searchParams + [(key, text)];
          }
        }
        assert params[..i + 1][..i] == params[..i];
        i := i + 1;
      }
      assert params[..i] == params;
      url := Url(baseUrl + endpoint, searchParams);
    }

    /** fetchFromEndpoint: the URL requested and the run of the retry loop
        over the given attempt outcomes, which follows the retry policy. */
    method FetchFromEndpoint<T>(endpoint: string, params: seq<(string, Value)>,
                                outcomes: seq<Attempt<T>>)
      returns (url: Url, run: FetchRun<T>)
      requires maxRetries <= |outcomes|
      ensures url.location == baseUrl + endpoint
      ensures url.searchParams == QueryOf(params)
      ensures FollowsRetryPolicy(outcomes, maxRetries, run)
    {
      url := BuildUrl(endpoint, params);
      var lastError: Option<Error> := None;
      var delays: seq<int> := [];
      var attempt := 1;
      while attempt <= maxRetries
        invariant 1 <= attempt
        invariant maxRetries >= 1 ==> attempt <= maxRetries
        invariant maxRetries < 1 ==> attempt == 1 && lastError == None
        invariant |delays| == attempt - 1
        invariant forall k :: 0 <= k < |delays| ==> delays[k] == Backoff(k + 1)
        invariant forall i :: 0 <= i < attempt - 1 ==> Retryable(outcomes[i])
      {
        var outcome := outcomes[attempt - 1];
        if outcome.Ok? {
          run := FetchRun(Success(outcome.body), attempt, delays);
          return;
        }
        lastError := Some(AttemptError(outcome));
        if attempt >= maxRetries || lastError.value.name == "AbortError" {
          run := FetchRun(Failure(lastError.value), attempt, delays);
          return;
        }
        var delay := Backoff(attempt);
        delays := delays + [delay];
        attempt := attempt + 1;
      }
      var thrown := match lastError
        case Some(e) => e
        case None => UnknownError;
      run := FetchRun(Failure(thrown), attempt - 1, delays);
    }

    /** getPrices: requests the price endpoint with bzn defaulting to DE-LU
        and start and end passed on when present, an empty text included. */
    method GetPrices(params: PriceRequestParams, outcomes: seq<Attempt<PriceResponse>>)
      returns (url: Url, run: FetchRun<PriceResponse>)
      requires maxRetries <= |outcomes|
      ensures url.location == baseUrl + "price"
      ensures url.searchParams
              == [("bzn", BiddingZone(params.bzn))]
                 + (if params.start.Some? then [("start", params.start.value)] else [])
                 + (if params.end.Some? then [("end", params.end.value)] else [])
      ensures FollowsRetryPolicy(outcomes, maxRetries, run)
    {
      var bzn := if params.bzn.None? || params.bzn.value == "" then "DE-LU" else params.bzn.value;
      var query := [("bzn", Text(bzn)), ("start", OptionalText(params.start)),
                    ("end", OptionalText(params.end))];
      var zone, start, end := [query[0]], [query[1]], [query[2]];
      assert query == zone + start + end;
      QueryOfAppend(zone, start);
      QueryOfAppend(zone + start, end);
      QueryOfSingle("bzn", Text(bzn));
      QueryOfSingle("start", OptionalText(params.start));
      QueryOfSingle("end", OptionalText(params.end));
      url, run := FetchFromEndpoint("price", query, outcomes);
    }
  }
}
