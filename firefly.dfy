/**
 * The request chains of `Session` (src/firefly.rs). Each method joins a
 * resource path onto the base URL, optionally sets a date-range query,
 * builds a GET request with a bearer token, executes it and decodes the
 * `{ "data": ... }` envelope, returning the first failure through `?`.
 *
 * The url, reqwest and serde_json crates are not modelled: what their calls
 * return is given by the functions of an `Http` value and by a `decode`
 * function per resource type, so every outcome of every stage is an input.
 */
module Firefly {
  import opened Wrappers
  import opened Calendar
  import opened DateFormat
  import opened Api

  /** The diagnostic a library call hands back with its failure. */
  datatype LibError = Failed(reason: string) | HttpStatus(code: nat)

  /** The error type of `load_category`. */
  datatype RequestError =
    | ConstructUrl
    | BuildRequest
    | ExecuteRequest
    | DecodeResponse(cause: LibError)

  /** The error type of `load_bills`; a decode failure keeps the raw body text. */
  datatype FireflyError =
    | ConstructUrl(cause: LibError)
    | BuildRequest(cause: LibError)
    | ExecuteRequest(cause: LibError)
    | ErrorResponse(cause: LibError)
    | ReceiveResponse(cause: LibError)
    | DecodeResponse(cause: LibError, body: string)

  /** A parsed URL: everything before the query, the query, and the fragment. */
  datatype Url = Url(prefix: string, query: Option<string>, fragment: Option<string>)

  /** A GET request and the value of its `Authorization` header. */
  datatype Request = Request(url: Url, authorization: string)

  /** The status of a response and the outcome of reading its whole body as text. */
  datatype Response = Response(status: nat, body: Result<string, LibError>)

  /** What the url and reqwest crates do, as seen by the session. */
  datatype Http = Http(
    join: (Url, string) -> Result<Url, LibError>,  // `Url::join`
    build: Request -> Option<LibError>,            // `RequestBuilder::build`: its error, if any
    execute: Request -> Result<Response, LibError>) // `Client::execute`

  /** `Session`: its fields are set by `new` and never change. */
  datatype Session = Session(baseUrl: Url, token: string, http: Http)

  const BILLS_PATH := "api/v1/bills"
  const BUDGETS_PATH := "api/v1/budgets"
  const CATEGORIES_PATH := "api/v1/categories"
  const CATEGORY_PATH := "api/v1/categories/"

  /**
   * `Session::new`: `parsed` is the outcome of `into_url()`; a failure is
   * unwrapped, which aborts the process (`None`).
   */
  function NewSession(parsed: Result<Url, LibError>, token: string, http: Http): (r: Option<Session>)
    ensures r.Some? <==> parsed.Success?
    ensures r.Some? ==> r.value.baseUrl == parsed.value && r.value.token == token
  {
    match parsed
    case Failure(_) => None
    case Success(url) => Some(Session(url, token, http))
  }

  /** `client.get(url).bearer_auth(token)`. */
  function Authorized(url: Url, token: string): Request {
    Request(url, "Bearer " + token)
  }

  /**
   * The statuses `Response::error_for_status` turns into an error: client and
   * server errors. Success and redirection statuses pass.
   */
  predicate IsErrorStatus(status: nat)
    ensures 200 <= status <= 399 ==> !IsErrorStatus(status)
    ensures status == 400 || status == 599 ==> IsErrorStatus(status)
  {
    400 <= status <= 599
  }

  /** `Response::json`: read the body, then decode it; either failure is reported alike. */
  function Json<T>(response: Response, decode: string -> Result<T, LibError>): (r: Result<T, LibError>)
    ensures response.body.Failure? ==> r == Failure(response.body.error)
    ensures response.body.Success? ==> r == decode(response.body.value)
  {
    match response.body
    case Failure(e) => Failure(e)
    case Success(raw) => decode(raw)
  }

  // ---------------------------------------------------------------- query

  /**
   * The query `format!("start={}&end={}", start, end)` of a date range. Its
   * only `&` is the one after the start date, so the two dates cannot be
   * confused.
   */
  function RangeQuery(start: Date, end: Date): (q: string)
    requires Valid(start) && Valid(end)
    ensures |q| > 6 && q[..6] == "start="
    ensures forall k :: 0 <= k < |q| ==> (q[k] == '&' <==> k == 6 + |FormatDate(start)|)
  {
    "start=" + FormatDate(start) + "&end=" + FormatDate(end)
  }

  /**
   * The URL a method requests: with no range the joined URL as it is, with a
   * range the same URL with its query set to the range (`set_query`; the
   * query's characters need no percent-encoding).
   */
  function WithRange(url: Url, range: Option<(Date, Date)>): (r: Url)
    requires range.Some? ==> Valid(range.value.0) && Valid(range.value.1)
    ensures range.None? ==> r == url
    ensures range.Some? ==> r == url.(query := Some(RangeQuery(range.value.0, range.value.1)))
  {
    match range
    case None => url
    case Some((start, end)) => url.(query := Some(RangeQuery(start, end)))
  }

  function IndexOf(s: string, c: char): (r: Option<nat>)
    ensures r.None? ==> c !in s
    ensures r.Some? ==> r.value < |s| && s[r.value] == c && c !in s[..r.value]
  {
    if |s| == 0 then None
    else if s[0] == c then Some(0)
    else match IndexOf(s[1..], c)
      case None => None
      case Some(i) => Some(i + 1)
  }

  /** Reads a `start=<date>&end=<date>` query back into its range. */
  function ParseRangeQuery(q: string): Option<(Date, Date)> {
    if |q| < 6 || q[..6] != "start=" then None
    else
      var rest := q[6..];
      match IndexOf(rest, '&')
      case None => None
      case Some(i) =>
        var tail := rest[i..];
        if |tail| < 5 || tail[..5] != "&end=" then None
        else match (ParseDate(rest[..i]), ParseDate(tail[5..]))
          case (Some(start), Some(end)) => Some((start, end))
          case _ => None
  }

  /** The first `c` in `a + rest` is the one that starts `rest`, when `a` holds none. */
  lemma IndexOfAfter(a: string, rest: string, c: char)
    requires c !in a && |rest| > 0 && rest[0] == c
    ensures IndexOf(a + rest, c) == Some(|a|)
  {
    var s := a + rest;
    assert s[|a|] == c;
    assert s[..|a|] == a;
    assert IndexOf(s, c).Some? ==> s[..|a| + 1][|a|] == c;
  }

  /** `ParseRangeQuery` splits a query at the first `&` and reads both dates. */
  lemma ParseRangeQueryParts(a: string, b: string)
    requires '&' !in a
    ensures ParseRangeQuery("start=" + a + "&end=" + b) ==
      match (ParseDate(a), ParseDate(b))
      case (Some(start), Some(end)) => Some((start, end))
      case _ => None
  {
    var q := "start=" + a + "&end=" + b;
    var rest := q[6..];
    assert q[..6] == "start=";
    assert rest == a + ("&end=" + b);
    IndexOfAfter(a, "&end=" + b, '&');
    assert rest[..|a|] == a;
    assert rest[|a|..] == "&end=" + b;
    assert ("&end=" + b)[..5] == "&end=" && ("&end=" + b)[5..] == b;
  }

  /** The range query determines its range: reading it back gives the dates it was made from. */
  lemma RangeQueryRoundTrip(start: Date, end: Date)
    requires Valid(start) && Valid(end)
    ensures ParseRangeQuery(RangeQuery(start, end)) == Some((start, end))
  {
    var a := FormatDate(start);
    assert '&' !in a by {
      forall i | 0 <= i < |a| ensures a[i] != '&' {
      }
    }
    ParseRangeQueryParts(a, FormatDate(end));
    ParseFormatDate(start);
    ParseFormatDate(end);
  }

  // ---------------------------------------------------------------- load_bills

  /** The response stages of `load_bills` (src/firefly.rs:47-52): the status check, reading the body, decoding it. */
  function BillsFromResponse(response: Response, decode: string -> Result<Envelope<seq<Bill>>, LibError>)
    : (r: Result<seq<Bill>, FireflyError>)
    ensures IsErrorStatus(response.status) ==> r == Failure(FireflyError.ErrorResponse(HttpStatus(response.status)))
    ensures r.Success? <==>
      !IsErrorStatus(response.status) && response.body.Success? && decode(response.body.value).Success?
    ensures r.Success? ==> decode(response.body.value) == Success(Envelope(r.value))
    ensures r.Failure? && r.error.ReceiveResponse? ==> response.body == Failure(r.error.cause)
    ensures r.Failure? && r.error.DecodeResponse? ==>
      response.body == Success(r.error.body) && decode(r.error.body) == Failure(r.error.cause)
  {
    if IsErrorStatus(response.status) then Failure(FireflyError.ErrorResponse(HttpStatus(response.status)))
    else match response.body
      case Failure(e) => Failure(FireflyError.ReceiveResponse(e))
      case Success(raw) =>
        match decode(raw)
        case Failure(e) => Failure(FireflyError.DecodeResponse(e, raw))
        case Success(envelope) => Success(envelope.data)
  }

  /**
   * `load_bills`: the error returned is that of the first stage that fails,
   * in the order url join, request build, execute, then the response stages
   * of `BillsFromResponse`; a stage after a failing one has no effect.
   */
  function LoadBills(session: Session, decode: string -> Result<Envelope<seq<Bill>>, LibError>)
    : (r: Result<seq<Bill>, FireflyError>)
    ensures var joined := session.http.join(session.baseUrl, BILLS_PATH);
      joined.Failure? ==> r == Failure(FireflyError.ConstructUrl(joined.error))
    ensures var joined := session.http.join(session.baseUrl, BILLS_PATH);
      joined.Success? ==>
        var request := Authorized(joined.value, session.token);
        var built := session.http.build(request);
        var executed := session.http.execute(request);
        && (built.Some? ==> r == Failure(FireflyError.BuildRequest(built.value)))
        && (built.None? && executed.Failure? ==> r == Failure(FireflyError.ExecuteRequest(executed.error)))
        && (built.None? && executed.Success? ==> r == BillsFromResponse(executed.value, decode))
  {
    match session.http.join(session.baseUrl, BILLS_PATH)
    case Failure(e) => Failure(FireflyError.ConstructUrl(e))
    case Success(url) =>
      var request := Authorized(url, session.token);
      match session.http.build(request)
      case Some(e) => Failure(FireflyError.BuildRequest(e))
      case None =>
        match session.http.execute(request)
        case Failure(e) => Failure(FireflyError.ExecuteRequest(e))
        case Success(response) => BillsFromResponse(response, decode)
  }

  // ---------------------------------------------------------------- load_budgets

  /** The URL of `load_budgets` (src/firefly.rs:59-67): the budgets path with the optional range query. */
  function BudgetsUrl(session: Session, range: Option<(Date, Date)>): (r: Result<Url, ()>)
    requires range.Some? ==> Valid(range.value.0) && Valid(range.value.1)
    ensures var joined := session.http.join(session.baseUrl, BUDGETS_PATH);
      && (r.Success? <==> joined.Success?)
      && (r.Success? ==> r.value == WithRange(joined.value, range))
  {
    match session.http.join(session.baseUrl, BUDGETS_PATH)
    case Failure(_) => Failure(())
    case Success(url) => Success(WithRange(url, range))
  }

  /** The response stages of `load_budgets` (src/firefly.rs:77-81): the status check, then `json()`; every failure is `()`. */
  function BudgetsFromResponse(response: Response, decode: string -> Result<Envelope<seq<Budget>>, LibError>)
    : (r: Result<seq<Budget>, ()>)
    ensures IsErrorStatus(response.status) ==> r == Failure(())
    ensures r.Success? <==> !IsErrorStatus(response.status) && Json(response, decode).Success?
    ensures r.Success? ==> response.body.Success? && decode(response.body.value) == Success(Envelope(r.value))
  {
    if IsErrorStatus(response.status) then Failure(())
    else match Json(response, decode)
      case Failure(_) => Failure(())
      case Success(envelope) => Success(envelope.data)
  }

  /** `load_budgets`: the first failing stage gives `()`, otherwise the envelope's data. */
  function LoadBudgets(
    session: Session,
    range: Option<(Date, Date)>,
    decode: string -> Result<Envelope<seq<Budget>>, LibError>)
    : (r: Result<seq<Budget>, ()>)
    requires range.Some? ==> Valid(range.value.0) && Valid(range.value.1)
    ensures var url := BudgetsUrl(session, range);
      && (url.Failure? ==> r == Failure(()))
      && (url.Success? ==>
        var request := Authorized(url.value, session.token);
        var executed := session.http.execute(request);
        && (session.http.build(request).Some? ==> r == Failure(()))
        && (session.http.build(request).None? && executed.Failure? ==> r == Failure(()))
        && (session.http.build(request).None? && executed.Success? ==>
              r == BudgetsFromResponse(executed.value, decode)))
  {
    match BudgetsUrl(session, range)
    case Failure(_) => Failure(())
    case Success(url) =>
      var request := Authorized(url, session.token);
      match session.http.build(request)
      case Some(_) => Failure(())
      case None =>
        match session.http.execute(request)
        case Failure(_) => Failure(())
        case Success(response) => BudgetsFromResponse(response, decode)
  }

  // ---------------------------------------------------------------- load_categories

  /** The response stage of `load_categories` (src/firefly.rs:90-92): `json()` with no status check. */
  function CategoriesFromResponse<T>(response: Response, decode: string -> Result<Envelope<seq<T>>, LibError>)
    : (r: Result<seq<T>, ()>)
    ensures r.Success? <==> Json(response, decode).Success?
    ensures r.Success? ==> response.body.Success? && decode(response.body.value) == Success(Envelope(r.value))
  {
    match Json(response, decode)
    case Failure(_) => Failure(())
    case Success(envelope) => Success(envelope.data)
  }

  /**
   * `load_categories`, generic in the category record (`ListCategory` is not
   * part of this model): join, build, execute, decode, every failure `()`.
   */
  function LoadCategories<T>(session: Session, decode: string -> Result<Envelope<seq<T>>, LibError>)
    : (r: Result<seq<T>, ()>)
    ensures var joined := session.http.join(session.baseUrl, CATEGORIES_PATH);
      && (joined.Failure? ==> r == Failure(()))
      && (joined.Success? ==>
        var request := Authorized(joined.value, session.token);
        var executed := session.http.execute(request);
        && (session.http.build(request).Some? ==> r == Failure(()))
        && (session.http.build(request).None? && executed.Failure? ==> r == Failure(()))
        && (session.http.build(request).None? && executed.Success? ==>
              r == CategoriesFromResponse(executed.value, decode)))
  {
    match session.http.join(session.baseUrl, CATEGORIES_PATH)
    case Failure(_) => Failure(())
    case Success(url) =>
      var request := Authorized(url, session.token);
      match session.http.build(request)
      case Some(_) => Failure(())
      case None =>
        match session.http.execute(request)
        case Failure(_) => Failure(())
        case Success(response) => CategoriesFromResponse(response, decode)
  }

  // ---------------------------------------------------------------- load_category

  /**
   * The URL of `load_category` (src/firefly.rs:96-104): two joins (the categories path, then the
   * category name), either failing as `ConstructUrl`, then the range query.
   */
  function CategoryUrl(session: Session, category: string, range: Option<(Date, Date)>)
    : (r: Result<Url, RequestError>)
    requires range.Some? ==> Valid(range.value.0) && Valid(range.value.1)
    ensures r.Failure? ==> r.error == RequestError.ConstructUrl
    ensures var first := session.http.join(session.baseUrl, CATEGORY_PATH);
      && (r.Success? <==> first.Success? && session.http.join(first.value, category).Success?)
      && (r.Success? ==> r.value == WithRange(session.http.join(first.value, category).value, range))
  {
    match session.http.join(session.baseUrl, CATEGORY_PATH)
    case Failure(_) => Failure(RequestError.ConstructUrl)
    case Success(categories) =>
      match session.http.join(categories, category)
      case Failure(_) => Failure(RequestError.ConstructUrl)
      case Success(url) => Success(WithRange(url, range))
  }

  /** The response stage of `load_category` (src/firefly.rs:109-111): `json()` with no status check. */
  function CategoryFromResponse<T>(response: Response, decode: string -> Result<Envelope<T>, LibError>)
    : (r: Result<T, RequestError>)
    ensures r.Success? <==> Json(response, decode).Success?
    ensures r.Success? ==> response.body.Success? && decode(response.body.value) == Success(Envelope(r.value))
    ensures r.Failure? ==> r == Failure(RequestError.DecodeResponse(Json(response, decode).error))
  {
    match Json(response, decode)
    case Failure(e) => Failure(RequestError.DecodeResponse(e))
    case Success(envelope) => Success(envelope.data)
  }

  /**
   * `load_category`, generic in the category record (`DetailsCategory` is not
   * part of this model). A failed execute is reported as `BuildRequest`, like
   * a failed build.
   */
  function LoadCategory<T>(
    session: Session,
    category: string,
    range: Option<(Date, Date)>,
    decode: string -> Result<Envelope<T>, LibError>)
    : (r: Result<T, RequestError>)
    requires range.Some? ==> Valid(range.value.0) && Valid(range.value.1)
    ensures r.Failure? ==> !r.error.ExecuteRequest?
    ensures var url := CategoryUrl(session, category, range);
      && (url.Failure? ==> r == Failure(RequestError.ConstructUrl))
      && (url.Success? ==>
        var request := Authorized(url.value, session.token);
        var executed := session.http.execute(request);
        && (session.http.build(request).Some? ==> r == Failure(RequestError.BuildRequest))
        && (session.http.build(request).None? && executed.Failure? ==> r == Failure(RequestError.BuildRequest))
        && (session.http.build(request).None? && executed.Success? ==>
              r == CategoryFromResponse(executed.value, decode)))
  {
    match CategoryUrl(session, category, range)
    case Failure(e) => Failure(e)
    case Success(url) =>
      var request := Authorized(url, session.token);
      match session.http.build(request)
      case Some(_) => Failure(RequestError.BuildRequest)
      case None =>
        match session.http.execute(request)
        case Failure(_) => Failure(RequestError.BuildRequest)
        case Success(response) => CategoryFromResponse(response, decode)
  }

  // ---------------------------------------------------------------- properties

  /**
   * `load_bills` and `load_budgets` reject a client or server error status
   * before the body is read or decoded, whatever the body holds.
   */
  lemma ErrorStatusRejectedBeforeDecoding(
    response: Response,
    body: Result<string, LibError>,
    decodeBills: string -> Result<Envelope<seq<Bill>>, LibError>,
    decodeBudgets: string -> Result<Envelope<seq<Budget>>, LibError>)
    requires IsErrorStatus(response.status)
    ensures BillsFromResponse(response.(body := body), decodeBills) == BillsFromResponse(response, decodeBills)
    ensures BillsFromResponse(response, decodeBills).Failure?
    ensures BudgetsFromResponse(response.(body := body), decodeBudgets) == Failure(())
  {
  }

  /** `load_categories` and `load_category` never look at the status: any status gives the same result. */
  lemma CategoriesIgnoreStatus<T, U>(
    response: Response,
    status: nat,
    decodeList: string -> Result<Envelope<seq<T>>, LibError>,
    decodeOne: string -> Result<Envelope<U>, LibError>)
    ensures CategoriesFromResponse(response.(status := status), decodeList) == CategoriesFromResponse(response, decodeList)
    ensures CategoryFromResponse(response.(status := status), decodeOne) == CategoryFromResponse(response, decodeOne)
  {
  }

  /**
   * `load_budgets` and `load_category` attach a range in the same way: the
   * joined URL is kept and its query becomes the range query, which reads
   * back as that range; with no range the joined URL is used unchanged.
   */
  lemma RangeQueryShared(session: Session, category: string, range: Option<(Date, Date)>)
    requires range.Some? ==> Valid(range.value.0) && Valid(range.value.1)
    ensures range.Some? && BudgetsUrl(session, range).Success? && CategoryUrl(session, category, range).Success? ==>
      BudgetsUrl(session, range).value.query == CategoryUrl(session, category, range).value.query
    ensures range.Some? && BudgetsUrl(session, range).Success? ==>
      BudgetsUrl(session, range).value.query.Some?
      && ParseRangeQuery(BudgetsUrl(session, range).value.query.value) == range
    ensures range.None? && BudgetsUrl(session, range).Success? ==>
      BudgetsUrl(session, range).value == session.http.join(session.baseUrl, BUDGETS_PATH).value
  {
    if range.Some? {
      RangeQueryRoundTrip(range.value.0, range.value.1);
    }
  }
}
