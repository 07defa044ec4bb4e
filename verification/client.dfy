/**
 * The API client's endpoints. Each one issues a GET under the retry policy,
 * checks the body's shape and returns it, and routes every failure inside its
 * `try` block, its own shape errors included, through `HandleApiError`.
 */
module Client {
  import opened Wrappers
  import opened JsValue
  import opened Http
  import opened Retry
  import opened ApiErrors
  import opened Requests
  import opened Trending

  /**
   * How upstream answers one request: what each attempt produces, and the
   * retry library's network-or-idempotent test for each attempt.
   */
  datatype Exchange = Exchange(attempts: nat -> Attempt, networkOrIdempotent: nat -> bool)

  /** The network, as the answers it gives to each request. */
  type Network = Request -> Exchange

  /** The attempt a request ends on once the retry policy gives up or succeeds. */
  function FinalAttempt(req: Request, net: Network): Attempt {
    var x := net(req);
    RetryFrom(x.attempts, x.networkOrIdempotent, 0).0
  }

  /** What `await api.get(...)` resolves with or rejects with. */
  function Reply(req: Request, net: Network): Result<Response, AxiosError> {
    Settle(FinalAttempt(req, net))
  }

  /** The `try` block: the request, then the endpoint's check and reshaping of the body. */
  function Attempted<T>(req: Request, net: Network, shape: Json -> Result<T, Thrown>): (r: Result<T, Thrown>)
    ensures Reply(req, net).Failure? ==> r == Failure(Axios(Reply(req, net).error))
    ensures Reply(req, net).Success? ==> r == shape(Reply(req, net).value.data)
  {
    match Reply(req, net)
    case Failure(e) => Failure(Axios(e))
    case Success(resp) => shape(resp.data)
  }

  /** An endpoint: the `try` block, with its `catch` rethrowing through `HandleApiError`. */
  function Run<T>(req: Request, net: Network, shape: Json -> Result<T, Thrown>): (r: Result<T, string>)
    ensures r.Success? <==> Attempted(req, net, shape).Success?
    ensures r.Success? ==> r.value == Attempted(req, net, shape).value
    ensures r.Failure? ==> r.error == HandleApiError(Attempted(req, net, shape).error)
  {
    match Attempted(req, net, shape)
    case Success(v) => Success(v)
    case Failure(e) => Failure(HandleApiError(e))
  }

  /** A shape check that only ever throws errors of its own, never an HTTP client error. */
  ghost predicate LocalOnly<T>(shape: Json -> Result<T, Thrown>) {
    forall j :: shape(j).Failure? ==> !shape(j).error.Axios?
  }

  function Passthrough(body: Json): Result<Json, Thrown> {
    Success(body)
  }

  /** `if (!data || typeof data !== 'object') throw new Error('Invalid response format')` */
  function RequireObject(body: Json): (r: Result<Json, Thrown>)
    ensures r.Success? <==> body.Arr? || body.Obj?
    ensures r.Success? ==> r.value == body
    ensures r.Failure? ==> r.error == Plain(InvalidFormatMessage)
  {
    if !Truthy(body) || !IsObjectType(body) then Failure(Plain(InvalidFormatMessage)) else Success(body)
  }

  /** `if (!data || !Array.isArray(data[key])) throw new Error('Invalid response format')` */
  function RequireArrayField(key: string, body: Json): (r: Result<Json, Thrown>)
    ensures r.Success? <==> Field(body, key).Arr?
    ensures r.Success? ==> r.value == body
    ensures r.Failure? ==> r.error == Plain(InvalidFormatMessage)
  {
    if !Truthy(body) || !Field(body, key).Arr? then Failure(Plain(InvalidFormatMessage)) else Success(body)
  }

  function RequireTrades(body: Json): Result<Json, Thrown> {
    RequireArrayField("trades", body)
  }

  function RequireWallets(body: Json): Result<Json, Thrown> {
    RequireArrayField("wallets", body)
  }

  /** None of the endpoints' shape checks raises an HTTP client error. */
  lemma ShapesAreLocal()
    ensures LocalOnly(Passthrough)
    ensures LocalOnly(RequireObject)
    ensures LocalOnly(RequireTrades)
    ensures LocalOnly(RequireWallets)
    ensures LocalOnly(ShapeTrending)
  {
  }

  /**
   * No status in 200..499 reaches `HandleApiError` as an HTTP error: the
   * status check hands such replies back as bodies, so an error the `catch`
   * sees either carries no response, or a status outside that range, or is
   * not an HTTP client error at all. The 401, 404, 429 and 400 branches of the
   * normaliser are therefore never taken by an endpoint.
   */
  lemma NoAcceptedStatusReachesHandler<T>(req: Request, net: Network, shape: Json -> Result<T, Thrown>)
    requires LocalOnly(shape)
    requires Attempted(req, net, shape).Failure?
    ensures var e := Attempted(req, net, shape).error;
      e.Axios? && e.error.response.Some? ==>
        var s := e.error.response.value.status;
        !ValidateStatus(s) && s !in {401, 404, 429, 400}
  {
  }

  /**
   * A failure on an accepted reply can only come from the shape check, such as
   * the endpoints' own "Invalid response format"; the normaliser re-classifies
   * it as a non-HTTP error, so the caller only sees the generic message.
   */
  lemma LocalFailureIsGeneric<T>(req: Request, net: Network, shape: Json -> Result<T, Thrown>)
    requires LocalOnly(shape)
    ensures Reply(req, net).Success? && Run(req, net, shape).Failure? ==>
      Run(req, net, shape).error == GenericMessage
  {
    if Reply(req, net).Success? && Run(req, net, shape).Failure? {
      assert !shape(Reply(req, net).value.data).error.Axios?;
    }
  }

  /**
   * The message an endpoint fails with, by how its request ended: timeout or
   * network error when there was no reply, the server-error text or the body's
   * message for a refused status, the generic message for an accepted one.
   */
  lemma RunFailureMessages<T>(req: Request, net: Network, shape: Json -> Result<T, Thrown>)
    requires LocalOnly(shape)
    requires Run(req, net, shape).Failure?
    ensures var a, m := FinalAttempt(req, net), Run(req, net, shape).error;
      && (a.NoReply? ==> (m == TimedOutMessage <==> a.code == Some(TimeoutCode)))
      && (a.NoReply? && a.code != Some(TimeoutCode) ==> m == NetworkMessage)
      && (a.Replied? && a.response.status == 500 ==> m == ServerErrorMessage)
      && (a.Replied? && !ValidateStatus(a.response.status) && a.response.status != 500 ==>
            m == BodyMessageOr(a.response.data, UnexpectedStatusMessage))
      && (a.Replied? && ValidateStatus(a.response.status) ==> m == GenericMessage)
  {
    var a := FinalAttempt(req, net);
    if a.Replied? && ValidateStatus(a.response.status) {
      LocalFailureIsGeneric(req, net, shape);
    } else if a.NoReply? {
      assert Run(req, net, shape).error == HandleApiError(Axios(AxiosError(a.code, None)));
    }
  }

  // ---- the endpoints ----

  function FetchTokenInfo(address: string, net: Network): (r: Result<Json, string>)
    ensures r.Success? <==> Reply(TokenInfoRequest(address), net).Success?
    ensures r.Success? ==> r.value == Reply(TokenInfoRequest(address), net).value.data
  {
    Run(TokenInfoRequest(address), net, Passthrough)
  }

  /**
   * Succeeds exactly when the final reply was accepted and its body is an
   * array every element of which shapes; the result lines up with that array.
   */
  function FetchTrendingTokens(timeframe: Option<string>, net: Network): (r: Result<seq<TokenView>, string>)
    ensures var rep := Reply(TrendingRequest(timeframe), net);
      && (r.Success? <==> rep.Success? && ShapeTrending(rep.value.data).Success?)
      && (r.Success? ==>
            && |r.value| == |rep.value.data.items|
            && forall i | 0 <= i < |r.value| :: ShapeToken(rep.value.data.items[i]) == Success(r.value[i]))
      && (rep.Success? && r.Failure? ==> r.error == GenericMessage)
  {
    ShapesAreLocal();
    LocalFailureIsGeneric(TrendingRequest(timeframe), net, ShapeTrending);
    Run(TrendingRequest(timeframe), net, ShapeTrending)
  }

  /**
   * A non-array trending body throws "Invalid response format" inside the
   * `try`, and the caller receives the generic message, not that text.
   */
  lemma NonArrayTrendingIsGeneric(timeframe: Option<string>, net: Network)
    requires Reply(TrendingRequest(timeframe), net).Success?
    requires !Reply(TrendingRequest(timeframe), net).value.data.Arr?
    ensures FetchTrendingTokens(timeframe, net) == Failure(GenericMessage)
    ensures FetchTrendingTokens(timeframe, net) != Failure(InvalidFormatMessage)
  {
  }

  function FetchTokenPrice(address: string, net: Network): (r: Result<Json, string>)
    ensures r.Success? <==> Reply(PriceRequest(address), net).Success?
    ensures r.Success? ==> r.value == Reply(PriceRequest(address), net).value.data
  {
    Run(PriceRequest(address), net, Passthrough)
  }

  /** Accepts an accepted reply whose body is an object or an array; the generic message otherwise. */
  function FetchWalletInfo(address: string, net: Network): (r: Result<Json, string>)
    ensures var rep := Reply(WalletInfoRequest(address), net);
      && (r.Success? <==> rep.Success? && (rep.value.data.Obj? || rep.value.data.Arr?))
      && (r.Success? ==> r.value == rep.value.data)
      && (rep.Success? && r.Failure? ==> r.error == GenericMessage)
  {
    ShapesAreLocal();
    LocalFailureIsGeneric(WalletInfoRequest(address), net, RequireObject);
    Run(WalletInfoRequest(address), net, RequireObject)
  }

  /** The basic variant checks only that the body is an object; its `tokens` are not checked. */
  function FetchBasicWalletInfo(address: string, net: Network): (r: Result<Json, string>)
    ensures var rep := Reply(BasicWalletRequest(address), net);
      && (r.Success? <==> rep.Success? && (rep.value.data.Obj? || rep.value.data.Arr?))
      && (r.Success? ==> r.value == rep.value.data)
      && (rep.Success? && r.Failure? ==> r.error == GenericMessage)
  {
    ShapesAreLocal();
    LocalFailureIsGeneric(BasicWalletRequest(address), net, RequireObject);
    Run(BasicWalletRequest(address), net, RequireObject)
  }

  function FetchWalletTrades(address: string, cursor: Option<int>, net: Network): (r: Result<Json, string>)
    ensures var rep := Reply(WalletTradesRequest(address, cursor), net);
      && (r.Success? <==> rep.Success? && Field(rep.value.data, "trades").Arr?)
      && (r.Success? ==> r.value == rep.value.data)
      && (rep.Success? && r.Failure? ==> r.error == GenericMessage)
  {
    ShapesAreLocal();
    LocalFailureIsGeneric(WalletTradesRequest(address, cursor), net, RequireTrades);
    Run(WalletTradesRequest(address, cursor), net, RequireTrades)
  }

  function FetchWalletPnL(address: string, options: Option<PnlOptions>, net: Network): (r: Result<Json, string>)
    ensures var rep := Reply(WalletPnlRequest(address, options), net);
      && (r.Success? <==> rep.Success? && (rep.value.data.Obj? || rep.value.data.Arr?))
      && (r.Success? ==> r.value == rep.value.data)
      && (rep.Success? && r.Failure? ==> r.error == GenericMessage)
  {
    ShapesAreLocal();
    LocalFailureIsGeneric(WalletPnlRequest(address, options), net, RequireObject);
    Run(WalletPnlRequest(address, options), net, RequireObject)
  }

  function FetchTokenPnL(wallet: string, token: string, net: Network): (r: Result<Json, string>)
    ensures var rep := Reply(TokenPnlRequest(wallet, token), net);
      && (r.Success? <==> rep.Success? && (rep.value.data.Obj? || rep.value.data.Arr?))
      && (r.Success? ==> r.value == rep.value.data)
      && (rep.Success? && r.Failure? ==> r.error == GenericMessage)
  {
    ShapesAreLocal();
    LocalFailureIsGeneric(TokenPnlRequest(wallet, token), net, RequireObject);
    Run(TokenPnlRequest(wallet, token), net, RequireObject)
  }

  function FetchTokenChart(address: string, interval: Option<string>, timeFrom: Option<int>, timeTo: Option<int>, net: Network): (r: Result<Json, string>)
    ensures var rep := Reply(ChartRequest(address, interval, timeFrom, timeTo), net);
      && (r.Success? <==> rep.Success?)
      && (r.Success? ==> r.value == rep.value.data)
  {
    Run(ChartRequest(address, interval, timeFrom, timeTo), net, Passthrough)
  }

  /** Where the top traders came from: the local development fixture, or upstream. */
  datatype TopTraders = Fixture | Live(body: Json)

  /**
   * With the development fixture enabled the fixture is returned and no
   * request is made; otherwise the body must carry a `wallets` array.
   */
  function FetchTopTraders(options: TopTradersOptions, mockEnabled: bool, net: Network): (r: Result<TopTraders, string>)
    ensures mockEnabled ==> r == Success(Fixture)
    ensures !mockEnabled ==>
      var rep := Reply(TopTradersRequest(options), net);
      && (r.Success? <==> rep.Success? && Field(rep.value.data, "wallets").Arr?)
      && (r.Success? ==> r.value == Live(rep.value.data))
      && (rep.Success? && r.Failure? ==> r.error == GenericMessage)
  {
    ShapesAreLocal();
    LocalFailureIsGeneric(TopTradersRequest(options), net, RequireWallets);
    if mockEnabled then Success(Fixture)
    else
      match Run(TopTradersRequest(options), net, RequireWallets)
      case Success(body) => Success(Live(body))
      case Failure(m) => Failure(m)
  }

  function FetchTokenTopTraders(address: string, net: Network): (r: Result<Json, string>)
    ensures r.Success? <==> Reply(HoldersRequest(address), net).Success?
    ensures r.Success? ==> r.value == Reply(HoldersRequest(address), net).value.data
  {
    Run(HoldersRequest(address), net, Passthrough)
  }

  function FetchTokenStats(address: string, net: Network): (r: Result<Json, string>)
    ensures r.Success? <==> Reply(StatsRequest(address), net).Success?
    ensures r.Success? ==> r.value == Reply(StatsRequest(address), net).value.data
  {
    Run(StatsRequest(address), net, Passthrough)
  }

  /**
   * A 400 reply is accepted by the status check, so the passthrough endpoints
   * return its body, `message` and all, as a successful result.
   */
  lemma BadRequestBodyIsReturned(address: string, body: Json, net: Network)
    ensures FinalAttempt(TokenInfoRequest(address), net) == Replied(Response(400, body)) ==>
      FetchTokenInfo(address, net) == Success(body)
    ensures FinalAttempt(PriceRequest(address), net) == Replied(Response(400, body)) ==>
      FetchTokenPrice(address, net) == Success(body)
    ensures FinalAttempt(HoldersRequest(address), net) == Replied(Response(400, body)) ==>
      FetchTokenTopTraders(address, net) == Success(body)
    ensures FinalAttempt(StatsRequest(address), net) == Replied(Response(400, body)) ==>
      FetchTokenStats(address, net) == Success(body)
    ensures forall interval, timeFrom, timeTo ::
      FinalAttempt(ChartRequest(address, interval, timeFrom, timeTo), net) == Replied(Response(400, body)) ==>
        FetchTokenChart(address, interval, timeFrom, timeTo, net) == Success(body)
  {
  }
}
