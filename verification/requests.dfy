/**
 * The requests the API client's endpoints issue: the path, and the query
 * parameters in the order the code appends them. Percent-encoding of the
 * query is left to the serialisation, which is not modelled.
 */
module Requests {
  import opened Wrappers
  import opened JsValue

  datatype Param = Param(key: string, value: string)

  /**
   * A GET request. `query` is `None` when the URL carries no `?${params}` part
   * and `Some(ps)` when it does, `ps` possibly empty (the URL then ends in `?`).
   */
  datatype Request = Request(path: string, query: Option<seq<Param>>)

  predicate HasKey(ps: seq<Param>, key: string) {
    exists i | 0 <= i < |ps| :: ps[i].key == key
  }

  /** `value` when given, `fallback` when the argument was left out. */
  function OrDefault<T>(value: Option<T>, fallback: T): T {
    match value
    case Some(v) => v
    case None => fallback
  }

  /** A number argument that is truthy: given and not 0. */
  predicate GivenNonZero(n: Option<int>) {
    n.Some? && n.value != 0
  }

  function TokenInfoRequest(address: string): Request {
    Request("/tokens/" + address, None)
  }

  const DefaultTrendingTimeframe: string := "24h"

  function TrendingRequest(timeframe: Option<string>): Request {
    Request("/tokens/trending/" + OrDefault(timeframe, DefaultTrendingTimeframe), None)
  }

  /** The token address is spliced into the path's own query string, unencoded. */
  function PriceRequest(address: string): Request {
    Request("/price?token=" + address, None)
  }

  function WalletInfoRequest(address: string): Request {
    Request("/wallet/" + address, None)
  }

  function BasicWalletRequest(address: string): Request {
    Request("/wallet/" + address + "/basic", None)
  }

  /** A numeric parameter appended only when its value is truthy: given and not 0. */
  function OptionalNumberParam(key: string, n: Option<int>): (ps: seq<Param>)
    ensures |ps| == (if GivenNonZero(n) then 1 else 0)
    ensures ps != [] ==> ps[0].key == key && ParseInt(ps[0].value) == n.value
  {
    if GivenNonZero(n) then
      IntToStringRoundTrip(n.value);
      [Param(key, IntToString(n.value))]
    else []
  }

  /** The trades query: a `cursor` only when the cursor is truthy, so a cursor of 0 is dropped. */
  function TradesQuery(cursor: Option<int>): (ps: seq<Param>)
    ensures |ps| <= 1
    ensures HasKey(ps, "cursor") <==> GivenNonZero(cursor)
    ensures forall i | 0 <= i < |ps| :: ps[i].key == "cursor" && ParseInt(ps[i].value) == cursor.value
  {
    OptionalNumberParam("cursor", cursor)
  }

  function WalletTradesRequest(address: string, cursor: Option<int>): Request {
    Request("/wallet/" + address + "/trades", Some(TradesQuery(cursor)))
  }

  datatype PnlOptions = PnlOptions(showHistoricPnL: Option<bool>, holdingCheck: Option<bool>, hideDetails: Option<bool>)

  /** `options?.<flag>` is truthy */
  predicate FlagOn(options: Option<PnlOptions>, flag: Option<bool>) {
    options.Some? && flag == Some(true)
  }

  predicate HistoricOn(options: Option<PnlOptions>) {
    options.Some? && FlagOn(options, options.value.showHistoricPnL)
  }

  predicate HoldingOn(options: Option<PnlOptions>) {
    options.Some? && FlagOn(options, options.value.holdingCheck)
  }

  predicate HideOn(options: Option<PnlOptions>) {
    options.Some? && FlagOn(options, options.value.hideDetails)
  }

  /** The position of each PnL flag in the order the code appends them. */
  function FlagRank(key: string): int {
    if key == "showHistoricPnL" then 0
    else if key == "holdingCheck" then 1
    else if key == "hideDetails" then 2
    else 3
  }

  function FlagParam(on: bool, key: string): seq<Param> {
    if on then [Param(key, "true")] else []
  }

  function PnlQuery(options: Option<PnlOptions>): seq<Param> {
    FlagParam(HistoricOn(options), "showHistoricPnL")
    + FlagParam(HoldingOn(options), "holdingCheck")
    + FlagParam(HideOn(options), "hideDetails")
  }

  /**
   * Each PnL flag is sent, with value "true", exactly when its option is true;
   * the flags that are sent follow the order showHistoricPnL, holdingCheck,
   * hideDetails, so none is sent twice.
   */
  lemma PnlQueryFlags(options: Option<PnlOptions>)
    ensures var ps := PnlQuery(options);
      && (forall i | 0 <= i < |ps| :: ps[i].value == "true" && FlagRank(ps[i].key) < 3)
      && (HasKey(ps, "showHistoricPnL") <==> HistoricOn(options))
      && (HasKey(ps, "holdingCheck") <==> HoldingOn(options))
      && (HasKey(ps, "hideDetails") <==> HideOn(options))
      && (forall i, j | 0 <= i < j < |ps| :: FlagRank(ps[i].key) < FlagRank(ps[j].key))
  {
    var ps := PnlQuery(options);
    var a, b, c := FlagParam(HistoricOn(options), "showHistoricPnL"),
                   FlagParam(HoldingOn(options), "holdingCheck"),
                   FlagParam(HideOn(options), "hideDetails");
    assert ps == a + b + c;
    forall i | 0 <= i < |ps|
      ensures FlagRank(ps[i].key) == (if i < |a| then 0 else if i < |a| + |b| then 1 else 2)
    {
      if i < |a| { assert ps[i] == a[i]; }
      else if i < |a| + |b| { assert ps[i] == b[i - |a|]; }
      else { assert ps[i] == c[i - |a| - |b|]; }
    }
    if HistoricOn(options) { assert ps[0].key == "showHistoricPnL"; }
    if HoldingOn(options) { assert ps[|a|].key == "holdingCheck"; }
    if HideOn(options) { assert ps[|a| + |b|].key == "hideDetails"; }
  }

  function WalletPnlRequest(address: string, options: Option<PnlOptions>): Request {
    Request("/pnl/" + address, Some(PnlQuery(options)))
  }

  function TokenPnlRequest(wallet: string, token: string): Request {
    Request("/pnl/" + wallet + "/" + token, None)
  }

  const DefaultChartInterval: string := "1h"

  /** `type` always first; `time_from` and `time_to` only when truthy, in that order. */
  function ChartQuery(interval: Option<string>, timeFrom: Option<int>, timeTo: Option<int>): (ps: seq<Param>)
    ensures |ps| >= 1 && ps[0] == Param("type", OrDefault(interval, DefaultChartInterval))
    ensures |ps| == 1 + (if GivenNonZero(timeFrom) then 1 else 0) + (if GivenNonZero(timeTo) then 1 else 0)
    ensures forall i | 1 <= i < |ps| :: ps[i].key in {"time_from", "time_to"}
    ensures HasKey(ps, "time_from") <==> GivenNonZero(timeFrom)
    ensures HasKey(ps, "time_to") <==> GivenNonZero(timeTo)
    ensures forall i | 0 <= i < |ps| && ps[i].key == "time_from" :: i == 1 && ParseInt(ps[i].value) == timeFrom.value
    ensures forall i | 0 <= i < |ps| && ps[i].key == "time_to" :: i == |ps| - 1 && ParseInt(ps[i].value) == timeTo.value
  {
    var from := OptionalNumberParam("time_from", timeFrom);
    var to := OptionalNumberParam("time_to", timeTo);
    var ps := [Param("type", OrDefault(interval, DefaultChartInterval))] + from + to;
    assert GivenNonZero(timeFrom) ==> ps[1] == from[0];
    assert GivenNonZero(timeTo) ==> ps[|ps| - 1] == to[0];
    ps
  }

  function ChartRequest(address: string, interval: Option<string>, timeFrom: Option<int>, timeTo: Option<int>): Request {
    Request("/chart/" + address, Some(ChartQuery(interval, timeFrom, timeTo)))
  }

  datatype SortBy = Total | WinPercentage {
    function Name(): string {
      match this
      case Total => "total"
      case WinPercentage => "winPercentage"
    }
  }

  datatype Timeframe = Day | Week | Month {
    function Name(): string {
      match this
      case Day => "24h"
      case Week => "7d"
      case Month => "30d"
    }
  }

  datatype TopTradersOptions = TopTradersOptions(
    expandPnl: Option<bool>, sortBy: Option<SortBy>, page: Option<int>, timeframe: Option<Timeframe>)

  /** The top traders request after the defaults expandPnl = false, sortBy = total, page = 1, timeframe = 24h. */
  function TopTradersRequest(options: TopTradersOptions): (req: Request)
    ensures var page := OrDefault(options.page, 1);
      && req.query.Some?
      && |req.query.value| == 4
      && req.query.value[0] == Param("expandPnl", if options.expandPnl == Some(true) then "true" else "false")
      && req.query.value[1] == Param("sortBy", if options.sortBy == Some(WinPercentage) then "winPercentage" else "total")
      && req.query.value[2].key == "page" && ParseInt(req.query.value[2].value) == page
      && req.query.value[3] == Param("timeframe", OrDefault(options.timeframe, Day).Name())
      && req.path == "/top-traders/all/" + req.query.value[2].value
  {
    var page := OrDefault(options.page, 1);
    IntToStringRoundTrip(page);
    Request("/top-traders/all/" + IntToString(page),
      Some([Param("expandPnl", if OrDefault(options.expandPnl, false) then "true" else "false"),
            Param("sortBy", OrDefault(options.sortBy, Total).Name()),
            Param("page", IntToString(page)),
            Param("timeframe", OrDefault(options.timeframe, Day).Name())]))
  }

  function HoldersRequest(address: string): Request {
    Request("/tokens/" + address + "/holders", None)
  }

  function StatsRequest(address: string): Request {
    Request("/tokens/" + address + "/stats", None)
  }
}
