/**
 * The trending-tokens transform: the upstream array is checked, then every
 * element is rebuilt field by field, each missing or falsy field replaced by
 * a default, so callers never see an absent token, pool list, event map or
 * risk score.
 */
module Trending {
  import opened Wrappers
  import opened JsValue
  import opened ApiErrors

  datatype PoolView = PoolView(priceUsd: Json, marketCapUsd: Json, liquidityUsd: Option<Json>, tokenSupply: Json)

  datatype TokenInfoView = TokenInfoView(name: Json, symbol: Json, mint: Json, decimals: Json, image: Json)

  /** Price-change entries per window; `Undefined` marks a window with no data. */
  datatype EventsView = EventsView(day: Json, week: Json, month: Json)

  datatype TokenView = TokenView(token: TokenInfoView, pools: seq<PoolView>, events: EventsView, riskScore: Json)

  const UnknownName: Json := Str("Unknown")
  const NoSymbol: Json := Str("N/A")
  const NoMint: Json := Str("")
  const NoDecimals: Json := Num(0)
  const NoScore: Json := Num(0)
  const NoPrice: Json := Num(0)

  /** `out` is `raw` when that is truthy, and `fallback` otherwise: the rule `raw || fallback`. */
  predicate DefaultedFrom(raw: Json, fallback: Json, out: Json) {
    (Truthy(raw) ==> out == raw) && (!Truthy(raw) ==> out == fallback)
  }

  /**
   * `xs.map(f)` where `f` may throw: all results in order, or the first
   * element's error.
   */
  function MapOrThrow<A, B>(f: A -> Result<B, Thrown>, xs: seq<A>): (r: Result<seq<B>, Thrown>)
    ensures r.Success? <==> forall i | 0 <= i < |xs| :: f(xs[i]).Success?
    ensures r.Success? ==> |r.value| == |xs| && forall i | 0 <= i < |xs| :: f(xs[i]) == Success(r.value[i])
    ensures r.Failure? ==>
      exists i | 0 <= i < |xs| :: f(xs[i]) == Failure(r.error) && forall j | 0 <= j < i :: f(xs[j]).Success?
    decreases |xs|
  {
    if xs == [] then Success([])
    else
      match f(xs[0])
      case Failure(e) => Failure(e)
      case Success(y) =>
        match MapOrThrow(f, xs[1..])
        case Failure(e) =>
          ghost var i :| 0 <= i < |xs[1..]| && f(xs[1..][i]) == Failure(e) && forall j | 0 <= j < i :: f(xs[1..][j]).Success?;
          assert f(xs[i + 1]) == Failure(e);
          assert forall j | 0 <= j < i + 1 :: f(xs[j]).Success? by {
            forall j | 0 <= j < i + 1 ensures f(xs[j]).Success? {
              if j > 0 { assert xs[j] == xs[1..][j - 1]; }
            }
          }
          Failure(e)
        case Success(ys) =>
          assert forall i | 1 <= i < |xs| :: xs[i] == xs[1..][i - 1];
          Success([y] + ys)
  }

  /** One pool of a token: a nullish pool throws on `pool.price`; otherwise every field is defaulted. */
  function ShapePool(pool: Json): (r: Result<PoolView, Thrown>)
    ensures r.Failure? <==> Nullish(pool)
    ensures r.Failure? ==> r.error == TypeError
    ensures r.Success? ==>
      var v := r.value;
      && DefaultedFrom(Field(Field(pool, "price"), "usd"), NoPrice, v.priceUsd)
      && DefaultedFrom(Field(Field(pool, "marketCap"), "usd"), NoPrice, v.marketCapUsd)
      && (v.liquidityUsd.Some? <==> Truthy(Field(pool, "liquidity")))
      && (v.liquidityUsd.Some? ==> v.liquidityUsd.value == Field(Field(pool, "liquidity"), "usd"))
      && v.tokenSupply == Field(pool, "tokenSupply")
  {
    if Nullish(pool) then Failure(TypeError)
    else
      var liquidity := Field(pool, "liquidity");
      Success(PoolView(
        Or(Field(Field(pool, "price"), "usd"), Num(0)),
        Or(Field(Field(pool, "marketCap"), "usd"), Num(0)),
        if Truthy(liquidity) then Some(Field(liquidity, "usd")) else None,
        Field(pool, "tokenSupply")))
  }

  /** `token.pools || []`: an absent or falsy pool list reads as the empty list. */
  function PoolsOf(t: Json): Json {
    Or(Field(t, "pools"), Arr([]))
  }

  /**
   * One element of the trending array. It throws a TypeError when the element
   * is nullish, when its truthy `pools` is not an array (it has no `map`), or
   * when one of its pools is nullish.
   */
  function ShapeToken(t: Json): (r: Result<TokenView, Thrown>)
    ensures r.Failure? <==>
      (Nullish(t) || !PoolsOf(t).Arr? || exists i | 0 <= i < |PoolsOf(t).items| :: Nullish(PoolsOf(t).items[i]))
    ensures r.Failure? ==> r.error == TypeError
    ensures r.Success? ==>
      var v, info := r.value, Field(t, "token");
      && DefaultedFrom(Field(info, "name"), UnknownName, v.token.name)
      && DefaultedFrom(Field(info, "symbol"), NoSymbol, v.token.symbol)
      && DefaultedFrom(Field(info, "mint"), NoMint, v.token.mint)
      && DefaultedFrom(Field(info, "decimals"), NoDecimals, v.token.decimals)
      && DefaultedFrom(Field(info, "image"), Undefined, v.token.image)
      && |v.pools| == |PoolsOf(t).items|
      && (forall i | 0 <= i < |v.pools| :: ShapePool(PoolsOf(t).items[i]) == Success(v.pools[i]))
      && DefaultedFrom(Field(Field(t, "events"), "24h"), Undefined, v.events.day)
      && DefaultedFrom(Field(Field(t, "events"), "7d"), Undefined, v.events.week)
      && DefaultedFrom(Field(Field(t, "events"), "30d"), Undefined, v.events.month)
      && DefaultedFrom(Field(Field(t, "risk"), "score"), NoScore, v.riskScore)
  {
    if Nullish(t) then Failure(TypeError)
    else
      var info := Field(t, "token");
      var events := Field(t, "events");
      var pools := PoolsOf(t);
      if !pools.Arr? then Failure(TypeError)
      else
        match MapOrThrow(ShapePool, pools.items)
        case Failure(e) => Failure(e)
        case Success(views) =>
          Success(TokenView(
            TokenInfoView(
              Or(Field(info, "name"), Str("Unknown")),
              Or(Field(info, "symbol"), Str("N/A")),
              Or(Field(info, "mint"), Str("")),
              Or(Field(info, "decimals"), Num(0)),
              Or(Field(info, "image"), Undefined)),
            views,
            EventsView(
              Or(Field(events, "24h"), Undefined),
              Or(Field(events, "7d"), Undefined),
              Or(Field(events, "30d"), Undefined)),
            Or(Field(Field(t, "risk"), "score"), Num(0))))
  }

  /**
   * The body check and transform of the trending endpoint: a falsy or
   * non-array body throws "Invalid response format"; otherwise each element
   * is shaped in order.
   */
  function ShapeTrending(body: Json): (r: Result<seq<TokenView>, Thrown>)
    ensures !body.Arr? ==> r == Failure(Plain(InvalidFormatMessage))
    ensures r.Failure? ==> !r.error.Axios?
    ensures r.Success? ==>
      && body.Arr?
      && |r.value| == |body.items|
      && forall i | 0 <= i < |body.items| :: ShapeToken(body.items[i]) == Success(r.value[i])
    ensures body.Arr? ==> (r.Success? <==> forall i | 0 <= i < |body.items| :: ShapeToken(body.items[i]).Success?)
  {
    if !Truthy(body) || !body.Arr? then Failure(Plain(InvalidFormatMessage))
    else MapOrThrow(ShapeToken, body.items)
  }

  /**
   * Whatever upstream omits, every token the transform returns has a truthy
   * name and symbol, and each pool a price and market cap in place of a
   * missing one.
   */
  lemma {:induction false} TrendingNeverMissing(body: Json)
    requires ShapeTrending(body).Success?
    ensures forall v | v in ShapeTrending(body).value ::
      && Truthy(v.token.name) && Truthy(v.token.symbol)
      && (forall p | p in v.pools :: !p.priceUsd.Undefined? && !p.marketCapUsd.Undefined?)
  {
    var vs := ShapeTrending(body).value;
    forall v | v in vs
      ensures Truthy(v.token.name) && Truthy(v.token.symbol)
      ensures forall p | p in v.pools :: !p.priceUsd.Undefined? && !p.marketCapUsd.Undefined?
    {
      var i :| 0 <= i < |vs| && vs[i] == v;
      var t := body.items[i];
      assert ShapeToken(t) == Success(v);
      forall p | p in v.pools
        ensures !p.priceUsd.Undefined? && !p.marketCapUsd.Undefined?
      {
        var k :| 0 <= k < |v.pools| && v.pools[k] == p;
        assert ShapePool(PoolsOf(t).items[k]) == Success(p);
      }
    }
  }
}
