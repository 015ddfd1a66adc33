/** The route registry, its two alias forms, and the closed set of mutations. */
module Routes {

  const MARKET: seq<string> := [
    "/hq/BasicQot", "/hq/OrderBook",
    "/hq/KL", "/hq/TimeShare",
    "/hq/Ticker", "/hq/Broker",
    "/hq/UsOptionChainCode", "/hq/UsOptionChainExpireDate",
    "/hq/UsOverNightTradeCodes", "/hq/Subscribe",
    "/hq/Unsubscribe"
  ]

  const SESSION_AND_ASSETS: seq<string> := [
    "/trade/TradeLogin", "/trade/TradeLogout",
    "/trade/TradeQueryMarginFundInfo", "/trade/TradeQueryHoldsList",
    "/trade/TradeQueryRealFundJourList", "/trade/TradeQueryHistoryFundJourList",
    "/hs/rate/queryList"
  ]

  const ORDERS: seq<string> := [
    "/trade/TradeEntrust", "/trade/TradeCancelEntrust",
    "/trade/TradeBatchCancelEntrust", "/trade/TradeChangeEntrust",
    "/trade/TradeQueryMaxAvailableAsset", "/trade/TradeQueryRealEntrustList",
    "/trade/TradeQueryRealDeliverList", "/trade/TradeQueryRealCondOrderList",
    "/trade/TradeQueryHistoryEntrustList", "/trade/TradeQueryHistoryDeliverList",
    "/trade/TradeQueryHistoryCondOrderList", "/trade/TradeQueryMarginFullInfo",
    "/trade/TradeQueryBeforeAndAfterSupport"
  ]

  const PUSH_AND_ALGO: seq<string> := [
    "/trade/TradeSubscribe", "/trade/TradeUnsubscribe",
    "/trade/AlgoAddOrder", "/trade/AlgoCancelOrder",
    "/trade/AlgoCancelEntrust", "/trade/AlgoChangeOrder",
    "/trade/AlgoActionOrder", "/trade/AlgoQueryOrderList",
    "/trade/AlgoQueryEntrustIdList"
  ]

  const FUTURES: seq<string> := [
    "/trade/FuturesQueryProductInfo", "/trade/FuturesQueryMaxBuySellAmount",
    "/trade/FuturesQueryFundInfo", "/trade/FuturesQueryHoldsList",
    "/trade/FuturesEntrust", "/trade/FuturesCancelEntrust",
    "/trade/FuturesModifyEntrust", "/trade/FuturesQueryRealEntrustList",
    "/trade/FuturesQueryHistoryEntrustList", "/trade/FuturesQueryRealDeliverList",
    "/trade/FuturesQueryHistoryDeliverList"
  ]

  const MUTATIONS: seq<string> := [
    "/trade/TradeEntrust", "/trade/TradeCancelEntrust",
    "/trade/TradeBatchCancelEntrust", "/trade/TradeChangeEntrust",
    "/trade/FuturesEntrust", "/trade/FuturesCancelEntrust",
    "/trade/FuturesModifyEntrust", "/trade/AlgoAddOrder",
    "/trade/AlgoCancelOrder", "/trade/AlgoCancelEntrust",
    "/trade/AlgoChangeOrder", "/trade/AlgoActionOrder"
  ]

  const MSG_TYPE := "RequestMsgType"
  const REQUEST := "Request"

  predicate Canonical(p: string) {
    p in MARKET || p in SESSION_AND_ASSETS || p in ORDERS || p in PUSH_AND_ALGO || p in FUTURES
  }

  predicate EndsWith(p: string, suffix: string) {
    |p| >= |suffix| && p[|p| - |suffix|..] == suffix
  }

  function Trimmed(p: string, suffix: string): string {
    if EndsWith(p, suffix) then p[..|p| - |suffix|] else p
  }

  /** The copy of alias stripping that the retry policy uses. */
  function StripAlias(p: string): string {
    if EndsWith(p, MSG_TYPE) then Trimmed(p, MSG_TYPE) else Trimmed(p, REQUEST)
  }

  predicate IsMutation(p: string) {
    StripAlias(p) in MUTATIONS
  }

  /** The client's normalization, which consults the registry. */
  function NormalizePath(p: string): string {
    if Canonical(p) then p
    else if EndsWith(p, MSG_TYPE) && Canonical(Trimmed(p, MSG_TYPE)) then Trimmed(p, MSG_TYPE)
    else if EndsWith(p, REQUEST) && Canonical(Trimmed(p, REQUEST)) then Trimmed(p, REQUEST)
    else p
  }

  // ---- no registered route looks like an alias ----

  /** Told by its last characters: one suffix ends in e?t, the other in pe. */
  predicate Plain(p: string) {
    |p| >= 3 && !(p[|p| - 3] == 'e' && p[|p| - 1] == 't') && !(p[|p| - 2] == 'p' && p[|p| - 1] == 'e')
  }

  lemma MarketArePlain(p: string)
    requires p in MARKET
    ensures Plain(p)
  {
  }

  lemma SessionAndAssetsArePlain(p: string)
    requires p in SESSION_AND_ASSETS
    ensures Plain(p)
  {
  }

  lemma OrdersArePlain(p: string)
    requires p in ORDERS
    ensures Plain(p)
  {
  }

  lemma PushAndAlgoArePlain(p: string)
    requires p in PUSH_AND_ALGO
    ensures Plain(p)
  {
  }

  lemma FuturesArePlain(p: string)
    requires p in FUTURES
    ensures Plain(p)
  {
  }

  lemma SuffixesShow(p: string)
    ensures EndsWith(p, MSG_TYPE) ==> |p| >= 14 && p[|p| - 2] == 'p' && p[|p| - 1] == 'e'
    ensures EndsWith(p, REQUEST) ==> |p| >= 7 && p[|p| - 3] == 'e' && p[|p| - 1] == 't'
  {
    var n := |p|;
    assert EndsWith(p, MSG_TYPE) ==> p[n - 14..][12] == p[n - 2] && p[n - 14..][13] == p[n - 1];
    assert EndsWith(p, REQUEST) ==> p[n - 7..][4] == p[n - 3] && p[n - 7..][6] == p[n - 1];
  }

  lemma RoutesAreNotAliases(p: string)
    requires Canonical(p)
    ensures !EndsWith(p, MSG_TYPE) && !EndsWith(p, REQUEST)
  {
    if
    case p in MARKET => MarketArePlain(p);
    case p in SESSION_AND_ASSETS => SessionAndAssetsArePlain(p);
    case p in ORDERS => OrdersArePlain(p);
    case p in PUSH_AND_ALGO => PushAndAlgoArePlain(p);
    case p in FUTURES => FuturesArePlain(p);
    SuffixesShow(p);
  }

  lemma MutationsAreRoutes(p: string)
    requires p in MUTATIONS
    ensures Canonical(p)
  {
  }

  // ---- the classification cannot be dodged ----

  /** For every string: it is classified as a mutation exactly when its normal form is one, so the
      two copies of alias stripping agree. */
  lemma MutationIffNormalFormIs(p: string)
    ensures IsMutation(p) <==> NormalizePath(p) in MUTATIONS
  {
    hide Canonical, EndsWith;
    SuffixesShow(p);
    if Canonical(p) {
      RoutesAreNotAliases(p);
    }
    if StripAlias(p) in MUTATIONS {
      MutationsAreRoutes(StripAlias(p));
    }
    if NormalizePath(p) in MUTATIONS {
      MutationsAreRoutes(NormalizePath(p));
    }
  }

  /** A string normalizes to route `r` exactly when it is `r` or one of its two aliases; anything
      else is left alone. */
  lemma NormalFormIs(p: string, r: string)
    requires Canonical(r)
    ensures NormalizePath(p) == r <==> p == r || p == r + MSG_TYPE || p == r + REQUEST
    ensures Canonical(NormalizePath(p)) || NormalizePath(p) == p
  {
    RoutesAreNotAliases(r);
    if Canonical(p) {
      RoutesAreNotAliases(p);
    }
    SuffixesShow(p);
    AliasOf(p, r, MSG_TYPE);
    AliasOf(p, r, REQUEST);
    hide Canonical, EndsWith;
  }

  lemma AliasOf(p: string, r: string, suffix: string)
    requires |suffix| > 0
    ensures EndsWith(p, suffix) && Trimmed(p, suffix) == r <==> p == r + suffix
  {
    if EndsWith(p, suffix) {
      assert p == p[..|p| - |suffix|] + p[|p| - |suffix|..];
    }
    if p == r + suffix {
      assert p[|r|..] == suffix && p[..|r|] == r;
    }
  }

  lemma NormalizeIsIdempotent(p: string)
    ensures NormalizePath(NormalizePath(p)) == NormalizePath(p)
  {
    hide Canonical, EndsWith;
  }
}
