/**
 * The three endpoints with logic (server.py lines 70 to 114), each run
 * against a transport given as a function from the request to what came
 * back, so that the requests an endpoint sends can be stated (`sent`).
 */
module Api {
  import opened Wrappers
  import opened Text
  import opened OrderedDict
  import opened Externals
  import opened Signing
  import opened Settings
  import opened Exchange
  import opened Orders

  const OrderPath := "/api/v3/order"
  const AccountPath := "/api/v3/account"
  const PricePath := "/api/v3/ticker/price"

  /** What the caller of an endpoint sees. */
  datatype Outcome =
    | Served(body: Json)
    /** HTTPException(400, reason) raised by the order gate */
    | Refused(reason: Rejection)
    /** HTTPException(status, text) raised on an upstream status of 400 or more */
    | UpstreamError(status: int, detail: string)
    /** an httpx exception, which FastAPI answers with 500 */
    | UpstreamUnreachable
    /** an undecodable or malformed payload, which FastAPI answers with 500 */
    | InternalError

  function StatusCode(out: Outcome): int
  {
    match out
    case Served(_) => 200
    case Refused(_) => 400
    case UpstreamError(status, _) => status
    case UpstreamUnreachable => 500
    case InternalError => 500
  }

  /** The outcome of a reply that carries no data. */
  function Failed(reply: Reply): (out: Outcome)
    requires !reply.Parsed?
    ensures reply.Rejected? ==> out == UpstreamError(reply.status, reply.body) && StatusCode(out) == reply.status
    ensures !reply.Rejected? ==> StatusCode(out) == 500
  {
    match reply
    case Rejected(status, body) => UpstreamError(status, body)
    case Unreachable => UpstreamUnreachable
    case Undecodable(_) => InternalError
  }

  /**
   * `POST /order`: the gate first; a refused order makes no request at all,
   * an accepted one is posted once, signed, and the exchange's answer is
   * wrapped as `exchange_response` or passed on as an error.
   */
  method PlaceOrder(cfg: Config, lib: Library, o: OrderIn, now: nat, exchange: Request -> Transport)
    returns (out: Outcome, sent: seq<Request>)
    ensures !Admissible(o, cfg) ==>
              sent == [] && out == Refused(FirstFailure(Checks(o, cfg)).value) && StatusCode(out) == 400
    ensures Admissible(o, cfg) ==>
              FieldsPresent(o) && sent == [PostRequest(cfg, lib, OrderPath, OrderParams(o, lib), true, now)]
    ensures Admissible(o, cfg) ==>
              var reply := ClassifyPost(exchange(sent[0]), lib.parseJson);
              out == if reply.Parsed? then Served(JObj([("exchange_response", reply.json)])) else Failed(reply)
  {
    var checked := CreateOrder(o, cfg, lib);
    if checked.Failure? {
      return Refused(checked.error), [];
    }
    AcceptedOrderParams(o, cfg, lib);
    var params := new ParamDict(checked.value);
    var req := Post(cfg, lib, OrderPath, params, true, now);
    var reply := ClassifyPost(exchange(req), lib.parseJson);
    if reply.Parsed? {
      out := Served(JObj([("exchange_response", reply.json)]));
    } else {
      out := Failed(reply);
    }
    sent := [req];
  }

  /**
   * What an accepted order transmits: the body is the canonical string of
   * the validated parameters followed by the timestamp, then its signature;
   * a receiver recovers exactly that string as the signed payload.
   */
  lemma SignedOrderBody(cfg: Config, lib: Library, o: OrderIn, now: nat)
    requires Admissible(o, cfg)
    ensures FieldsPresent(o)
    ensures var body := PostRequest(cfg, lib, OrderPath, OrderParams(o, lib), true, now).body;
      && SignedPayload(body) == UrlEncode(lib, OrderParams(o, lib) + [(TimestampKey, Decimal(now))])
      && Authentic(lib, cfg.apiSecret, body)
  {
    AcceptedOrderParams(o, cfg, lib);
    var params := OrderParams(o, lib);
    KeysAt(params);
    assert TimestampKey !in Keys(params);
    SignedQueryCoversTimestamp(lib, cfg.apiSecret, params, now);
  }

  /**
   * The balance filter `{b["asset"]: free for b in balances if free > 0}`:
   * a dict comprehension, so entries are inserted in order and a later entry
   * for the same asset overwrites the value in place.
   */
  function FreeBalances(hs: seq<Holding>): (d: seq<(string, real)>)
    ensures DistinctKeys(d)
    ensures forall a :: a in Keys(d) <==> exists i :: 0 <= i < |hs| && hs[i].asset == a && hs[i].free > 0.0
    ensures forall a :: Lookup(d, a).Some? ==> Lookup(d, a).value > 0.0
  {
    if hs == [] then []
    else
      var init, h := hs[..|hs| - 1], hs[|hs| - 1];
      var d := FreeBalances(init);
      assert forall i :: 0 <= i < |init| ==> init[i] == hs[i];
      if h.free > 0.0 then Put(d, h.asset, h.free) else d
  }

  /** The value kept for an asset is the free amount of its last entry with a positive amount. */
  lemma {:induction false} LastPositiveWins(hs: seq<Holding>, i: nat)
    requires i < |hs| && hs[i].free > 0.0
    requires forall j :: i < j < |hs| && hs[j].asset == hs[i].asset ==> hs[j].free <= 0.0
    ensures Lookup(FreeBalances(hs), hs[i].asset) == Some(hs[i].free)
  {
    var init := hs[..|hs| - 1];
    if i < |hs| - 1 {
      assert init[i] == hs[i];
      forall j | i < j < |init| && init[j].asset == init[i].asset ensures init[j].free <= 0.0 {
        assert init[j] == hs[j];
      }
      LastPositiveWins(init, i);
    }
  }

  /** The served balances: each asset once, with its free amount as a number. */
  function BalancesBody(d: seq<(string, real)>): Json
  {
    JObj([("balances", JObj(seq(|d|, i requires 0 <= i < |d| => (d[i].0, JNum(d[i].1)))))])
  }

  /** `GET /balance`: one signed account query with no parameters but the timestamp. */
  method GetBalance(cfg: Config, lib: Library, now: nat, exchange: Request -> Transport)
    returns (out: Outcome, sent: seq<Request>)
    ensures sent == [GetRequest(cfg, lib, AccountPath, [], true, now)]
    ensures var reply := ClassifyGet(exchange(sent[0]), lib.parseJson);
      out == if !reply.Parsed? then Failed(reply)
             else match lib.holdings(reply.json)
               case Some(hs) => Served(BalancesBody(FreeBalances(hs)))
               case None => InternalError
  {
    var req := Get(cfg, lib, AccountPath, null, true, now);
    var reply := ClassifyGet(exchange(req), lib.parseJson);
    if !reply.Parsed? {
      out := Failed(reply);
    } else {
      match lib.holdings(reply.json) {
        case Some(hs) => out := Served(BalancesBody(FreeBalances(hs)));
        case None => out := InternalError;
      }
    }
    sent := [req];
  }

  /** The account query carries exactly the timestamp, signed. */
  lemma BalanceQuery(cfg: Config, lib: Library, now: nat)
    ensures var qs := Sign(lib, cfg.apiSecret, [(TimestampKey, Decimal(now))]);
      && GetRequest(cfg, lib, AccountPath, [], true, now).url == cfg.baseUrl + AccountPath + "?" + qs
      && SignedPayload(qs) == UrlEncode(lib, [(TimestampKey, Decimal(now))])
      && Authentic(lib, cfg.apiSecret, qs)
  {
    GetUrlShape(cfg, lib, AccountPath, [], true, now);
    SignedQueryCoversTimestamp(lib, cfg.apiSecret, [], now);
  }

  /**
   * `GET /price/{symbol}`: one unsigned ticker query for the upper-cased
   * symbol; the answer is served with that symbol and the parsed price.
   */
  method GetPrice(cfg: Config, lib: Library, symbol: string, exchange: Request -> Transport)
    returns (out: Outcome, sent: seq<Request>)
    ensures |sent| == 1 && sent[0].verb == GET && sent[0].headers == [(ApiKeyHeader, cfg.apiKey)]
    ensures sent[0].url == cfg.baseUrl + PricePath + "?" + lib.quotePlus("symbol") + "=" + lib.quotePlus(Upper(symbol))
    ensures var reply := ClassifyGet(exchange(sent[0]), lib.parseJson);
      out == if !reply.Parsed? then Failed(reply)
             else match lib.priceField(reply.json)
               case Some(p) => Served(JObj([("symbol", JStr(Upper(symbol))), ("price", JNum(p))]))
               case None => InternalError
  {
    var sym := Upper(symbol);
    var params := new ParamDict([("symbol", sym)]);
    var req := Get(cfg, lib, PricePath, params, false, 0);
    assert EncodePairs(lib, [("symbol", sym)]) == [lib.quotePlus("symbol") + "=" + lib.quotePlus(sym)];
    UrlEncodeEmpty(lib, [("symbol", sym)]);
    var reply := ClassifyGet(exchange(req), lib.parseJson);
    if !reply.Parsed? {
      out := Failed(reply);
    } else {
      match lib.priceField(reply.json) {
        case Some(p) => out := Served(JObj([("symbol", JStr(sym)), ("price", JNum(p))]));
        case None => out := InternalError;
      }
    }
    sent := [req];
  }

  /**
   * Two quote-cap examples, as a client of the contracts
   * above: with a maximum of 100 and BTCUSDT allowed, a MARKET BUY of 50 is
   * posted with `quoteOrderQty` formatted from 50, and one of 150 is refused
   * with the limit and sends nothing.
   */
  method QuoteCapScenarios(lib: Library, now: nat, exchange: Request -> Transport)
  {
    var cfg := Config("key", "secret", DefaultBaseUrl, {"BTCUSDT", "ETHUSDT"}, 100.0);
    var within := OrderIn("BTCUSDT", Buy, Market, Some(50.0), None, None, true);
    assert Upper("BTCUSDT") == "BTCUSDT";
    CheckOutcome(within, cfg);
    var out1, sent1 := PlaceOrder(cfg, lib, within, now, exchange);
    assert |sent1| == 1;
    AcceptedOrderParams(within, cfg, lib);
    assert Lookup(OrderParams(within, lib), "quoteOrderQty") == Some(lib.fixed2(50.0));

    var above := within.(quoteAmount := Some(150.0));
    CheckOutcome(above, cfg);
    var out2, sent2 := PlaceOrder(cfg, lib, above, now, exchange);
    assert sent2 == [] && out2 == Refused(QuoteAboveLimit(100.0));
  }
}
