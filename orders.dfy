/**
 * The order validator and risk gate of `create_order` (server.py lines 83
 * to 111). The guards run in a fixed order and the first one that fails
 * decides the rejection; an order that passes them all becomes the ordered
 * parameter dict handed to the signer.
 */
module Orders {
  import opened Wrappers
  import opened Text
  import opened OrderedDict
  import opened Externals
  import opened Signing
  import opened Settings

  datatype Side = Buy | Sell
  datatype OrderType = Market | Limit

  /** The order body; absent optional fields are None. */
  datatype OrderIn = OrderIn(
    symbol: string,
    side: Side,
    orderType: OrderType,
    quoteAmount: Option<real>,
    quantity: Option<real>,
    price: Option<real>,
    confirmed: bool)

  /** Why an order was refused (each raised as HTTP 400). */
  datatype Rejection =
    /** the message lists the allowed symbols */
    | SymbolNotAllowed(allowed: set<string>)
    | ConfirmationMissing
    | QuoteAmountRequired
    /** the message names the configured limit */
    | QuoteAboveLimit(limit: real)
    | QuantityRequired
    | QuantityAndPriceRequired

  function SideName(s: Side): string
  {
    match s
    case Buy => "BUY"
    case Sell => "SELL"
  }

  function TypeName(t: OrderType): string
  {
    match t
    case Market => "MARKET"
    case Limit => "LIMIT"
  }

  /** Python truthiness of an optional float: None and zero are false; a negative amount is true. */
  predicate Truthy(x: Option<real>)
  {
    x.Some? && x.value != 0.0
  }

  /** The guards common to every order: the allow-list, then the confirmation. */
  function CommonChecks(o: OrderIn, cfg: Config): seq<(bool, Rejection)>
  {
    [(Upper(o.symbol) in cfg.allowedSymbols, SymbolNotAllowed(cfg.allowedSymbols)),
     (o.confirmed, ConfirmationMissing)]
  }

  /** The guards of the order's (type, side) shape, in order. */
  function ShapeChecks(o: OrderIn, cfg: Config): seq<(bool, Rejection)>
  {
    match (o.orderType, o.side)
    case (Market, Buy) =>
      [(Truthy(o.quoteAmount), QuoteAmountRequired),
       (!Truthy(o.quoteAmount) || o.quoteAmount.value <= cfg.maxQuoteTrade, QuoteAboveLimit(cfg.maxQuoteTrade))]
    case (Market, Sell) => [(Truthy(o.quantity), QuantityRequired)]
    case (Limit, _) => [(Truthy(o.quantity) && Truthy(o.price), QuantityAndPriceRequired)]
  }

  /** All the guards in the order they run: a condition that must hold, and the rejection when it does not. */
  function Checks(o: OrderIn, cfg: Config): seq<(bool, Rejection)>
  {
    CommonChecks(o, cfg) + ShapeChecks(o, cfg)
  }

  /** First failure wins: the rejection of the earliest guard that fails, None when all pass. */
  function FirstFailure(checks: seq<(bool, Rejection)>): (r: Option<Rejection>)
    ensures r.None? <==> forall i :: 0 <= i < |checks| ==> checks[i].0
    ensures r.Some? ==> exists i :: 0 <= i < |checks| && !checks[i].0 && checks[i].1 == r.value &&
                                    forall j :: 0 <= j < i ==> checks[j].0
  {
    if checks == [] then None
    else if !checks[0].0 then Some(checks[0].1)
    else
      var r := FirstFailure(checks[1..]);
      assert r.Some? ==> exists i :: 0 < i < |checks| && !checks[i].0 && checks[i].1 == r.value &&
                                     forall j :: 0 <= j < i ==> checks[j].0 by {
        if r.Some? {
          var i :| 0 <= i < |checks[1..]| && !checks[1..][i].0 && checks[1..][i].1 == r.value &&
                   forall j :: 0 <= j < i ==> checks[1..][j].0;
          assert forall j :: 0 <= j < i + 1 ==> checks[j].0 by {
            forall j | 0 <= j < i + 1 ensures checks[j].0 {
              if j > 0 { assert checks[j] == checks[1..][j - 1]; }
            }
          }
        }
      }
      r
  }

  /** Running two lists of guards one after the other. */
  lemma {:induction false} FirstFailureAppend(a: seq<(bool, Rejection)>, b: seq<(bool, Rejection)>)
    ensures FirstFailure(a + b) == if FirstFailure(a).Some? then FirstFailure(a) else FirstFailure(b)
  {
    if a != [] {
      assert (a + b)[0] == a[0];
      assert (a + b)[1..] == a[1..] + b;
      FirstFailureAppend(a[1..], b);
    } else {
      assert a + b == b;
    }
  }

  /** The order passes every guard. */
  predicate Admissible(o: OrderIn, cfg: Config)
  {
    FirstFailure(Checks(o, cfg)).None?
  }

  /** The outcome of the guards, case by case in the order they run. */
  lemma CheckOutcome(o: OrderIn, cfg: Config)
    ensures FirstFailure(Checks(o, cfg)) ==
      if Upper(o.symbol) !in cfg.allowedSymbols then Some(SymbolNotAllowed(cfg.allowedSymbols))
      else if !o.confirmed then Some(ConfirmationMissing)
      else match (o.orderType, o.side)
        case (Market, Buy) =>
          if !Truthy(o.quoteAmount) then Some(QuoteAmountRequired)
          else if o.quoteAmount.value > cfg.maxQuoteTrade then Some(QuoteAboveLimit(cfg.maxQuoteTrade))
          else None
        case (Market, Sell) => if !Truthy(o.quantity) then Some(QuantityRequired) else None
        case (Limit, _) => if !(Truthy(o.quantity) && Truthy(o.price)) then Some(QuantityAndPriceRequired) else None
  {
    FirstFailureAppend(CommonChecks(o, cfg), ShapeChecks(o, cfg));
    var c := CommonChecks(o, cfg);
    assert c[1..][1..] == [];
    var sh := ShapeChecks(o, cfg);
    if |sh| == 2 {
      assert sh[1..][1..] == [];
    } else {
      assert sh[1..] == [];
    }
  }

  /** The fields the order's (type, side) shape needs are present and non-zero. */
  predicate FieldsPresent(o: OrderIn)
  {
    match (o.orderType, o.side)
    case (Market, Buy) => Truthy(o.quoteAmount)
    case (Market, Sell) => Truthy(o.quantity)
    case (Limit, _) => Truthy(o.quantity) && Truthy(o.price)
  }

  /** The parameters forwarded for an order of each shape, in dict order. */
  function OrderParams(o: OrderIn, lib: Library): seq<Pair>
    requires FieldsPresent(o)
  {
    var head := [("symbol", Upper(o.symbol)), ("side", SideName(o.side)), ("type", TypeName(o.orderType))];
    match (o.orderType, o.side)
    case (Market, Buy) => head + [("quoteOrderQty", lib.fixed2(o.quoteAmount.value))]
    case (Market, Sell) => head + [("quantity", lib.fixed6(o.quantity.value))]
    case (Limit, _) =>
      head + [("quantity", lib.fixed6(o.quantity.value)), ("price", lib.fixed2(o.price.value)), ("timeInForce", "GTC")]
  }

  /**
   * `create_order` up to the call to `_post`: the dict is built from the
   * three common entries and then extended entry by entry, as the source
   * does with item assignment and `dict.update`.
   */
  method CreateOrder(o: OrderIn, cfg: Config, lib: Library) returns (r: Result<seq<Pair>, Rejection>)
    ensures r.Failure? <==> !Admissible(o, cfg)
    ensures r.Failure? ==> FirstFailure(Checks(o, cfg)) == Some(r.error)
    ensures r.Success? ==> FieldsPresent(o) && r.value == OrderParams(o, lib)
  {
    CheckOutcome(o, cfg);
    var symbol := Upper(o.symbol);
    if symbol !in cfg.allowedSymbols {
      return Failure(SymbolNotAllowed(cfg.allowedSymbols));
    }
    if !o.confirmed {
      return Failure(ConfirmationMissing);
    }
    var params := [("symbol", symbol), ("side", SideName(o.side)), ("type", TypeName(o.orderType))];
    match o.orderType {
      case Market =>
        if o.side == Buy {
          if !Truthy(o.quoteAmount) {
            return Failure(QuoteAmountRequired);
          }
          if o.quoteAmount.value > cfg.maxQuoteTrade {
            return Failure(QuoteAboveLimit(cfg.maxQuoteTrade));
          }
          params := Put(params, "quoteOrderQty", lib.fixed2(o.quoteAmount.value));
        } else {
          if !Truthy(o.quantity) {
            return Failure(QuantityRequired);
          }
          params := Put(params, "quantity", lib.fixed6(o.quantity.value));
        }
      case Limit =>
        if !(Truthy(o.quantity) && Truthy(o.price)) {
          return Failure(QuantityAndPriceRequired);
        }
        var extra := [("quantity", lib.fixed6(o.quantity.value)), ("price", lib.fixed2(o.price.value)), ("timeInForce", "GTC")];
        DistinctKeysPairwise(extra);
        KeysAt(params);
        KeysAt(extra);
        assert Keys(params) == ["symbol", "side", "type"];
        assert Keys(extra) == ["quantity", "price", "timeInForce"];
        PutAllFresh(params, extra);
        params := PutAll(params, extra);
    }
    return Success(params);
  }

  /** A symbol whose upper-casing is not allowed is refused whatever the other fields say. */
  lemma SymbolCheckedFirst(o: OrderIn, cfg: Config)
    requires Upper(o.symbol) !in cfg.allowedSymbols
    ensures FirstFailure(Checks(o, cfg)) == Some(SymbolNotAllowed(cfg.allowedSymbols))
  {
    CheckOutcome(o, cfg);
  }

  /** An allowed but unconfirmed order is refused before any per-shape field is looked at. */
  lemma ConfirmationCheckedSecond(o: OrderIn, cfg: Config)
    requires Upper(o.symbol) in cfg.allowedSymbols && !o.confirmed
    ensures FirstFailure(Checks(o, cfg)) == Some(ConfirmationMissing)
  {
    CheckOutcome(o, cfg);
  }

  /**
   * MARKET BUY: a missing or zero quote amount is refused, one above the
   * maximum is refused, and anything else (the maximum itself, a negative
   * amount) is accepted.
   */
  lemma MarketBuyRule(o: OrderIn, cfg: Config)
    requires Upper(o.symbol) in cfg.allowedSymbols && o.confirmed
    requires o.orderType == Market && o.side == Buy
    ensures !Truthy(o.quoteAmount) ==> FirstFailure(Checks(o, cfg)) == Some(QuoteAmountRequired)
    ensures Truthy(o.quoteAmount) && o.quoteAmount.value > cfg.maxQuoteTrade ==>
              FirstFailure(Checks(o, cfg)) == Some(QuoteAboveLimit(cfg.maxQuoteTrade))
    ensures Admissible(o, cfg) <==> Truthy(o.quoteAmount) && o.quoteAmount.value <= cfg.maxQuoteTrade
  {
    CheckOutcome(o, cfg);
  }

  /** A quote amount equal to a non-zero maximum passes the cap. */
  lemma QuoteAtLimitAccepted(o: OrderIn, cfg: Config)
    requires Upper(o.symbol) in cfg.allowedSymbols && o.confirmed
    requires o.orderType == Market && o.side == Buy
    requires cfg.maxQuoteTrade != 0.0 && o.quoteAmount == Some(cfg.maxQuoteTrade)
    ensures Admissible(o, cfg)
  {
    CheckOutcome(o, cfg);
  }

  /** Truthiness, not positivity, is checked: a negative quote amount is accepted. */
  lemma NegativeQuoteAccepted(o: OrderIn, cfg: Config)
    requires Upper(o.symbol) in cfg.allowedSymbols && o.confirmed
    requires o.orderType == Market && o.side == Buy
    requires o.quoteAmount.Some? && o.quoteAmount.value < 0.0 && cfg.maxQuoteTrade >= 0.0
    ensures Admissible(o, cfg)
  {
    CheckOutcome(o, cfg);
  }

  /** MARKET SELL needs a non-zero quantity, and neither the quote amount nor the cap plays a part. */
  lemma MarketSellRule(o: OrderIn, cfg: Config, quote: Option<real>, cap: real)
    requires Upper(o.symbol) in cfg.allowedSymbols && o.confirmed
    requires o.orderType == Market && o.side == Sell
    ensures !Truthy(o.quantity) ==> FirstFailure(Checks(o, cfg)) == Some(QuantityRequired)
    ensures Admissible(o, cfg) <==> Truthy(o.quantity)
    ensures FirstFailure(Checks(o.(quoteAmount := quote), cfg.(maxQuoteTrade := cap))) == FirstFailure(Checks(o, cfg))
  {
    CheckOutcome(o, cfg);
  }

  /** LIMIT, either side, needs both a non-zero quantity and a non-zero price. */
  lemma LimitRule(o: OrderIn, cfg: Config)
    requires Upper(o.symbol) in cfg.allowedSymbols && o.confirmed
    requires o.orderType == Limit
    ensures !(Truthy(o.quantity) && Truthy(o.price)) ==> FirstFailure(Checks(o, cfg)) == Some(QuantityAndPriceRequired)
    ensures Admissible(o, cfg) <==> Truthy(o.quantity) && Truthy(o.price)
  {
    CheckOutcome(o, cfg);
  }

  /**
   * What an accepted order forwards: its fields are present, its `symbol`
   * is the upper-cased input and on the allow-list, the keys are distinct
   * and exactly those of its shape, in order, a limit order is
   * good-till-cancelled, and a market buy forwards its capped quote amount.
   * The other values are given by `OrderParamsValues`.
   */
  lemma AcceptedOrderParams(o: OrderIn, cfg: Config, lib: Library)
    requires Admissible(o, cfg)
    ensures FieldsPresent(o)
    ensures Upper(o.symbol) in cfg.allowedSymbols
    ensures Lookup(OrderParams(o, lib), "symbol") == Some(Upper(o.symbol))
    ensures DistinctKeys(OrderParams(o, lib))
    ensures Keys(OrderParams(o, lib)) ==
      match (o.orderType, o.side)
      case (Market, Buy) => ["symbol", "side", "type", "quoteOrderQty"]
      case (Market, Sell) => ["symbol", "side", "type", "quantity"]
      case (Limit, _) => ["symbol", "side", "type", "quantity", "price", "timeInForce"]
    ensures o.orderType == Limit ==> Lookup(OrderParams(o, lib), "timeInForce") == Some("GTC")
    ensures o.orderType == Market && o.side == Buy ==>
              o.quoteAmount.value <= cfg.maxQuoteTrade &&
              Lookup(OrderParams(o, lib), "quoteOrderQty") == Some(lib.fixed2(o.quoteAmount.value))
  {
    CheckOutcome(o, cfg);
    var params := OrderParams(o, lib);
    DistinctKeysPairwise(params);
    KeysAt(params);
    LookupAt(params, 0);
    if o.orderType == Limit {
      LookupAt(params, 5);
    } else {
      LookupAt(params, 3);
    }
  }

  /** The value forwarded under each key of an order's parameters. */
  lemma OrderParamsValues(o: OrderIn, lib: Library)
    requires FieldsPresent(o)
    ensures Lookup(OrderParams(o, lib), "symbol") == Some(Upper(o.symbol))
    ensures Lookup(OrderParams(o, lib), "side") == Some(SideName(o.side))
    ensures Lookup(OrderParams(o, lib), "type") == Some(TypeName(o.orderType))
    ensures o.orderType == Market && o.side == Buy ==>
              Lookup(OrderParams(o, lib), "quoteOrderQty") == Some(lib.fixed2(o.quoteAmount.value))
    ensures o.orderType == Market && o.side == Sell ==>
              Lookup(OrderParams(o, lib), "quantity") == Some(lib.fixed6(o.quantity.value))
    ensures o.orderType == Limit ==>
              && Lookup(OrderParams(o, lib), "quantity") == Some(lib.fixed6(o.quantity.value))
              && Lookup(OrderParams(o, lib), "price") == Some(lib.fixed2(o.price.value))
              && Lookup(OrderParams(o, lib), "timeInForce") == Some("GTC")
  {
    var params := OrderParams(o, lib);
    DistinctKeysPairwise(params);
    LookupAt(params, 0);
    LookupAt(params, 1);
    LookupAt(params, 2);
    LookupAt(params, 3);
    if o.orderType == Limit {
      LookupAt(params, 4);
      LookupAt(params, 5);
    }
  }
}
