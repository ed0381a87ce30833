# Binance trading proxy — verified model of the pre-flight path

This project models the core of a small FastAPI proxy (`server.py`) that sits
between a trading client and the Binance REST API. The model covers:

- how the proxy reads its configuration at start-up: API key and secret, base URL,
  comma-separated symbol allow-list, and maximum quote amount;
- the order validator and risk gate of `create_order`: the allow-list, the
  confirmation flag, the required fields of each (type, side) shape, and the cap on the
  quote amount of a MARKET BUY;
- the request signer: `urlencode`, hex HMAC-SHA256, and `_sign`;
- the exchange client `_get` and `_post`. On a signed call they add a `timestamp` to the
  parameter dict: in place in the caller's dict for `_post` and for a non-empty dict given
  to `_get`, otherwise in a fresh dict. They then build the URL or form body and classify
  the exchange's answer;
- the balance filter and the three endpoints that hold logic (`/order`, `/balance`,
  `/price`). Each endpoint runs against a transport given as a function.

`Api.QuoteCapScenarios` is a worked example, not a model of any source function. It calls
`PlaceOrder` on two concrete MARKET BUY orders and asserts the outcomes: the order within a
maximum of 100 is posted, and the one above it is refused without sending anything.

Modules, leaf first:

| file | module | what it holds |
|---|---|---|
| `wrappers.dfy` | `Wrappers` | `Option`, `Result` |
| `text.dfy` | `Text` | ASCII `str.upper`, `str.split` / `str.join` on one character, `str` of a natural number |
| `ordered_dict.dfy` | `OrderedDict` | Python's insertion-ordered dict as a list of pairs: `Put` (`d[k] = v`), `PutAll` (`d.update`) |
| `externals.dfy` | `Externals` | the library functions the proxy calls, passed in as a `Library` value; decoded JSON |
| `signing.dfy` | `Signing` | the canonical query string, `hexdigest`, `_sign`, and the receiver's view of a signed string |
| `settings.dfy` | `Settings` | the environment read into an immutable `Config` |
| `exchange.dfy` | `Exchange` | the `ParamDict` class (the caller's dict), `_get`, `_post`, and response classification |
| `orders.dfy` | `Orders` | the order guards, in their order, and `create_order` |
| `api.dfy` | `Api` | `POST /order`, `GET /balance`, `GET /price/{symbol}`, and the balance filter |

Library behaviour the code depends on is not defined here. `quote_plus`,
HMAC-SHA256, `:.2f` / `:.6f` formatting, JSON decoding, and the lookups into the account
and ticker payloads are fields of `Externals.Library`. The `float()` calls inside those
lookups are part of them. The `float()` of the configured maximum is the `parseFloat`
parameter of `Settings.LoadConfig`. Nothing is assumed
about them, except two facts about `quote_plus` that some lemmas require:

- it escapes `&` and `=`;
- it is injective.

`hexdigest` is modelled concretely. The clock is the parameter `now`, in milliseconds.

Where the code and its documented behaviour differ, the model follows the code:

- Required amounts are tested for Python truthiness. `None` and `0` are refused; a
  negative amount passes (`Orders.NegativeQuoteAccepted`).
- The allow-list is not case-insensitive. Only the order's symbol is upper-cased, and
  entries are kept exactly as written between commas. An entry with a lower-case letter
  never matches (`Text.LowerNeverUpper`). An empty entry admits the empty symbol
  (`Settings.EmptyPieceAllowsEmpty`).
- "Blank" credentials means empty strings; whitespace passes. A malformed maximum fails
  start-up before the credential check, because line 16 runs before line 18.
- An unreachable exchange is not caught. It becomes FastAPI's 500, the same status as an
  undecodable body. The model keeps the two apart as `UpstreamUnreachable` and
  `InternalError`, both with status 500.

## Model

| member | source | states |
|---|---|---|
| `Text.UpperNormalises` | server.py:84 | upper-casing keeps the length, leaves no lower-case ASCII letter, changes nothing else, and is idempotent |
| `Text.Upper` | server.py:72 | no contract; `str.upper()` character by character, characterised by `Text.UpperNormalises` and `Text.LowerNeverUpper` |
| `Text.LowerNeverUpper` | server.py:84-85 | an allow-list entry that holds a lower-case letter equals the upper-casing of no symbol |
| `Text.Split` | server.py:15 | `split(",")` gives one more piece than there are commas, and no piece holds a comma |
| `Text.SplitAround` | server.py:15 | splitting at a separator gives the pieces of the text before it followed by the pieces of the text after it |
| `Text.JoinSplit` | server.py:15 | joining the pieces of a split with the separator gives back the original string |
| `Text.SplitJoin` | server.py:15 | splitting the join of separator-free pieces gives back those pieces |
| `Text.Decimal` | server.py:41 | `str` of the millisecond timestamp is a non-empty string of decimal digits |
| `Text.DecimalInjective` | server.py:41 | distinct timestamps render as distinct strings |
| `OrderedDict.Lookup` | server.py:90-111 | a dict lookup finds a value exactly for the keys present |
| `OrderedDict.Put` | server.py:98 | `d[k] = v` makes `k` map to `v`; other keys keep their values; a new key is appended at the end; an existing key keeps its place; keys stay distinct |
| `OrderedDict.PutAll` | server.py:107-111 | `dict.update` keeps keys distinct; the keys afterwards are the old ones plus the new ones |
| `OrderedDict.PutAllLookup` | server.py:107-111 | after `d.update(e)`, each key of `e` has its value in `e` and every other key its value in `d` |
| `OrderedDict.PutAllFresh` | server.py:107-111 | updating with new, distinct keys appends the pairs in their order |
| `Signing.HexDigest` | server.py:34 | `hexdigest()` has two lower-case hex digits per digest byte |
| `Signing.UnhexHexDigest` | server.py:34 | the hex text gives back the digest it was made from |
| `Signing.UrlEncode` | server.py:33 | no contract; `urlencode` as `&`-joined `k=v` segments, characterised by `Signing.UrlEncodeEmpty`, `Signing.UrlEncodeSegments` and `Signing.UrlEncodeInjective` |
| `Signing.UrlEncodeEmpty` | server.py:33 | the canonical query string is empty exactly when there are no parameters |
| `Signing.UrlEncodeSegments` | server.py:33 | the canonical query string splits at `&` back into one `k=v` segment per parameter, in order |
| `Signing.EncodePairInjective` | server.py:33 | one `k=v` segment determines its key and value |
| `Signing.UrlEncodeInjective` | server.py:33 | the canonical query string determines the ordered parameter list |
| `Signing.Sign` | server.py:32-35 | no contract; `_sign`, characterised by `Signing.SignCoversPayload` |
| `Signing.SignCoversPayload` | server.py:32-35 | the signed string is accepted by a receiver: the text before the last `&` is exactly the canonical query string, and the last segment is `signature=` plus the hex HMAC of that string |
| `Settings.AllowList` | server.py:15 | no contract; the set of comma-split pieces, characterised by `Settings.AllowListPieces`, `Settings.TwoSymbolAllowList` and `Settings.DefaultAllowList` |
| `Settings.LoadConfig` | server.py:12-19 | no contract; the start-up reading of the environment, characterised by `Settings.LoadConfigOutcome` |
| `Settings.LoadConfigOutcome` | server.py:12-19 | start-up succeeds exactly when the maximum parses and the key and secret are non-empty; a bad maximum is reported first; the config holds the key, secret and base URL as read, the parsed maximum and the comma-split allow-list |
| `Settings.AllowListPieces` | server.py:15 | allow-list entries have no commas; the pieces joined by commas give back the variable; there is one piece more than there are commas |
| `Settings.TwoSymbolAllowList` | server.py:15 | two comma-free symbols joined by a comma allow exactly those two |
| `Settings.DefaultAllowList` | server.py:15 | with `ALLOWED_SYMBOLS` unset, the allow-list is exactly BTCUSDT and ETHUSDT |
| `Settings.EmptyPieceAllowsEmpty` | server.py:15 | an empty variable, a doubled comma or a trailing comma puts the empty symbol on the allow-list |
| `Exchange.ParamDict.Update` | server.py:41 | `params.update({"timestamp": …})` changes the dict in place as `Put` does |
| `Exchange.Get` | server.py:37-45 | `_get` sends `GetRequest` of the parameters it was given; a non-empty caller dict gains the timestamp of a signed call; an empty or missing dict is replaced by a fresh one and is left unchanged |
| `Exchange.QueryString` | server.py:40-44 | no contract; the signed or unsigned query string of `_get` and `_post`, characterised by `Exchange.SignedQueryCoversTimestamp` and `Exchange.UnsignedQueryAddsNothing` |
| `Exchange.GetRequest` | server.py:38-47 | no contract; the request `_get` sends, characterised by `Exchange.GetUrlShape` and `Exchange.ApiKeyOnEveryCall` |
| `Exchange.PostRequest` | server.py:53-61 | no contract; the request `_post` sends, characterised by `Exchange.ApiKeyOnEveryCall` |
| `Exchange.Post` | server.py:52-59 | `_post` sends `PostRequest` of the parameters it was given; the caller's dict gains the timestamp of a signed call |
| `Exchange.ClassifyGet` | server.py:48-50 | a response is rejected exactly when its status is 400 or more, with that status and the body text unchanged; a missing response is unreachable; below 400, the body is parsed exactly when it decodes, and parsed data is what the decoder returned; a body that does not decode is reported with its text |
| `Exchange.ClassifyPost` | server.py:62-64 | an empty body with a status below 400 gives `{"ok": true}`; every other case, an empty body with an error status included, is classified as by `_get` |
| `Exchange.ErrorStatusVerbatim` | server.py:48-49 | any status of 400 or more is rejected by both calls with status and body unchanged, an empty body included |
| `Exchange.SignedQueryCoversTimestamp` | server.py:40-42 | a signed call stores the timestamp, in place or appended, and changes no other key; the receiver recovers the canonical string of the parameters plus the timestamp as the signed payload; the string is accepted |
| `Exchange.UnsignedQueryAddsNothing` | server.py:43-44 | an unsigned call sends the canonical string of the given parameters: one segment per parameter, no timestamp or signature added, empty exactly when there are none |
| `Exchange.GetUrlShape` | server.py:45 | the GET URL carries `?` and the query string exactly when the call is signed or has parameters; otherwise it is the base URL plus the path |
| `Exchange.ApiKeyOnEveryCall` | server.py:38 | every GET and POST carries the API key header, signed or not |
| `Exchange.DistinctInstantsDistinctPayloads` | server.py:41 | the same parameters signed at two different instants give different signed payloads |
| `Orders.Checks` | server.py:84-106 | no contract; the guards of `create_order` in order, characterised by `Orders.CheckOutcome` |
| `Orders.OrderParams` | server.py:90-111 | no contract; the dict an accepted order forwards, characterised by `Orders.AcceptedOrderParams` |
| `Orders.FirstFailure` | server.py:84-111 | the result is None exactly when every guard holds; otherwise it is the rejection of a failing guard with every earlier guard holding |
| `Orders.CheckOutcome` | server.py:84-111 | the guards decide in order: allow-list, confirmation, then the shape's fields and the quote cap |
| `Orders.CreateOrder` | server.py:83-111 | the dict built step by step by `create_order` is refused exactly when some guard fails, with the first failing guard's rejection; otherwise it is `OrderParams` of the order |
| `Orders.SymbolCheckedFirst` | server.py:84-86 | a symbol whose upper-casing is not allowed is refused, whatever the other fields are |
| `Orders.ConfirmationCheckedSecond` | server.py:87-88 | an allowed, unconfirmed order is refused before any per-shape field is looked at |
| `Orders.MarketBuyRule` | server.py:93-98 | MARKET BUY refuses a missing or zero quote amount, refuses an amount above the maximum, and accepts exactly the rest |
| `Orders.QuoteAtLimitAccepted` | server.py:96 | a quote amount equal to a non-zero maximum is accepted |
| `Orders.NegativeQuoteAccepted` | server.py:94-96 | a negative quote amount is not refused |
| `Orders.MarketSellRule` | server.py:99-102 | MARKET SELL refuses a missing or zero quantity and accepts exactly the rest; neither the quote amount nor the maximum changes its outcome |
| `Orders.LimitRule` | server.py:104-106 | LIMIT on either side is accepted exactly when quantity and price are both present and non-zero |
| `Orders.AcceptedOrderParams` | server.py:90-111 | an accepted order forwards the upper-cased symbol, which is on the allow-list; its keys are distinct and exactly its shape's keys, in order; LIMIT has `timeInForce` GTC; MARKET BUY has the formatted quote amount, at most the maximum |
| `Orders.OrderParamsValues` | server.py:90-111 | the forwarded values: the upper-cased symbol, the side and type names, the `fixed2` quote amount of a MARKET BUY, the `fixed6` quantity of a MARKET SELL, and for LIMIT the `fixed6` quantity, the `fixed2` price and `timeInForce` GTC |
| `Api.Failed` | server.py:48-49 | an upstream rejection is passed to the caller with the exchange's status and body; other failures are status 500 |
| `Api.PlaceOrder` | server.py:82-114 | a refused order sends no request and answers 400 with the first failing guard's reason; an accepted one is posted once, signed, and wraps the exchange's answer as `exchange_response` or passes its error on |
| `Api.SignedOrderBody` | server.py:113 | an accepted order's body signs the canonical string of the validated parameters followed by the timestamp, and a receiver accepts it |
| `Api.FreeBalances` | server.py:79 | the balances hold each asset once, exactly the assets with some entry whose free amount is above zero, and every value kept is above zero |
| `Api.LastPositiveWins` | server.py:79 | the value kept for an asset is the free amount of its last entry above zero; a later entry at or below zero does not remove it |
| `Api.GetBalance` | server.py:76-80 | `/balance` sends one signed account query with no other parameters and serves the filtered balances, or passes the failure on |
| `Api.BalanceQuery` | server.py:78 | the account query's URL carries the signed timestamp, and a receiver accepts it |
| `Api.GetPrice` | server.py:70-74 | `/price` sends one unsigned GET whose query is `symbol=` and the upper-cased symbol, and serves that symbol with the parsed price, or passes the failure on |

## Left out

- FastAPI routing, the pydantic model plumbing, and `GET /ping` are left out. They hold
  no logic; the request body becomes the `OrderIn` datatype.
- Reading `.env` and the process environment is left out. The model is given the
  environment as a map.
- The network call, the 15-second timeout and `async` are left out. The model returns
  the request, and the answer comes from a function passed in (`exchange`).
  Timeout-versus-connection errors are not told apart.
- HMAC-SHA256, UTF-8 encoding of key and message, and `quote_plus` are abstract library
  functions. Facts about them appear only as the requires of the lemmas that need them.
- `urlencode`'s handling of list values (`doseq`) is left out. No call of the proxy
  passes a list.
- `time.time()` is left out. The timestamp is the parameter `now`, and unsigned calls
  ignore it.
- Floating-point arithmetic is left out. Amounts are `real`, so NaN and infinities are
  not modelled. The `:.2f` and `:.6f` formatters and `float()` are abstract.
- Reading holdings from the account payload is abstract (`Library.holdings`), and so is
  reading `price` from the ticker payload (`Library.priceField`). This includes Python's
  evaluation order inside the comprehension.
- Rejection messages are not modelled as text. Each reason carries the data its message
  interpolates: the allowed set and the limit.
- Text.Upper: models `str.upper` on ASCII letters only; Python also maps non-ASCII letters. At the
  allow-list guard (server.py:84-85), Python upper-cases `"ethuſdt"` (with U+017F, long s) to
  `"ETHUSDT"` and accepts the order, while the model refuses it.
- Api.FreeBalances: the served dict's key order is the order in which each asset first
  reached a positive balance; `BalancesBody` keeps that order, but no lemma states it.
