/**
 * The exchange client: `_get` and `_post` (server.py lines 37 to 64). Each
 * takes a path, a parameter dict and a `signed` flag; a signed call first
 * stores the current time in milliseconds under `timestamp`, then signs. `_post`
 * stores it in the caller's dict; `_get` does so only for a non-empty dict, and
 * otherwise (`params or {}`) in a fresh one. The network round trip itself is not modelled: the
 * request is returned, and the exchange's answer is classified by
 * `ClassifyGet` / `ClassifyPost`.
 */
module Exchange {
  import opened Wrappers
  import opened Text
  import opened OrderedDict
  import opened Externals
  import opened Signing
  import opened Settings

  const TimestampKey := "timestamp"
  const ApiKeyHeader := "X-MBX-APIKEY"
  const FormContentType: Pair := ("Content-Type", "application/x-www-form-urlencoded")

  /** A Python dict of request parameters that callers hand to `_get` / `_post`, which update it. */
  class ParamDict {
    var items: seq<Pair>

    ghost predicate Valid()
      reads this
    {
      DistinctKeys(items)
    }

    constructor (init: seq<Pair>)
      requires DistinctKeys(init)
      ensures Valid() && items == init
    {
      items := init;
    }

    /** `d[k] = v`, which is also what `d.update({k: v})` does. */
    method Update(k: string, v: string)
      requires Valid()
      modifies this
      ensures Valid() && items == Put(old(items), k, v)
    {
      items := Put(items, k, v);
    }
  }

  datatype Verb = GET | POST

  /** The outbound HTTP request: method, full URL, headers and form body. */
  datatype Request = Request(verb: Verb, url: string, headers: seq<Pair>, body: string)

  /** What came back over the wire: nothing (timeout, connection failure), or a status and body text. */
  datatype Transport = NoResponse | Response(status: int, text: string)

  /** The client's verdict on a response. */
  datatype Reply =
    | Parsed(json: Json)
    /** status >= 400: raised as HTTPException(status, text) */
    | Rejected(status: int, body: string)
    /** the httpx call raised */
    | Unreachable
    /** `r.json()` raised */
    | Undecodable(text: string)

  /** The query string (GET) or form body (POST) for the given parameters. */
  function QueryString(lib: Library, secret: string, items: seq<Pair>, signed: bool, now: nat): string
  {
    if signed then Sign(lib, secret, Put(items, TimestampKey, Decimal(now)))
    else UrlEncode(lib, items)
  }

  /** The request `_get` sends, given the parameters it was passed (`[]` for None). */
  function GetRequest(cfg: Config, lib: Library, path: string, items: seq<Pair>, signed: bool, now: nat): Request
  {
    var qs := QueryString(lib, cfg.apiSecret, items, signed, now);
    var url := if qs != "" then cfg.baseUrl + path + "?" + qs else cfg.baseUrl + path;
    Request(GET, url, [(ApiKeyHeader, cfg.apiKey)], "")
  }

  /** The request `_post` sends. */
  function PostRequest(cfg: Config, lib: Library, path: string, items: seq<Pair>, signed: bool, now: nat): Request
  {
    Request(POST, cfg.baseUrl + path, [(ApiKeyHeader, cfg.apiKey), FormContentType],
            QueryString(lib, cfg.apiSecret, items, signed, now))
  }

  /**
   * `_get(path, params, signed)`. `params or {}` replaces a missing OR EMPTY
   * dict by a fresh one, so a caller's empty dict is never updated, while a
   * non-empty one receives the timestamp of a signed call.
   */
  method Get(cfg: Config, lib: Library, path: string, params: ParamDict?, signed: bool, now: nat)
    returns (req: Request)
    requires params != null ==> params.Valid()
    modifies params
    ensures params != null ==> params.Valid()
    ensures params != null ==>
              params.items == (if signed && old(params.items) != [] then Put(old(params.items), TimestampKey, Decimal(now)) else old(params.items))
    ensures req == GetRequest(cfg, lib, path, if params == null then [] else old(params.items), signed, now)
  {
    var d: ParamDict;
    if params == null || params.items == [] {
      d := new ParamDict([]);
    } else {
      d := params;
    }
    var qs: string;
    if signed {
      d.Update(TimestampKey, Decimal(now));
      qs := Sign(lib, cfg.apiSecret, d.items);
    } else {
      qs := UrlEncode(lib, d.items);
    }
    var url := if qs != "" then cfg.baseUrl + path + "?" + qs else cfg.baseUrl + path;
    req := Request(GET, url, [(ApiKeyHeader, cfg.apiKey)], "");
  }

  /** `_post(path, params, signed)`: the caller's dict receives the timestamp of a signed call. */
  method Post(cfg: Config, lib: Library, path: string, params: ParamDict, signed: bool, now: nat)
    returns (req: Request)
    requires params.Valid()
    modifies params
    ensures params.Valid()
    ensures params.items == if signed then Put(old(params.items), TimestampKey, Decimal(now)) else old(params.items)
    ensures req == PostRequest(cfg, lib, path, old(params.items), signed, now)
  {
    var body: string;
    if signed {
      params.Update(TimestampKey, Decimal(now));
      body := Sign(lib, cfg.apiSecret, params.items);
    } else {
      body := UrlEncode(lib, params.items);
    }
    req := Request(POST, cfg.baseUrl + path, [(ApiKeyHeader, cfg.apiKey), FormContentType], body);
  }

  /** The status check and `r.json()` of `_get`: an error status is passed on verbatim. */
  function ClassifyGet(t: Transport, parseJson: string -> Option<Json>): (r: Reply)
    ensures r.Rejected? <==> t.Response? && t.status >= 400
    ensures r.Rejected? ==> r.status == t.status && r.body == t.text
    ensures r.Unreachable? <==> t.NoResponse?
    ensures r.Parsed? ==> parseJson(t.text) == Some(r.json)
    ensures t.Response? && t.status < 400 ==> (r.Parsed? <==> parseJson(t.text).Some?)
    ensures r.Undecodable? ==> r.text == t.text
  {
    match t
    case NoResponse => Unreachable
    case Response(status, text) =>
      if status >= 400 then Rejected(status, text)
      else match parseJson(text)
        case Some(j) => Parsed(j)
        case None => Undecodable(text)
  }

  /** The acknowledgement `{"ok": True}` that stands for an empty successful POST body. */
  const Acknowledged := JObj([("ok", JBool(true))])

  /** `_post`'s status check: like `_get`'s, except that an empty successful body is not parsed. */
  function ClassifyPost(t: Transport, parseJson: string -> Option<Json>): (r: Reply)
    ensures t.Response? && t.status < 400 && t.text == "" ==> r == Parsed(Acknowledged)
    ensures !(t.Response? && t.status < 400 && t.text == "") ==> r == ClassifyGet(t, parseJson)
  {
    match t
    case NoResponse => Unreachable
    case Response(status, text) =>
      if status >= 400 then Rejected(status, text)
      else if text == "" then Parsed(Acknowledged)
      else match parseJson(text)
        case Some(j) => Parsed(j)
        case None => Undecodable(text)
  }

  /** Any status of 400 or more is rejected by both calls with its status and body unchanged, empty body included. */
  lemma ErrorStatusVerbatim(t: Transport, parseJson: string -> Option<Json>)
    requires t.Response? && t.status >= 400
    ensures ClassifyGet(t, parseJson) == Rejected(t.status, t.text)
    ensures ClassifyPost(t, parseJson) == Rejected(t.status, t.text)
  {
  }

  /**
   * A signed call covers its timestamp: the parameters gain `timestamp`
   * (in place if already present, else at the end), the receiver recovers
   * their canonical string as the signed payload, and the last segment is
   * its signature.
   */
  lemma SignedQueryCoversTimestamp(lib: Library, secret: string, items: seq<Pair>, now: nat)
    ensures var sent := Put(items, TimestampKey, Decimal(now));
      && Lookup(sent, TimestampKey) == Some(Decimal(now))
      && (forall k :: k != TimestampKey ==> Lookup(sent, k) == Lookup(items, k))
      && (TimestampKey !in Keys(items) ==> sent == items + [(TimestampKey, Decimal(now))])
      && SignedPayload(QueryString(lib, secret, items, true, now)) == UrlEncode(lib, sent)
      && Authentic(lib, secret, QueryString(lib, secret, items, true, now))
  {
    SignCoversPayload(lib, secret, Put(items, TimestampKey, Decimal(now)));
  }

  /**
   * An unsigned call adds nothing: its string is the canonical string of the
   * parameters as given, one segment per parameter, and it is empty exactly
   * when there are no parameters.
   */
  lemma UnsignedQueryAddsNothing(lib: Library, secret: string, items: seq<Pair>, now: nat)
    requires QuoteEscapesDelimiters(lib)
    ensures QueryString(lib, secret, items, false, now) == UrlEncode(lib, items)
    ensures QueryString(lib, secret, items, false, now) == "" <==> items == []
    ensures items != [] ==> Split(QueryString(lib, secret, items, false, now), '&') == EncodePairs(lib, items)
  {
    UrlEncodeEmpty(lib, items);
    if items != [] {
      UrlEncodeSegments(lib, items);
    }
  }

  /** The GET URL carries `?` and a query string exactly when the call is signed or has parameters. */
  lemma GetUrlShape(cfg: Config, lib: Library, path: string, items: seq<Pair>, signed: bool, now: nat)
    ensures var qs := QueryString(lib, cfg.apiSecret, items, signed, now);
      && (signed || items != [] ==> GetRequest(cfg, lib, path, items, signed, now).url == cfg.baseUrl + path + "?" + qs)
      && (!signed && items == [] ==> GetRequest(cfg, lib, path, items, signed, now).url == cfg.baseUrl + path)
  {
  }

  /** Every call, signed or not, carries the API key header. */
  lemma ApiKeyOnEveryCall(cfg: Config, lib: Library, path: string, items: seq<Pair>, signed: bool, now: nat)
    ensures (ApiKeyHeader, cfg.apiKey) in GetRequest(cfg, lib, path, items, signed, now).headers
    ensures (ApiKeyHeader, cfg.apiKey) in PostRequest(cfg, lib, path, items, signed, now).headers
  {
  }

  /**
   * A timestamp is never reused: the same parameters signed at two different
   * instants give two different signed payloads (given that `quote_plus` is
   * injective and escapes `&` and `=`).
   */
  lemma DistinctInstantsDistinctPayloads(lib: Library, secret: string, items: seq<Pair>, now1: nat, now2: nat)
    requires QuoteEscapesDelimiters(lib) && QuoteInjective(lib)
    requires now1 != now2
    ensures SignedPayload(QueryString(lib, secret, items, true, now1)) != SignedPayload(QueryString(lib, secret, items, true, now2))
  {
    var sent1, sent2 := Put(items, TimestampKey, Decimal(now1)), Put(items, TimestampKey, Decimal(now2));
    SignedQueryCoversTimestamp(lib, secret, items, now1);
    SignedQueryCoversTimestamp(lib, secret, items, now2);
    DecimalInjective(now1, now2);
    UrlEncodeInjective(lib, sent1, sent2);
  }
}
