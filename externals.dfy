/**
 * The library code the proxy calls but does not define, as values the model
 * is given: URL quoting, HMAC-SHA256, fixed-point float formatting, JSON
 * decoding, float parsing and the two lookups into decoded exchange payloads.
 * Nothing is assumed about them except where a lemma says so in its requires.
 */
module Externals {
  import opened Wrappers

  type byte = x: int | 0 <= x < 256

  /** A decoded JSON value. */
  datatype Json =
    | JNull
    | JBool(b: bool)
    | JNum(n: real)
    | JStr(s: string)
    | JArr(items: seq<Json>)
    | JObj(fields: seq<(string, Json)>)

  /** One entry of the account's `balances` list: the asset and its parsed `free` amount. */
  datatype Holding = Holding(asset: string, free: real)

  datatype Library = Library(
    /** `urllib.parse.quote_plus`, applied by `urlencode` to every key and value */
    quotePlus: string -> string,
    /** HMAC-SHA256 of the UTF-8 bytes of a message under the UTF-8 bytes of a key */
    hmacSha256: (string, string) -> seq<byte>,
    /** `f"{x:.2f}"` */
    fixed2: real -> string,
    /** `f"{x:.6f}"` */
    fixed6: real -> string,
    /** `httpx.Response.json()`; None where decoding fails */
    parseJson: string -> Option<Json>,
    /** reads `data.get("balances", [])` of an account payload into holdings; None on a malformed payload */
    holdings: Json -> Option<seq<Holding>>,
    /** `float(data["price"])` of a ticker payload; None on a malformed payload */
    priceField: Json -> Option<real>)

  /** `quote_plus` escapes the two characters that structure a query string. */
  ghost predicate QuoteEscapesDelimiters(lib: Library)
  {
    forall s: string :: '&' !in lib.quotePlus(s) && '=' !in lib.quotePlus(s)
  }

  /** `quote_plus` maps distinct strings to distinct strings. */
  ghost predicate QuoteInjective(lib: Library)
  {
    forall s: string, t: string ::
      lib.quotePlus(s) == lib.quotePlus(t) ==> s == t
  }
}
