/**
 * The request signer: `urlencode` of an ordered parameter list, the hex
 * HMAC-SHA256 digest of that canonical query string, and the signed string
 * `qs + "&signature=" + digest` that `_sign` returns. The receiving side's
 * view (split off the last segment, recompute the digest over the rest) is
 * defined alongside, so that what is covered by the signature can be stated.
 */
module Signing {
  import opened Wrappers
  import opened Text
  import opened Externals

  /** One key/value parameter, both already rendered as text. */
  type Pair = (string, string)

  predicate IsHexDigit(c: char)
  {
    '0' <= c <= '9' || 'a' <= c <= 'f'
  }

  function HexDigit(d: int): (c: char)
    requires 0 <= d < 16
    ensures IsHexDigit(c)
  {
    if d < 10 then ('0' as int + d) as char else ('a' as int + d - 10) as char
  }

  function HexValue(c: char): (v: Option<int>)
    ensures v.Some? ==> 0 <= v.value < 16
    ensures v.Some? <==> IsHexDigit(c)
  {
    if '0' <= c <= '9' then Some(c as int - '0' as int)
    else if 'a' <= c <= 'f' then Some(c as int - 'a' as int + 10)
    else None
  }

  /** `hexdigest()`: two lower-case hex digits per byte, high nibble first. */
  function HexDigest(bytes: seq<byte>): (h: string)
    ensures |h| == 2 * |bytes|
    ensures forall i :: 0 <= i < |h| ==> IsHexDigit(h[i])
  {
    if bytes == [] then ""
    else [HexDigit(bytes[0] / 16), HexDigit(bytes[0] % 16)] + HexDigest(bytes[1..])
  }

  /** The inverse of `HexDigest`: None on odd length or a non-hex character. */
  function Unhex(h: string): Option<seq<byte>>
    decreases |h|
  {
    if h == [] then Some([])
    else if |h| == 1 then None
    else
      match (HexValue(h[0]), HexValue(h[1]), Unhex(h[2..]))
      case (Some(hi), Some(lo), Some(rest)) => Some([hi * 16 + lo] + rest)
      case _ => None
  }

  /** The hex text of a digest determines the digest. */
  lemma {:induction false} UnhexHexDigest(bytes: seq<byte>)
    ensures Unhex(HexDigest(bytes)) == Some(bytes)
  {
    if bytes != [] {
      var b := bytes[0];
      var h := HexDigest(bytes);
      assert h[2..] == HexDigest(bytes[1..]);
      UnhexHexDigest(bytes[1..]);
      assert HexValue(h[0]) == Some(b / 16);
      assert HexValue(h[1]) == Some(b % 16);
      assert bytes == [b] + bytes[1..];
    }
  }

  /** `k=v` with both sides passed through `quote_plus`. */
  function EncodePair(lib: Library, p: Pair): string
  {
    lib.quotePlus(p.0) + "=" + lib.quotePlus(p.1)
  }

  function EncodePairs(lib: Library, ps: seq<Pair>): (segs: seq<string>)
    ensures |segs| == |ps|
  {
    seq(|ps|, i requires 0 <= i < |ps| => EncodePair(lib, ps[i]))
  }

  /** `urlencode(params, doseq=True)` for parameters whose values are all strings. */
  function UrlEncode(lib: Library, ps: seq<Pair>): string
  {
    Join(EncodePairs(lib, ps), '&')
  }

  /** The canonical query string is empty exactly when there are no parameters. */
  lemma UrlEncodeEmpty(lib: Library, ps: seq<Pair>)
    ensures UrlEncode(lib, ps) == "" <==> ps == []
  {
  }

  /** When `quote_plus` escapes `&` and `=`, the query string splits back into one segment per parameter. */
  lemma UrlEncodeSegments(lib: Library, ps: seq<Pair>)
    requires QuoteEscapesDelimiters(lib)
    requires ps != []
    ensures Split(UrlEncode(lib, ps), '&') == EncodePairs(lib, ps)
  {
    var segs := EncodePairs(lib, ps);
    forall i | 0 <= i < |segs| ensures '&' !in segs[i] {
      assert segs[i] == lib.quotePlus(ps[i].0) + "=" + lib.quotePlus(ps[i].1);
    }
    SplitJoin(segs, '&');
  }

  /** One encoded segment determines its parameter. */
  lemma EncodePairInjective(lib: Library, p: Pair, q: Pair)
    requires QuoteEscapesDelimiters(lib) && QuoteInjective(lib)
    requires EncodePair(lib, p) == EncodePair(lib, q)
    ensures p == q
  {
    forall r: Pair ensures Split(EncodePair(lib, r), '=') == [lib.quotePlus(r.0), lib.quotePlus(r.1)] {
      var k, v := lib.quotePlus(r.0), lib.quotePlus(r.1);
      assert EncodePair(lib, r) == k + ['='] + v;
      SplitFirst(k, v, '=');
      SplitWithoutSeparator(v, '=');
    }
    assert lib.quotePlus(p.0) == lib.quotePlus(q.0);
    assert lib.quotePlus(p.1) == lib.quotePlus(q.1);
  }

  /** The canonical query string determines the parameter list it was built from. */
  lemma UrlEncodeInjective(lib: Library, ps: seq<Pair>, qs: seq<Pair>)
    requires QuoteEscapesDelimiters(lib) && QuoteInjective(lib)
    ensures UrlEncode(lib, ps) == UrlEncode(lib, qs) ==> ps == qs
  {
    UrlEncodeEmpty(lib, ps);
    UrlEncodeEmpty(lib, qs);
    if UrlEncode(lib, ps) == UrlEncode(lib, qs) && ps != [] && qs != [] {
      UrlEncodeSegments(lib, ps);
      UrlEncodeSegments(lib, qs);
      var a, b := EncodePairs(lib, ps), EncodePairs(lib, qs);
      assert a == b;
      forall i | 0 <= i < |ps| ensures ps[i] == qs[i] {
        assert a[i] == b[i];
        EncodePairInjective(lib, ps[i], qs[i]);
      }
    }
  }

  /** Hex HMAC-SHA256 of a query string under the API secret. */
  function Signature(lib: Library, secret: string, qs: string): string
  {
    HexDigest(lib.hmacSha256(secret, qs))
  }

  /** `_sign(params)`: the canonical query string with the signature appended. */
  function Sign(lib: Library, secret: string, ps: seq<Pair>): string
  {
    var qs := UrlEncode(lib, ps);
    qs + "&signature=" + Signature(lib, secret, qs)
  }

  /** How a receiver reads a signed string: the text before the last `&` is what was signed. */
  function SignedPayload(s: string): string
  {
    var segs := Split(s, '&');
    Join(segs[..|segs| - 1], '&')
  }

  /** The segment after the last `&`. */
  function LastSegment(s: string): string
  {
    var segs := Split(s, '&');
    segs[|segs| - 1]
  }

  /** The receiver's check: the last segment is the signature of everything before it. */
  predicate Authentic(lib: Library, secret: string, s: string)
  {
    LastSegment(s) == "signature=" + Signature(lib, secret, SignedPayload(s))
  }

  /**
   * The signature covers exactly the transmitted query string: a receiver
   * recovers that string as the signed payload, finds the digest of it in the
   * last segment, and so accepts the signed string.
   */
  lemma SignCoversPayload(lib: Library, secret: string, ps: seq<Pair>)
    ensures SignedPayload(Sign(lib, secret, ps)) == UrlEncode(lib, ps)
    ensures LastSegment(Sign(lib, secret, ps)) == "signature=" + Signature(lib, secret, UrlEncode(lib, ps))
    ensures Authentic(lib, secret, Sign(lib, secret, ps))
  {
    var qs := UrlEncode(lib, ps);
    var tail := "signature=" + Signature(lib, secret, qs);
    assert Sign(lib, secret, ps) == qs + ['&'] + tail;
    assert '&' !in tail by {
      forall i | 0 <= i < |tail| ensures tail[i] != '&' {
        if i >= 10 {
          assert tail[i] == Signature(lib, secret, qs)[i - 10];
        }
      }
    }
    SplitLast(qs, tail, '&');
    var segs := Split(qs, '&') + [tail];
    assert segs[..|segs| - 1] == Split(qs, '&');
    JoinSplit(qs, '&');
  }
}
