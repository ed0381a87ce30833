/**
 * Python's insertion-ordered `dict`, as a list of key/value pairs with
 * distinct keys (every dict of the proxy has string keys). `Put` is `d[k] = v`: an existing key keeps its place and
 * gets the new value, a new key goes to the end.
 */
module OrderedDict {
  import opened Wrappers

  /** The keys, in insertion order. */
  function Keys<V>(d: seq<(string, V)>): (ks: seq<string>)
    ensures |ks| == |d|
  {
    if d == [] then [] else [d[0].0] + Keys(d[1..])
  }

  lemma {:induction false} KeysAt<V>(d: seq<(string, V)>)
    ensures forall i :: 0 <= i < |d| ==> Keys(d)[i] == d[i].0
  {
    if d != [] {
      KeysAt(d[1..]);
      assert forall i :: 0 < i < |d| ==> Keys(d)[i] == Keys(d[1..])[i - 1] && d[i] == d[1..][i - 1];
    }
  }

  /** What every Python dict satisfies: no key occurs twice. */
  predicate DistinctKeys<V>(d: seq<(string, V)>)
  {
    d == [] || (d[0].0 !in Keys(d[1..]) && DistinctKeys(d[1..]))
  }

  /** Distinct keys is the same as no two positions holding the same key. */
  lemma {:induction false} DistinctKeysPairwise<V>(d: seq<(string, V)>)
    ensures DistinctKeys(d) <==> forall i, j :: 0 <= i < j < |d| ==> d[i].0 != d[j].0
  {
    if d != [] {
      DistinctKeysPairwise(d[1..]);
      KeysAt(d[1..]);
      assert forall j :: 0 < j < |d| ==> d[j] == d[1..][j - 1];
    }
  }

  /** `d.get(k)`: the value stored under `k`, if any. */
  function Lookup<V>(d: seq<(string, V)>, k: string): (r: Option<V>)
    ensures r.Some? <==> k in Keys(d)
  {
    if d == [] then None
    else if d[0].0 == k then Some(d[0].1)
    else Lookup(d[1..], k)
  }

  /** In a dict with distinct keys, the key at each position looks up the value at that position. */
  lemma {:induction false} LookupAt<V>(d: seq<(string, V)>, i: nat)
    requires DistinctKeys(d) && i < |d|
    ensures Lookup(d, d[i].0) == Some(d[i].1)
  {
    if i > 0 {
      LookupAt(d[1..], i - 1);
      assert d[i] == d[1..][i - 1];
      assert d[i].0 in Keys(d[1..]);
    }
  }

  /** `d[k] = v`. */
  function Put<V>(d: seq<(string, V)>, k: string, v: V): (r: seq<(string, V)>)
    ensures Lookup(r, k) == Some(v)
    ensures forall k' :: k' != k ==> Lookup(r, k') == Lookup(d, k')
    ensures forall k' :: k' in Keys(r) <==> k' == k || k' in Keys(d)
    ensures k !in Keys(d) ==> r == d + [(k, v)]
    ensures k in Keys(d) ==> Keys(r) == Keys(d)
    ensures DistinctKeys(d) ==> DistinctKeys(r)
  {
    if d == [] then [(k, v)]
    else if d[0].0 == k then [(k, v)] + d[1..]
    else [d[0]] + Put(d[1..], k, v)
  }

  /** `d.update(e)` for a dict `e` given by its pairs: one `Put` per pair, in order. */
  function PutAll<V>(d: seq<(string, V)>, e: seq<(string, V)>): (r: seq<(string, V)>)
    ensures DistinctKeys(d) ==> DistinctKeys(r)
    ensures forall k' :: k' in Keys(r) <==> k' in Keys(d) || k' in Keys(e)
    decreases |e|
  {
    if e == [] then d else PutAll(Put(d, e[0].0, e[0].1), e[1..])
  }

  /** `d.update(e)` gives each key of `e` its value in `e`, and every other key its value in `d`. */
  lemma {:induction false} PutAllLookup<V>(d: seq<(string, V)>, e: seq<(string, V)>, k: string)
    requires DistinctKeys(e)
    ensures Lookup(PutAll(d, e), k) == if k in Keys(e) then Lookup(e, k) else Lookup(d, k)
    decreases |e|
  {
    if e != [] {
      PutAllLookup(Put(d, e[0].0, e[0].1), e[1..], k);
    }
  }

  lemma AppendHead<T>(d: seq<T>, e: seq<T>)
    requires e != []
    ensures d + [e[0]] + e[1..] == d + e
  {
  }

  /** Updating with pairs whose keys are new and distinct appends them in order. */
  lemma {:induction false} PutAllFresh<V>(d: seq<(string, V)>, e: seq<(string, V)>)
    requires DistinctKeys(e)
    requires forall k :: k in Keys(e) ==> k !in Keys(d)
    ensures PutAll(d, e) == d + e
    decreases |e|
  {
    if e != [] {
      var k0, rest := e[0].0, e[1..];
      var d' := Put(d, k0, e[0].1);
      assert Keys(e) == [k0] + Keys(rest);
      assert d' == d + [e[0]] by {
        assert k0 in Keys(e);
      }
      assert forall k :: k in Keys(rest) ==> k !in Keys(d') by {
        forall k | k in Keys(rest) ensures k !in Keys(d') {
          assert k in Keys(e) && k != k0;
        }
      }
      PutAllFresh(d', rest);
      assert PutAll(d, e) == PutAll(d', rest);
      AppendHead(d, e);
    }
  }
}
