/**
 * UPI payment deep links, as both the payment form and the server build them:
 * an app-specific scheme followed by an ordered list of query parameters.
 * The link is kept structured (scheme plus parameters) rather than rendered
 * to text, because the percent-encoding of `URLSearchParams` is library
 * behaviour outside this model.
 */
module Upi {
  import opened Wrappers

  datatype Param = Param(key: string, value: string)

  /** `scheme?k1=v1&k2=v2...` before encoding. */
  datatype Link = Link(scheme: string, query: seq<Param>)

  /** The parameter names of a query, in order. */
  function Keys(query: seq<Param>): (ks: seq<string>)
    ensures |ks| == |query|
    ensures forall k :: 0 <= k < |query| ==> ks[k] == query[k].key
  {
    if |query| == 0 then [] else [query[0].key] + Keys(query[1..])
  }

  /** `URLSearchParams.get`: the value of the first parameter named `key`. */
  function Lookup(query: seq<Param>, key: string): (v: Option<string>)
    ensures v.None? <==> key !in Keys(query)
    ensures v.Some? ==> Param(key, v.value) in query
  {
    if |query| == 0 then None
    else if query[0].key == key then Some(query[0].value)
    else Lookup(query[1..], key)
  }

  /**
   * When the parameter names are distinct, every parameter is found again
   * under its own name: a link carries exactly the values it was built from.
   */
  lemma {:induction false} LookupFindsEachParam(query: seq<Param>, k: nat)
    requires k < |query|
    requires forall i, j :: 0 <= i < j < |query| ==> query[i].key != query[j].key
    ensures Lookup(query, query[k].key) == Some(query[k].value)
  {
    if k > 0 {
      assert query[0].key != query[k].key;
      assert query[1..][k - 1] == query[k];
      LookupFindsEachParam(query[1..], k - 1);
    }
  }
}
