/**
  What the service hands to its HTTP transport: the transport capability is
  a `get(url, config)` and a `post(url, data)`, so a request is one of those
  two calls with its arguments.
 */
module Requests {
  import opened Wrappers
  import opened Types

  datatype Verb = GET | POST

  /** A query-string parameter value: the allele is a string, the serotype
      version a number. */
  datatype ParamValue = StringParam(text: string) | NumberParam(number: int)

  /** Query parameters in the order the source's object literal lists them. */
  type Params = seq<(string, ParamValue)>

  /** How the transport is asked to decode the response body. */
  datatype ResponseType = Json | PlainText

  /** The body of a POST: one of the query payloads, as the caller gave it. */
  datatype Body =
    | BeadQueryBody(beadQuery: BeadQuery)
    | BeadFilterBody(beadFilter: BeadFilterQuery)
    | SerologicalQueryBody(serologicalQuery: SerologicalQuery)
    | SerotypeQueryBody(serotypeQuery: SerotypeQuery)
    | SerotypeFilterBody(serotypeFilter: SerotypeFilterQuery)

  datatype Request =
    | GetRequest(url: string, params: Params, responseType: ResponseType)
    | PostRequest(url: string, body: Body)
  {
    function Verb(): Verb {
      if GetRequest? then GET else POST
    }
  }

  /** The parameter names, in order. */
  function Keys(params: Params): (keys: seq<string>)
    ensures |keys| == |params|
    ensures forall i :: 0 <= i < |params| ==> keys[i] == params[i].0
  {
    seq(|params|, i requires 0 <= i < |params| => params[i].0)
  }

  /** The value of the first parameter named `key`, if any. */
  function Lookup(params: Params, key: string): (v: Option<ParamValue>)
    ensures v.None? <==> key !in Keys(params)
    ensures v.Some? ==> (key, v.value) in params
  {
    if |params| == 0 then None
    else if params[0].0 == key then Some(params[0].1)
    else
      assert Keys(params) == [params[0].0] + Keys(params[1..]);
      Lookup(params[1..], key)
  }
}
