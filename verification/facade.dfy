/**
  The public surface of the service seen as a whole: one `Call` per public
  method, the endpoint table those methods are meant to follow, and the
  exchange with an abstract transport (the `{get, post}` capability, here a
  function from a request to either a response or the transport's error).
 */
module Facade {
  import opened Wrappers
  import opened Text
  import opened Types
  import opened Requests
  import S = Service

  /** A call of one public method with its arguments. */
  datatype Call =
    | GetSystemHealth
    | GetSystemInfo
    | GetSystemChangelog
    | GetBeadByAllele(allele: Option<string>)
    | QueryBeads(beadQuery: BeadQuery)
    | FilterBeads(beadFilter: BeadFilterQuery)
    | GetSerologicalByAllele(allele: Option<string>)
    | QuerySerological(serologicalQuery: SerologicalQuery)
    | GetSerotypeByAllele(allele: Option<string>, version: Option<int>)
    | QuerySerotype(serotypeQuery: SerotypeQuery)
    | FilterSerotype(serotypeFilter: SerotypeFilterQuery)

  /** The request (or the thrown error) each public method produces: it
      throws exactly when the endpoint table's validation fails, and otherwise
      builds a request with the table's verb for the base path followed by the
      table's path. */
  function Plan(client: S.Client, call: Call): (r: Result<Request, S.ServiceError>)
    ensures r.Success? <==> Admissible(call)
    ensures r.Failure? ==> r.error == S.ValidationError(RejectionMessage(call))
    ensures r.Success? ==> r.value.url == client.basePath + EndpointPath(call)
                           && r.value.Verb() == EndpointVerb(call)
  {
    match call
    case GetSystemHealth => Success(S.GetSystemHealth(client))
    case GetSystemInfo => Success(S.GetSystemInfo(client))
    case GetSystemChangelog => Success(S.GetSystemChangelog(client))
    case GetBeadByAllele(_) => PlanLookup(client, call)
    case GetSerologicalByAllele(_) => PlanLookup(client, call)
    case GetSerotypeByAllele(_, _) => PlanLookup(client, call)
    case QueryBeads(q) => S.QueryBeads(client, q)
    case FilterBeads(q) => Success(S.FilterBeads(client, q))
    case QuerySerological(q) => S.QuerySerological(client, q)
    case QuerySerotype(q) => S.QuerySerotype(client, q)
    case FilterSerotype(q) => Success(S.FilterSerotype(client, q))
  }

  /** The three lookups by allele, whose guard is the required-string check. */
  function PlanLookup(client: S.Client, call: Call): (r: Result<Request, S.ServiceError>)
    requires call.GetBeadByAllele? || call.GetSerologicalByAllele? || call.GetSerotypeByAllele?
    ensures r.Success? <==> Admissible(call)
    ensures r.Failure? ==> r.error == S.ValidationError(RejectionMessage(call))
    ensures r.Success? ==> r.value.url == client.basePath + EndpointPath(call)
                           && r.value.Verb() == EndpointVerb(call)
  {
    HasContentIsNotBlank(call.allele);
    match call
    case GetBeadByAllele(allele) => S.GetBeadByAllele(client, allele)
    case GetSerologicalByAllele(allele) => S.GetSerologicalByAllele(client, allele)
    case GetSerotypeByAllele(allele, version) => S.GetSerotypeByAllele(client, allele, version)
  }

  lemma HasContentIsNotBlank(value: Option<string>)
    ensures HasContent(value) <==> !(value.None? || Blank(value.value))
  {
  }

  // The endpoint table: verb, path, payload and validation of each method,
  // written independently of the functions above.

  function EndpointVerb(call: Call): Verb {
    match call
    case GetSystemHealth | GetSystemInfo | GetSystemChangelog => GET
    case GetBeadByAllele(_) | GetSerologicalByAllele(_) | GetSerotypeByAllele(_, _) => GET
    case _ => POST
  }

  function EndpointPath(call: Call): string {
    match call
    case GetSystemHealth => "/system/health"
    case GetSystemInfo => "/system/info"
    case GetSystemChangelog => "/system/changelog"
    case GetBeadByAllele(_) | QueryBeads(_) => "/bead"
    case FilterBeads(_) => "/bead/filter"
    case GetSerologicalByAllele(_) | QuerySerological(_) => "/serological"
    case GetSerotypeByAllele(_, _) | QuerySerotype(_) => "/serotype"
    case FilterSerotype(_) => "/serotype/filter"
  }

  /** A present string with at least one non-whitespace character. */
  predicate HasContent(value: Option<string>) {
    value.Some? && exists i :: 0 <= i < |value.value| && !IsWhitespace(value.value[i])
  }

  /** The pre-flight validation each method performs. */
  predicate Admissible(call: Call) {
    match call
    case GetBeadByAllele(allele) => HasContent(allele)
    case GetSerologicalByAllele(allele) => HasContent(allele)
    case GetSerotypeByAllele(allele, _) => HasContent(allele)
    case QueryBeads(q) => |q.alleles| > 0
    case QuerySerological(q) => |q.alleles| > 0
    case QuerySerotype(q) => |q.alleles| > 0
    case _ => true
  }

  /** The message a method throws when its validation fails. */
  function RejectionMessage(call: Call): string {
    match call
    case GetBeadByAllele(_) | GetSerologicalByAllele(_) | GetSerotypeByAllele(_, _) =>
      S.RequiredStringMessage("allele")
    case _ => S.NonEmptyArrayMessage("alleles")
  }

  /** The payload a POST carries: the caller's argument, untouched. */
  function Payload(call: Call): Option<Body> {
    match call
    case QueryBeads(q) => Some(BeadQueryBody(q))
    case FilterBeads(q) => Some(BeadFilterBody(q))
    case QuerySerological(q) => Some(SerologicalQueryBody(q))
    case QuerySerotype(q) => Some(SerotypeQueryBody(q))
    case FilterSerotype(q) => Some(SerotypeFilterBody(q))
    case _ => None
  }

  /** The query-string keys a GET carries. */
  function QueryKeys(call: Call): seq<string> {
    match call
    case GetBeadByAllele(_) | GetSerologicalByAllele(_) => ["allele"]
    case GetSerotypeByAllele(_, version) => if version.Some? then ["allele", "version"] else ["allele"]
    case _ => []
  }

  /** Every method agrees with the endpoint table: it throws exactly when its
      validation fails, and otherwise its one request goes to the base path
      followed by the endpoint's path, with the table's verb, the allele (and
      the serotype version when given) as the only query parameters, and the
      caller's payload as the body. */
  lemma PlanFollowsTable(client: S.Client, call: Call)
    ensures Plan(client, call).Success? <==> Admissible(call)
    ensures Plan(client, call).Failure? ==>
              Plan(client, call).error == S.ValidationError(RejectionMessage(call))
    ensures Plan(client, call).Success? ==>
              var request := Plan(client, call).value;
              && request.url == client.basePath + EndpointPath(call)
              && request.Verb() == EndpointVerb(call)
              && (request.PostRequest? ==> Payload(call) == Some(request.body))
              && (request.GetRequest? ==> Payload(call) == None && Keys(request.params) == QueryKeys(call))
              && (request.GetRequest? ==> (request.responseType == PlainText <==> call.GetSystemChangelog?))
  {
    if call.GetSystemHealth? || call.GetSystemInfo? || call.GetSystemChangelog? {
      SystemCallsFollowTable(client, call);
    } else if call.GetBeadByAllele? || call.GetSerologicalByAllele? || call.GetSerotypeByAllele? {
      LookupsFollowTable(client, call);
    } else {
      PostsFollowTable(client, call);
    }
  }

  lemma SystemCallsFollowTable(client: S.Client, call: Call)
    requires call.GetSystemHealth? || call.GetSystemInfo? || call.GetSystemChangelog?
    ensures Admissible(call) && Plan(client, call).Success?
    ensures var request := Plan(client, call).value;
            && request.GetRequest? && request.url == client.basePath + EndpointPath(call)
            && EndpointVerb(call) == GET && Payload(call) == None
            && Keys(request.params) == QueryKeys(call) == []
            && (request.responseType == PlainText <==> call.GetSystemChangelog?)
  {
  }

  lemma LookupsFollowTable(client: S.Client, call: Call)
    requires call.GetBeadByAllele? || call.GetSerologicalByAllele? || call.GetSerotypeByAllele?
    ensures Plan(client, call).Success? <==> Admissible(call)
    ensures Plan(client, call).Failure? ==>
              Plan(client, call).error == S.ValidationError(RejectionMessage(call))
    ensures Plan(client, call).Success? ==>
              var request := Plan(client, call).value;
              && request.GetRequest? && request.url == client.basePath + EndpointPath(call)
              && EndpointVerb(call) == GET && Payload(call) == None
              && Keys(request.params) == QueryKeys(call)
              && request.responseType == Json
  {
    assert Keys([("allele", StringParam(call.allele.GetOr("")))]) == ["allele"];
  }

  lemma PostsFollowTable(client: S.Client, call: Call)
    requires call.QueryBeads? || call.FilterBeads? || call.QuerySerological?
             || call.QuerySerotype? || call.FilterSerotype?
    ensures Plan(client, call).Success? <==> Admissible(call)
    ensures Plan(client, call).Failure? ==>
              Plan(client, call).error == S.ValidationError(RejectionMessage(call))
    ensures Plan(client, call).Success? ==>
              var request := Plan(client, call).value;
              && request.PostRequest? && request.url == client.basePath + EndpointPath(call)
              && EndpointVerb(call) == POST && Payload(call) == Some(request.body)
  {
  }

  /** The allele the caller passed is sent as the `allele` parameter, and a
      serotype version is sent exactly when the caller supplied one. */
  lemma ParamsCarryArguments(client: S.Client, call: Call)
    requires call.GetBeadByAllele? || call.GetSerologicalByAllele? || call.GetSerotypeByAllele?
    requires Plan(client, call).Success?
    ensures var request := Plan(client, call).value;
            && request.GetRequest?
            && call.allele.Some?
            && Lookup(request.params, "allele") == Some(StringParam(call.allele.value))
            && Lookup(request.params, "version") ==
                 if call.GetSerotypeByAllele? && call.version.Some? then Some(NumberParam(call.version.value)) else None
  {
    PlanFollowsTable(client, call);
    var request := Plan(client, call).value;
    if !call.GetSerotypeByAllele? {
      assert request.params == [("allele", StringParam(call.allele.value))];
      assert Keys(request.params) == ["allele"];
    }
  }

  /** What the transport returns for one request: axios's response, whose
      `data` the service hands back. */
  datatype HttpResponse<+D> = HttpResponse(status: int, data: D)

  /** How a call settles: with the response data, with the error thrown before
      dispatch, or with the transport's own error. */
  datatype Settled<+D, +E> = Resolved(data: D) | Thrown(error: S.ServiceError) | TransportFailed(failure: E)

  /** One call: the requests the transport saw and how the call settled. */
  datatype Exchange<+D, +E> = Exchange(sent: seq<Request>, settled: Settled<D, E>)

  /** A call against a transport. Validation failures settle before the
      transport is reached; otherwise the one request goes out and its result
      comes back untouched: `response.data` on success, the transport's error
      on failure. */
  function Perform<D, E>(client: S.Client, call: Call, transport: Request -> Result<HttpResponse<D>, E>): (x: Exchange<D, E>)
    ensures x.sent == [] <==> !Admissible(call)
    ensures |x.sent| <= 1
    ensures !Admissible(call) ==> x.settled == Thrown(S.ValidationError(RejectionMessage(call)))
    ensures Admissible(call) ==>
              && x.sent == [Plan(client, call).value]
              && x.sent[0].url == client.basePath + EndpointPath(call)
              && x.sent[0].Verb() == EndpointVerb(call)
              && match transport(x.sent[0])
                 case Success(response) => x.settled == Resolved(response.data)
                 case Failure(failure) => x.settled == TransportFailed(failure)
  {
    PlanFollowsTable(client, call);
    match Plan(client, call)
    case Failure(e) => Exchange([], Thrown(e))
    case Success(request) =>
      var settled := match transport(request)
        case Success(response) => Resolved(response.data)
        case Failure(failure) => TransportFailed(failure);
      Exchange([request], settled)
  }

  /** A call that fails validation settles the same way whatever the
      transport would have done. */
  lemma RejectionIgnoresTransport<D, E>(client: S.Client, call: Call,
                                        t1: Request -> Result<HttpResponse<D>, E>,
                                        t2: Request -> Result<HttpResponse<D>, E>)
    requires !Admissible(call)
    ensures Perform(client, call, t1) == Perform(client, call, t2)
  {
  }

  /** The calls of `calls` that pass validation, in their original order. */
  function Admitted(calls: seq<Call>): (admitted: seq<Call>)
    ensures |admitted| <= |calls|
    ensures forall c :: c in admitted <==> c in calls && Admissible(c)
  {
    if calls == [] then []
    else (if Admissible(calls[0]) then [calls[0]] else []) + Admitted(calls[1..])
  }

  /** `Admitted` keeps each admissible call as many times as it was made,
      and no other call. */
  lemma {:induction false} AdmittedCounts(calls: seq<Call>)
    ensures forall c :: multiset(Admitted(calls))[c] == if Admissible(c) then multiset(calls)[c] else 0
  {
    if calls != [] {
      AdmittedCounts(calls[1..]);
      assert calls == [calls[0]] + calls[1..];
    }
  }

  /** Every request the transport sees over a sequence of calls made on one
      client, in order: exactly the planned request of each call that passes
      validation, all under the one base path. */
  function Sent<D, E>(client: S.Client, calls: seq<Call>, transport: Request -> Result<HttpResponse<D>, E>): (sent: seq<Request>)
    ensures |sent| == |Admitted(calls)|
    ensures forall k :: 0 <= k < |sent| ==> Plan(client, Admitted(calls)[k]) == Success(sent[k])
    ensures forall k :: 0 <= k < |sent| ==> client.basePath <= sent[k].url
  {
    if calls == [] then []
    else
      var first := Perform(client, calls[0], transport).sent;
      var rest := Sent(client, calls[1..], transport);
      assert Admitted(calls) == (if Admissible(calls[0]) then [calls[0]] else []) + Admitted(calls[1..]);
      PlannedConcat(client, calls[0], first, Admitted(calls[1..]), rest);
      first + rest
  }

  /** One more call in front of a session: the requests still line up, index
      by index, with the planned requests of the admitted calls. */
  lemma PlannedConcat(client: S.Client, call: Call, first: seq<Request>, admitted: seq<Call>, rest: seq<Request>)
    requires Admissible(call) ==> first == [Plan(client, call).value]
    requires !Admissible(call) ==> first == []
    requires |rest| == |admitted|
    requires forall k :: 0 <= k < |rest| ==> Plan(client, admitted[k]) == Success(rest[k])
    requires forall k :: 0 <= k < |rest| ==> client.basePath <= rest[k].url
    ensures var all := (if Admissible(call) then [call] else []) + admitted;
            && |first + rest| == |all|
            && (forall k :: 0 <= k < |first + rest| ==> Plan(client, all[k]) == Success((first + rest)[k]))
            && (forall k :: 0 <= k < |first + rest| ==> client.basePath <= (first + rest)[k].url)
  {
    if Admissible(call) {
      PlanFollowsTable(client, call);
    }
  }
}
