/**
  Concrete cases of the service's documented behaviour, each derived from
  the general contracts.
 */
module Scenarios {
  import opened Wrappers
  import opened Text
  import opened Types
  import opened Requests
  import opened Service
  import F = Facade

  /** "http://h/" with version "/v2/" gives the base path "http://h/v2".
      The strings are parameters pinned by the precondition rather than
      literals in the call, so that the verifier does not unfold the
      recursive trimming functions character by character; the body
      reaches the result through `BasePathFromParts` instead. */
  lemma BasePathExample(baseURL: string, version: string)
    requires baseURL == "http://h/" && version == "/v2/"
    ensures New(Options(Some(baseURL), Some(version))) == Success(Client("http://h/v2"))
  {
    var host, segment := "http://h", "v2";
    assert host + "/" + segment == "http://h/v2";
    assert host <= baseURL && baseURL[|host|..] == "/";
    assert version[..1] == "/" && version[1..1 + |segment|] == segment && version[1 + |segment|..] == "/";
    BasePathFromParts(Options(Some(baseURL), Some(version)), host, 1, segment);
  }

  /** Without a version the base path ends in "/v1". The base URL is a
      parameter pinned by the precondition for the same reason as in
      `BasePathExample`. */
  lemma DefaultVersionExample(baseURL: string)
    requires baseURL == "http://h"
    ensures New(Options(Some(baseURL), None)) == Success(Client("http://h/v1"))
  {
    var segment := DefaultVersion;
    assert baseURL + "/" + segment == "http://h/v1";
    assert segment[0..0 + |segment|] == segment && Slashes(segment[..0]) && Slashes(segment[|segment|..]);
    BasePathFromParts(Options(Some(baseURL), None), baseURL, 0, segment);
  }

  /** An empty, a whitespace-only and an absent allele are all rejected
      before anything reaches the transport. */
  lemma BlankAlleleSendsNothing<D, E>(client: Client, transport: Request -> Result<F.HttpResponse<D>, E>)
    ensures F.Perform(client, F.GetBeadByAllele(Some("")), transport).sent == []
    ensures F.Perform(client, F.GetBeadByAllele(Some("   ")), transport).sent == []
    ensures F.Perform(client, F.GetBeadByAllele(None), transport).sent == []
  {
  }

  /** `queryBeads` with no alleles throws; with one allele it posts that
      payload to the bead endpoint and returns the transport's data. */
  lemma QueryBeadsExample<D, E>(client: Client, transport: Request -> Result<F.HttpResponse<D>, E>)
    ensures F.Perform(client, F.QueryBeads(BeadQuery([])), transport).settled
            == F.Thrown(ValidationError(NonEmptyArrayMessage("alleles")))
    ensures var call := F.QueryBeads(BeadQuery(["A*01:01"]));
            var x := F.Perform(client, call, transport);
            && x.sent == [PostRequest(client.basePath + "/bead", BeadQueryBody(BeadQuery(["A*01:01"])))]
            && (transport(x.sent[0]).Success? ==> x.settled == F.Resolved(transport(x.sent[0]).value.data))
  {
    var call := F.QueryBeads(BeadQuery(["A*01:01"]));
    F.PlanFollowsTable(client, call);
  }

  /** `getSerotypeByAllele` sends only the allele when no version is given,
      and the allele and the version when one is. */
  lemma SerotypeParamsExample(client: Client)
    ensures var r := GetSerotypeByAllele(client, Some("A*01:01"), None);
            r.Success? && r.value.GetRequest? && Keys(r.value.params) == ["allele"]
    ensures var r := GetSerotypeByAllele(client, Some("A*01:01"), Some(3));
            && r.Success? && r.value.GetRequest?
            && Keys(r.value.params) == ["allele", "version"]
            && Lookup(r.value.params, "version") == Some(NumberParam(3))
  {
    assert !IsWhitespace("A*01:01"[0]);
  }

  /** The filter endpoints validate nothing: an empty filter is still posted. */
  lemma EmptyFilterIsPosted<D, E>(client: Client, transport: Request -> Result<F.HttpResponse<D>, E>)
    ensures var empty := BeadFilterQuery(Undefined, Undefined, Undefined, Undefined, Undefined, Undefined, Undefined);
            F.Perform(client, F.FilterBeads(empty), transport).sent
            == [PostRequest(client.basePath + "/bead/filter", BeadFilterBody(empty))]
  {
  }
}
