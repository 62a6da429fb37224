/**
  The `HatxService` facade: construction of the base path, the two input
  guards, and the request each public method hands to the transport. Every
  method is a pure function from its arguments to either the request it
  would issue or the error it would throw before issuing anything.
 */
module Service {
  import opened Wrappers
  import opened Text
  import opened Types
  import opened Requests

  const DefaultVersion: string := "v1"

  /** The recognised construction options. `axiosConfig` and `httpClient`
      only select the transport and are not modelled. */
  datatype Options = Options(baseURL: Option<string>, version: Option<string>)

  /** A constructed service: the base path is computed once and never changes. */
  datatype Client = Client(basePath: string)

  /** The source throws a plain `Error` in both cases; the kinds name where
      it is thrown. */
  datatype ServiceError = ConfigurationError(message: string) | ValidationError(message: string)

  const MissingBaseUrl: string := "HatxService requires a baseURL."

  /** JavaScript truthiness of an optional string: absent and `""` are falsy. */
  predicate Truthy(value: Option<string>) {
    value.Some? && value.value != ""
  }

  /** The constructor. It throws unless `baseURL` is a non-empty string; the
      version falls back to "v1" only when it is absent (nullish), so an explicit
      empty version is kept. */
  function New(options: Options): (r: Result<Client, ServiceError>)
    ensures r.Failure? <==> options.baseURL.None? || options.baseURL.value == ""
    ensures r.Failure? ==> r.error == ConfigurationError(MissingBaseUrl)
    ensures r.Success? ==>
              var version := if options.version.Some? then options.version.value else "v1";
              r.value.basePath == TrimTrailingSlash(options.baseURL.value) + "/" + TrimSlashes(version)
  {
    if !Truthy(options.baseURL) then
      Failure(ConfigurationError(MissingBaseUrl))
    else
      var version := options.version.GetOr(DefaultVersion);
      Success(Client(TrimTrailingSlash(options.baseURL.value) + "/" + TrimSlashes(version)))
  }

  /** The base path is the base URL without its trailing slash run, one
      slash, and the version without its surrounding slash runs, where each
      part is described by what it is rather than by how it is computed. */
  lemma BasePathFromParts(options: Options, host: string, i: nat, segment: string)
    requires Truthy(options.baseURL)
    requires host <= options.baseURL.value
    requires |host| == 0 || host[|host| - 1] != '/'
    requires Slashes(options.baseURL.value[|host|..])
    requires FramedBySlashes(options.version.GetOr(DefaultVersion), i, segment)
    requires NoEdgeSlash(segment)
    ensures New(options) == Success(Client(host + "/" + segment))
  {
    TrimTrailingSlashUnique(options.baseURL.value, host);
    TrimSlashesUnique(options.version.GetOr(DefaultVersion), i, segment);
  }

  /** An absent version and an explicit "v1" build the same client. */
  lemma AbsentVersionIsDefault(baseURL: Option<string>)
    ensures New(Options(baseURL, None)) == New(Options(baseURL, Some(DefaultVersion)))
  {
  }

  /** An explicit version made only of slashes (the empty one included) is
      not replaced by the default: the base path then ends in the joining slash. */
  lemma SlashOnlyVersionKept(baseURL: string, version: string)
    requires baseURL != "" && Slashes(version)
    ensures New(Options(Some(baseURL), Some(version))) == Success(Client(TrimTrailingSlash(baseURL) + "/"))
  {
    TrimSlashesEmptyIff(version);
    var joined := TrimTrailingSlash(baseURL) + "/";
    assert joined + "" == joined;
  }

  /** When the version has a character other than a slash, the base path
      ends in neither a slash nor a doubled slash at the join: endpoint
      paths, which start with a slash, are joined with exactly one. */
  lemma BasePathJoinsCleanly(options: Options)
    requires New(options).Success?
    requires !Slashes(options.version.GetOr(DefaultVersion))
    ensures var basePath := New(options).value.basePath;
            var host := TrimTrailingSlash(options.baseURL.value);
            && basePath[|basePath| - 1] != '/'
            && basePath[|host|] == '/'
            && basePath[|host| + 1] != '/'
            && (|host| > 0 ==> basePath[|host| - 1] != '/')
  {
    var version := options.version.GetOr(DefaultVersion);
    TrimSlashesEmptyIff(version);
    var host := TrimTrailingSlash(options.baseURL.value);
    var segment := TrimSlashes(version);
    var basePath := host + "/" + segment;
    assert basePath[|host| + 1] == segment[0];
    assert basePath[|basePath| - 1] == segment[|segment| - 1];
  }

  /** `buildUrl`: the endpoint path appended to the base path. The base path
      can be read back off the front of the URL and the path off the back. */
  function BuildUrl(client: Client, path: string): (url: string)
    ensures |url| == |client.basePath| + |path|
    ensures url[..|client.basePath|] == client.basePath
    ensures url[|client.basePath|..] == path
  {
    client.basePath + path
  }

  function RequiredStringMessage(field: string): string {
    "Expected a non-empty value for " + field + "."
  }

  function NonEmptyArrayMessage(field: string): string {
    "Expected " + field + " to be a non-empty array."
  }

  /** `assertRequiredString`: throws when the value is falsy (absent or
      empty) or when trimming it leaves nothing. */
  function AssertRequiredString(value: Option<string>, field: string): (r: Outcome<ServiceError>)
    ensures r.Fail? <==> value.None? || Blank(value.value)
    ensures r.Pass? <==> value.Some? && exists i :: 0 <= i < |value.value| && !IsWhitespace(value.value[i])
    ensures r.Fail? ==> r.error == ValidationError(RequiredStringMessage(field))
  {
    if !Truthy(value) || Trim(value.value) == "" then
      Fail(ValidationError(RequiredStringMessage(field)))
    else
      Pass
  }

  /** `assertArray`: fails on an empty array. */
  function AssertArray<T>(value: seq<T>, field: string): (r: Outcome<ServiceError>)
    ensures r.Fail? <==> value == []
    ensures r.Fail? ==> r.error == ValidationError(NonEmptyArrayMessage(field))
  {
    if |value| == 0 then Fail(ValidationError(NonEmptyArrayMessage(field))) else Pass
  }

  /** The private `get`: the transport's `get` receives the built URL and
      the method's request configuration, unchanged. */
  function Get(client: Client, path: string, params: Params, responseType: ResponseType): (r: Request)
    ensures r.Verb() == GET && r.GetRequest?
    ensures |r.url| == |client.basePath| + |path|
    ensures r.url[..|client.basePath|] == client.basePath && r.url[|client.basePath|..] == path
    ensures r.params == params && r.responseType == responseType
  {
    GetRequest(BuildUrl(client, path), params, responseType)
  }

  /** The private `post`: the transport's `post` receives the built URL and
      the payload, unchanged. */
  function Post(client: Client, path: string, body: Body): (r: Request)
    ensures r.Verb() == POST && r.PostRequest?
    ensures |r.url| == |client.basePath| + |path|
    ensures r.url[..|client.basePath|] == client.basePath && r.url[|client.basePath|..] == path
    ensures r.body == body
  {
    PostRequest(BuildUrl(client, path), body)
  }

  function GetSystemHealth(client: Client): (r: Request)
    ensures r.GetRequest? && r.url == client.basePath + "/system/health"
    ensures r.params == [] && r.responseType == Json
  {
    Get(client, "/system/health", [], Json)
  }

  function GetSystemInfo(client: Client): (r: Request)
    ensures r.GetRequest? && r.url == client.basePath + "/system/info"
    ensures r.params == [] && r.responseType == Json
  {
    Get(client, "/system/info", [], Json)
  }

  /** The changelog is the one response the transport decodes as raw text. */
  function GetSystemChangelog(client: Client): (r: Request)
    ensures r.GetRequest? && r.url == client.basePath + "/system/changelog"
    ensures r.params == [] && r.responseType == PlainText
  {
    Get(client, "/system/changelog", [], PlainText)
  }

  function GetBeadByAllele(client: Client, allele: Option<string>): (r: Result<Request, ServiceError>)
    ensures r.Failure? <==> allele.None? || Blank(allele.value)
    ensures r.Failure? ==> r.error == ValidationError(RequiredStringMessage("allele"))
    ensures r.Success? ==> && r.value.GetRequest? && r.value.url == client.basePath + "/bead"
                           && r.value.params == [("allele", StringParam(allele.value))]
                           && r.value.responseType == Json
  {
    match AssertRequiredString(allele, "allele")
    case Fail(e) => Failure(e)
    case Pass => Success(Get(client, "/bead", [("allele", StringParam(allele.value))], Json))
  }

  function QueryBeads(client: Client, payload: BeadQuery): (r: Result<Request, ServiceError>)
    ensures r.Failure? <==> payload.alleles == []
    ensures r.Failure? ==> r.error == ValidationError(NonEmptyArrayMessage("alleles"))
    ensures r.Success? ==> r.value.PostRequest? && r.value.url == client.basePath + "/bead"
                           && r.value.body == BeadQueryBody(payload)
  {
    match AssertArray(payload.alleles, "alleles")
    case Fail(e) => Failure(e)
    case Pass => Success(Post(client, "/bead", BeadQueryBody(payload)))
  }

  /** No validation: the filter, whatever its fields, is always posted. */
  function FilterBeads(client: Client, payload: BeadFilterQuery): (r: Request)
    ensures r.PostRequest? && r.url == client.basePath + "/bead/filter"
    ensures r.body == BeadFilterBody(payload)
  {
    Post(client, "/bead/filter", BeadFilterBody(payload))
  }

  function GetSerologicalByAllele(client: Client, allele: Option<string>): (r: Result<Request, ServiceError>)
    ensures r.Failure? <==> allele.None? || Blank(allele.value)
    ensures r.Failure? ==> r.error == ValidationError(RequiredStringMessage("allele"))
    ensures r.Success? ==> && r.value.GetRequest? && r.value.url == client.basePath + "/serological"
                           && r.value.params == [("allele", StringParam(allele.value))]
                           && r.value.responseType == Json
  {
    match AssertRequiredString(allele, "allele")
    case Fail(e) => Failure(e)
    case Pass => Success(Get(client, "/serological", [("allele", StringParam(allele.value))], Json))
  }

  function QuerySerological(client: Client, payload: SerologicalQuery): (r: Result<Request, ServiceError>)
    ensures r.Failure? <==> payload.alleles == []
    ensures r.Failure? ==> r.error == ValidationError(NonEmptyArrayMessage("alleles"))
    ensures r.Success? ==> r.value.PostRequest? && r.value.url == client.basePath + "/serological"
                           && r.value.body == SerologicalQueryBody(payload)
  {
    match AssertArray(payload.alleles, "alleles")
    case Fail(e) => Failure(e)
    case Pass => Success(Post(client, "/serological", SerologicalQueryBody(payload)))
  }

  /** The query parameters of `getSerotypeByAllele`: the allele, then the
      version when one is given (spreading `undefined` adds no key). */
  function SerotypeParams(allele: string, version: Option<int>): (params: Params)
    ensures Keys(params) == if version.Some? then ["allele", "version"] else ["allele"]
    ensures Lookup(params, "allele") == Some(StringParam(allele))
    ensures Lookup(params, "version") == if version.Some? then Some(NumberParam(version.value)) else None
  {
    [("allele", StringParam(allele))] + if version.Some? then [("version", NumberParam(version.value))] else []
  }

  function GetSerotypeByAllele(client: Client, allele: Option<string>, version: Option<int>): (r: Result<Request, ServiceError>)
    ensures r.Failure? <==> allele.None? || Blank(allele.value)
    ensures r.Failure? ==> r.error == ValidationError(RequiredStringMessage("allele"))
    ensures r.Success? ==> && r.value.GetRequest? && r.value.url == client.basePath + "/serotype"
                           && r.value.params == SerotypeParams(allele.value, version)
                           && r.value.responseType == Json
  {
    match AssertRequiredString(allele, "allele")
    case Fail(e) => Failure(e)
    case Pass => Success(Get(client, "/serotype", SerotypeParams(allele.value, version), Json))
  }

  function QuerySerotype(client: Client, payload: SerotypeQuery): (r: Result<Request, ServiceError>)
    ensures r.Failure? <==> payload.alleles == []
    ensures r.Failure? ==> r.error == ValidationError(NonEmptyArrayMessage("alleles"))
    ensures r.Success? ==> r.value.PostRequest? && r.value.url == client.basePath + "/serotype"
                           && r.value.body == SerotypeQueryBody(payload)
  {
    match AssertArray(payload.alleles, "alleles")
    case Fail(e) => Failure(e)
    case Pass => Success(Post(client, "/serotype", SerotypeQueryBody(payload)))
  }

  /** No validation: the filter, whatever its fields, is always posted. */
  function FilterSerotype(client: Client, payload: SerotypeFilterQuery): (r: Request)
    ensures r.PostRequest? && r.url == client.basePath + "/serotype/filter"
    ensures r.body == SerotypeFilterBody(payload)
  {
    Post(client, "/serotype/filter", SerotypeFilterBody(payload))
  }
}
