# HATX service client — a Dafny model

This project models the request-construction core of `HatxService`, a typed
client for a remote HLA reference-data service (beads, serological and
serotype data, system health and info). The facade checks its inputs, builds a
base path once at construction, and hands one GET or POST per public method to
an HTTP transport. Here every public method is a pure function from its
arguments to either the request it would hand to the transport or the error it
would throw first. The transport is an abstract `{get, post}` capability: a
function from a request to either a response or the transport's own error.

Modules, following the source's structure:

- `Wrappers`: `Option`, `Result` and `Outcome`. An `Outcome` is a guard that passes or throws.
- `Strip`: removes runs of one character class from the ends of a string. Both
  slash trimming and JavaScript's `trim` are instances of it.
- `Text`: `trimTrailingSlash` and `trimSlashes`, the `IsWhitespace` class
  (the ECMAScript WhiteSpace and LineTerminator code points) and `Trim`.
- `Types`: the query payloads of `src/types.ts`.
- `Requests`: the request handed to the transport, which is a `get(url, config)` or a `post(url, data)`.
- `Service`: the constructor, `buildUrl`, the two guards and one function per public method.
- `Facade`: one `Call` per public method and the endpoint table (verb, path,
  validation, payload). It also defines the exchange with a transport and a
  session of many calls on one client.
- `Scenarios`: concrete cases derived from the general contracts.

## Model

| member | source | states |
|---|---|---|
| Text.TrimTrailingSlash | src/hatx-service.ts:125-127 | The result is a prefix of the input and does not end with '/'. Everything the input has after it is slashes. |
| Text.TrimTrailingSlashUnique | src/hatx-service.ts:125-127 | Any prefix that does not end in '/' and is followed only by slashes is the result. Together with the function's contract this characterises the result completely. |
| Text.TrimTrailingSlashIdempotent | src/hatx-service.ts:125-127 | Trimming trailing slashes twice gives the same result as once. |
| Text.TrimSlashes | src/hatx-service.ts:129-131 | The result neither starts nor ends with '/'. It is a contiguous middle of the input, with only slashes before and after it. |
| Text.TrimSlashesUnique | src/hatx-service.ts:129-131 | Any middle framed by two slash runs that neither starts nor ends with '/' is the result. |
| Text.TrimSlashesEmptyIff | src/hatx-service.ts:129-131 | The result is empty exactly when the input consists only of slashes. |
| Text.TrimSlashesIdempotent | src/hatx-service.ts:129-131 | Trimming slashes twice gives the same result as once. |
| Text.Trim | src/hatx-service.ts:113 | `trim` leaves a string that starts and ends with non-whitespace. It is a contiguous middle of the input with only whitespace before and after it. The result is empty exactly when the input is blank (only whitespace, or empty). |
| Strip.StripEnd | src/hatx-service.ts:126 | Removing a trailing run of a class leaves a prefix that does not end in the class. What was removed is all in the class. |
| Strip.StripBothUnique | src/hatx-service.ts:130 | Stripping both ends is determined by any decomposition into run, middle and run. This also covers the all-slash input, where the leading alternative of the regular expression consumes everything. |
| Service.New | src/hatx-service.ts:28-34 | Construction throws "HatxService requires a baseURL." exactly when `baseURL` is absent or empty. Otherwise the base path is the trimmed base URL, '/', and the trimmed version. The version is "v1" only when it is absent. |
| Service.BasePathFromParts | src/hatx-service.ts:29-34 | The base path is `host + "/" + segment`. Here `host` is any prefix of the base URL that is followed only by slashes and does not itself end in one. `segment` is any middle of the version that neither starts nor ends with '/' and is framed by slashes. |
| Service.AbsentVersionIsDefault | src/hatx-service.ts:33 | An absent version builds the same client as an explicit "v1". |
| Service.SlashOnlyVersionKept | src/hatx-service.ts:33-34 | An explicit empty (or all-slash) version is not defaulted. The base path then ends in the joining '/'. |
| Service.BasePathJoinsCleanly | src/hatx-service.ts:34 | When the version has a non-slash character, the base path does not end in '/'. The joining slash is also the only slash between host and version. |
| Service.BuildUrl | src/hatx-service.ts:108-110 | The URL begins with the base path, and the rest of it is exactly the endpoint path. |
| Service.Get | src/hatx-service.ts:98-101 | The transport's `get` receives the base path followed by exactly the endpoint path, with the caller's query parameters and response type unchanged. |
| Service.Post | src/hatx-service.ts:103-106 | The transport's `post` receives the base path followed by exactly the endpoint path, with the caller's payload unchanged as the body. |
| Service.GetSystemHealth | src/hatx-service.ts:43-45 | A GET of base path + "/system/health" with no query parameters and a JSON response. |
| Service.GetSystemInfo | src/hatx-service.ts:47-49 | A GET of base path + "/system/info" with no query parameters and a JSON response. |
| Service.GetSystemChangelog | src/hatx-service.ts:51-53 | A GET of base path + "/system/changelog" with no query parameters, asking for a text response. |
| Service.AssertRequiredString | src/hatx-service.ts:112-116 | Throws "Expected a non-empty value for <field>." exactly when the value is absent or blank. It passes exactly when the value contains a non-whitespace character. |
| Service.AssertArray | src/hatx-service.ts:118-122 | Throws "Expected <field> to be a non-empty array." exactly when the array is empty. |
| Service.GetBeadByAllele | src/hatx-service.ts:55-58 | Fails exactly when the allele is absent or blank, with the required-string message for "allele". Otherwise a GET of base path + "/bead" whose only query parameter is the allele. |
| Service.QueryBeads | src/hatx-service.ts:60-63 | Fails exactly when `alleles` is empty, with the non-empty-array message for "alleles". Otherwise a POST of the payload, unchanged, to base path + "/bead". |
| Service.FilterBeads | src/hatx-service.ts:65-67 | Never fails: a POST of the filter, unchanged, to base path + "/bead/filter". |
| Service.GetSerologicalByAllele | src/hatx-service.ts:69-72 | Fails exactly when the allele is absent or blank. Otherwise a GET of base path + "/serological" whose only query parameter is the allele. |
| Service.QuerySerological | src/hatx-service.ts:74-77 | Fails exactly when `alleles` is empty. Otherwise a POST of the payload, unchanged, to base path + "/serological". |
| Service.SerotypeParams | src/hatx-service.ts:81-86 | The keys are `allele`, then `version` only when a version is given. `allele` maps to the allele, and `version` maps to the version when one is given and is absent otherwise. |
| Service.GetSerotypeByAllele | src/hatx-service.ts:79-87 | Fails exactly when the allele is absent or blank. Otherwise a GET of base path + "/serotype" whose query parameters are the allele and, when given, the version. |
| Service.QuerySerotype | src/hatx-service.ts:89-92 | Fails exactly when `alleles` is empty. Otherwise a POST of the payload, unchanged, to base path + "/serotype". |
| Service.FilterSerotype | src/hatx-service.ts:94-96 | Never fails: a POST of the filter, unchanged, to base path + "/serotype/filter". |
| Facade.Plan | src/hatx-service.ts:43-96 | Any public method call succeeds exactly when the endpoint table admits it, and fails otherwise with the table's message. A successful call's request goes to the base path followed by the table's path, with the table's verb. |
| Facade.PlanLookup | src/hatx-service.ts:55-87 | The same statement as for `Plan`, for the three lookups by allele. |
| Facade.PlanFollowsTable | src/hatx-service.ts:43-96 | For every method and argument, the call throws exactly when the table's validation fails, with that method's message. Otherwise it produces one request. Its URL is the base path followed by the endpoint path, and its verb is the table's. A POST's body is the caller's payload unchanged. A GET's query keys are the table's. Only the changelog asks for a text response. |
| Facade.ParamsCarryArguments | src/hatx-service.ts:55-87 | The allele the caller passed is the `allele` parameter. A `version` parameter is present only for a serotype lookup with a version, and carries that version. |
| Facade.Perform | src/hatx-service.ts:98-106 | A call that fails validation sends nothing and settles with the validation error. Otherwise it sends exactly one request, to the table's URL with the table's verb. The request sent is exactly the planned one. It settles with the transport's `data` unchanged, or with the transport's error unchanged. |
| Facade.RejectionIgnoresTransport | src/hatx-service.ts:55-63 | A call that fails validation settles the same way whatever the transport would do. |
| Facade.Admitted | src/hatx-service.ts:55-96 | A call is kept exactly when it was made and passes validation, and no more calls are kept than were made. |
| Facade.AdmittedCounts | src/hatx-service.ts:55-96 | Each call that passes validation is kept as many times as it was made, and a call that fails validation is not kept at all. |
| Facade.Sent | src/hatx-service.ts:98-110 | Over any sequence of calls on one client, the transport sees exactly one request per call that passes validation. Each is, in order, the planned request of those calls. Every request's URL begins with the same base path. |
| Scenarios.BasePathExample | src/hatx-service.ts:29-34 | The base URL "http://h/" with version "/v2/" gives the base path "http://h/v2". |
| Scenarios.DefaultVersionExample | src/hatx-service.ts:15 | Without a version, "http://h" gives "http://h/v1". |
| Scenarios.BlankAlleleSendsNothing | src/hatx-service.ts:55-58 | `getBeadByAllele` with "", "   " or no allele sends no request. |
| Scenarios.QueryBeadsExample | src/hatx-service.ts:60-63 | `queryBeads` with no alleles throws. With one allele, it posts that payload to "<base>/bead" and returns the transport's data. |
| Scenarios.SerotypeParamsExample | src/hatx-service.ts:79-87 | Without a version, only `allele` is sent. With version 3, `allele` and `version` (3) are sent. |
| Scenarios.EmptyFilterIsPosted | src/hatx-service.ts:65-67 | An all-absent bead filter is still posted to "<base>/bead/filter". |

## Left out

- The axios instance (src/hatx-service.ts:1, 35-40): creating it, spreading `axiosConfig` and preferring an injected `httpClient` belong to a foreign library. The transport is a parameter. The instance is also created with `baseURL: basePath` while `buildUrl` already prefixes the base path. How axios combines the two is axios behaviour and is not part of this model.
- Promises and asynchrony: a call is a value that settles once. The facade has no concurrency or shared mutable state to model.
- The transport is a total function of the request. Network failures, HTTP statuses and decoding all happen inside it, and the model only states that its result passes through unchanged.
- The decoding itself, for both JSON and text responses. The changelog's `responseType: 'text'` is kept as a flag on the request (src/hatx-service.ts:52).
- The response DTOs of src/types.ts: response data is an opaque type parameter, because the facade never looks inside it.
- JavaScript numbers are doubles, but the serotype version and the numeric filter fields are modelled as `int`.
- Service.AssertArray: the branch that rejects a value that is not an array is not modelled. The payload types declare `alleles` as an array, so `alleles` is a sequence here and only its emptiness can fail.
- Service.GetSerotypeByAllele: the `version` argument is absent or a number, as the signature declares. A JavaScript caller passing `null` would get `version: null` sent, because the source only tests for `undefined`; that is outside the model.
- Service.New: a base URL made only of slashes (for example "///") passes the truthiness test on `baseURL`. It yields a base path starting with "/", as the code does; no check for this is added.
- Error classes: the source throws a plain `Error` in every case. `ConfigurationError` and `ValidationError` only record which check threw, and the message text is kept exactly.
