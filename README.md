# openapi-client, modelled in Dafny

This project models the core of `@aurora-is-near/openapi-client` in Dafny
and proves properties of that model. The library builds a typed HTTP client
from an OpenAPI document. The model covers both of its halves:

- **The runtime.** The request function fills path parameters into the
  endpoint, joins it to a base path, decides on a bearer token and sends one
  request. The axios instance behind it carries these parts:
  - the default headers;
  - a numeric timeout or a per-method timeout interceptor;
  - a refresh-and-retry interceptor;
  - a response-debug interceptor, which turns transport failures into the
    library's two error kinds and reports them to hooks;
  - an optional request-debug interceptor.
- **The generator helpers.** These turn the JSON Schema form of the
  generated types into TypeScript type references. They flatten the
  document's operations and validate the document before a client is
  generated.

Modules, one per source file, plus two shared ones:

| module | source |
|---|---|
| `Wrappers`, `Strings` | JavaScript values and string built-ins the core relies on (`Option`, `Result`, `replace`, `split`, `join`, case mapping, truthiness) |
| `Errors` | `src/errors.ts` |
| `Http` | the axios request configuration and response shapes the core reads |
| `Auth` | `src/auth.ts` |
| `Request` | `src/request.ts` |
| `ResponseDebug`, `RefreshToken`, `TimeoutInterceptor`, `RequestDebug` | `src/interceptors/*.ts` |
| `Create` | `src/create.ts` |
| `TitleFormat`, `TypeReferences`, `FlatOperations`, `SpecValidation` | the helpers of `bin/build.js` |

Code that changes state step by step is modelled imperatively and proved
against a specification function:

- `Request.PopulateEndpoint`
- `Auth.GetAuthorizationHeader`
- `TimeoutInterceptor.Apply`, which updates an `Http.InternalConfig` object in place
- `RefreshToken.OnRejected`, which marks and rewrites the configuration object it replays
- `Create.CreateAxiosInstance`, which registers interceptors on a `Create.AxiosInstance` object
- `TitleFormat.FormatJsonSchemaTitleAsType`

The rest is functions and lemmas.

## How the source's behaviour is rendered

- **Foreign code and clocks become parameters.** These are:
  - the JWT decoder, whose output is given as `Auth.Claims`;
  - the clock, a `now` argument;
  - `noCase`;
  - the query serializer;
  - `new URL`;
  - the transport (`send`).
- **The token callbacks are functions of their invocation number.**
  `getAccessToken` and `refreshAccessToken` take the number of earlier calls
  to the same callback. A refresher that is asked twice may therefore answer
  differently each time. The list of callbacks invoked is returned as an
  effect trace.
- **Thrown errors become values.** A thrown error is a `Failure`: an
  `Errors.ApiError`, an `Error` with a message, or a generator message
  string. Where the source reads a property of `undefined`, the engine's
  TypeError is modelled with a fixed message.
- **The placeholder check keeps the greedy regex.** It is modelled as
  `/\{.*\}/g` actually behaves: on one line, a single match spans from the
  first `{` to the last `}`. Several missing parameters are therefore
  reported as one span, not one by one (`Request.OneLineMatches`).
- **The version check uses `||`.** `validateOapiSpec` takes its version
  from `swagger || openapi`, not `??`. An empty `swagger` therefore falls
  through to `openapi` (`SpecValidation.EmptySwaggerFallsThrough`).
- **A base path of `/` gives a double slash.** `getFullPath` with a base
  path of `/` yields `//endpoint` (`Request.RootBasePathDoublesSlash`).
- **Title formatting follows the code, not its comment.** The comment at
  `bin/build.js:31-33` shows quotes kept inside the brackets. The code strips
  them, and the model does what the code does (`TitleFormat.QuotedKeyKeptWhole`).
- **A continuation is glued onto slot `index - 1`.** A title part ending
  in a quote is glued onto output slot `index - 1` of the part array. That
  slot is the previous part only until the first re-join. A second torn
  key is appended as `undefined.<part>` (`TitleFormat.SecondContinuationNotGlued`).

## Model

| member | source | states |
|---|---|---|
| Errors.FormatValidationErrors | src/errors.ts:47-51 | one rendered entry per validation error, in the errors' order |
| Errors.ComposeMessage | src/errors.ts:44-53 | the message is extended iff the error list is present and non-empty; the original message is always a prefix |
| Errors.ComposedMessageListsEachError | src/errors.ts:44-53 | every validation error's rendering occurs in the composed message |
| Errors.JoinedPartOffset | src/errors.ts:47-51 | each part of a `join` occurs in the joined string at a computed offset |
| Errors.TwoValidationErrorsMessage | src/errors.ts:44-53 | two validation errors are appended after a space, separated by `, ` |
| Errors.NewClientError | src/errors.ts:37-61 | code is EHTTPSERVER iff the status is at least 500, else EHTTPCLIENT; status, type and errors are stored; name is OpenApiClientError |
| Errors.NewTimeoutError | src/errors.ts:72-81 | a timeout error keeps its message and code and is named OpenApiClientTimeoutError |
| Errors.RecognisersDisjoint | src/errors.ts:67-91 | no value is recognised as both error kinds; only library errors are recognised |
| Errors.DetailIsDropped | src/errors.ts:37-41 | a `detail` option never changes the constructed error |
| Auth.IsUserAdmin | src/auth.ts:28-39 | a token that does not decode is never an admin's; a single role must equal `wp-admin`, a role list must contain it |
| Auth.IsTokenExpired | src/auth.ts:44-53 | a token is unexpired exactly when it decodes to a numeric `exp` no earlier than now |
| Auth.Unauthorized | src/auth.ts:58-60 | the thrown error is a 401 client error whose message is `message <url>` |
| Auth.GetRefreshedAccessToken | src/auth.ts:72-91 | no refresher is a 401 with the no-refresher message; a falsy refreshed token a 401 with the nothing-returned message; a present refreshed token is returned as it is |
| Auth.RefreshExpired | src/auth.ts:127-136 | the refresher runs once when there is one; no refresher or a falsy token gives the matching 401; a refreshed token is sent iff unexpired, and otherwise the refreshed-but-expired 401 is thrown |
| Auth.Decide | src/auth.ts:96-139 | at most two refreshes; a secure route without a retriever fails first; an open route never fails or refreshes and gets a header iff the token is present, admin and unexpired; on a secure route a present unexpired token is sent without refresh, an expired one is refreshed once, and a missing one is refreshed (no refresher and a falsy refresh give their 401s) and refreshed again when the result has expired; a header's token is unexpired and is the last one returned |
| Auth.GetAuthorizationHeader | src/auth.ts:96-139 | the step-by-step header lookup yields `Decide`'s header, or its 401 error, and makes `Decide`'s number of refresh calls |
| Auth.ExpiryBoundary | src/auth.ts:44-53 | a token expiring exactly now is not expired; a token without a numeric `exp` is |
| Auth.RefresherRunsTwice | src/auth.ts:117-136 | a missing token followed by an expired refresh calls the refresher a second time and sends the renewed token |
| Auth.RefreshedTokenAlsoExpired | src/auth.ts:127-135 | when the refresher keeps returning an expired token, a secure route fails with a 401 |
| Request.PlaceholderMatches | src/request.ts:30 | every match starts with `{` and ends with `}` |
| Request.OneLineMatches | src/request.ts:30 | on a line without terminators the greedy match is the single span from the first `{` to the last `}`, or nothing |
| Request.NoOpenNoMatches | src/request.ts:30 | a string without `{` has no match |
| Request.ResolvedEndpoint | src/request.ts:16-39 | a resolved endpoint has no placeholder match left; a failure's message extends the missing-parameter prefix |
| Request.Substituted | src/request.ts:19-28 | entries that are all null, undefined or empty leave the template unchanged |
| Request.ParameterSubstituted | src/request.ts:16-39 | a supplied parameter replaces its placeholder with `String(value)` and the endpoint resolves to the filled-in path |
| Request.PopulateEndpoint | src/request.ts:16-39 | the loop over the parameter entries computes exactly `ResolvedEndpoint` |
| Request.EndpointWithoutPlaceholders | src/request.ts:16-39 | an endpoint without braces comes back unchanged whatever the parameters |
| Request.SubstitutedWithoutPlaceholders | src/request.ts:19-28 | substitution leaves an endpoint without braces unchanged |
| Request.MissingParameterMessage | src/request.ts:30-36 | the error names the span from the first `{` to the last `}` |
| Request.NoPlaceholderResolves | src/request.ts:30-38 | without a brace span the endpoint is returned |
| Request.EmptyParameterIsMissing | src/request.ts:21 | an empty-string parameter is skipped, so its placeholder is reported missing |
| Request.TrimTrailingSlashes | src/request.ts:42 | the result is a prefix without a trailing `/`; only slashes were removed |
| Request.TrimLeadingSlashes | src/request.ts:42 | the result is a suffix without a leading `/`; only slashes were removed |
| Request.TrimSlashes | src/request.ts:41-42 | the result neither starts nor ends with `/` |
| Request.TrimSlashesIdempotent | src/request.ts:41-42 | trimming twice is trimming once |
| Request.TrimSlashesIsSlice | src/request.ts:41-42 | the trimmed string is a slice of the input with only slashes around it |
| Request.FullPath | src/request.ts:44-48 | without a truthy base path the endpoint is unchanged; with one the result starts with `/` and has the trimmed lengths plus two |
| Request.JoinedByOneSlash | src/request.ts:44-48 | base and endpoint appear trimmed, joined by exactly one slash |
| Request.RootBasePathDoublesSlash | src/request.ts:44-48 | a base path of `/` yields `//endpoint` |
| Request.AssembleConfig | src/request.ts:61-85 | url and method set; data and params only when non-empty; an Authorization header iff one was decided |
| Request.Prepare | src/request.ts:60-87 | a missing parameter fails before any callback; otherwise the authority is asked about the full path of the resolved endpoint with the route's `secure` flag, the trace is one retrieval (when there is a retriever) followed by the authority's refreshes, and the authority's header goes into the assembled configuration or its 401 is thrown; open routes never fail once resolved; secure requests carry a header |
| Request.ValidTokenIsSent | src/request.ts:60-87 | a secure request whose retrieved token is valid is sent to the full path with exactly that bearer header, after one retrieval and no refresh |
| Request.Call | src/request.ts:60-89 | the request function's result and callback trace are those of `Prepare`, followed by one send |
| ResponseDebug.OnFulfilled | src/interceptors/response-debug-interceptor.ts:25 | a response passes through unchanged |
| ResponseDebug.FinalStatus | src/interceptors/response-debug-interceptor.ts:30-31 | the response status wins over the error's own status |
| ResponseDebug.CollapseDoubleSlashes | src/interceptors/response-debug-interceptor.ts:40 | never longer; empty iff empty; first character kept |
| ResponseDebug.CollapseKeepsClean | src/interceptors/response-debug-interceptor.ts:40 | a string without `//` is unchanged |
| ResponseDebug.CollapseLeavesNoDoubleSlash | src/interceptors/response-debug-interceptor.ts:40 | one pass leaves no `//` when the input had no `///` |
| ResponseDebug.Endpoint | src/interceptors/response-debug-interceptor.ts:40 | the endpoint always starts with `/` |
| ResponseDebug.EndpointOfRootedUrl | src/interceptors/response-debug-interceptor.ts:40 | a rooted URL without `//` is its own endpoint |
| ResponseDebug.EndpointOfRelativeUrl | src/interceptors/response-debug-interceptor.ts:40 | a relative URL without `//` gains one leading slash |
| ResponseDebug.BaseMessage | src/interceptors/response-debug-interceptor.ts:40-44 | the message is the final status (or `undefined`), a space, the body's `message` when it has one and the transport's message otherwise, then ` <`, the upper-cased method, a space, the base URL and the endpoint, closed by `>`, and its length is the sum of those parts, so nothing else is in it |
| ResponseDebug.OnRejected | src/interceptors/response-debug-interceptor.ts:26-76 | a timeout code gives a timeout error; otherwise exactly the client error constructed from the final status, the base message and the body's options (so its code is EHTTPSERVER iff status >= 500); the server hook fires iff status >= 500, the client hook iff 400-499, with the same error |
| ResponseDebug.ClientErrorMessage | src/interceptors/response-debug-interceptor.ts:42-50 | the message is `status message <METHOD baseURL/endpoint>` extended by the body's validation errors |
| ResponseDebug.EmptyBodiesUseTransportMessage | src/interceptors/response-debug-interceptor.ts:43 | an absent body, an empty object and an empty string give the same outcome, and the thrown message is the base message with the transport's message after the status |
| ResponseDebug.TransportMessageOfFailedPost | src/interceptors/response-debug-interceptor.ts:40-44 | a failed `post` of `/endpoint` on `http://api.com` with status 500, transport message `Bad thing` and no body message throws `500 Bad thing <POST http://api.com/endpoint>` |
| ResponseDebug.DetailNeverReachesTheError | src/interceptors/response-debug-interceptor.ts:49 | the body's `detail` does not change the thrown error |
| ResponseDebug.TimeoutWinsOverStatus | src/interceptors/response-debug-interceptor.ts:58-65 | with a timeout code the status is irrelevant |
| RefreshToken.OnFulfilled | src/interceptors/refresh-access-token-interceptor.ts:17 | a response passes through unchanged |
| RefreshToken.ShouldReplay | src/interceptors/refresh-access-token-interceptor.ts:22-29 | no refresher, response or configuration means no replay; a replay needs a listed non-zero status, an Authorization header and no earlier retry |
| RefreshToken.Step | src/interceptors/refresh-access-token-interceptor.ts:18-44 | outside the guard nothing changes and the error is rejected; inside it the retry marker is set, only the Authorization header changes, and a returned token is sent as a bearer header on one replay |
| RefreshToken.OnRejected | src/interceptors/refresh-access-token-interceptor.ts:18-44 | the configuration object is updated in place to `Step`'s configuration; the refresher runs iff the guard holds; the outcome is the rejection or the replay's result |
| RefreshToken.AtMostOneReplay | src/interceptors/refresh-access-token-interceptor.ts:22-30 | a configuration that went through the handler never passes the guard again |
| RefreshToken.AnonymousRequestsAreNotReplayed | src/interceptors/refresh-access-token-interceptor.ts:22-29 | without an Authorization header nothing is replayed |
| RefreshToken.CustomStatusCodes | src/interceptors/refresh-access-token-interceptor.ts:22-29 | the status list is honoured as given |
| RefreshToken.ZeroStatusIsFalsy | src/interceptors/refresh-access-token-interceptor.ts:24-26 | a zero status never triggers a replay |
| TimeoutInterceptor.MethodKey | src/interceptors/timeout-interceptor.ts:6 | a missing method is looked up under the empty key |
| TimeoutInterceptor.WithTimeout | src/interceptors/timeout-interceptor.ts:4-15 | the timeout is the mapped value iff the lower-cased method is a key; nothing else changes |
| TimeoutInterceptor.Apply | src/interceptors/timeout-interceptor.ts:4-15 | the same object is returned, updated to `WithTimeout` |
| TimeoutInterceptor.WithTimeoutIdempotent | src/interceptors/timeout-interceptor.ts:4-15 | applying the interceptor twice equals applying it once |
| TimeoutInterceptor.MethodCaseIgnored | src/interceptors/timeout-interceptor.ts:6-12 | upper- and lower-case methods select the same timeout |
| TimeoutInterceptor.MissingMethodUsesEmptyKey | src/interceptors/timeout-interceptor.ts:6-12 | without a method and without an empty key the configuration is unchanged |
| RequestDebug.ReportedUrl | src/interceptors/request-debug-interceptor.ts:25-29 | the query is replaced by `?` plus the serialized params when there are params |
| RequestDebug.OnFulfilled | src/interceptors/request-debug-interceptor.ts:18-37 | the configuration is passed on unchanged; exactly one report, with the upper-cased method and resolved URL, iff url and method are set and the URL parses |
| RequestDebug.OnRejected | src/interceptors/request-debug-interceptor.ts:38 | the error is rejected again and nothing is reported |
| RequestDebug.SerializerIsTheInstances | src/interceptors/request-debug-interceptor.ts:27-29 | the reported query depends on the serializer supplied |
| Create.AxiosInstance.UseRequest | src/create.ts:65 | a request stage is appended; response stages unchanged |
| Create.AxiosInstance.UseResponse | src/create.ts:80-93 | a response stage is appended; request stages unchanged |
| Create.StripWhitespace | src/create.ts:43-46 | the result holds no whitespace and equals a whitespace-free input |
| Create.StripWhitespaceConcat | src/create.ts:43-46 | removing whitespace distributes over concatenation |
| Create.AcceptHeader | src/create.ts:43-46 | the Accept header is `application/vnd.`, then the case-normalised title without whitespace, then `+json; version=<version>` |
| Create.AcceptHeaderOfTwoWords | src/create.ts:43-46 | a title that cases to two words gives `application/vnd.<both>+json; version=<version>` |
| Create.BuildHeaders | src/create.ts:41-55 | Content-Type and Accept always; User-Agent and X-App-Version iff truthy; no other header |
| Create.TimeoutOf | src/create.ts:32 | an absent timeout defaults to 15000 ms |
| Create.RequestStages | src/create.ts:64-105 | the timeout stage iff per-method timeouts, the request-debug stage iff `onRequest`, in that order, with the instance's serializer |
| Create.ResponseStages | src/create.ts:68-93 | refresh, econnreset, response-debug, in that order, with default status codes `[401]` |
| Create.InstanceTimeout | src/create.ts:61 | the instance timeout is set iff the timeout is numeric |
| Create.CreateAxiosInstance | src/create.ts:20-108 | no `baseURL` fails with the source's message; otherwise a fresh instance with that base URL, the headers `BuildHeaders` states (Content-Type, Accept, and User-Agent and X-App-Version iff given), the chosen serializer, the instance timeout and the request and response stages in order |
| Create.GetRequestFunction | src/create.ts:113-126 | no `baseURL` fails; otherwise base path and token callbacks are passed through unchanged, with a fresh instance carrying the stages |
| TitleFormat.GlueAt | bin/build.js:41-42 | slot -1 is dropped; an existing slot is glued with `.` (a hole reads `undefined`); a slot past the end extends with holes |
| TitleFormat.StripQuotes | bin/build.js:51 | the result is never longer than the part and at most two characters shorter |
| TitleFormat.FormatJsonSchemaTitleAsType | bin/build.js:35-54 | the loop over the dot-separated parts computes exactly `FormatTitle` |
| TitleFormat.PartsPushedUntilContinuation | bin/build.js:39-48 | until a continuation appears, every part is pushed unchanged |
| TitleFormat.FirstContinuationGluesOntoPrevious | bin/build.js:41-42 | the first continuation is glued with `.` onto the part just before it |
| TitleFormat.LeadingContinuationDropped | bin/build.js:41-42 | a continuation in first position disappears |
| TitleFormat.OneSlotShortAfterGlue | bin/build.js:39-48 | after one re-join the output is one slot shorter than the parts read |
| TitleFormat.SecondContinuationNotGlued | bin/build.js:41-42 | a second continuation is appended as `undefined.<part>` instead of being glued |
| TitleFormat.StripQuotesOfQuoted | bin/build.js:51 | a quoted part loses exactly its two quotes |
| TitleFormat.StripQuotesOfBare | bin/build.js:51 | a part without end quotes is unchanged |
| TitleFormat.StripQuotesOfLeadingOnly | bin/build.js:51 | a part quoted only at its start loses just that quote |
| TitleFormat.StripQuotesOfTrailingOnly | bin/build.js:51 | a part quoted only at its end loses just that quote |
| TitleFormat.QuotedKeyKeptWhole | bin/build.js:26-54 | a torn quoted key is re-joined and bracketed without quotes, as in the documented example |
| TypeReferences.NonNullableBody | bin/build.js:77-89 | without the body suffix the reference is unchanged; with it the result starts `NonNullable<` and ends with the suffix |
| TypeReferences.GetTypeReferenceFromJson | bin/build.js:59-92 | `undefined` without content or properties; distinct errors for no JSON key and no title; otherwise the formatted title, made non-nullable |
| TypeReferences.NonNullableOfBodyReference | bin/build.js:82-89 | a reference ending in the body suffix becomes `NonNullable<prefix>` followed by the suffix |
| TypeReferences.PlainReferenceUnchanged | bin/build.js:70-91 | a non-body title is returned formatted; an empty title is an error |
| TypeReferences.OtherMediaTypesRejected | bin/build.js:66-68 | content without the JSON key fails even with other media types |
| TypeReferences.GetFunctionResponseType | bin/build.js:97-132 | no responses, no 2xx and several 2xx are distinct errors; responses without properties fail with the unwrapped `Object.keys` TypeError; success needs exactly one 2xx key; its content's errors are wrapped with the operation ID |
| TypeReferences.GetDataType | bin/build.js:137-151 | `null` iff there is no request body; otherwise its content's reference, with errors wrapped |
| TypeReferences.GetParametersType | bin/build.js:156-164 | a reference iff the parameter sub-type exists, naming the operation and sub-type |
| TypeReferences.HasRequiredParametersType | bin/build.js:169-177 | true iff the sub-type exists and lists a required parameter |
| TypeReferences.IsFormDataOperation | bin/build.js:179-189 | false without a request body; true iff its content lists multipart form data; a TypeError when the content or its properties are missing |
| FlatOperations.Or | bin/build.js:240-241 | `a \|\| b` is truthy iff either is, and is `a` when `a` is truthy |
| FlatOperations.FlattenMethod | bin/build.js:199-256 | a method without a schema fails on the property read; a record names its endpoint, method and ID and is secure iff security is listed |
| FlatOperations.FlattenMethodContract | bin/build.js:198-255 | form-data operations and only they are skipped; a record carries the method's endpoint, method and ID, `secure` iff security is listed, `hasOptions` truthy iff a reference is, `hasOptionalOptions` iff no required query, path type or data type; failures in the source's order |
| FlatOperations.CollectFailsFirst | bin/build.js:196-257 | the mapping succeeds iff no callback throws, and otherwise fails with the first error |
| FlatOperations.CollectMembers | bin/build.js:196-257 | a collected record is exactly one some callback returned |
| FlatOperations.GatherMembers | bin/build.js:194-260 | a flattened record is exactly one of some endpoint's records |
| FlatOperations.GetFlatOperations | bin/build.js:194-260 | no paths give no records; a success means every endpoint flattened |
| FlatOperations.FlatOperationOrigin | bin/build.js:194-260 | a record is in the output iff some method of some endpoint yields it |
| FlatOperations.GatherConcatenates | bin/build.js:194-260 | the `reduce` succeeds iff every endpoint does, and then its result is the endpoints' records spread one after another, first endpoint first |
| FlatOperations.FlatOperationsInOrder | bin/build.js:194-260 | the output is the in-order concatenation of each endpoint's records, the first endpoint's records leading |
| FlatOperations.FlatOperationsNeedEveryMethod | bin/build.js:194-260 | the flattening succeeds only if every method's callback does |
| FlatOperations.SecureIffSecurityListed | bin/build.js:239 | each record is secure iff its method lists a security requirement |
| FlatOperations.NoFormDataOperations | bin/build.js:204-210 | no output record describes a form-data operation |
| FlatOperations.FormDataMethodSkipped | bin/build.js:204-210 | a lone form-data method yields no record |
| SpecValidation.EndpointsWithoutIds | bin/build.js:337-339 | the list is empty iff every operation has a truthy ID |
| SpecValidation.DuplicatesCount | bin/build.js:346-349 | the duplicate list holds every occurrence of an ID except its first |
| SpecValidation.DuplicatesEmptyIffDistinct | bin/build.js:346-349 | no duplicates are reported iff the IDs are distinct |
| SpecValidation.ValidateOapiSpec | bin/build.js:322-355 | passes iff a version is set, matches `^[2-3]\.`, and the IDs are present and distinct; each failure carries the source's message |
| SpecValidation.OpenApi3Accepted | bin/build.js:322-355 | a 3.x document with distinct IDs passes |
| SpecValidation.Swagger1Refused | bin/build.js:331-335 | a 1.x `swagger` version fails with a message naming `swagger` |
| SpecValidation.EmptySwaggerFallsThrough | bin/build.js:324-325 | an empty `swagger` behaves as an absent one |

## Left out

- **Source files and functions not modelled:**
  - `bin/get-spec.js` is not part of this model; it does file and network I/O.
  - `bin/index.js` is not part of this model; it is the command-line entry point.
  - `bin/build.js`'s `buildClient`, `buildClientFile`, `buildTypesFile`, `buildIndexFile`, `convertTsToJsonSchema` and `build` are not modelled. They run templates, file writes, the TypeScript compiler and schema converters.
  - `pascalCase` and `camelCase` are not modelled.
  - The `console.warn` for skipped form-data operations is not modelled.
  - `src/query.ts` (`qs.stringify`) becomes the `defaultSerializer` parameter. `src/options.ts` holds only types.
  - The econnreset interceptor's source is not part of this model. It appears only as a stage in the registration order.
- **Asynchrony and dispatch:**
  - Promises and axios's interceptor dispatch are not modelled. Calls are sequential steps, and the registered interceptors are an ordered list of stages.
  - The default `console.error`/`console.warn` hooks are channels of the hook event, not output.
- **JavaScript corner cases:**
  - Regex metacharacters in path parameter keys are not modelled; each key is substituted literally.
  - `$` patterns in the replacement string are not modelled.
  - `String(value)` is modelled for strings, integers, booleans and null only.
  - Case mapping covers ASCII letters only.
  - Statuses and `exp` claims are integers and reals. NaN, infinities and non-numeric statuses are not modelled.
  - `in` on an object is a map lookup; prototype-chain keys are not modelled.
  - A `null` timeout in the per-method map is modelled as an absent value.
- **The token callbacks:** the refresher and retriever are functions of their invocation number. Decoding failures of the JWT library are given as tokens without claims.
- Decide: the token callbacks never throw or reject, because they are total functions. In the source, a retriever or refresher that rejects makes `getAuthorizationHeader` reject with that error; the model cannot express this. The same holds for GetAuthorizationHeader and GetRefreshedAccessToken.
- Prepare: a rejecting token callback, which would reject the request function with the callback's error before anything is sent, is not modelled (see Decide). The same holds for Call.
- Step: a refresher that rejects is not modelled. In the source, its error replaces the original one and `_retry` stays set. The same holds for OnRejected.
- **Transport calls:**
  - `axios(config)` is the replay's `send` parameter.
  - `instance.request` is the request function's `send` parameter.
  - `new URL` is a parser parameter. Its failure is the `Invalid URL` error, and its exact exception is not modelled.
- **TypeError messages:** the messages for reading through `undefined` in the generator helpers are fixed strings. The engine's exact wording is not modelled.
- **Generator inputs:**
  - JSON Schemas are objects with `properties`, `title` and `required` only. Boolean schemas and other keywords are not modelled.
  - `jsonSchemaTypes.definitions.operations.properties` is given directly as a map; a missing `definitions` or `operations` is not modelled.
  - `summary`, `description`, `tags` and `parameters` are passed through to each flat operation record by the source, but they are not modelled.
  - Version values are strings; a numeric `openapi` value is not modelled.
- **Order of keys:** `Object.keys` order is not modelled. The response status keys are a set, which is enough because only a single 2xx key is ever used.
- **Flattening:** `FlatOperations.GetFlatOperations` and `FlatOperations.FlattenMethod` carry short contracts of their own. Their full properties are stated by lemmas (`FlattenMethodContract`, `FlatOperationOrigin` and the others), so that the functions' own postconditions stay cheap to use.
