# aitch request construction, in Dafny

This project models the synchronous core of aitch, a small builder for HTTP
clients on Node.js, and proves properties of that model.

- **Validation helpers.** Header and query values are cast to strings: strings, finite numbers and booleans pass.
- **`BaseClient` constructor.** It validates its options. It resolves `pathname`, `query`, `headers`, `auth` and `transport` against the values a subclass or prototype already supplies. It normalizes query and header objects into flat `[name, value, ...]` lists.
- **`Request`.** A request descriptor is built from the client's defaults and per-call options, in the fixed order path, headers, body, credential:
  - the path carries the merged and percent-encoded query;
  - the header object takes the lower-cased overrides, then fills gaps from the client's defaults;
  - the body is a stream, a buffer, JSON, or a URL-encoded form, with a default `content-type`.
- **`UnencryptedTransport` and `Transport`.** The constructors resolve `hostname`, `port`, `agent` and `tls`. The model shapes the options handed to `http.request` or `https.request` and decides how the body is sent.

## How the model is organised

- **`Results`** (`results.dfy`).
  - `Result` is `Ok` or `Err(message)`.
  - Every error the library throws is a `TypeError`, and `Err` carries its exact message.
  - `Outcome` is what a constructor body reports after assigning fields.
- **`JsValues`** (`js_values.dfy`) models the JavaScript that the library relies on:
  - values, truthiness and `typeof`;
  - `hasOwnProperty`, where arrays and strings also own `length`;
  - `Object.keys` order and property reads through the prototype chain;
  - `i + ''` for integers, and ASCII `toLowerCase`.
- **`UriEncoding`** (`uri_encoding.dfy`) models `encodeURIComponent` as ECMA-262 5.1, section 15.1.3.4, defines it: UTF-8 octets with upper-case `%XY` escapes. It also proves a percent-decoding round trip.
- **`Validation`** (`validation.dfy`) models lib/validation-helpers.js.
- **`Text`** (`text.dfy`) provides `Array.prototype.join` and a splitting inverse used to read paths back.
- **`Clients`** (`clients.dfy`) models lib/BaseClient.js.
  - The constructor is split in two. A function on a `ClientState` specifies it. The class `BaseClient`, whose methods update the fields in place, implements it.
  - `_normalizeQuery` and `_normalizeHeaders` are loops with invariants against the functions `QueryList` and `HeaderList`.
- **`Requests`** (`requests.dfy`) models lib/Request.js.
  - Functions state what `buildQueryPairs`, `buildPath`, `buildHeaders`, `buildBody` and `buildAuth` compute.
  - Independent reference definitions say which query parameters survive and how a path reads back.
  - The class `Request` implements the builders as methods with loops. `BuildBody` updates `headers` in place.
  - `Request.Create` runs the constructor and returns a fresh request, or the first error.
- **`Transports`** (`transports.dfy`) models lib/UnencryptedTransport.js and lib/Transport.js.
  - One class per transport. `Transport` holds the `UnencryptedTransport` it extends, in place of prototype inheritance.
  - `IssueRequest` returns the shaped options object and the body dispatch.
  - The network call is not modelled.

A JavaScript `forEach` over `Object.keys(o)` that reads `o[k]` is modelled as a walk over the own entries of `o`. `JsValues.OwnEntryRead` proves that, for distinct own names, the i-th key reads the i-th entry's value.

Where the code and the design description of the library disagree, the model follows the code:

- The design says construction fails before any assignment. In the code, the `BaseClient` constructor has already assigned `pathname` when the query object fails. A failing header object leaves `pathname` and `query` assigned. A missing transport leaves every field assigned. `Clients.QueryFailureIsPartial` states the first case.
- The `Transport` constructor assigns `port` and `tls` before the base constructor can throw. Its `tls` checks come after the base fields are assigned.
- The design says a default header is added when its lower-cased name is absent. The code tests the default's name exactly as given. Defaults that `_normalizeHeaders` produced are already lower-case, so the two differ only for a default list a subclass supplies directly.

## Model

| member | source | states |
|---|---|---|
| Validation.CastQueryValue | lib/validation-helpers.js:37-45 | succeeds exactly for strings, finite numbers and booleans; a string is kept, a boolean becomes `true`/`false`, an integer its decimal numeral; otherwise the error names the parameter |
| Validation.CastHeaderValue | lib/validation-helpers.js:15-29 | inside an array only a single string can come out; every failure names the header |
| Validation.CastItems | lib/validation-helpers.js:22-25 | the array cast succeeds iff every item is castable, and then maps each item to its cast, in order |
| Validation.HeaderCastAgreesWithQueryCast | lib/validation-helpers.js:15-45 | for a non-array, the header cast and the query cast accept the same values and give the same string |
| Validation.ArrayCast | lib/validation-helpers.js:22-25 | a top-level array of header values becomes the list of its items' casts, or fails with the header error |
| Validation.ArraysRejected | lib/validation-helpers.js:22-28 | nested arrays and arrays as query values are rejected |
| Validation.NonScalarsRejected | lib/validation-helpers.js:16-18 | `null`, `undefined`, objects, functions, buffers and non-finite numbers are rejected by both casts |
| Validation.CastArrayExample | lib/validation-helpers.js:15-29 | `['a string', 42, true, false]` casts to the four strings |
| JsValues.OwnEntryRead | lib/BaseClient.js:201-210 | with distinct own names, the i-th `Object.keys` name is the i-th own entry's name and reading it gives that entry's value |
| JsValues.HasOwnKeys | lib/Request.js:167 | every name `Object.keys` lists is an own property |
| JsValues.ToLowerCaseIdempotent | lib/BaseClient.js:228 | lower-casing a lower-cased name changes nothing |
| UriEncoding.DecodeEncode | lib/Request.js:168 | percent-decoding `encodeURIComponent(s)` gives exactly the UTF-8 octets of `s` |
| UriEncoding.EncodedIsSafe | lib/Request.js:179 | only unreserved characters and `%` escapes come out of the encoding |
| UriEncoding.EncodedHasNoSeparators | lib/Request.js:150 | no `&`, `=` or `?` occurs in an encoded component |
| UriEncoding.EncodeUnreserved | lib/Request.js:168 | a string of unreserved characters encodes to itself |
| UriEncoding.EncodeConcat | lib/Request.js:168 | the encoding of a concatenation is the concatenation of the encodings |
| UriEncoding.EncodeExample | lib/Request.js:168 | `encodeURIComponent('bäz')` is `b%C3%A4z` |
| Text.SplitJoin | lib/Request.js:150 | splitting a join of parts free of the separator gives the parts back |
| Clients.QueryList | lib/BaseClient.js:201-210 | the list `_normalizeQuery` returns, or the error it throws, after the own entries visited so far; two entries per key on success; its meaning is stated by `QueryListOk`, `QueryListPairs` and `QueryListError` |
| Clients.QueryListOk | lib/BaseClient.js:201-210 | `_normalizeQuery` succeeds iff no own entry has an empty name or an uncastable value |
| Clients.QueryListPairs | lib/BaseClient.js:201-210 | on success, the list holds each own name followed by its cast value, in key order |
| Clients.QueryListError | lib/BaseClient.js:203-207 | on failure, the message is that of the first faulty entry, and every entry before it is fine |
| Clients.NormalizeQueryExample | lib/BaseClient.js:201-210 | `{foo: 'bar'}` normalizes to `['foo', 'bar']` |
| Clients.LoweredMember | lib/BaseClient.js:228-232 | a name is encountered iff some own name lower-cases to it |
| Clients.HeaderList | lib/BaseClient.js:221-237 | the list `_normalizeHeaders` returns, or the error it throws, after the own entries visited so far; two entries per key on success; its meaning is stated by `HeaderListOk`, `HeaderListPairs` and `HeaderListError` |
| Clients.HeaderListOk | lib/BaseClient.js:221-237 | `_normalizeHeaders` succeeds iff every name is non-empty, every value casts, and no two names agree once lower-cased |
| Clients.HeaderListPairs | lib/BaseClient.js:221-237 | on success, each own name appears lower-cased and followed by its cast value, in key order |
| Clients.HeaderListFaults | lib/BaseClient.js:224-234 | `_normalizeHeaders` succeeds iff no entry has an empty name, a name already encountered once lower-cased, or a value that does not cast |
| Clients.HeaderListError | lib/BaseClient.js:224-234 | on failure, the message is the first faulty entry's: the empty-name error, the duplicate error naming the header as written, or the header value error; every entry before it is fine |
| Clients.HeaderListFlat | lib/BaseClient.js:234 | the normalized list is a flat header list: even length, a string at every name position |
| Clients.HeaderNamesLowered | lib/BaseClient.js:228 | every name in the normalized list is already lower-case |
| Clients.DuplicateHeaderExample | lib/BaseClient.js:229-231 | `{foo: 'bar', FOO: 'baz'}` fails with the duplicate `FOO` message |
| Clients.NamesDistinctSnoc | lib/BaseClient.js:229-232 | adding a name keeps names distinct iff its lower-cased form was not encountered |
| Clients.HeadersCastSnoc | lib/BaseClient.js:224-234 | adding an entry keeps every entry valid iff its name is non-empty and its value casts |
| Clients.CheckPathname | lib/BaseClient.js:30-37 | a pathname option is accepted iff it is a non-empty string without `?`, and then it is that string |
| Clients.ObjectOption | lib/BaseClient.js:46-51 | an own `query`/`headers`/`transport` option must be an object, else the named error; absent means none |
| Clients.ClientOptionsOf | lib/BaseClient.js:18-89 | the option validation, in the order pathname, query, headers, transport; its meaning is stated by `ClientOptionsAccepted`, `ConstructPathnameFailures` and `ConstructObjectFailures` |
| Clients.ClientOptionsAccepted | lib/BaseClient.js:18-89 | object options pass validation iff the pathname option is acceptable and the `query`, `headers` and `transport` options are objects when present |
| Clients.Assign | lib/BaseClient.js:97-177 | the assignments after validation, in source order, stopping at the first normalizer error with the earlier fields assigned; its meaning is stated by `ConstructedFields`, `AssignKeepsFlat` and `QueryFailureIsPartial` |
| Clients.Construct | lib/BaseClient.js:16-178 | the constructor as a function of the initial fields and the options; its meaning is stated by the lemmas that follow |
| Clients.AssignKeepsFlat | lib/BaseClient.js:111-148 | whatever the outcome, the query list stays of even length and the header list stays flat |
| Clients.RejectsNonObjectOptions | lib/BaseClient.js:19-24 | truthy non-object options throw before any field is touched |
| Clients.NoOptions | lib/BaseClient.js:97-177 | without options every field keeps its value, the pathname defaults to `/`, and it throws iff there is no transport |
| Clients.ConstructedFields | lib/BaseClient.js:97-177 | on success: pathname option, else existing, else `/`; lists are the existing ones followed by the normalized options; `auth` overridden iff own; transport option, else existing, and truthy |
| Clients.ConstructSucceeds | lib/BaseClient.js:19-177 | construction on object options succeeds iff every present option is valid, its objects normalize, and a transport is available |
| Clients.ConstructPathnameFailures | lib/BaseClient.js:30-37 | a pathname option that is not a non-empty string throws `BadPathname`, and one holding `?` throws `PathnameWithQuery`, with no field touched |
| Clients.ConstructObjectFailures | lib/BaseClient.js:46-89 | after the pathname, a non-object `query` option, then `headers`, then `transport`, throws the "Expected ... to be an object." error naming that option, with no field touched |
| Clients.ConstructNormalizeFailures | lib/BaseClient.js:111-177 | once the options pass, the query object's error comes first, then the header object's, then `MissingTransport` when no transport is available |
| Clients.ListsExtended | lib/BaseClient.js:111-148 | the existing query and header lists are always kept as prefixes |
| Clients.QueryFailureIsPartial | lib/BaseClient.js:97-116 | a failing query object leaves the new pathname assigned and everything else untouched |
| Clients.BaseClient.NormalizeQuery | lib/BaseClient.js:201-210 | the reduce loop returns exactly `QueryList` of the own entries |
| Clients.BaseClient.NormalizeHeaders | lib/BaseClient.js:221-237 | the reduce loop with its `encountered` set returns exactly `HeaderList` of the own entries |
| Clients.BaseClient.Init | lib/BaseClient.js:16-178 | the constructor body leaves the fields and outcome `Construct` gives, and keeps the lists flat |
| Clients.BaseClient.AssignFields | lib/BaseClient.js:97-177 | the field assignments, in order, as `Assign` gives them |
| Clients.BaseClient.Inherit | lib/BaseClient.js:97 | the values a subclass or prototype supplies before the constructor runs |
| Requests.OverridePairsEncode | lib/Request.js:172-181 | the `forEach` over a query object fails iff `_normalizeQuery` does, with its message, and otherwise pushes the encodings of its pairs |
| Requests.KeptPairs | lib/Request.js:165-170 | the encoded base pairs the loop keeps; its meaning is stated by `KeptPairsEncode` and `SurvivingMember` |
| Requests.OverridePairs | lib/Request.js:172-181 | the encoded pairs the `forEach` pushes, or its first error; its meaning is stated by `OverridePairsEncode` |
| Requests.QueryPairs | lib/Request.js:163-184 | `buildQueryPairs` as a value; its meaning is stated by `QueryPairsEncodeMerged` |
| Requests.MergedQuery | lib/Request.js:163-184 | the reference definition of the merge: the base pairs whose names the query does not own, then the query's pairs; its contents are stated by `MergeContents` |
| Requests.KeptPairsEncode | lib/Request.js:165-170 | the base loop pushes the encodings of exactly the base pairs whose name the query does not own |
| Requests.SurvivingMember | lib/Request.js:167 | a base pair survives iff the query is falsy or does not own its name |
| Requests.QueryPairsEncodeMerged | lib/Request.js:163-184 | `buildQueryPairs` is the encoding of the merged query: surviving base pairs, then the query's own pairs |
| Requests.MergeContents | lib/Request.js:163-184 | the merged query holds the surviving base pairs unchanged, then one pair per own query entry with its name and cast value |
| Requests.OverrideParams | lib/Request.js:172-181 | the query's pairs are its own names with their cast values, in key order |
| Requests.NoQueryKeepsBase | lib/Request.js:165-172 | without a query the base list alone is encoded |
| Requests.SurvivingAll | lib/Request.js:167 | with a falsy query every base pair survives |
| Requests.PairsOfAt | lib/Request.js:165-166 | the i-th pair of a flat list is its (2i)-th and (2i+1)-th entry |
| Requests.EncodeAllAt | lib/Request.js:168 | the i-th encoded component encodes the i-th pair |
| Requests.EncodeAllConcat | lib/Request.js:168-179 | encoding distributes over concatenation of pair lists |
| Requests.QueryPairsExample | lib/Request.js:163-184 | base `['foo', '---', 'baz', 'qux']` with `{foo: 'bar', quux: 'corge'}` gives `['baz=qux', 'foo=bar', 'quux=corge']` |
| Requests.PathnameChoice | lib/Request.js:132-142 | an own `pathname` option is checked as the client constructor checks it; otherwise the default pathname is used and must not contain `?` |
| Requests.ChosenPathname | lib/Request.js:131-142 | the pathname `buildPath` starts from, or its error; its meaning is stated by `PathnameChoice` |
| Requests.PathOf | lib/Request.js:130-154 | `buildPath` as a value; its meaning is stated by `PathErrors` and `PathRoundTrip` |
| Requests.PathErrors | lib/Request.js:130-147 | the pathname error comes first; then an own `query` option that is falsy or not an object throws; otherwise the path fails exactly when the merged query does, with its message |
| Requests.EncodePairDecodes | lib/Request.js:168 | an encoded `name=value` holds no `&` or `?` and reads back as the UTF-8 of the name and value |
| Requests.PathRoundTrip | lib/Request.js:130-154 | a built path splits at its only `?` into the pathname and one `&`-component per merged parameter, each decoding to that parameter's name and value; without parameters it is the pathname alone |
| Requests.JoinedDecodes | lib/Request.js:148-151 | a pathname joined to encoded pairs reads back into the pathname and the pairs |
| Requests.PathExample | lib/Request.js:130-154 | with default `/foo`, `{pathname: '/bar'}` gives `/bar` and `{}` gives `/foo` |
| Requests.BasePairs | lib/Request.js:215-219 | a flat list of 2n entries has n pairs |
| Requests.FindMember | lib/Request.js:208 | a name is present iff some entry carries it |
| Requests.FindAt | lib/Request.js:208-211 | with unique names, looking up an entry's name finds that entry's value |
| Requests.OverrideHeadersAgree | lib/Request.js:201-212 | the header `forEach` fails iff `_normalizeHeaders` does, with the same message; on success its names are the lower-cased own names |
| Requests.OverrideHeadersContents | lib/Request.js:201-212 | on success, one entry per own header in key order, under its lower-cased name with its cast value, names unique |
| Requests.OverrideHeaders | lib/Request.js:201-212 | the header object the `forEach` fills, or its first error; its meaning is stated by `OverrideHeadersAgree` and `OverrideHeadersContents` |
| Requests.FillHeaders | lib/Request.js:215-219 | the header object after the base loop; its meaning is stated by `FillFind` and `FillKeeps` |
| Requests.HeadersOf | lib/Request.js:193-222 | `buildHeaders` as a value; its meaning is stated by `MergedHeaders` and `HeadersOfErrors` |
| Requests.FillFind | lib/Request.js:215-219 | after the base loop an override wins; any other name reads the first base pair with that name, or is absent |
| Requests.FillKeeps | lib/Request.js:215-219 | the base loop only appends, and keeps names unique |
| Requests.MergedHeaders | lib/Request.js:193-222 | `buildHeaders`: unique names, every override under its lower-cased name with its cast value, every other name as the defaults give it |
| Requests.HeadersOfErrors | lib/Request.js:196-212 | a non-object `headers` option throws; otherwise `buildHeaders` fails iff `_normalizeHeaders` would, with its message |
| Requests.LowercasedExample | lib/Request.js:201-212 | `{headers: {FoO: 'bar'}}` gives `{foo: 'bar'}` |
| Requests.CombinedExample | lib/Request.js:193-222 | defaults `['foo', '---', 'baz', 'qux']` with `{foo: 'bar', quux: 'corge'}` give `foo: bar, quux: corge, baz: qux`, in that order |
| Requests.NoBodyOption | lib/Request.js:294 | without a body option there is no body and the headers are kept |
| Requests.BadBodyOption | lib/Request.js:229-292 | the first body option present (stream, chunk, json, form) must have an acceptable value, else its error, headers kept |
| Requests.SecondBodyOption | lib/Request.js:234-271 | an acceptable first body option rejects the next one present with "Unexpected `X` option when `Y` is present.", headers kept |
| Requests.SingleBodyOption | lib/Request.js:230-279 | a lone stream is the body as given, a lone buffer its bytes, lone JSON its text with the JSON content type added if absent |
| Requests.FormBody | lib/Request.js:281-292 | a lone form object adds the form content type if absent; the body is the UTF-8 of its encoded merged pairs joined by `&`, and fails as `_normalizeQuery` would |
| Requests.BodyHeaders | lib/Request.js:274-288 | `buildBody` only ever adds `content-type`, as a default and only when absent; every other header is unchanged, names stay unique, and JSON and form bodies always leave a `content-type` |
| Requests.FormBodyExample | lib/Request.js:281-292 | `{form: {foo: 'bar', baz: 'qux'}}` writes the UTF-8 of `foo=bar&baz=qux` |
| Requests.BodyOf | lib/Request.js:229-295 | `buildBody` as a value: the header object afterwards and the body or error; its meaning is stated by the body lemmas above |
| Requests.AuthOf | lib/Request.js:301-303 | `buildAuth` as a value; its meaning is stated by `AuthChoice` |
| Requests.AuthChoice | lib/Request.js:301-303 | an own `auth` option is the credential even when `undefined`; otherwise, even with an inherited `auth`, the client's credential is kept |
| Requests.Describe | lib/Request.js:80-107 | the constructor as a function of the client state; its meaning is stated by `DescribeFailures` and `DescribedRequest` |
| Requests.DescribeFailures | lib/Request.js:80-107 | the path is checked first, then the headers, then the body; the constructor fails with the first failure's message |
| Requests.DescribedRequest | lib/Request.js:80-107 | a built request has the method, the path `buildPath` gives, the body `buildBody` gives, unique header names, each override under its lower-cased name with its cast value, other names as the defaults give them, a `content-type` for JSON and form bodies, and the credential `buildAuth` picks |
| Requests.Request.BuildQueryPairs | lib/Request.js:163-184 | the base loop stepping by two and the `forEach` compute exactly `QueryPairs` |
| Requests.Request.PushOverrides | lib/Request.js:172-181 | the `forEach` pushes exactly the pairs `OverridePairs` gives, or throws its error |
| Requests.Request.BuildPath | lib/Request.js:130-154 | the checks and the join compute exactly `PathOf` |
| Requests.Request.BuildHeaders | lib/Request.js:193-222 | the two loops compute exactly `HeadersOf` |
| Requests.Request.AddOverrides | lib/Request.js:201-212 | the `forEach` over the header option with its duplicate check computes exactly `OverrideHeaders` |
| Requests.Request.BuildBody | lib/Request.js:229-295 | the body and the updated `headers` are those `BodyOf` gives; no other field changes |
| Requests.Request.Create | lib/Request.js:80-107 | a fresh request whose fields are those of `Describe`, or exactly `Describe`'s error |
| Requests.Request.Blank | lib/Request.js:84 | the object as the constructor first assigns `method` |
| Transports.ConfigureErrors | lib/UnencryptedTransport.js:18-23 | the constructor throws iff the options are truthy and not an object |
| Transports.ConfigureResolves | lib/UnencryptedTransport.js:14-69 | `hostname` and `port` are the own option, else the existing value if truthy, else `localhost` and `80`; `agent` is the own option, else the existing value |
| Transports.ConfigureFalsyOptions | lib/UnencryptedTransport.js:18 | falsy options behave as an empty object |
| Transports.ConfigureIdempotent | lib/UnencryptedTransport.js:14-69 | running the constructor again with the same options changes nothing |
| Transports.Configure | lib/UnencryptedTransport.js:12-70 | the constructor as a function of the existing fields and the options; its meaning is stated by the `Configure` lemmas |
| Transports.UnencryptedTransport.Init | lib/UnencryptedTransport.js:12-70 | the constructor body assigns the fields `Configure` gives, or throws leaving them untouched |
| Transports.UnencryptedTransport.Inherit | lib/UnencryptedTransport.js:14-16 | the values a subclass or prototype supplies before the constructor runs |
| Transports.UnencryptedTransport.IssueRequest | lib/UnencryptedTransport.js:98-129 | the options passed on are exactly the transport's `hostname`, `port` and `agent` with the descriptor's method, path, headers and auth; the body is sent as `DispatchOf` says |
| Transports.DispatchRules | lib/UnencryptedTransport.js:121-129 | a truthy stream is piped and nothing is written, even beside a chunk; otherwise a body ends with its chunk; no body ends with no data |
| Transports.DispatchOf | lib/UnencryptedTransport.js:121-129 | the body dispatch as a value; its meaning is stated by `DispatchRules` and `RequestDispatch` |
| Transports.RequestDispatch | lib/UnencryptedTransport.js:121-129 | a built request is sent as its body says: stream piped, chunk written, or nothing |
| Transports.BuiltStreamPipes | lib/Request.js:230-247 | a stream body that `buildBody` accepts is the stream option, truthy, with a `pipe` function |
| Transports.SecurePortDefault | lib/Transport.js:19-22 | with no port option and no existing port, the port is 443, whether or not the constructor then throws |
| Transports.SecureBase | lib/Transport.js:19-22 | the base constructor's errors and field resolution apply, with 443 as the port default; when the base constructor throws, the port already assigned stays and `tls` is `null` |
| Transports.SecureTls | lib/Transport.js:20-42 | `tls` is `null` unless given; a `tls` option needs `agent` to be exactly `false`, then an object, and is then stored as given |
| Transports.ConfigureSecure | lib/Transport.js:15-43 | the `Transport` constructor as a function of the existing fields and the options; its meaning is stated by `SecurePortDefault`, `SecureBase` and `SecureTls` |
| Transports.CopiedSettings | lib/Transport.js:59-68 | each of the eight TLS properties is set from `tls` |
| Transports.CopiedExactly | lib/Transport.js:59-68 | exactly `pfx`, `key`, `passphrase`, `cert`, `ca`, `ciphers`, `rejectUnauthorized` and `secureProtocol` are set, no other name |
| Transports.Transport.Init | lib/Transport.js:15-43 | the constructor body leaves the fields and outcome `ConfigureSecure` gives |
| Transports.Transport.Inherit | lib/Transport.js:19 | the values a subclass or prototype supplies before the constructor runs |
| Transports.Transport.MakeRequest | lib/Transport.js:58-70 | with `tls` set the eight properties are copied onto the options one by one; without it the options are untouched |
| Transports.Transport.IssueRequest | lib/Transport.js:58-70 | the inherited `issueRequest` with this `_makeRequest`: the shaped options plus the TLS settings when `tls` is set |
| Transports.HttpOptions.constructor | lib/UnencryptedTransport.js:103-111 | the options object literal, with no TLS property set |

## Left out

- lib/Response.js: a promise built on the `legendary` and `thenstream` libraries; asynchronous and foreign.
- The network side of `issueRequest` and `_makeRequest` is out:
  - `http.request` and `https.request`;
  - the `response` and `error` listeners and the promise they settle;
  - cancellation, which removes the listeners and aborts.
  - Only the shaped options and the dispatch decision are modelled.
- The `Response` constructor argument of `issueRequest` is left out. It only chooses the promise class.
- lib/Client.js and `BaseClient#_issueRequest` are left out. They are one-line delegations from a verb to `new Request(this, method, options || {})` and `transport.issueRequest`. The only caller passes a truthy value, so `hasOwnProperty` on `null` or `undefined` options cannot arise.
- lib/main.js, which only re-exports, and toc.js, which is generated documentation.
- Numbers are integers, `NaN` and the two infinities. Fractional numbers and their `value + ''` formatting are not modelled.
- Validation.CastQueryValue, Validation.CastHeaderValue: integers of magnitude 10^21 or more, which JavaScript formats in exponent form (`1e+21`), and integers beyond 2^53, which are not exact JavaScript numbers, are cast to their full decimal numeral.
- `JSON.stringify` and the Buffer it fills are symbolic: a JSON body is `JsonText(value)`. The object's `toJSON`, cycles and `undefined` results are not modelled.
- `toLowerCase` covers the ASCII letters only.
- Strings are sequences of Unicode scalar values. So the `URIError` that `encodeURIComponent` raises for a lone surrogate cannot arise, and UTF-16 code units are not modelled.
- Object keys keep the order in which they are listed. JavaScript's rule that integer-like keys come first in ascending order is not modelled, and neither is the special `__proto__` key.
- Functions carry no properties in the model, so functions with own properties are left out.
- Buffers are modelled by their bytes. The chunk body holds those bytes, not the same Buffer object, so aliasing is not captured.
- Requests.KeptPairs, Requests.BasePairs, Requests.Request.BuildQueryPairs and Requests.Request.BuildHeaders require a flat list of even length. The code also runs on odd-length lists, reading `undefined` for the last value, but every list a client holds is flat (`Clients.AssignKeepsFlat`).
- Requests.KeyString: a default header name that is an array is used as the property key its items joined by `,` give. Non-string names cannot come from `_normalizeHeaders`.
- Property writes are plain data writes; setters and accessor properties on the header object or its prototype are not modelled.
