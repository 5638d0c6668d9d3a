# TypedRequest: endpoint configuration and validation

A Dafny model of the request-configuration core of Retrofit's
`TypedRequest`. This is the class an endpoint description becomes before any
HTTP call is made. It covers:

- the `TypedRequest.Builder` record and its chained setters;
- `build()`, with its ordered structural checks;
- the constructor, which resolves the call adapter and the converter;
- the request's getters and its cancellation flag.

Java `null` is `Option.None`. A thrown exception is a `Result.Failure` that
carries an `Error` tag. Each setter and `build()` is a pure function.

Files:

- `results.dfy`: `Option` and the failure-compatible `Result`.
- `types.dfy`: the shared types, the factories and the errors.
  - Reflected types are `JType`; only `void` and `ResponseBody` are distinguished.
  - `HttpMethod` and `BodyEncoding`.
  - The opaque elements: queries, parts, fields and objects.
  - The adapter and converter factories are partial maps.
- `typed_request.dfy` (module `Request`): the request record, `createCallAdapter`, the constructor and `cancel`.
- `builder.dfy` (module `RequestBuilder`): the builder, its setters and `build()`.
- `chains.dfy` (module `BuilderChains`): chains of setter calls, with inductive proofs.
  - A chain stops at the first setter that throws.
  - It changes only the attributes its setters write, and each holds the argument of the last setter for it.
  - It ends with the encoding chosen by the last `parts`/`fields` call.
- `scenarios.dfy`: concrete endpoint configurations and their outcomes.

`newRequest()` is abstract in the source, so no concrete subclass is visible.
The model takes it to pass the builder's fields, in order, to the `TypedRequest`
constructor: `RequestBuilder.NewRequest`.

The model follows the code on these points:

- `tag(..)` and `body(..)` accept `null`. Only `method`, `queryParams`, `headers`,
  `parts` and `fields` throw on `null`.
- `build()` never rejects a body when the encoding is multipart or form encoding.
- In the multipart check, `build()` never looks at the fields; in the form check, it never looks at the parts.
- The `ResponseBody` exemption in `createCallAdapter` applies when the converter factory is null.
  - It does not let a request be constructed without a converter factory.
  - The constructor looks the converter up on that factory unconditionally (line 72).
  - So a null factory always ends in an exception. `VoidReturnType` or `NoCallAdapter` comes first when it applies. Once the adapter is found, the exception is `NoConverter`, or `NullConverterFactory` for a ResponseBody adapter.
  - Stated by `Request.Construct` and shown by `Scenarios.MissingConverterFactory`.

## Model

| member | source | states |
|---|---|---|
| `Request.CreateCallAdapter` | retrofit-typedrequest/src/main/java/retrofit/TypedRequest.java:129-148 | void return type refused first; then a return type outside the adapter factory; then a null converter factory unless the adapter's response type is ResponseBody; success exactly when none applies, returning the factory's own adapter |
| `Request.Construct` | retrofit-typedrequest/src/main/java/retrofit/TypedRequest.java:54-121 | construction succeeds iff the return type is non-void, handled by the adapter factory and the converter factory is non-null; adapter errors propagate unchanged; a null factory with a ResponseBody adapter fails at the converter lookup; getters return exactly the arguments; the converter is the factory's answer for the adapter's response type; the flag starts false |
| `Request.Cancel` | retrofit-typedrequest/src/main/java/retrofit/TypedRequest.java:111-117 | after cancel the flag reads true, nothing else changes, and a sealed request stays sealed |
| `Request.CancelIdempotent` | retrofit-typedrequest/src/main/java/retrofit/TypedRequest.java:111-113 | cancelling twice equals cancelling once; the flag stays true |
| `RequestBuilder.NewBuilder` | retrofit-typedrequest/src/main/java/retrofit/TypedRequest.java:163-178 | a fresh builder carries the Retrofit collaborators, encoding NONE, empty query/headers/parts/fields and null everything else |
| `RequestBuilder.SetPath` | retrofit-typedrequest/src/main/java/retrofit/TypedRequest.java:180-183 | stores any path, null included, and changes no other attribute |
| `RequestBuilder.SetMethod` | retrofit-typedrequest/src/main/java/retrofit/TypedRequest.java:185-188 | throws exactly on null; otherwise stores the method and changes no other attribute |
| `RequestBuilder.SetTag` | retrofit-typedrequest/src/main/java/retrofit/TypedRequest.java:190-193 | stores any tag, null included, and changes no other attribute |
| `RequestBuilder.SetBody` | retrofit-typedrequest/src/main/java/retrofit/TypedRequest.java:195-198 | stores any body, null included, and changes no other attribute |
| `RequestBuilder.SetQueryParams` | retrofit-typedrequest/src/main/java/retrofit/TypedRequest.java:200-203 | throws exactly on null; otherwise stores the list and changes no other attribute |
| `RequestBuilder.SetHeaders` | retrofit-typedrequest/src/main/java/retrofit/TypedRequest.java:205-208 | throws exactly on null; otherwise stores the map and changes no other attribute |
| `RequestBuilder.SetParts` | retrofit-typedrequest/src/main/java/retrofit/TypedRequest.java:210-214 | throws exactly on null; otherwise stores the parts, switches the encoding to MULTIPART, and changes nothing else |
| `RequestBuilder.SetFields` | retrofit-typedrequest/src/main/java/retrofit/TypedRequest.java:216-220 | throws exactly on null; otherwise stores the fields, switches the encoding to FORM_URL_ENCODED, and changes nothing else |
| `RequestBuilder.SetResponseType` | retrofit-typedrequest/src/main/java/retrofit/TypedRequest.java:222-225 | stores any response type, null included, and changes no other attribute |
| `RequestBuilder.Build` | retrofit-typedrequest/src/main/java/retrofit/TypedRequest.java:227-254 | a structural error is raised iff the builder breaks a structural rule, and it is the first broken rule in check order; a structurally valid builder goes to construction; every built request is sealed and carries the builder's values |
| `RequestBuilder.NewRequest` | retrofit-typedrequest/src/main/java/retrofit/TypedRequest.java:253-256 | stands in for the abstract `newRequest()`, assumed to forward every builder value to the constructor: it succeeds iff the return type is non-void, handled by the adapter factory and the converter factory is non-null, and the request carries the builder's path, method, return type, encoding, body, tag, query, headers, parts and fields |
| `RequestBuilder.BuildNullChecksFirst` | retrofit-typedrequest/src/main/java/retrofit/TypedRequest.java:228-230 | null path, then null method, then null response type are reported before any other check |
| `RequestBuilder.BuildPathCheck` | retrofit-typedrequest/src/main/java/retrofit/TypedRequest.java:232-234 | after the null checks, the path error is raised iff the path is not '/' followed by some string |
| `RequestBuilder.BuildBodyCheck` | retrofit-typedrequest/src/main/java/retrofit/TypedRequest.java:236-245 | with encoding NONE and a body, the body error is raised iff the method is GET, DELETE or HEAD; with PATCH, POST or PUT construction is reached |
| `RequestBuilder.BuildBodyIgnoredWithEncoding` | retrofit-typedrequest/src/main/java/retrofit/TypedRequest.java:243-245 | with multipart or form encoding a body is never refused and changes neither whether the build fails nor its error |
| `RequestBuilder.BuildFormCheck` | retrofit-typedrequest/src/main/java/retrofit/TypedRequest.java:246-248 | with form encoding, a structural failure happens iff there are no fields; the parts change neither whether the build fails nor its error |
| `RequestBuilder.BuildMultipartCheck` | retrofit-typedrequest/src/main/java/retrofit/TypedRequest.java:249-251 | with multipart encoding, a structural failure happens iff there are no parts; the fields change neither whether the build fails nor its error |
| `BuilderChains.Apply` | retrofit-typedrequest/src/main/java/retrofit/TypedRequest.java:180-225 | one setter call throws exactly when it refuses a null, with that setter's error; otherwise it holds its argument in its own attribute, changes only what it writes and sets the encoding it chooses |
| `BuilderChains.ChainFailure` | retrofit-typedrequest/src/main/java/retrofit/TypedRequest.java:185-220 | a setter chain throws iff some setter was given a null it refuses, and the error is that of the first such setter |
| `BuilderChains.ChainFrame` | retrofit-typedrequest/src/main/java/retrofit/TypedRequest.java:180-225 | a chain that does not throw leaves every attribute none of its setters writes unchanged |
| `BuilderChains.ChainStoresLast` | retrofit-typedrequest/src/main/java/retrofit/TypedRequest.java:180-225 | after a chain that does not throw, every setter that no later setter of the chain overrides has its argument held in its attribute: the builder accumulates configuration |
| `BuilderChains.ChainEncoding` | retrofit-typedrequest/src/main/java/retrofit/TypedRequest.java:210-220 | the encoding after a chain is the choice of its last parts/fields call, or the starting encoding |
| `BuilderChains.LastEncodingIsLastChoice` | retrofit-typedrequest/src/main/java/retrofit/TypedRequest.java:210-220 | that encoding is the choice of the parts/fields call after which no other such call comes, or the start when there is none |
| `BuilderChains.PartsThenFields` | retrofit-typedrequest/src/main/java/retrofit/TypedRequest.java:210-220 | parts then fields gives FORM_URL_ENCODED; fields then parts gives MULTIPART |
| `Scenarios.GetUsersBuilds` | retrofit-typedrequest/src/main/java/retrofit/TypedRequest.java:227-253 | GET "/users" with a handled return type builds, with encoding NONE, the factory's adapter and converter, not cancelled |
| `Scenarios.EmptyMultipartRefused` | retrofit-typedrequest/src/main/java/retrofit/TypedRequest.java:249-251 | POST with an empty parts list is refused as multipart without part |
| `Scenarios.RelativePathRefused` | retrofit-typedrequest/src/main/java/retrofit/TypedRequest.java:232-234 | the path "login" is refused as not absolute |
| `Scenarios.GetWithBodyRefused` | retrofit-typedrequest/src/main/java/retrofit/TypedRequest.java:236-245 | GET with a body is refused; POST with the same body builds |
| `Scenarios.UnhandledReturnTypeRefused` | retrofit-typedrequest/src/main/java/retrofit/TypedRequest.java:129-139 | an unhandled return type is refused as such with or without a converter factory; void is refused first |
| `Scenarios.MissingConverterFactory` | retrofit-typedrequest/src/main/java/retrofit/TypedRequest.java:140-145 | without a converter factory, a decoded response type is refused; a ResponseBody one passes that check and fails at the converter lookup |

## Left out

- `newCall()`, `OkHttpCall`, `OkHttpClient`, `TypedRawRequestFactory` and `BaseUrl` are not modelled. They do the transport and request assembly, and their code is not part of this model. The constructor's `new TypedRawRequestFactory(..)` at line 71 is assumed not to throw.
- `Method` is not part of this model. Its values are taken to be GET, POST, PUT, PATCH, DELETE and HEAD. Only PATCH, POST and PUT matter to the checks.
- `Utils.checkNotNull`, `CallAdapter`, `Converter` and `Retrofit` are not part of this model.
  - `checkNotNull` becomes the `NullArgument` error.
  - The factories become partial maps; a type outside the map is the factory answering `null`.
  - The `Retrofit` reads in the `Builder(Retrofit)` constructor become an opaque `Retrofit` record.
- The adapter factory is taken to be non-null. The model never dereferences a null adapter factory.
- Java reflection `Type` identity becomes `JType`: `VoidType`, `ResponseBodyType` and numbered opaque types.
- Exception messages and `String.format` in `requestError` are not modelled. Errors are tags, and each tag names the check that failed.
- Builder subclasses may reassign the builder's protected fields. That is not modelled: only the public setters change a builder.
- `Request.Construct` takes the path, method and return type as non-null values. In the source the constructor is called by the subclass constructors that `newRequest()` reaches. Under the forwarding assumption for `newRequest()`, it is reached only from `build()`, which has already refused null for all three. The constructor's behaviour on null arguments is not modelled.
- Collections and builder identity are values, not shared Java objects.
  - `queryParams`, `headers`, `parts` and `fields` store the caller's list or map without copying it. The model takes each collection as fixed from the setter call on: the caller does not mutate it afterwards.
  - In the source, a later mutation would be seen by `build()` (lines 240-241) and by the request's getters.
  - The setters' `return this` aliasing of one builder object is not modelled; a builder is not shared through aliases.
- `Request.Sealed` describes a request at the moment it is constructed. After that, a caller mutating a shared collection could break it; `Request.Cancel` preserves it only under the fixed-collection assumption above.
- Thread visibility of `isCancelled` is not modelled. It is a plain field; the model is single-threaded.
- The concrete `newRequest()` subclasses are not visible, and `RequestBuilder.NewRequest` assumes they forward the builder's fields.
