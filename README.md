# EasyRequester, modelled in Dafny

EasyRequester is an HTTP client façade written in TypeScript. A client is built from a client
configuration. Each request configuration gives a `ConfiguredRequester` whose `sendRequest`
does three things:

- builds the URL and the headers;
- builds the `RequestInit` handed to `fetch`;
- admits the request in one of two modes:
  - *enqueue-new*: through a shared first-in-first-out queue that runs one request at a time;
  - *abort-previous*: directly, after aborting the request already in flight for the same URL,
    which a shared map from URL to `AbortController` keeps track of.

Two older, stand-alone requesters sit beside it:

- `src/easy-requester.ts` exports a single mutable instance configured by `setConfig`;
- `src/easy_requester.ts` takes everything in its constructor.

This project models, in Dafny:

- the URL and header assembly of all three generations;
- the queue and the supersession tracker, as classes whose methods update their fields in place;
- the request lifecycle of `ConfiguredRequester`, with the transport outcome as an input;
- client and request configuration normalisation;
- guard-clause validation.

It proves the properties each of them promises.

Modules, one per source file or concern:

| module | file | models |
|---|---|---|
| `Js` | js.dfy | JavaScript values, truthiness, `??`, `typeof`, `String(v)`, object spread, the slash-trimming regexes, `Logger.error` (which always throws) |
| `Paths` | paths.dfy | joining path segments with "/" and splitting them again |
| `Runtime` | runtime.dfy | promises, abort controllers, `Map`, `RequestInit`, the outcome of `fetch`, the foreign serialisers |
| `Generator` | generator.dfy | src/utils/generator.ts |
| `Generators` | generators.dfy | src/utils/generators.ts |
| `Validator` | validator.dfy | src/utils/validator.ts |
| `Queue` | request_queuer.dfy | src/core/handlers/requestQueuer.ts |
| `Aborter` | request_aborter.dfy | src/core/handlers/requestAborter.ts |
| `Configs` | configs.dfy | the configuration shapes of src/types/globals.d.ts |
| `Requester` | configured_requester.dfy | src/core/configuredRequester.ts |
| `Base` | base_requester.dfy | src/core/baseRequester.ts, and request scenarios through the whole stack |
| `DefaultInstance` | default_requester.dfy | src/easy-requester.ts |
| `LegacyRequester` | legacy_requester.dfy | src/easy_requester.ts |

How the model is shaped:

- The queue is specified twice:
  - as a state machine (`QueueState` with `EnqueueStep` and `FinishStep`), over which first-in-first-out settlement is proved for every sequence of events;
  - as the class `RequestQueuer`, whose methods are proved to follow those steps.
- `requestFn` is split at its `await fetch(...)`:
  - `StartRequestFn` is the part before it;
  - `Resume` is the part after it, and takes the transport outcome as a parameter.
- The foreign serialisers are function-valued parameters: `URLSearchParams`, `JSON.stringify` and `response.json()`.

Behaviours of the code a reader might not expect:

- **Transport errors.** A transport error, or an aborted fetch, does not resolve with `{isSuccess: false, message}`. `Logger.error` throws first (src/utils/logger.ts:39), so the request's promise rejects and the cleanup in the `catch` never runs.
- **Tracker release.** The tracker entry is released only for a response with a non-accepted status. A successful request stays tracked, and so does a failed or aborted one.
- **Access token.** `sendRequest` never passes the access token to header generation. No `Authorization` header comes from the `auth` section.
- **Content-Type default.** In a `header` section without `contentType`, the default is the whole line `"Content-Type: application/json"`, used as the header's value.
- **String endpoints.** They get no leading slash from src/utils/generators.ts or src/easy-requester.ts.

## Model

| member | source | states |
|---|---|---|
| Js.TrimSlashes | src/utils/generator.ts:25 | the result is the input with at most one leading and at most one trailing "/" removed, and exactly those present are removed |
| Js.TrimSlashesUnwraps | src/utils/generator.ts:31 | wrapping any string in one slash on each side and trimming gives it back |
| Js.TrimSlashesRemovesAtMostOne | src/utils/generator.ts:31 | a doubled slash on each side leaves one slash on each side |
| Js.IndexPropertyAt | src/core/configuredRequester.ts:90-94 | spreading a string copies its characters: property `i` holds the `i`-th character, never overwritten by a later index |
| Js.OnlyIndexProperties | src/core/configuredRequester.ts:90-94 | a spread string has no property besides its indices below its length |
| Js.PropertyOfEntry | src/utils/generator.ts:21 | in an object with distinct keys, reading an entry's key gives that entry's value, so `Object.entries` and property access agree |
| Js.StripTrailingSlash | src/easy-requester.ts:131 | one trailing "/" is removed when there is one; otherwise the string is unchanged |
| Generator.GenerateEndpoint | src/utils/generator.ts:18-34 | the `forEach` loop computes the endpoint path: "/" + trimmed value per entry for an object, "/" + trimmed string for a string, the thrown error otherwise |
| Generator.ObjectPathErrorPersists | src/utils/generator.ts:21-27 | once an entry has thrown, the remaining entries do not change the outcome |
| Generator.ObjectPathOkIff | src/utils/generator.ts:20-27 | an object endpoint generates a path exactly when every value is a string |
| Generator.ObjectPathIsJoin | src/utils/generator.ts:19-29 | with string values only, the path is "/" + trimmed value per entry in the order `Object.entries` lists them; keys never appear, and an empty object gives "" |
| Generator.ObjectPathFirstBadKey | src/utils/generator.ts:22-24 | the first non-string value makes generation fail, and the error names its key (`Logger.error` throws) |
| Generator.ObjectPathIgnoresKeys | src/utils/generator.ts:21-26 | two objects with the same values in the same order give the same path whatever their keys |
| Generator.TwoEntryPath | src/utils/generator.ts:19-29 | a two-entry object whose values hold no slash becomes "/" + first + "/" + second |
| Generator.GenerateURL | src/utils/generator.ts:48-58 | the URL is protocol + "://" + baseURL + (":" + port only when the port is truthy) + endpoint + ("?" + serialized query only when the query is truthy); it fails exactly when the endpoint fails, with the same error |
| Generator.UserLoginExample | src/utils/generator.ts:48-58 | https, api.example.com and `{route: "user", controller: "login"}` give `https://api.example.com/user/login` |
| Generator.ZeroPortOmitted | src/utils/generator.ts:49 | port 0 is falsy and gives the same URL as no port |
| Generator.EmptyQueryStillAddsQuestionMark | src/utils/generator.ts:51-53 | an empty query object is truthy, so the URL still ends in "?" + its serialization |
| Generator.GenerateHeaders | src/utils/generator.ts:71-82 | `Content-Type` is always present: the content type unless it is `undefined`/`null` (an empty string is kept), else `application/json`; `Authorization` is "Bearer " + token iff the token is truthy; `Accept-Language` is the language iff it is truthy; otherwise those two keys and every other key come unchanged from the custom headers |
| Generators.GenerateHeaders | src/utils/generators.ts:5-14 | `Content-Type` is copied verbatim with no default; `Authorization` and `Accept-Language` as in generator.ts; every other key comes unchanged from the custom headers |
| Generators.GenerateEndpointFromObject | src/utils/generators.ts:16-35 | the loop computes `EndpointFromObject`: it throws on a non-string value or on a value still holding a slash after trimming, and a string endpoint is only trimmed |
| Generators.ObjectPathErrorPersists | src/utils/generators.ts:22-31 | once an entry has thrown, the remaining entries do not change the outcome |
| Generators.ObjectPathOkIff | src/utils/generators.ts:22-31 | an object endpoint is accepted exactly when every value is a string with no slash left after trimming |
| Generators.ObjectPathAgreesWithGenerator | src/utils/generators.ts:22-32 | on accepted objects this variant builds the same path as generator.ts |
| Generators.RoundTrip | src/utils/generators.ts:22-32 | splitting an accepted path at "/" gives back exactly the trimmed values, one per entry, in order |
| Generators.StringEndpointLacksLeadingSlash | src/utils/generators.ts:34 | for a string endpoint, generator.ts gives "/" + what this variant gives |
| Generators.GenerateURL | src/utils/generators.ts:37-51 | the same composition as generator.ts over this variant's endpoint rule; it fails exactly when the endpoint fails |
| Validator.ValidateWith | src/utils/validator.ts:4-30 | the guard chain passes exactly on conforming configurations: protocol falsy or http/https, baseURL truthy, port falsy or a number, endpoint a string, object or null, content type and language falsy or strings, token falsy, a string or a number |
| Validator.ValidateConfig | src/utils/validator.ts:4-30 | passes iff the configuration conforms; a failure carries the message of a guard that fires |
| Validator.GuardChainIsFirstViolation | src/utils/validator.ts:4-30 | the if-chain equals trying the seven guards in source order and throwing at the first that fires |
| Validator.NoViolationPasses | src/utils/validator.ts:4-30 | when no guard fires, validation returns normally |
| Validator.FirstViolationNamesAViolatedCheck | src/utils/validator.ts:4-30 | a failing run throws the message of some guard that fires |
| Validator.FirstFiringCheckDecides | src/utils/validator.ts:4-30 | the first guard that fires decides the message, whatever later guards would say |
| Validator.ProtocolReportedBeforeBaseUrl | src/utils/validator.ts:5-10 | an unknown protocol is reported before a missing baseURL |
| Validator.NullEndpointPassesValidation | src/utils/validator.ts:14-16 | a `null` endpoint passes validation (`typeof null` is "object"), yet endpoint generation throws on it |
| Validator.ValidatedEndpointFailsOnlyOnValues | src/utils/validator.ts:14-16 | apart from `null`, a validated endpoint fails generation only through a non-string object value |
| Queue.ProcessStep | src/core/handlers/requestQueuer.ts:23-28 | with an entry running or nothing waiting nothing changes; otherwise the head starts; no entry is lost or reordered |
| Queue.EnqueueStep | src/core/handlers/requestQueuer.ts:50-55 | the entry joins the tail of the active entries; on an idle queue it starts at once, otherwise the running entry stays |
| Queue.FinishStep | src/core/handlers/requestQueuer.ts:36-39 | after the running entry settles, whether it succeeded or failed, the active entries are the rest in order, and the next one runs iff one was waiting |
| Queue.Replay | src/core/handlers/requestQueuer.ts:23-55 | after any sequence of enqueues and completions the queue is at rest: it never idles while entries wait |
| Queue.SettleInArrivalOrder | src/core/handlers/requestQueuer.ts:23-55 | settled entries followed by active entries are always the initial active entries followed by the arrivals, in order: first in, first out, none twice, none skipped |
| Queue.SettledArePrefixOfArrivals | src/core/handlers/requestQueuer.ts:23-55 | from an empty queue, the settled entries are always a prefix of the enqueued ones |
| Queue.RequestQueuer.constructor | src/core/handlers/requestQueuer.ts:10-13 | an empty queue with the flag cleared |
| Queue.RequestQueuer.ProcessQueue | src/core/handlers/requestQueuer.ts:23-28 | the new state is `ProcessStep` of the old one; it starts the head iff nothing ran and something waited |
| Queue.RequestQueuer.EnqueueRequest | src/core/handlers/requestQueuer.ts:50-55 | a fresh pending promise; the new state is `EnqueueStep` of the old one; the request starts at once iff the queue was idle; the invariant is kept |
| Queue.RequestQueuer.Finish | src/core/handlers/requestQueuer.ts:31-39 | the running entry's promise, and only it, is settled with the outcome; the new state is `FinishStep` of the old one; the next entry starts iff one waited |
| Queue.FailureDoesNotStall | src/core/handlers/requestQueuer.ts:31-39 | of two queued requests the first rejects and the second still runs and resolves |
| Aborter.RequestAborter.constructor | src/core/handlers/requestAborter.ts:12-14 | an empty, fresh map |
| Aborter.RequestAborter.GetControllers | src/core/handlers/requestAborter.ts:22-24 | the live map itself, not a copy |
| Aborter.RequestAborter.SetupAbortController | src/core/handlers/requestAborter.ts:35-45 | a fresh controller's signal goes into the request init; the controller stored for the URL, if any, is aborted; the fresh one replaces it; every other URL keeps its controller; at most one controller per URL, none aborted, stays invariant |
| Aborter.RequestAborter.HandleAbortError | src/core/handlers/requestAborter.ts:54-56 | the URL's entry is deleted, whatever controller it holds; absent URLs and other entries are untouched |
| Aborter.StaleReleaseUntracksNewer | src/core/handlers/requestAborter.ts:35-56 | a stale release keyed on the URL drops the newer request's controller, which a third request then no longer aborts |
| Requester.HeaderParamsOf | src/core/configuredRequester.ts:54-58 | header generation gets the header section's fields and never the access token |
| Requester.RequestHeaders | src/core/configuredRequester.ts:54-58 | `Content-Type` is always present; `Authorization` appears only when the custom headers carry it; the `auth` section plays no part |
| Requester.CredentialsOf | src/core/configuredRequester.ts:64 | "include" iff `auth.includeCookies` is truthy, else "same-origin" |
| Requester.CompleteRequest | src/core/configuredRequester.ts:85-119 | only a non-accepted status releases the entry (in abort-previous mode) and resolves `{isSuccess: false}`; a transport error rejects with its cause and an unparsable JSON body with the parser's error, both via `Logger.error`; an accepted response resolves with `isSuccess`, `message` and either the JSON fields or `text` |
| Requester.JsonStringBodySpreadsCharacters | src/core/configuredRequester.ts:90-94 | a JSON body that parses to a string resolves with one field per character, keyed by its index |
| Requester.JsonBodyFieldsWin | src/core/configuredRequester.ts:88-95 | the JSON body's fields are spread last and win over `isSuccess` and `message` |
| Requester.EffectiveOutcome | src/core/configuredRequester.ts:83 | a fetch whose signal was aborted fails with an `AbortError` whatever the server sent |
| Requester.ConfiguredRequester.constructor | src/core/configuredRequester.ts:23-35 | keeps the configurations and the shared queuer and aborter |
| Requester.ConfiguredRequester.StartRequestFn | src/core/configuredRequester.ts:60-81 | the `RequestInit` has the method, the credentials mode and the captured headers; a body iff the method is not GET or HEAD; in abort-previous mode it is registered with the tracker, aborting the URL's previous controller; in enqueue-new mode the tracker is untouched |
| Requester.ConfiguredRequester.SendRequest | src/core/configuredRequester.ts:50-126 | a URL that cannot be generated rejects at once and changes nothing; enqueue-new appends to the shared queue and starts only on an idle queue; abort-previous starts at once and supersedes the URL's tracked request; a started request's `RequestInit` has the configured method, credentials, headers and body |
| Requester.ConfiguredRequester.SendQueued | src/core/configuredRequester.ts:121-124 | the request goes through `enqueueRequest`; `requestFn` starts here iff the queue was idle, without a signal, with the `RequestInit` `StartRequestFn` promises |
| Requester.ConfiguredRequester.SendDirect | src/core/configuredRequester.ts:125 | `requestFn` runs at once with a fresh, unaborted signal that replaces the URL's tracked controller, with the `RequestInit` `StartRequestFn` promises |
| Requester.ConfiguredRequester.Resume | src/core/configuredRequester.ts:83-119 | the request's promise settles with `CompleteRequest` of the outcome (failure if aborted); the tracker entry is deleted exactly when that releases it; a queued request hands the queue on to its next entry |
| Requester.ConfiguredRequester.ReleaseEntry | src/core/configuredRequester.ts:106-109 | the URL's entry is deleted through the live map |
| Requester.ConfiguredRequester.Deliver | src/core/configuredRequester.ts:121-125 | a direct request settles its own promise; a queued one settles the running entry's promise and the queue moves on |
| Base.Distinct | src/core/baseRequester.ts:29-31 | `Array.from(new Set(...))`: the same members, no duplicates, in the order of their first occurrence |
| Base.DistinctOfDuplicateFree | src/core/baseRequester.ts:29-31 | deduplicating a duplicate-free list changes nothing |
| Base.DistinctKeepsPrefix | src/core/baseRequester.ts:29-31 | deduplicating keeps a duplicate-free prefix in front, unchanged |
| Base.DistinctAfterPrefix | src/core/baseRequester.ts:29-31 | after a duplicate-free prefix come exactly the appended values it lacks, in the order of their first occurrence |
| Base.NormalizeClientConfig | src/core/baseRequester.ts:26-33 | `onNewRequest` defaults to enqueue-new and debug mode to false; the accepted codes are 200..206 first, then the caller's other codes in the order the caller first lists them, with no duplicates; membership is the union |
| Base.NormalizeRequestConfig | src/core/baseRequester.ts:43-66 | protocol defaults to http and the other URL parts are copied; a header section exists iff given, with the "Content-Type: application/json" and `{}` defaults; an auth section exists iff given, with cookies defaulting to false |
| Base.NormalizeRequestConfigIdempotent | src/core/baseRequester.ts:43-66 | normalising twice is normalising once |
| Base.ContentTypeDefaults | src/core/baseRequester.ts:55 | without a header section the request sends `application/json`; with a section lacking `contentType` it sends "Content-Type: application/json" as the value |
| Base.BaseRequester.constructor | src/core/baseRequester.ts:17-33 | the normalised client configuration, one fresh empty queue and one fresh empty tracker |
| Base.BaseRequester.SetRequestConfig | src/core/baseRequester.ts:43-69 | a fresh requester for the normalised configuration that shares this client's configuration, queue and tracker |
| Base.FreshLoginRequester | src/core/baseRequester.ts:43-69 | a new client's first requester starts with nothing queued and nothing tracked |
| Base.FirstDirectSend | src/core/configuredRequester.ts:68-71 | in abort-previous mode a first send is tracked under its URL with a live controller |
| Base.SupersededPair | src/core/configuredRequester.ts:68-71 | a second send of the same request aborts the first's controller and replaces it in the tracker |
| Base.SupersededRequestRejects | src/core/configuredRequester.ts:83-101 | the superseded request rejects with the logged `AbortError` even though a response arrived; the newer one resolves and stays tracked |
| Base.FirstQueuedSend | src/core/configuredRequester.ts:121-124 | in enqueue-new mode a first send on an idle queue starts at once, without a signal, and is the running entry |
| Base.QueuedPair | src/core/configuredRequester.ts:121-124 | in enqueue-new mode the first send runs and the second waits behind it |
| Base.FirstFails | src/core/configuredRequester.ts:111-118 | a transport error rejects the first request and the queue starts the second |
| Base.RunSecond | src/core/configuredRequester.ts:104-110 | a 404 is not accepted and resolves `{isSuccess: false}`; the earlier promise is untouched |
| Base.QueueDrainsAfterTransportError | src/core/handlers/requestQueuer.ts:31-39 | end to end: the first request rejects, the queue still runs the second, which resolves |
| DefaultInstance.GenerateHeaders | src/easy-requester.ts:54-64 | `Content-Type` is the content type when truthy, else `application/json`; `Authorization` and `Accept-Language` iff their inputs are truthy; every other key comes unchanged from the custom headers |
| DefaultInstance.HeadersAgreeWithGenerator | src/easy-requester.ts:56-61 | these headers equal generator.ts's except for a falsy but present content type, where this file substitutes `application/json` |
| DefaultInstance.GenerateURL | src/easy-requester.ts:85-95 | the URL of generators.ts when a query is given, and that URL + "?" when none is: "?" is always inserted |
| DefaultInstance.ValidateConfig | src/easy-requester.ts:97-119 | passes iff the settings conform; a failure carries the message of a guard that fires, with this file's protocol wording |
| DefaultInstance.InitialSettingsFailValidation | src/easy-requester.ts:101-103 | the constructor's settings fail validation on the empty base URL |
| DefaultInstance.ProtocolWording | src/easy-requester.ts:98-100 | an "ftp" protocol fails here with "Protocol should be..." where the validator says "config.protocol should be..." |
| DefaultInstance.BaseUrlOf | src/easy-requester.ts:131 | a string base URL loses one trailing slash; any other value throws the engine's `TypeError` |
| DefaultInstance.HistoryOnlyThroughInheritedFields | src/easy-requester.ts:130-143 | previous settings show through only in protocol, port, content type, token, cookies flag, language and query |
| DefaultInstance.InheritedFieldsKept | src/easy-requester.ts:130-140 | an absent inherited field keeps its previous value and a present one takes the new value |
| DefaultInstance.ApplyConfigIdempotent | src/easy-requester.ts:129-143 | setting the same config twice equals setting it once |
| DefaultInstance.SuiteUrl | src/easy-requester.ts:85-95 | the test suite's configuration gives `https://example.com/api/route/controller?foo=bar` |
| DefaultInstance.SuiteOrigin | src/easy-requester.ts:88 | the test suite's origin is `https://example.com/api` |
| DefaultInstance.SuiteSettings | src/easy-requester.ts:129-143 | after the test suite's `setConfig`, https and no port remain from the constructor, and the base URL is kept |
| DefaultInstance.SuitePath | src/easy-requester.ts:66-83 | `{route: "route", controller: "controller"}` becomes `/route/controller` |
| DefaultInstance.TwoSegmentPath | src/easy-requester.ts:66-83 | a two-entry object whose values hold no slash becomes "/" + first + "/" + second |
| DefaultInstance.SuiteHeaders | src/easy-requester.ts:54-64 | the test suite's headers: default content type, bearer token, language and both custom headers |
| DefaultInstance.EasyRequester.constructor | src/easy-requester.ts:30-44 | https, POST, `application/json`, an empty `{route, controller}` endpoint, empty token, language, codes, payload and headers, debug on; the generated headers are just the content type |
| DefaultInstance.EasyRequester.SetConfig | src/easy-requester.ts:129-148 | fields are assigned before validation, so a rejected config has already replaced the old one; a non-string base URL throws after the protocol is set; headers are regenerated; it succeeds iff the result conforms and then returns the instance itself |
| DefaultInstance.EasyRequester.AssignFields | src/easy-requester.ts:132-143 | every assigned field takes its `ApplyConfig` value |
| DefaultInstance.EasyRequester.AssignAddressing | src/easy-requester.ts:131-140 | base URL, port, endpoint, method, codes and query take their new values; nothing else changes |
| DefaultInstance.EasyRequester.AssignContent | src/easy-requester.ts:135-143 | content type, token, cookies flag, language, payload, options and headers take their new values; nothing else changes |
| DefaultInstance.EasyRequester.DebugMode | src/easy-requester.ts:158-161 | the flag becomes the argument, false when none is given; nothing else changes; returns the instance |
| DefaultInstance.EasyRequester.GenerateEndpointFromObject | src/easy-requester.ts:66-83 | the same endpoint rule as generators.ts over the instance's endpoint |
| DefaultInstance.SuiteSetConfig | src/easy-requester.ts:129-148 | the test suite's configuration validates and returns the instance, with headers regenerated |
| LegacyRequester.Rest | src/easy_requester.ts:75 | the additional options are exactly the properties not destructured, in order |
| LegacyRequester.RestKeepsOrder | src/easy_requester.ts:75 | filtering a concatenation is concatenating the filtered parts, so the kept properties stay in their order |
| LegacyRequester.RestOfOne | src/easy_requester.ts:75 | one property is kept exactly when its key is not destructured |
| LegacyRequester.RestIdempotent | src/easy_requester.ts:75 | filtering twice removes nothing more |
| LegacyRequester.DefaultAcceptance | src/easy_requester.ts:115-117 | unconfigured, exactly 200..208 and 226 are accepted |
| LegacyRequester.ConfiguredListReplacesDefaults | src/easy_requester.ts:115-117 | a configured list replaces the default list entirely |
| LegacyRequester.DiffersFromBaseRequester | src/easy_requester.ts:115-117 | 207 is accepted here but not by src/core/baseRequester.ts; a `[404]` list rejects 200 here while baseRequester.ts still accepts it |
| LegacyRequester.QueryOnlyAppends | src/easy_requester.ts:110-113 | "?" + the serialized query is appended iff a query is truthy, and nothing else changes |
| LegacyRequester.StringEndpointVersusGenerator | src/easy_requester.ts:100-103 | a string endpoint with no outer slash gives the URL of generator.ts |
| LegacyRequester.LeadingSlashDoubles | src/easy_requester.ts:100-103 | a string endpoint is never trimmed, so a leading slash doubles |
| LegacyRequester.RouteControllerVersusGenerator | src/easy_requester.ts:104-108 | `{route, controller}` with slash-free values gives the URL of generator.ts |
| LegacyRequester.EasyRequester.constructor | src/easy_requester.ts:61-96 | protocol defaults to https and cookies to false; the headers follow src/easy-requester.ts's rule; other fields are kept as given; undestructured properties become the additional options |
| LegacyRequester.EasyRequester.BuildRequestUrl | src/easy_requester.ts:99-113 | the URL is origin + "/" + endpoint verbatim, or + "/" + route + "/" + controller, then "?" + query iff a query is given; reading `route` off `undefined` or `null` throws |
| LegacyRequester.EasyRequester.AcceptsStatus | src/easy_requester.ts:139-141 | a status is accepted iff it is in the configured list, or in the default list when none is configured |

## Left out

- Transport:
  - `fetch` and the axios instance, interceptors and request are not modelled.
  - A transport outcome (`Responded(status, content type, status text, body)` or `Failed(cause)`) is a parameter of `Resume`.
  - The `sendRequest` of src/easy-requester.ts and the axios half of src/easy_requester.ts's `sendRequest` are not modelled.
- Promise and async timing:
  - A pending promise is a `Promise` object with an optional settlement.
  - Each `await fetch` is split into an explicit start step and resume step, which a caller sequences.
  - Interleavings are only those sequences.
  - The re-entrant `processQueue()` in `finally` is the process step inside `Finish`.
- Aborts:
  - An abort takes effect only while `fetch` is pending: `Resume` checks the signal once.
  - An abort during body reading, and signal event delivery, are not modelled.
- Logging: `Logger.info`, `Debugger.log`, `debugModeLog` and the console are not modelled; `Logger.error` is modelled only as the exception it always throws.
- Foreign serialisers:
  - `URLSearchParams(...).toString()`, `JSON.stringify` and `response.json()` are uninterpreted function parameters.
  - `response.text()` is the response body as a string.
- Values:
  - Numbers are integers; NaN, fractions and arrays as values are not representable.
  - Header objects are maps, so the key order of the generated headers is not modelled.
  - An object value lists its properties in the order `Object.entries` reports them (array-index keys first, ascending, then the rest in insertion order). The model takes that order as given and does not compute it from the order in which an object literal was written.
  - A property list with a repeated key is not a JavaScript object. Such lists are not ruled out by the type; `Js.DistinctKeys` names the lists that are objects, and `Js.PropertyOfEntry` shows that on them `Object.entries` and property access agree.
- `Requester.EffectiveOutcome`: the cause of an abort is one fixed text; the engine's exact `AbortError` message is not modelled.
- `LegacyRequester.EasyRequester.constructor`:
  - The configuration's extra properties are a separate ordered list `others`, filtered by `Rest`.
  - A caller-supplied property that shadows a destructured name is not modelled.
- `DefaultInstance.EasyRequester.SetConfig`: TypeScript's declared types are not enforced, so any JavaScript value may reach any field, as at run time.
- The module-level singleton (`export default new EasyRequester()`) is one instance created by the constructor; nothing else about module loading is modelled.
