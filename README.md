# BetterCallApi request shaping and response classification

This project models the `BetterCallApi` client class of the Better Call Dev front end (`src/api/bcd.js`). The class talks to a Tezos smart-contract explorer API. Each endpoint wrapper does two deterministic jobs around an HTTP call, and the model covers both:

- **Request shaping.** A wrapper builds its query parameters, request body or `k=v` query string step by step. Each field is added under its own guard: `> 0`, `> -1`, `!== 0`, `!= ""`, `> ''`, truthiness, a non-empty array, or `0 < length < 4`. Some wrappers then merge in a caller's object with `Object.assign` or attach an `Authorization` header.
- **Response classification.** The `.then` handler turns what the transport produced into the promise's result. The possible results are:
  - the body of a 200 response;
  - a `RequestFailedError` carrying any other status;
  - `null` or `{}` for a 204 on two endpoints;
  - the falsy result of a cancelled request, handed back or mapped to `null`.

  On the profile endpoints, the `.catch` handler also turns a rejection carrying a 401 response into an `UnauthorizedError`.

Modules:

- `Values`: JavaScript values, namely truthiness, the string `<`, the decimal text a template literal produces, and `join`/`split`.
- `Objects`: plain objects with insertion-ordered keys: reading, assigning and `Object.assign`.
- `JsObjects`: the two mutable local containers the wrappers build in. `ParamObject` is a JavaScript object filled under guards; `SegmentList` is an array of segments pushed to and joined with `&`.
- `Queries`: what every builder produces, as a function of its arguments, with lemmas on what it sends.
- `Responses`: the `.then` and `.catch` handlers and the two error classes.
- `Endpoints`: which handler each of the 68 wrappers attaches, and the resulting end-to-end classification.
- `Api`: the class itself. Its wrappers build requests imperatively; each is proved to issue exactly the request the `Queries` function describes and to settle as `Endpoints.Handle` says.

The transport is not modelled. The client keeps a log, `sent`, of the requests it hands over and of its calls to `cancelRequests()`. Each wrapper takes three inputs as parameters:

- `reply`: how the transport settled the request;
- `jwt`: what `getJwt()` returned;
- where needed, `parseInt`.

## Model

| member | source | states |
|---|---|---|
| `Values.Truthy` | src/api/bcd.js:93 | ToBoolean as `if (x)` applies it: `undefined`, `null`, `false`, `0` and `''` are falsy, everything else truthy |
| `Values.StrLess` | src/api/bcd.js:218 | the string `<`: lexicographic, a proper prefix smaller |
| `Values.ToStr` | src/api/bcd.js:768-774 | the text a template literal `${v}` gives each kind of value |
| `Values.NatToString` | src/api/bcd.js:926-929 | a non-negative integer's decimal text: at least one character, all digits, no leading zero |
| `Values.IntToString` | src/api/bcd.js:374-375 | an integer's decimal text: a leading `-` exactly for a negative integer, and every other character a digit |
| `Values.Join` | src/api/bcd.js:56 | `xs.join(sep)`: the elements in order with `sep` between neighbours |
| `Values.GreaterThanEmpty` | src/api/bcd.js:218 | a string compares `> ''` exactly when it is non-empty |
| `Values.DecimalRoundTrip` | src/api/bcd.js:926-930 | the decimal text of a non-negative integer, which is what a template literal prints for non-negative integers below 10^21, reads back as that integer |
| `Values.IntRoundTrip` | src/api/bcd.js:374-375 | the text of any integer, sign included (a negative `level` prints as `?level=-3`), reads back as that integer |
| `Values.IntToStringHasNoSeparator` | src/api/bcd.js:926-930 | the decimal text of a number never contains a separator such as `&` or `,` |
| `Values.SplitJoin` | src/api/bcd.js:56 | splitting a non-empty `join(sep)` at `sep` gives back the pieces in order, provided no piece contains `sep` |
| `Values.JoinEmpty` | src/api/bcd.js:776 | a join is empty exactly when the array is empty or holds one empty string |
| `Objects.Put` | src/api/bcd.js:54 | `obj[k] = v`: k now holds v; an existing key keeps its place and a new key goes last |
| `Objects.PutIf` | src/api/bcd.js:53-54 | `if (c) obj[k] = v`: the assignment when c holds, the object unchanged otherwise |
| `Objects.AssignAll` | src/api/bcd.js:67 | `Object.assign(p, src)`: each own property of src assigned onto p, in src's order |
| `Objects.PutSpec` | src/api/bcd.js:53-54 | after `obj[k] = v`, k reads as v and every other key as before; an existing key keeps its place and a new one is appended; the object stays well formed |
| `Objects.PutIfFresh` | src/api/bcd.js:52-66 | `if (c) obj[k] = v` for a key not yet present appends k exactly when c holds, gives it v, and changes nothing else |
| `Objects.GetAssignAll` | src/api/bcd.js:67 | after `Object.assign(p, src)`, a key of src reads as in src, overriding p; every other key reads as in p |
| `Objects.KeysAssignAll` | src/api/bcd.js:67 | `Object.assign` keeps the target's keys in place and appends the source's new keys in the source's order; the result is well formed |
| `JsObjects.ParamObject.Set` | src/api/bcd.js:53-54 | the object becomes `Put(old, k, v)` |
| `JsObjects.ParamObject.Assign` | src/api/bcd.js:67 | copying the source's properties one by one, in the source's order, yields `AssignAll(old, src)` |
| `JsObjects.SegmentList.Push` | src/api/bcd.js:768 | the segment is appended and nothing else changes |
| `JsObjects.SegmentList.Joined` | src/api/bcd.js:776 | `params.join('&')` over the pushed segments |
| `Queries.Collection` | src/api/bcd.js:56-62 | a collection field: `xs.join(',')` as a string value, as for `i`, `n`, `l`, `status`, `entrypoints` and `contracts` |
| `Queries.SearchParams` | src/api/bcd.js:49-66 | `{q}`, then `o`, `i`, `n`, `l` and `g` each assigned under its own guard, in source order |
| `Queries.SearchQuery` | src/api/bcd.js:48-67 | the search parameters with `time` assigned over them |
| `Queries.OffsetParams` | src/api/bcd.js:109-110 | `{}` with `offset` assigned when positive, as `getSameContracts` and `getSimilarContracts` build it |
| `Queries.ContractOperationsParams` | src/api/bcd.js:139-155 | the guarded `last_id`, `from`, `to`, `status`, `entrypoints`, then `with_storage_diff` |
| `Queries.AccountTransfersParams` | src/api/bcd.js:211-223 | the guarded `token_id`, `size`, `last_id`, `contracts` |
| `Queries.ContractCodeParams` | src/api/bcd.js:237-243 | the guarded `protocol`, `level` |
| `Queries.ContractTransfersParams` | src/api/bcd.js:291-300 | the guarded `token_id`, `size`, `offset` |
| `Queries.SizeOffsetParams` | src/api/bcd.js:524-530 | the guarded `size`, `offset`, as `getTokensByVersion` and `listDomains` build it |
| `Queries.PageQuery` | src/api/bcd.js:183-184 | the literal `{offset, size}` |
| `Queries.LimitOffsetSegments` | src/api/bcd.js:924-930 | the `limit=` and `offset=` segments, each pushed when positive |
| `Queries.TraceBody` | src/api/bcd.js:340-349 | `{name, data}` with `source` and the parsed `amount` assigned when truthy |
| `Queries.TraceMethod` | src/api/bcd.js:350 | `run_operation` for a truthy source, `trace` otherwise |
| `Queries.ContractConfig` | src/api/bcd.js:91-95 | `{}` with `headers: {Authorization: token}` assigned when the token is truthy |
| `Queries.ProfileConfig` | src/api/bcd.js:578-582 | `{headers: {Authorization: token}}`, whatever the token |
| `Queries.VoteBody` | src/api/bcd.js:571-577 | the literal `{src, src_network, dest, dest_network, vote}` |
| `Queries.MarkAllReadBody` | src/api/bcd.js:649 | the literal `{timestamp}` |
| `Queries.MarkAllReadBodyFields` | src/api/bcd.js:649 | the body holds the timestamp under `timestamp` and no other key |
| `Queries.RemoveSubscriptionConfig` | src/api/bcd.js:702-708 | the token header, then `data: {network, address}` |
| `Queries.ProfileEventsConfig` | src/api/bcd.js:722-731 | the token header, then `params: {offset, size: maxSize}` |
| `Queries.CollectionRoundTrip` | src/api/bcd.js:55-63 | a collection field is the caller's array joined by `,`, and it splits back into that array in order |
| `Queries.SearchParamsFields` | src/api/bcd.js:49-66 | `q` is always set; `o` only for a positive offset; `i`, `n`, `l` only for non-empty arrays; `g` is the constant 1 for every `group >= 0` and absent otherwise; keys follow source order |
| `Queries.SearchParamsWellFormed` | src/api/bcd.js:49-66 | the search parameters never list a key twice |
| `Queries.SearchQueryFields` | src/api/bcd.js:48-70 | what `search` sends: every key of `time` reads as in `time`, overriding earlier keys; every other key reads as before the merge; `q` is always present |
| `Queries.SearchKeyOrder` | src/api/bcd.js:67 | the sent keys are the search's own keys in source order, followed by the new keys of `time` in `time`'s order |
| `Queries.OffsetParamsFields` | src/api/bcd.js:109-110 | `offset` is sent only when positive, and nothing else is sent |
| `Queries.ContractOperationsParamsFields` | src/api/bcd.js:139-155 | `status` is present iff `0 < length < 4`, so all four statuses means no filter; `from` and `to` are present iff non-zero, negatives included; `last_id` iff non-empty; `entrypoints` iff non-empty; `with_storage_diff` always |
| `Queries.ContractOperationsParamsKeys` | src/api/bcd.js:139-155 | the operation filters are keyed in source order, with `with_storage_diff` last |
| `Queries.ContractOperationsParamsWellFormed` | src/api/bcd.js:139-155 | no key is listed twice |
| `Queries.AccountTransfersParamsFields` | src/api/bcd.js:211-223 | `token_id` is present for every id from 0 up, so 0 is sent; `size` only when positive; `last_id` exactly when non-empty; `contracts` only for a non-null, non-empty array; keys follow source order |
| `Queries.AccountTransfersParamsWellFormed` | src/api/bcd.js:211-223 | no key is listed twice |
| `Queries.ContractCodeParamsFields` | src/api/bcd.js:237-243 | `protocol` only when non-empty, `level` only when positive, in that order |
| `Queries.ContractTransfersParamsFields` | src/api/bcd.js:291-300 | `token_id` from 0 up; `size` and `offset` only when positive; in that order |
| `Queries.SizeOffsetParamsFields` | src/api/bcd.js:524-530 | `size` then `offset`, each only when positive; with neither, the object is empty |
| `Queries.PageQueryFields` | src/api/bcd.js:183-184 | `{offset, size}` always sends both, `offset` first, whatever their values |
| `Queries.WithQuery` | src/api/bcd.js:776 | the URL `${path}?${params.join('&')}`, as at the series and compilation wrappers |
| `Queries.WithQueryShape` | src/api/bcd.js:776 | the URL always contains its `?`; it ends there exactly when there is no segment or one empty segment; otherwise the text after `?` splits at `&` into exactly the segments, in order |
| `Queries.LimitOffsetSegmentsShape` | src/api/bcd.js:924-930 | `limit` and `offset` segments appear only when positive, `limit` first, and each number reads back as the caller's |
| `Queries.LimitOffsetQuery` | src/api/bcd.js:924-931 | with neither `limit` nor `offset` the URL is the bare path plus `?`; otherwise the query string splits back into exactly the segments |
| `Queries.StatsSeriesSegments` | src/api/bcd.js:766-775 | `address` for a non-null, non-empty array, then `period` and `name`, each only when truthy; always in that order |
| `Queries.TokenVolumeSegments` | src/api/bcd.js:860-869 | `contract`, `period`, `token_id` always, in that order, then `slug` only when non-empty |
| `Queries.StorageSuffix` | src/api/bcd.js:373-376 | the suffix always starts with `?`; it is just `?` exactly when the level is falsy; for a positive level it is `?level=` and the decimal level |
| `Queries.RandomContractUrl` | src/api/bcd.js:502 | the network is appended as a query exactly when it is truthy |
| `Queries.TraceBodyFields` | src/api/bcd.js:340-350 | `name` and `data` are always in the body; `source` and the parsed `amount` only when truthy; the request goes to `run_operation` exactly when the body has a `source` |
| `Queries.TraceBodyWellFormed` | src/api/bcd.js:340-349 | the trace body never lists a key twice |
| `Queries.VoteBodyFields` | src/api/bcd.js:571-577 | `src`/`src_network` carry the source address and network, `dest`/`dest_network` the destination's, then `vote`, in that order |
| `Queries.ProfileConfigs` | src/api/bcd.js:701-730 | unsubscribing and the event list both send the token; unsubscribing sends `{network, address}` as data; the event page always asks for `maxSize` items from `offset` |
| `Queries.AuthorizationPolicies` | src/api/bcd.js:92-95 | `getContract` sends the token exactly when it is truthy and otherwise an empty configuration; the profile configuration always sends the token it read |
| `Responses.NewRequestFailedError` | src/api/bcd.js:7-11 | the error's `code` is the response's status and its message is the response's string form, that of any plain object (`[object Object]`) |
| `Responses.RequestFailedKeepsOnlyTheStatus` | src/api/bcd.js:7-11 | the error keeps nothing else of the response: two responses give equal errors exactly when their statuses agree |
| `Responses.NewUnauthorizedError` | src/api/bcd.js:13-19 | the error is named `UnauthorizedError` and its message is the string form of the error it replaces |
| `Responses.UnauthorizedKeepsOnlyTheText` | src/api/bcd.js:13-19 | the error keeps nothing else of the error it replaces, not even its response: two errors give equal UnauthorizedErrors exactly when their string forms agree |
| `Responses.ReturnResponseData` | src/api/bcd.js:30-35 | the body iff the status is 200; otherwise a RequestFailedError whose code is the status and whose message is `[object Object]`; a missing response fails when its status is read |
| `Responses.ThenGuarded` | src/api/bcd.js:39-45 | a falsy response is handed back unchanged; otherwise as returnResponseData |
| `Responses.ThenGuardedNull` | src/api/bcd.js:171-179 | a falsy response becomes `null`; otherwise as returnResponseData |
| `Responses.ThenMetadata` | src/api/bcd.js:199-207 | `null` exactly for a falsy response or a 204; otherwise as returnResponseData |
| `Responses.ThenDomain` | src/api/bcd.js:848-856 | `{}` exactly for a 204; no falsy guard; otherwise as returnResponseData |
| `Responses.ThenRaw` | src/api/bcd.js:330-336 | a falsy response is handed back; for 200 the raw `request.response`; otherwise a RequestFailedError carrying the status |
| `Responses.ThenData` | src/api/bcd.js:583-585 | the body of any resolved response, with no status check |
| `Responses.Chain` | src/api/bcd.js:68-76 | a resolution goes through the handler and a rejection passes by unchanged |
| `Responses.Catch401` | src/api/bcd.js:586-591 | a rejection whose response is defined with status 401 becomes the UnauthorizedError built from it; every other outcome is unchanged |
| `Responses.HandlersAgreeOnResponses` | src/api/bcd.js:30-45 | every handler that returns the body on 200 and checks the status (all except the raw-response handler of `getContractEntrypointData` and the profile family's unchecked one) agrees with returnResponseData on any response, except a 204 on the two 204-aware endpoints |
| `Responses.FailuresCarryTheStatus` | src/api/bcd.js:7-11 | a status-checking handler fails only on a response whose status is not 200, carrying that status; it fails on every status other than 200 and 204, and succeeds on 200 |
| `Responses.Catch401OnlyRetargetsRejections` | src/api/bcd.js:586-591 | the `.catch` never touches a success; it changes a rejection only into the UnauthorizedError built from it; it is idempotent |
| `Endpoints.ProfileFamily` | src/api/bcd.js:570-741 | the nine wrappers from `vote` to `getProfileEvents` that attach the 401 `.catch` |
| `Endpoints.HandlerOf` | src/api/bcd.js:37-1059 | the `.then` handler each of the 68 wrappers attaches: guarded, guarded-to-`null`, metadata, domain, raw, strict, or the profile family's unchecked `res.data` |
| `Endpoints.Handle` | src/api/bcd.js:37-1059 | an UnauthorizedError comes only from a rejected request on a profile wrapper |
| `Endpoints.ProfileFamilyShape` | src/api/bcd.js:570-741 | the wrappers that catch 401 are exactly the ones that skip the status check |
| `Endpoints.UnauthorizedExactly` | src/api/bcd.js:586-591 | an UnauthorizedError comes out iff a profile wrapper's request is rejected with a response whose status is 401 |
| `Endpoints.RejectionsPassThrough` | src/api/bcd.js:586-591 | every other rejection comes out unchanged, on every wrapper |
| `Endpoints.OkGivesData` | src/api/bcd.js:30-35 | status 200 gives the body on every wrapper, and the raw response on `getContractEntrypointData` |
| `Endpoints.OtherStatusFails` | src/api/bcd.js:41-43 | outside the profile family, every status other than 200 fails with that status as the code, except 204 on `getAccountMetadata` and `resolveDomain` |
| `Endpoints.ProfileIgnoresStatus` | src/api/bcd.js:583-585 | the profile family returns the body of a resolved response whatever its status |
| `Endpoints.NoContent` | src/api/bcd.js:200-202 | a 204 gives `null` for account metadata, `{}` for domain resolution, the body for the profile family, and a failure with code 204 elsewhere |
| `Endpoints.CancelledRequest` | src/api/bcd.js:172-174 | a cancelled request is handed back by the guarded wrappers, becomes `null` on the three account reads, and fails everywhere else |
| `Api.BetterCallApi.constructor` | src/api/bcd.js:22-28 | a new client has issued nothing |
| `Api.BetterCallApi.Search` | src/api/bcd.js:48-77 | issues one direct GET of `/search` carrying exactly `SearchQuery` of the arguments, and settles as the strict handler says |
| `Api.BetterCallApi.GetContract` | src/api/bcd.js:90-105 | issues one cancellable GET whose configuration is the token header when the token is truthy and `{}` otherwise; guarded handler |
| `Api.BetterCallApi.GetSameContracts` | src/api/bcd.js:108-121 | issues one cancellable GET of `/same` with `OffsetParams` |
| `Api.BetterCallApi.GetSimilarContracts` | src/api/bcd.js:123-136 | issues one cancellable GET of `/similar` with `OffsetParams` |
| `Api.BetterCallApi.GetContractOperations` | src/api/bcd.js:138-167 | issues one cancellable GET of `/operations` carrying exactly `ContractOperationsParams` of the arguments |
| `Api.BetterCallApi.GetAccountInfo` | src/api/bcd.js:169-180 | issues one GET of the account; a cancelled request gives `null` |
| `Api.BetterCallApi.GetAccountTokenBalances` | src/api/bcd.js:182-195 | issues one GET with `{offset, size}`, size defaulting to `maxSize` |
| `Api.BetterCallApi.GetAccountMetadata` | src/api/bcd.js:197-208 | issues one GET of `/metadata`; settles with the metadata handler |
| `Api.BetterCallApi.GetAccountTransfers` | src/api/bcd.js:210-234 | issues one cancellable GET carrying exactly `AccountTransfersParams` of the arguments |
| `Api.BetterCallApi.GetContractCode` | src/api/bcd.js:236-253 | issues one cancellable GET of `/code` carrying `ContractCodeParams`; strict handler |
| `Api.BetterCallApi.GetContractTokens` | src/api/bcd.js:266-277 | issues one GET with `{offset, size}`, size defaulting to `maxSize` |
| `Api.BetterCallApi.GetContractTransfers` | src/api/bcd.js:290-311 | issues one cancellable GET carrying `ContractTransfersParams` |
| `Api.BetterCallApi.GetContractEntrypointTrace` | src/api/bcd.js:339-360 | posts `TraceBody` to `run_operation` or `trace` as `TraceMethod` says |
| `Api.BetterCallApi.LevelSuffix` | src/api/bcd.js:373-376 | the suffix built by `'?'` and `+= 'level=' + level` is `StorageSuffix(level)` |
| `Api.BetterCallApi.GetContractStorage` | src/api/bcd.js:372-385 | issues one cancellable GET of `/storage` plus the level suffix |
| `Api.BetterCallApi.GetContractStorageRaw` | src/api/bcd.js:387-399 | issues one direct GET of `/storage/raw` plus the level suffix |
| `Api.BetterCallApi.GetContractStorageRich` | src/api/bcd.js:401-413 | issues one direct GET of `/storage/rich` plus the level suffix |
| `Api.BetterCallApi.GetRandomContract` | src/api/bcd.js:500-510 | cancels all pending requests, then issues one GET of `RandomContractUrl(network)` |
| `Api.BetterCallApi.GetTokensByVersion` | src/api/bcd.js:523-538 | issues one cancellable GET with `SizeOffsetParams`, size defaulting to 0 |
| `Api.BetterCallApi.GetNetworkStatsSeries` | src/api/bcd.js:765-784 | pushes the guarded segments and issues one GET of the series path plus `?` plus their `&`-join |
| `Api.BetterCallApi.ListDomains` | src/api/bcd.js:827-844 | issues one cancellable GET with `SizeOffsetParams`, size defaulting to `maxSize` |
| `Api.BetterCallApi.ResolveDomain` | src/api/bcd.js:846-857 | issues one GET of `/resolve?address=`; settles with the domain handler |
| `Api.BetterCallApi.GetTokenVolumeSeries` | src/api/bcd.js:859-879 | pushes the four segments and issues one GET of the series path plus `?` plus their `&`-join |
| `Api.BetterCallApi.LimitOffset` | src/api/bcd.js:924-930 | the segment list pushed under the `limit` and `offset` guards is `LimitOffsetSegments` |
| `Api.BetterCallApi.GetProfileCompilations` | src/api/bcd.js:923-942 | issues one cancellable GET of `/profile/compilations?` plus the segments, with the token header |
| `Api.BetterCallApi.GetDeploymentList` | src/api/bcd.js:978-997 | as above for `/profile/compilations/deployment` |
| `Api.BetterCallApi.Vote` | src/api/bcd.js:570-592 | posts `VoteBody` with the token header; data handler plus the 401 `.catch` |
| `Api.BetterCallApi.GetTasks` | src/api/bcd.js:594-610 | one direct GET of `/profile/vote/tasks` with the token header |
| `Api.BetterCallApi.GenerateTasks` | src/api/bcd.js:612-628 | one direct GET of `/profile/vote/generate` with the token header |
| `Api.BetterCallApi.GetProfile` | src/api/bcd.js:630-646 | one direct GET of `/profile` with the token header |
| `Api.BetterCallApi.ProfileMarkAllRead` | src/api/bcd.js:648-664 | posts `{timestamp}` with the token header |
| `Api.BetterCallApi.GetProfileSubscriptions` | src/api/bcd.js:666-681 | one direct GET of `/profile/subscriptions` with the token header |
| `Api.BetterCallApi.AddProfileSubscription` | src/api/bcd.js:683-699 | posts the subscription unchanged with the token header |
| `Api.BetterCallApi.RemoveProfileSubscription` | src/api/bcd.js:701-719 | one direct DELETE whose configuration holds the token header and `{network, address}` as data |
| `Api.BetterCallApi.GetProfileEvents` | src/api/bcd.js:721-741 | one direct GET with the token header and the page `{offset, size: maxSize}` |

## Left out

- The axios instance, its base URL, the 30-second timeout and JSON decoding (src/api/bcd.js:1, 22-28). These are transport plumbing; the base URL is kept as an unused constant.
- `getCancellable`, `postCancellable`, `cancelRequests` and `getJwt` come from `@/utils/cancellation.js` and `@/utils/auth.js`, which are not part of this model. A request is recorded as handed to the transport. Its settlement (`reply`) and the token (`jwt`) are parameters; `cancelRequests()` is a `CancelAll` entry in the log.
- `postCancellable`'s third argument is taken to be the request body, with an empty configuration, because its definition is not part of this model.
- `parseInt` in `getContractEntrypointTrace` is the JavaScript runtime's; it is a function parameter.
- Which statuses axios delivers on the error channel rather than the resolution channel is not modelled: a response of any status may arrive on either.
- Numbers are modelled as mathematical integers. Nothing in the client makes the caller's numbers (`offset`, `timestamp`, `level`, ...) integers, but fractions and non-finite numbers are not modelled, nor are arguments of the wrong JavaScript type (a string `offset`, say). A double loses precision above 2^53, and a template literal prints a number of 10^21 or more in exponent form (`1e+21`); neither is modelled, so `Values.DecimalRoundTrip` describes the printed text only below 10^21.
- Property order is modelled as plain insertion order. JavaScript lists integer-like keys first, which only matters for keys of `time` that look like integers.
- Wrappers over `getCancellable` with no falsy guard (for example `getContractCode`, `getTokensByVersion`, `listDomains`, `resolveDomain`) read `res.status` without a falsy guard. On a cancelled request the model settles them with `TypeFault`, the TypeError such a read raises.
- The string form of a transport error (`String(err)`, which becomes an UnauthorizedError's message) is the transport's; it is carried as an opaque `text` of the error.
- The errors' `stack` and prototype chain are not modelled; an error is its own properties (`message` with `code` or `name`).
- The wrappers that only interpolate their arguments into a fixed path and attach a handler are covered by the `Endpoints` table but have no `Api` method. They have no guard or builder to verify: `getConfig`, `getHead`, migrations, token count, entrypoints, the schema wrappers, `prepareToFork`, mempool, big maps, contract stats, `getDiff`, projects, OPG, stats, error location, slugs, dapps, the profile account, repo and ref lists, verification, deployment and metadata views, token holders. Also `getContractEntrypointData`, which posts the fixed body `{name, data, format}`.
- `src/setups/dayjs.js` (wall-clock time, the dayjs library and its locale plugin) is not part of this model.
- The profile family always sends `{ Authorization: getJwt() }`, whatever the token, including an empty or missing one; the header is never omitted on those wrappers.
