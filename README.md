# Kalshi n8n node: token cache, authenticated dispatch, pagination and `execute`

This project models the request layer and the item loop of the Kalshi node for n8n.

- `GenericFunctions` models:
  - the module-level token cache (`cachedToken`, `tokenExpiry`);
  - `getAccessToken`: serves the cached token while it is truthy and unexpired, and otherwise logs in and caches the token for 55 minutes;
  - `kalshiApiRequest`: builds the URI, drops an empty body for GET and DELETE, and after a 401 clears the cache, logs in again and resends the request once;
  - `kalshiApiRequestAllItems`: follows the cursor and takes each page's contribution from its first truthy list field.
- `KalshiNode` models `execute`:
  - the truthy-entry copy into query strings and order bodies;
  - the batch-cancel id split and trim;
  - the endpoint of every resource and operation;
  - the item loop with its `continueOnFail` handling.
- `JsValues` holds the JavaScript values, truthiness, errors and the `push(...x)` spread these files rely on.

The host's request helper is an oracle. It is a script of replies consumed one per request, plus a log of every request issued. `Date.now()` is a clock `nat -> int`, read at the number of requests issued so far.

Each operation has two forms. A pure function over a `State` gives its meaning. The class `GenericFunctions.Session` holds the module state and the request helper; its methods, and the methods of `KalshiNode`, do the same work in place. Each method's `ensures` ties its outcome and new state to that function. The lemmas state the properties.

## Model

| member | source | states |
|---|---|---|
| JsValues.Truthy | nodes/Kalshi/GenericFunctions.ts:15 | ToBoolean: a value is falsy exactly when it is undefined, null, false, 0 or '', so empty arrays and objects are truthy |
| JsValues.Property | nodes/Kalshi/GenericFunctions.ts:40 | the read `v[key]` throws a TypeError exactly on null and undefined; on an object it gives the key's value or undefined |
| JsValues.Spread | nodes/Kalshi/GenericFunctions.ts:124-128 | `push(...v)` appends an array's elements, or a string's characters one by one; any other value throws a TypeError |
| GenericFunctions.ProductionUriHasDoubleSlash | nodes/Kalshi/GenericFunctions.ts:61-70 | as written, a production URI has "//" right after the host for every endpoint starting with '/' |
| GenericFunctions.LoginUrisAsWritten | nodes/Kalshi/GenericFunctions.ts:22-29 | the production login URI as written has a doubled slash; the demo one does not |
| GenericFunctions.UriJoinsBaseAndEndpoint | nodes/Kalshi/GenericFunctions.ts:61-70 | the production host is chosen iff the environment is "production", and the demo host for every other value; the URI is the base followed by the endpoint unchanged, and the base has no trailing '/' |
| GenericFunctions.AsWrittenAddsOneSlash | nodes/Kalshi/GenericFunctions.ts:61-70 | the URI as written equals the corrected one in the demo environment, and in production it is the corrected URI of the endpoint with one extra '/' in front |
| GenericFunctions.LoginRequest | nodes/Kalshi/GenericFunctions.ts:27-35 | the login is a POST to the login path of the environment's host, with no query and no bearer, and a body holding exactly `email` and `password` from the credentials |
| GenericFunctions.Options | nodes/Kalshi/GenericFunctions.ts:68-82 | a call's options keep its method and query, go to the environment's host plus the endpoint, carry the token as bearer, and drop the body iff it is an empty GET or DELETE body |
| GenericFunctions.BodyOmission | nodes/Kalshi/GenericFunctions.ts:68-82 | the body is dropped iff the method is GET or DELETE and the body has no keys; POST keeps `{}`; a kept body is sent unchanged |
| GenericFunctions.Transmit | nodes/Kalshi/GenericFunctions.ts:85 | one helper call consumes the next scripted reply, appends the request to the log and leaves the cache alone |
| GenericFunctions.AccessToken | nodes/Kalshi/GenericFunctions.ts:12-49 | while the cached token is truthy and unexpired, it is returned with no request; otherwise exactly one login is sent; on success the cache holds the reply's `token` and the expiry is the clock reading taken before the login plus 3300000 ms; a failure is an ApiError and leaves the cache unchanged |
| GenericFunctions.TokenReusedWithinLifetime | nodes/Kalshi/GenericFunctions.ts:13-43 | after a login that returned a truthy token, any later call whose clock reading is below the new expiry returns that token with no request |
| GenericFunctions.ExpiredTokenForcesLogin | nodes/Kalshi/GenericFunctions.ts:13-38 | once the clock reaches the expiry, or the cached token is falsy, the next call sends the login |
| GenericFunctions.Dispatch | nodes/Kalshi/GenericFunctions.ts:51-107 | a dispatch only appends to the request log; a successful one consumes a reply |
| GenericFunctions.Attempt | nodes/Kalshi/GenericFunctions.ts:84-106 | the options are sent once, then possibly one login and one resend of the same options under another token |
| GenericFunctions.Reauthorize | nodes/Kalshi/GenericFunctions.ts:87-101 | after a 401 there is one login, then at most one resend of the same options under the new token |
| GenericFunctions.AttemptIssues | nodes/Kalshi/GenericFunctions.ts:84-101 | an attempt issues one to three requests, at most two of them API calls; each is the login or the options under some token |
| GenericFunctions.DispatchIssuesAtMostTwoCalls | nodes/Kalshi/GenericFunctions.ts:66-101 | whatever the replies, a dispatch issues at most four requests and at most two non-login calls; every request is the login or the call's own options under some bearer token |
| GenericFunctions.LoginFailureStopsDispatch | nodes/Kalshi/GenericFunctions.ts:58-66 | a failed login makes no call: the login's error is the outcome, and the cache is unchanged |
| GenericFunctions.NoRetryWithoutUnauthorized | nodes/Kalshi/GenericFunctions.ts:84-106 | unless the first attempt meets a 401, exactly one call is sent; the cache stays as the token step left it; the outcome is the reply's data or its failure wrapped with its message, or `String(error)` when the message is empty |
| GenericFunctions.UnauthorizedRetriedOnce | nodes/Kalshi/GenericFunctions.ts:86-101 | after a first-attempt 401, the cache is cleared to null/0 and one fresh login follows. If that login fails, its error surfaces with the cache cleared. Otherwise the same options are resent once under the new token, the cache holds that token with a fresh expiry, and the retry's reply or failure is final, even another 401 |
| GenericFunctions.FirstTruthy | nodes/Kalshi/GenericFunctions.ts:124-128 | the index found is the first of the names whose field is truthy; every earlier field, or every field when none is found, is falsy |
| GenericFunctions.Contribution | nodes/Kalshi/GenericFunctions.ts:124-129 | a page's contribution throws only TypeErrors: exactly when the page is null or undefined, or when its first truthy list field is not iterable |
| GenericFunctions.CursorOf | nodes/Kalshi/GenericFunctions.ts:131 | the cursor is the property read `responseData.cursor`, and undefined on a non-object page |
| GenericFunctions.ContributionTakesFirstListField | nodes/Kalshi/GenericFunctions.ts:124-128 | the first truthy field, in the order markets, events, orders, positions, fills, is the one spread; an empty array is truthy, so it is selected and contributes nothing |
| GenericFunctions.ContributionFallsBackToPage | nodes/Kalshi/GenericFunctions.ts:124-129 | a page with no truthy list field is pushed whole; a null or undefined page throws a TypeError |
| GenericFunctions.Paginate | nodes/Kalshi/GenericFunctions.ts:119-122 | the first dispatch is made with the query as given, with a truthy cursor written in; a failed first dispatch is the error, with no page; otherwise its reply is the first page |
| GenericFunctions.PaginateAfter | nodes/Kalshi/GenericFunctions.ts:122-132 | after a dispatch, the query it used is the first one recorded; a failed dispatch is the outcome with no page; a received page comes first; a throwing contribution is the outcome |
| GenericFunctions.PaginateStep | nodes/Kalshi/GenericFunctions.ts:119-132 | one loop iteration: a failed dispatch or a throwing contribution ends with that error; a falsy cursor ends with the page's contribution; a truthy one puts the page's contribution before what the next dispatch, made with that cursor, gathers |
| GenericFunctions.PaginateConcatenatesPages | nodes/Kalshi/GenericFunctions.ts:116-134 | a successful aggregation made one dispatch per page; its result is the page-order concatenation of the pages' contributions; every page but the last had a truthy cursor and the last a falsy one (`''` included); a failed dispatch yields an error with no partial result |
| GenericFunctions.PaginateThreadsCursor | nodes/Kalshi/GenericFunctions.ts:117-122 | the first request uses the caller's `qs` as given; each later request uses it with `cursor` set to the previous page's cursor, and the caller's object is left as the last request used it |
| GenericFunctions.CursorThreaded | nodes/Kalshi/GenericFunctions.ts:117-132 | the same cursor threading, from any cursor the loop holds |
| GenericFunctions.Session.constructor | nodes/Kalshi/GenericFunctions.ts:9-10 | a fresh module holds no token (null) and expiry 0 |
| GenericFunctions.Session.Send | nodes/Kalshi/GenericFunctions.ts:85 | the helper call in place is exactly Transmit |
| GenericFunctions.Session.GetAccessToken | nodes/Kalshi/GenericFunctions.ts:12-49 | getAccessToken in place equals AccessToken, so every AccessToken lemma applies; a failure leaves the cache fields untouched |
| GenericFunctions.Session.ApiRequest | nodes/Kalshi/GenericFunctions.ts:51-107 | kalshiApiRequest, with its in-place body deletion, cache clearing and header reassignment, equals Dispatch |
| GenericFunctions.Session.ApiRequestAllItems | nodes/Kalshi/GenericFunctions.ts:109-135 | the do-while loop, with its in-place `qs.cursor` and `returnData` updates, equals Paginate with the real dispatcher and contribution: same result, same final state, same caller `qs` |
| KalshiNode.WithTruthy | nodes/Kalshi/Kalshi.node.ts:1033-1037 | the copy has exactly the keys of the target and the truthy keys of the source (`0`, `''`, `false`, null and undefined dropped), with the source's values where it wrote and the target's elsewhere |
| KalshiNode.CopyTruthy | nodes/Kalshi/Kalshi.node.ts:940-946 | the forEach loop that fills `qs` or `body` in place computes WithTruthy |
| KalshiNode.IsSpace | nodes/Kalshi/Kalshi.node.ts:1085 | the characters `trim()` removes are exactly the listed ECMAScript white-space and line-terminator characters |
| KalshiNode.Split | nodes/Kalshi/Kalshi.node.ts:1085 | `split(',')` gives one more piece than there are commas; no piece holds a comma, and joining the pieces with commas gives back the input |
| KalshiNode.SplitJoin | nodes/Kalshi/Kalshi.node.ts:1085 | splitting undoes joining when no part holds the separator |
| KalshiNode.LeadingSpaces | nodes/Kalshi/Kalshi.node.ts:1085 | the count is the length of the longest prefix made of whitespace |
| KalshiNode.TrailingSpaces | nodes/Kalshi/Kalshi.node.ts:1085 | the count is the length of the longest suffix made of whitespace |
| KalshiNode.Trim | nodes/Kalshi/Kalshi.node.ts:1085 | `trim()` is the slice left after the leading and trailing whitespace runs; it neither starts nor ends with whitespace |
| KalshiNode.TrimFindsCore | nodes/Kalshi/Kalshi.node.ts:1085 | trim is unique: whitespace, then a core that does not start or end with whitespace, then whitespace, trims to that core |
| KalshiNode.BatchIds | nodes/Kalshi/Kalshi.node.ts:1085 | the ids are the comma count plus one, and the k-th id is the k-th piece trimmed |
| KalshiNode.EmptyIdsSendOneEmptyId | nodes/Kalshi/Kalshi.node.ts:1084-1086 | an empty input gives `['']` |
| KalshiNode.OrderBody | nodes/Kalshi/Kalshi.node.ts:1021-1037 | the order body holds the five fixed fields and every truthy option with its value |
| KalshiNode.OrderBodyFields | nodes/Kalshi/Kalshi.node.ts:1021-1037 | the order body always has ticker, action, side, type and count. It has `yes_price` iff the order is a limit order or a truthy option supplies one. It has every truthy option with its value and no other key. A fixed field that no option overrides keeps its parameter's value |
| KalshiNode.CatalogOrderBody | nodes/Kalshi/Kalshi.node.ts:1019-1037 | with the options the parameter catalog offers, the body's keys are exactly the five fixed fields, `yes_price` iff the order is a limit order, and the truthy options |
| KalshiNode.Listing | nodes/Kalshi/Kalshi.node.ts:938-948 | a listing is a GET of its path with no body; its query has exactly the truthy filters, values unchanged |
| KalshiNode.CallFor | nodes/Kalshi/Kalshi.node.ts:931-1138 | an item makes no call iff the resource/operation pair is not one `execute` handles; building the call fails iff it is a batch create whose JSON does not parse |
| KalshiNode.ListingsSendTruthyFilters | nodes/Kalshi/Kalshi.node.ts:1062-1072 | every getAll and getFills makes one GET with no body and exactly the truthy filters as query: no listing paginates |
| KalshiNode.OrderIdInPath | nodes/Kalshi/Kalshi.node.ts:1043-1060 | cancel (DELETE), get (GET) and decrease (POST) splice the order id verbatim between the orders path and the suffix; decrease posts exactly `{reduce_by}` |
| KalshiNode.MarketTickerInPath | nodes/Kalshi/Kalshi.node.ts:932-987 | market get, getHistory, getOrderbook and getTrades are GETs with no body that splice the ticker verbatim between the markets path and their suffix; the order book sends `{depth}` whatever its value; history and trades send exactly the truthy entries of their own options |
| KalshiNode.EventTickerInPath | nodes/Kalshi/Kalshi.node.ts:991-995 | event get is a GET with no body and no query that splices the event ticker verbatim after the events path |
| KalshiNode.BatchCancelIds | nodes/Kalshi/Kalshi.node.ts:1083-1088 | batch cancel sends a DELETE that keeps its body `{ids}`; the ids are the comma count plus one trimmed pieces, in order |
| KalshiNode.PrepareCall | nodes/Kalshi/Kalshi.node.ts:931-1138 | the chain of `if` blocks with in-place `qs`/`body` filling builds exactly CallFor |
| KalshiNode.PrepareOrderCall | nodes/Kalshi/Kalshi.node.ts:1012-1089 | the order block builds exactly CallFor for the order resource |
| KalshiNode.RecognisedNeverSkips | nodes/Kalshi/Kalshi.node.ts:931-1138 | for a handled resource/operation pair, every item yields a call or an error, never nothing |
| KalshiNode.RunItem | nodes/Kalshi/Kalshi.node.ts:930-1147 | an item adds nothing iff it has no call; a build error fails it with no request; a call is dispatched once, and the item fails iff the dispatch fails, with that error |
| KalshiNode.ErrorEntry | nodes/Kalshi/Kalshi.node.ts:1141-1143 | the entry of a failed item is an object whose only key `error` holds the error's message |
| KalshiNode.Entries | nodes/Kalshi/Kalshi.node.ts:929-1147 | a trace yields at most one entry per item |
| KalshiNode.EntryOf | nodes/Kalshi/Kalshi.node.ts:1141-1144 | an answered item adds its response, a failed one its `{error}` entry, and an item without a call nothing |
| KalshiNode.ExecuteFrom | nodes/Kalshi/Kalshi.node.ts:929-1148 | the loop reaches at most every item; it fails only without `continueOnFail`, and then the last item reached failed with that error |
| KalshiNode.ExecuteStep | nodes/Kalshi/Kalshi.node.ts:929-1147 | one iteration: a failed item stops the loop unless `continueOnFail`; otherwise its entry comes before what the remaining items give from the state it left |
| KalshiNode.ExecuteInInputOrder | nodes/Kalshi/Kalshi.node.ts:929-1147 | items run in input order: the k-th outcome is what the k-th item comes to in the state the first k items left, and those k items produced the first k outcomes without stopping the loop |
| KalshiNode.EntriesPointwise | nodes/Kalshi/Kalshi.node.ts:1140-1144 | when no item is skipped, the k-th entry is the k-th item's own entry |
| KalshiNode.KthEntryIsKthItem | nodes/Kalshi/Kalshi.node.ts:929-1147 | under `continueOnFail`, for a handled resource/operation, the output has one entry per item and its k-th entry is the k-th item's response or `{error}` entry |
| KalshiNode.ExecuteOneEntryPerItem | nodes/Kalshi/Kalshi.node.ts:929-1150 | a successful run reached every item and outputs the entries of its outcomes, in the order of its trace (ExecuteInInputOrder ties that order to the input). Under `continueOnFail` the run always succeeds. For a handled pair there is exactly one entry per input item |
| KalshiNode.ExecuteRethrowsFirstFailure | nodes/Kalshi/Kalshi.node.ts:1140-1147 | without `continueOnFail` the run fails iff an item failed; the error is that of the last item reached, and every earlier item succeeded |
| KalshiNode.RunOne | nodes/Kalshi/Kalshi.node.ts:930-1147 | one loop body through the session equals RunItem with the real dispatcher |
| KalshiNode.Execute | nodes/Kalshi/Kalshi.node.ts:923-1151 | the `for` loop through the session equals ExecuteFrom with resource and operation read once for all items: same output, same final state |

## Left out

- The request helper, `getCredentials` and `getNode` are not modelled as code.
  - The helper is a script of replies. Once the script is used up, every request fails with a fixed transport failure; this bounds the pagination loop.
  - Credentials are a fixed parameter of the session; `getCredentials` failing is not modelled.
- `Date.now()` is the parameter `clock`. `JSON.parse` of the batch-create input is the parameter `parse`, which may fail.
- Async/await and concurrent use of the module-level cache are not modelled; the source has no synchronisation.
- `returnJsonArray` and n8n item plumbing are left out: `execute` returns the list of entries.
- `getNodeParameter` failures are not modelled; each item's parameters are an `ItemParams` value.
- The parameter catalog of the node's description, the credentials form and the type declarations are not part of this model. CatalogOrderBody only cites the catalog's option keys.
- Numbers are integers: NaN, -0 and fractional values (all of them affect truthiness) are not modelled.
- Object key order is not modelled: dictionaries are maps, so the order of keys in a query or body is not captured.
- NodeApiError keeps only its message. For a reply failure the message is `error.message || String(error)`. A TypeError from reading `response.token` of a null login reply becomes an ApiError with the TypeError's message.
- Property reads on values other than objects, null and undefined give undefined. Array `length` and string indices are never read by this code.
- The `{error}` entry of `continueOnFail` uses the error's message. Every error in the model is an `Error` instance, so the `'Unknown error'` fallback cannot arise and is not modelled.
- GenericFunctions.LoginRequest, GenericFunctions.Options, GenericFunctions.AccessToken, GenericFunctions.Dispatch and GenericFunctions.Session.ApiRequest send the corrected production URI (one '/' between host and path), not the one the source builds with a doubled slash. AsWrittenAddsOneSlash states how the two differ, and nothing else in a request depends on it.
- The aggregator is proved over any dispatcher that consumes a reply when it succeeds, and any contribution function. The real dispatcher and contribution are what Session.ApiRequestAllItems uses. The item loop is proved over any call builder.
- Trimming is written over a whitespace predicate passed as a parameter, and `trim()` uses `IsSpace`, the JavaScript white-space and line-terminator set.
- Errors thrown during pagination are the dispatcher's or the contribution's own errors. No separate aggregation error kind is introduced, because the source code has none.

## Findings

| source | as written | input that shows it | evidently intended | confidence | as-written member | corrected member |
|---|---|---|---|---|---|---|
| nodes/Kalshi/GenericFunctions.ts:22-25 | the production base URL `https://api.elections.kalshi.com/` ends in '/'; every endpoint starts with '/', so `${baseUrl}${endpoint}` doubles the slash (lines 29 and 70) | environment "production", endpoint "/trade-api/v2/login" gives `https://api.elections.kalshi.com//trade-api/v2/login` | the base URL without the trailing slash, as the demo one is written, so that base and endpoint are joined by exactly one '/' | medium, not executed | GenericFunctions.ProductionUriHasDoubleSlash | GenericFunctions.UriJoinsBaseAndEndpoint |
