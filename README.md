# Decorator fetch, extract and cache: a Dafny model

This project models the server-side core of a component that embeds the
shared page shell (the "decorator": styles, scripts, header and footer) in
a consuming application's pages. It covers two source files:

- `src/urls.ts`, the URL resolver. It picks the decorator's base address
  for an environment (`prod`, `dev`, `beta`, `betaTms`). The address is
  either the public one or the in-cluster service-discovery one. For
  `localhost` the caller's override is used. The request parameters are
  then appended as a hand-built query string.
- `src/fetch-decorator-next.tsx`, the pipeline. It fetches the page with a
  bounded number of attempts. It extracts four sections by element id, all
  or nothing. It caches the result per resolved URL for five minutes.

Files:

- `results.dfy` (module `Results`): `Option` for `undefined` and `Result` for
  a value or a thrown error.
- `js_string.dfy` (module `JsString`): `String.prototype.trim` with the
  ECMAScript white-space set.
- `urls.dfy` (module `Urls`): the address tables, `objectToQueryString`,
  `isNaisApp`, `getNaisUrl` and `getDecoratorUrl`, all as functions.
- `fetch_decorator_next.dfy` (module `FetchDecoratorNext`) holds four parts:
  - the retry loop, a method with a `while` loop over an oracle of attempt
    outcomes;
  - `parseDom`, a function over an element-id to inner-HTML map;
  - `fetchDecoratorHtml`;
  - the cache, a class `DecoratorCache` with a map field and the methods
    `Get`, `Set`, `Sweep`, `GetOrCompute`, `ComputeAndStore` and
    `GetDecoratorRsc`.

How the outside world enters the model:

- The network is a sequence `outcomes`. Entry `i` is what attempt `i` gets:
  `NetworkError`, or `Response(status, body)`. A response is ok when its
  status is 2xx.
- HTML parsing is an injected function `parse: string -> Document`. A
  `Document` maps an element id to its inner HTML.
- `encodeURIComponent` and `JSON.stringify` are the two functions of a
  `Builtins` value, passed in.
- The value of `NAIS_CLUSTER_NAME` is an `Option<string>` parameter. It is
  `None` when there is no `process` or no such variable.
- Time is a parameter, in seconds. A request has two times: `now`, when
  it looks in the cache, and `storedAt`, when `cache.set` runs after the
  awaited fetch. `storedAt` is never earlier than `now`; the difference is
  however long the fetch, with its retries, took.

Where the code and the design description of this system disagree, the
model follows the code:

- With params, `getDecoratorUrl` always writes `/` after the base, also
  without csr (`src/urls.ts:54`). The design says the query string is
  appended directly. Its example `https://www.nav.no/dekoratoren?a=1&b=x`
  therefore comes out as `https://www.nav.no/dekoratoren/?a=1&b=x`
  (`Urls.ProdParamsExample`).
- Keys are not percent-encoded, only values (`src/urls.ts:29`).
- `parseDom` tests the untrimmed inner HTML (`src/fetch-decorator-next.tsx:60`).
  A white-space-only section passes and comes out as `""`. So an extracted
  field is not always non-empty, contrary to the design. What holds is that
  every field is trimmed.
- The separator before an entry is `?` only when the entry's index is 0
  (`src/urls.ts:29`). When the first value is undefined, no `?` is written.

## Model

| member | source | states |
|---|---|---|
| `Urls.QueryStringSplit` | src/urls.ts:26-34 | the `reduce` accumulator after the first k entries, followed by the remaining entries' segments numbered from k, is the accumulator after all entries |
| `Urls.ObjectToQueryString` | src/urls.ts:24-35 | the query string is the front-to-back concatenation of the per-entry segments, each numbered by its index in the entry list |
| `Urls.QueryStringEntry` | src/urls.ts:27-31 | an entry with a defined value appears verbatim: separator by index, key unencoded, `=`, value percent-encoded (objects JSON-serialised first) |
| `Urls.QueryStringEmptyIff` | src/urls.ts:24-35 | the query string is empty iff every value is undefined (so also for `{}`) |
| `Urls.QueryStringStart` | src/urls.ts:29 | the query string starts with `?` iff the first entry has a defined value; otherwise it is empty or starts with `&` |
| `Urls.UndefinedFirstEntry` | src/urls.ts:28-32 | `{a: undefined, b: "x"}` gives `&b=` followed by the encoded `x`, with no `?` |
| `Urls.GetNaisUrl` | src/urls.ts:40-44 | the chosen address is never empty and is always an entry of one of the two tables |
| `Urls.IsNaisApp` | src/urls.ts:37-38 | the app counts as running on NAIS iff the cluster name is `dev-gcp` or `prod-gcp` |
| `Urls.ShouldUseServiceDiscovery` | src/urls.ts:40-41 | discovery is used iff serviceDiscovery is not false (default true), csr is not true (default false) and the cluster is `dev-gcp` or `prod-gcp` |
| `Urls.NaisUrlChoice` | src/urls.ts:5-44 | for a known environment the service address is returned iff the gate is open and the public one iff it is closed; any other environment falls back to the public prod address |
| `Urls.BaseUrl` | src/urls.ts:48 | `localhost` yields the override verbatim; every other environment yields a non-empty table address |
| `Urls.GetDecoratorUrl` | src/urls.ts:46-55 | without params the URL is the base unchanged, for `localhost` the override whatever csr, serviceDiscovery or the cluster are; with params it is the base, then `/` (or `/env` when csr is set), then the query string |
| `Urls.UrlWithUndefinedParams` | src/urls.ts:54 | params whose values are all undefined, `{}` included, give base + `/` (or base + `/env` with csr) and nothing more |
| `Urls.UrlDependsOnlyOn` | src/urls.ts:46-55 | equal env, params and csr, the same override for `localhost` and the same gate outcome otherwise give equal URLs (determinism) |
| `Urls.DevExample` | src/urls.ts:5-17 | `dev` without params resolves to `https://dekoratoren.ekstern.dev.nav.no` outside the GCP clusters and to the service address inside them |
| `Urls.TwoParamsQueryString` | src/urls.ts:24-35 | `{a: 1, b: "x"}` gives `?a=1&b=x` when encoding leaves `1` and `x` alone |
| `Urls.ProdParamsExample` | src/urls.ts:46-55 | `prod` with `{a: 1, b: "x"}` and discovery off gives `https://www.nav.no/dekoratoren/?a=1&b=x` when encoding leaves `1` and `x` alone |
| `JsString.TrimStartSpec` | src/fetch-decorator-next.tsx:80-83 | the start-trimmed string is a suffix of the input; everything dropped is white space and the result does not start with white space |
| `JsString.TrimEndSpec` | src/fetch-decorator-next.tsx:80-83 | the end-trimmed string is a prefix of the input; everything dropped is white space and the result does not end with white space |
| `JsString.Trim` | src/fetch-decorator-next.tsx:80-83 | what `trim` returns neither starts nor ends with white space |
| `JsString.TrimCutsOnlyWhiteSpace` | src/fetch-decorator-next.tsx:80-83 | the trimmed string is a slice of the input with only white space cut off on either side |
| `JsString.TrimEmptyIffAllWhiteSpace` | src/fetch-decorator-next.tsx:80-83 | trimming gives `""` iff the input is all white space |
| `FetchDecoratorNext.RetryFrom` | src/fetch-decorator-next.tsx:29-50 | the recursive attempt: a success returns the body of an ok response at or after the counter and within the bound; the only failure is retries exhausted |
| `FetchDecoratorNext.IsOk` | src/fetch-decorator-next.tsx:40 | `response.ok` holds iff the attempt got a response whose status is in the 2xx class; a network error is never ok |
| `FetchDecoratorNext.FetchDecorator` | src/fetch-decorator-next.tsx:26-54 | at most `retries` attempts and none when `retries <= 0`; stops at the first ok response and returns its body; all earlier attempts failed; exhaustion comes after exactly `retries` failed attempts |
| `FetchDecoratorNext.RetrySucceedsIff` | src/fetch-decorator-next.tsx:29-50 | the fetch succeeds iff some attempt within the bound is ok, and then it returns the first such body |
| `FetchDecoratorNext.NonOkStatusIsFailure` | src/fetch-decorator-next.tsx:40-49 | replacing a non-2xx response by a thrown network error never changes the result |
| `FetchDecoratorNext.RetryExamples` | src/fetch-decorator-next.tsx:26-54 | with three attempts, two failures then a 200 return the body, and three failures exhaust the retries |
| `FetchDecoratorNext.Found` | src/fetch-decorator-next.tsx:59-77 | a section passes the truthiness test iff its element exists and its untrimmed inner HTML is non-empty; any section with text left after trimming passes |
| `FetchDecoratorNext.ParseDom` | src/fetch-decorator-next.tsx:56-85 | a success has every field trimmed; the only error is a missing section |
| `FetchDecoratorNext.ParseDomAllOrNothing` | src/fetch-decorator-next.tsx:59-84 | extraction succeeds iff all four elements are found with non-empty inner HTML, and each field is then the trimmed inner HTML of its element |
| `FetchDecoratorNext.ParseDomFirstMissing` | src/fetch-decorator-next.tsx:59-77 | the error names section s iff s is not found and every section checked before it is, in the order styles, scripts, header, footer |
| `FetchDecoratorNext.WhiteSpaceOnlySectionPasses` | src/fetch-decorator-next.tsx:59-84 | on success a field is `""` iff its element's inner HTML is all white space |
| `FetchDecoratorNext.DecoratorHtml` | src/fetch-decorator-next.tsx:87-98 | a success of the fetch-then-extract pipeline has every field trimmed |
| `FetchDecoratorNext.DecoratorHtmlOutcome` | src/fetch-decorator-next.tsx:87-98 | the pipeline fails with retries exhausted iff none of the first three attempts is ok; otherwise its result is the extraction of the first ok body |
| `FetchDecoratorNext.FetchDecoratorHtml` | src/fetch-decorator-next.tsx:87-98 | fetch with three attempts, then extract; a missing section comes from the last, ok attempt and is not retried |
| `FetchDecoratorNext.Lookup` | src/fetch-decorator-next.tsx:110 | a lookup finds the stored value while the time has not passed the entry's expiry time, and nothing after it or for a missing key |
| `FetchDecoratorNext.DecoratorCache.constructor` | src/fetch-decorator-next.tsx:14-17 | the cache starts empty |
| `FetchDecoratorNext.DecoratorCache.Get` | src/fetch-decorator-next.tsx:110 | returns the live entry for the key, if any; an expired entry is deleted and nothing else changes |
| `FetchDecoratorNext.DecoratorCache.Set` | src/fetch-decorator-next.tsx:146 | stores the value under the key, expiring 300 s later; other keys are unchanged |
| `FetchDecoratorNext.DecoratorCache.Sweep` | src/fetch-decorator-next.tsx:14-17 | the periodic check removes exactly the expired entries and changes no lookup's answer |
| `FetchDecoratorNext.DecoratorCache.GetOrCompute` | src/fetch-decorator-next.tsx:110-146 | a live entry at lookup time is returned without running the pipeline; on a miss the pipeline runs; a success is stored under the URL expiring 300 s after the store, which happens after the fetch; a failure stores nothing; every successful result, cached or fresh, has all fields trimmed |
| `FetchDecoratorNext.DecoratorCache.ComputeAndStore` | src/fetch-decorator-next.tsx:115-146 | the miss path runs the pipeline; a success is stored under the URL expiring 300 s after the store time, and a failure leaves the cache unchanged |
| `FetchDecoratorNext.DecoratorCache.GetDecoratorRsc` | src/fetch-decorator-next.tsx:107-149 | the same, keyed by `getDecoratorUrl(props)` |
| `FetchDecoratorNext.RequestTwice` | src/fetch-decorator-next.tsx:107-149 | after a computed success stored at s1, a second request for the same props recomputes iff it looks up more than 300 s after s1, and otherwise returns the same value |

## Left out

- Network I/O is an oracle of attempt outcomes. One attempt is modelled per
  entry, and the oracle must cover every attempt that may be made.
- The body read `response.text()` is left out. Its result is returned
  without `await` inside the `try` (`src/fetch-decorator-next.tsx:44`), so a
  failed body read would escape the `catch` rather than be retried. The model
  treats the body of an ok response as always readable.
- The `revalidate` transport hint and all console logging are left out.
- The fixed text of the exhaustion error ("after 3 retries") is left out.
  The model has a single `RetriesExhausted` error, whatever `retries` is.
- The error messages of `parseDom` become `MissingSection(section)`.
- JSDOM parsing is an injected function. The model does not capture which
  element `getElementById` picks when ids repeat.
- React components and `html-react-parser` are left out
  (`src/fetch-decorator-next.tsx:120-144`). The cache stores the four
  extracted strings instead of the component closures built from them.
- `src/Decorator.tsx` (rendering composition) and `src/index.tsx`
  (re-exports) are not part of this model.
- The cache library is modelled by its observable behaviour only. `get`
  returns an entry until its expiry time has passed and deletes it after.
  `set` uses the standard TTL. The periodic check is a method the caller
  invokes; its timer and 60-second period (`checkperiod`) are not
  modelled, and neither are value cloning or the hit and miss statistics.
- Time is in whole seconds, not the milliseconds the cache library counts.
- Concurrent duplicate computations on simultaneous misses are not modelled.
  The model is sequential.
- `encodeURIComponent`, `JSON.stringify` and the string conversion of
  primitive values are left abstract.
- `Object.entries` order is taken as given by the entry sequence.
- Lookups through the JavaScript prototype chain are not modelled. A
  cluster name or environment such as `constructor` would find an inherited
  property; the model treats such names as absent from the tables.
- The `params ?` test inside `objectToQueryString` is not modelled, because
  its caller has already returned when params are absent.
- `localUrl` is always present in the model, so a `localhost` request
  without an override (which would give `undefined`) is not modelled.
