# Typed fetch, modelled in Dafny

This project models `typedFetch` from `src/typedFetch.ts`. `typedFetch` makes
one network request and never throws. Instead it sorts every outcome into a
`QueryResult`, a closed union with exactly two branches:

- a result holding the decoded body;
- an error holding a `FetchError`, which is one of two kinds:
  - a `network-error` carries the raised object and the request URL;
  - a `status-error` carries the response status, the status text and the URL.

The platform's `fetch` and `Response.json` are not part of the model. What they do
is an input, the datatype `FetchOutcome`:

- `Threw(e)`: `fetch` raised;
- `Responded(status, statusText, ok, body)`: `fetch` returned a response, and
  `body` says what `json()` would do with it, either `Decoded(v)` or `DecodeThrew(e)`.

`TypedFetch(req, o)` is then a total pure function. `Run(req, o)` computes the same
result, and also records which platform calls the invocation makes (`fetch`,
then `json` only after an ok response).

`ok` is kept as the flag the code reads (`data.ok`). `Conforming(o)` ties it to the
Fetch Standard's definition of an ok status, which is a status from 200 to 299.
`Respond` builds a conforming response, the way the platform's `Response`
constructor does; it models the platform, not the program. One other description
of `ok` disagrees with the code and the standard: the doc comment at
`src/typedFetch.ts:37` says a failing status is "4xx or 5xx", while `data.ok` is
also false for 1xx and 3xx statuses and for status 0.

The model follows the code and the standard. `NotModifiedIsStatusError` shows
that a conforming 304 response becomes a status error.

Module `Scenarios` replays the demo app's three cases for todo `"1"`. They are
based on `loadTodos` from `src/App.tsx`.

## Model

| member | source | states |
|---|---|---|
| TypedFetchCore.RequestUrl | src/typedFetch.ts:50 | the reported URL is the request itself when it is a string, and the request object's `url` otherwise |
| TypedFetchCore.Respond | src/App.test.tsx:16-22 | a response built as the test mocks build one keeps the given status, status text and body, and its `ok` flag is true exactly for statuses 200 to 299 |
| TypedFetchCore.Run | src/typedFetch.ts:46-80 | `fetch` is called exactly once, and first; `json` is called exactly once if a response arrived with `ok` true, and never otherwise; every error carries the request URL |
| TypedFetchCore.TypedFetch | src/typedFetch.ts:43-80 | the result meets every promise per outcome: raise gives network-error with the raised object; not-ok gives status-error with status and statusText; ok and decoded gives that value; ok and decode raises gives network-error with the decode error; URL on each error |
| TypedFetchCore.PromisedDeterminesResult | src/typedFetch.ts:52-79 | the promises above admit exactly one result, so any value meeting them equals `TypedFetch`'s (the classification is total and deterministic) |
| TypedFetchCore.Classification | src/typedFetch.ts:52-79 | three if-and-only-ifs: result iff ok and decoded; status-error iff a not-ok response; network-error iff a raise or an ok response whose decoding raised |
| TypedFetchCore.ErrorUrlIsRequestUrl | src/typedFetch.ts:50-78 | an error's URL is the string itself for a string request, and the request object's `url` otherwise |
| TypedFetchCore.RequestOnlyThroughUrl | src/typedFetch.ts:50-53 | two requests with the same URL give the same result for the same outcome |
| TypedFetchCore.NotOkIgnoresBody | src/typedFetch.ts:54-65 | for a not-ok response, the result does not depend on the body at all, so the body is never decoded |
| TypedFetchCore.DecodeFailureLooksLikeNetworkFailure | src/typedFetch.ts:65-78 | a decode failure after an ok response gives the same network-error as `fetch` raising that error |
| TypedFetchCore.ConformingStatusError | src/typedFetch.ts:54-63 | with `ok` set by the Fetch Standard, a response is a status-error iff its status is outside 200..299 |
| TypedFetchCore.NotModifiedIsStatusError | src/typedFetch.ts:32-63 | a conforming 304 response is a status-error with code 304, though 304 is neither 4xx nor 5xx |
| TypedFetchCore.ConformingStatusErrorCode | src/typedFetch.ts:54-63 | against a conforming platform, no status-error carries a 2xx code |
| TypedFetchCore.Explain | src/typedFetch.ts:7-41 | every result whose error names the request URL has an outcome that `TypedFetch` maps back to it; that outcome is conforming unless the result is a status-error with a 2xx code |
| TypedFetchCore.Range | src/typedFetch.ts:7-80 | the results `TypedFetch` can give for a request are exactly those whose error, if any, carries that request's URL |
| TypedFetchCore.ConformingRange | src/typedFetch.ts:7-80 | against a conforming platform, the reachable results are those same results minus the status-errors with a 2xx code |
| Scenarios.LoadTodos | src/App.tsx:26-28 | `loadTodos(id)` keeps every promise of `typedFetch` for the URL `BASE_URL/id`: the decoded body on success, the error kind, status, status text and raised object on failure; it reports that URL on errors and gives a result iff the response is ok and decodes |
| Scenarios.NetworkErrorScenario | src/App.test.tsx:37-43 | `fetch` throwing `TypeError("failed to fetch")` gives a network-error wrapping that error, with URL `.../todos/1` |
| Scenarios.HttpStatusErrorScenario | src/App.test.tsx:44-56 | a 501 "internal server error" response, whatever its body, gives a status-error with code 501 and that status text |
| Scenarios.ResultScenario | src/App.test.tsx:57-68 | a 200 response with the todo body gives a result holding that todo, whose title is "todo title" |

## Left out

- The real `fetch` call, the HTTP transport and JSON parsing are platform code. They appear only as the `FetchOutcome` input.
- `RequestInit` (the optional second argument) is passed straight to `fetch`. Its effect is part of the outcome, so it is not a parameter.
- A request object's properties other than `url` are not modelled. They reach only the transport. The model keeps one of them, the method, only so that two requests can differ in something other than their URL; nothing reads it.
- Raised values are modelled as `Error` objects (a name and a message), as the `errorObject: Error` field declares. JavaScript code that throws a value that is not an `Error` is not modelled.
- Decoding is taken to yield a value of the expected type `T`. The source returns whatever `data.json()` parses, unchecked, as `TData`, so an ok response whose JSON has another shape (such as `{}`) is still a result; the shape of the payload is not modelled, and such a body cannot be written in `Scenarios`, where `T` is `Todo`.
- A status is an unbounded integer. Status values that a real `Response` would refuse are not excluded.
- `async`/`await` suspension is not modelled. The model works on the outcome after it has resolved.
- The `useCurrentTodo` hook in `src/App.tsx` is left out: its React state, its effect, its `"loading"` state and `refetch`. These are UI plumbing. The stale-response overwrite between overlapping `refetch` calls is a concurrency matter, also out of scope.
- The render dispatch in `src/App.tsx` and everything in `src/index.tsx` are UI and bootstrap. The test that only checks that "Loading" renders at first is about the UI, so it is not modelled.
