# AI design generator: generation and persistence pipeline

A signed-in user types a prompt in the generator component. The component
calls the generation endpoint `POST /api/generate-image` up to three times,
in a counter-driven retry loop. The endpoint asks the image provider
(Replicate) for a picture and classifies the result or the fault into a
status and a JSON body. On success the component saves the design:
- the design record service fetches the image;
- it checks the image;
- it copies it into the object store under `designs/{userId}/{now}.png`;
- it inserts a record holding the durable download URL into the record
  collection.

The "my designs" page loads the user's records newest first and deletes
them. A delete removes the blob best-effort, then the record, and filters
the page's list.

Modules:

- `Outcomes`: `Option` and `Result`.
- `JsString`: `startsWith`, `includes`, `trim` (ECMAScript whitespace) and
  the decimal rendering of a timestamp.
- `StorageUrl`: the object path, the download URL
  `{endpoint}/o/{percent-encoded path}?alt=media`, and the path that a
  delete recovers from such a URL.
- `DesignService`:
  - `UploadEffect`, `SaveEffect` and `DeleteEffect` specify the three
    state-changing operations as functions from the old stores and the
    outside world's answers to the new stores and the result;
  - class `Backend` holds the blob map and the record map, and its methods
    perform the same steps in place;
  - `SortNewestFirst` sorts the query results in place in an array.
- `GenerateRoute`: the endpoint as a pure function of the request, the
  provider credential and the provider's answer.
- `ImageGenerator`:
  - the retry loop as a state machine (`FinalState`, `Trace`);
  - the loop as a `while` method proved equal to it;
  - class `Generator`, the component state (prompt, image, error,
    loading, route).
- `MyDesigns`: class `MyDesignsPage`, holding the shown designs, the
  loading flag, the error and the route.

The outside world enters as parameters:
- what `fetch` returns for a URL;
- the two clock readings (path name, then record);
- which store calls fail;
- the id the record store assigns;
- the provider's answer;
- one endpoint answer per possible call;
- the signed-in user;
- the answer to the confirmation dialog.

The two-second pause between retries is a `Wait` event in the loop's
trace.

Where the system's written design and its code differ, the model follows
the code:
- deleting an id that has no record succeeds, and so does deleting it
  again; the design says the second delete reports "not found";
- a gateway timeout (504) is retried at once, without a wait;
- every other failure, a provider validation fault (422) included, is
  retried after the two-second wait;
- three gateway timeouts end the loop silently, with no error shown.

## Model

| member | source | states |
|---|---|---|
| JsString.TrimEmptyIffBlank | src/app/components/ImageGenerator.tsx:24-27 | `trim()` yields "" exactly when every character is ECMAScript whitespace, so the prompt guard rejects exactly the blank prompts |
| JsString.Decimal | src/lib/firebase/designService.ts:32 | the rendering of `Date.now()` in the file name is a non-empty string of decimal digits |
| JsString.DecimalValue | src/lib/firebase/designService.ts:32 | the digits of the rendering read back as the rendered number |
| JsString.DecimalInjective | src/lib/firebase/designService.ts:32 | different clock readings render differently |
| StorageUrl.ImagePath | src/lib/firebase/designService.ts:32 | the object path of an upload lies under `designs/{userId}/` |
| StorageUrl.ImagePathInjective | src/lib/firebase/designService.ts:32 | two uploads of a user share a path only when they read the same clock value |
| StorageUrl.EncodePath | src/lib/firebase/designService.ts:43 | the encoded path inside a download URL contains no `/` and no `?` |
| StorageUrl.DecodeEncode | src/lib/firebase/designService.ts:141 | `decodeURIComponent` undoes the store's path encoding for every path |
| StorageUrl.FindSep | src/lib/firebase/designService.ts:141 | finds the first `/o/` at or after a position, or reports that there is none |
| StorageUrl.BeforeFirstSkips | src/lib/firebase/designService.ts:141 | `split(c)[0]` skips a prefix free of `c` |
| StorageUrl.PathOfDownloadUrl | src/lib/firebase/designService.ts:140-141 | the path a delete derives from a download URL is exactly the path the URL was issued for |
| DesignService.UploadEffect | src/lib/firebase/designService.ts:8-62 | succeeds iff the fetch, size, type, write and link steps all succeed; never touches records; once the checks and the write succeed the fetched bytes are at `designs/{userId}/{now}.png` (even when linking then fails), and nothing is written when a check or the write fails; returns that path's download URL; a failing check, write or link is reported through the same catch message: a fetch-response fault re-wrapped with the upload-failed prefix, `storage/unauthorized` as the sign-in message |
| DesignService.UnauthorizedIsSignIn | src/lib/firebase/designService.ts:56-60 | the catch block gives the sign-in message exactly for the `storage/unauthorized` code, and the prefixed message otherwise |
| DesignService.SaveEffect | src/lib/firebase/designService.ts:64-87 | inserts the record (given user and prompt, durable URL, record time) under the new id only after a successful upload; every failure is the single save message and leaves the records unchanged |
| DesignService.DeleteEffect | src/lib/firebase/designService.ts:128-162 | removes the record iff the read and the record delete succeed and a present image URL yields a path; a failure to derive the path leaves the record; the blob at the derived path is removed whenever the blob delete succeeds, even if the record delete then fails; no other blob is ever removed, and none when the blob delete fails or the id is absent |
| DesignService.SortNewestFirst | src/lib/firebase/designService.ts:118 | the array ends newest first and is a rearrangement of its old contents |
| DesignService.SinkEntry | src/lib/firebase/designService.ts:118 | one insertion step grows the newest-first prefix by one entry and keeps the contents |
| DesignService.SwapWithPrevious | src/lib/firebase/designService.ts:118 | exchanges two neighbours, leaves every other slot alone and keeps the contents |
| DesignService.SinkSwap | src/lib/firebase/designService.ts:118 | moving the newer entry one place left keeps the rest of the prefix newest first |
| DesignService.SinkStop | src/lib/firebase/designService.ts:118 | once the moved entry meets one at least as new, the prefix is newest first |
| DesignService.SortedSnapshotIsListing | src/lib/firebase/designService.ts:113-121 | any newest-first rearrangement of the query results is a listing of the user's designs |
| DesignService.PrependNewest | src/lib/firebase/designService.ts:118 | an entry at least as new as a newest-first list can go in front of it |
| DesignService.DistinctCountsOnce | src/lib/firebase/designService.ts:113-116 | a list with distinct ids holds each entry at most once |
| DesignService.DistinctAcrossPermutation | src/lib/firebase/designService.ts:113-118 | sorting keeps record ids distinct |
| DesignService.Backend.UploadImageToStorage | src/lib/firebase/designService.ts:8-62 | new stores and result are those `UploadEffect` gives |
| DesignService.Backend.SaveDesign | src/lib/firebase/designService.ts:64-87 | new stores and result are those `SaveEffect` gives |
| DesignService.Backend.GetUserDesigns | src/lib/firebase/designService.ts:89-126 | fails iff the query fails, with the list message; otherwise returns every record of the user paired with its id, each once, nothing else, newest first |
| DesignService.Backend.DeleteDesign | src/lib/firebase/designService.ts:128-162 | new stores and result are those `DeleteEffect` gives |
| DesignService.SizeBoundary | src/lib/firebase/designService.ts:22-24 | exactly 5 MiB passes the size check and one byte more is refused with the size message |
| DesignService.DeleteTwice | src/lib/firebase/designService.ts:136-156 | after a successful delete, deleting the same id again succeeds and changes nothing |
| DesignService.SavedDesignIsListed | src/lib/firebase/designService.ts:70-82 | every listing after a save contains the new record with the durable URL |
| DesignService.SaveThenDelete | src/lib/firebase/designService.ts:64-162 | saving then deleting the new record restores the records and removes exactly the uploaded blob |
| GenerateRoute.FaultReply | src/app/api/generate-image/route.ts:91-103 | a response status of 504 gives 504, else 422 gives 422, else the code `ETIMEDOUT` gives 408, else 500 |
| GenerateRoute.Post | src/app/api/generate-image/route.ts:17-116 | status in {200, 400, 408, 422, 500, 504}, JSON and CORS headers always; an unreadable body gives 500 with the generic message; a falsy prompt (missing, "", or a falsy non-string) gives 400 before the credential check, a missing credential gives 500; 200 iff the provider returned a truthy output, which is passed through unchanged; a provider fault is classified by `FaultReply`; every other response carries an error message and no prediction |
| GenerateRoute.ProviderNotCalledOnGuards | src/app/api/generate-image/route.ts:21-45 | under the prompt and credential guards the response does not depend on the provider's answer |
| GenerateRoute.BlankPromptPasses | src/app/api/generate-image/route.ts:21 | a prompt of spaces is truthy and passes the prompt guard |
| GenerateRoute.EmptyOutputIsServerError | src/app/api/generate-image/route.ts:65-76 | a falsy output gives 500 with the empty-result message |
| GenerateRoute.StatusBeforeCode | src/app/api/generate-image/route.ts:94-103 | a 504 fault carrying the code `ETIMEDOUT` stays a 504 |
| ImageGenerator.Judge | src/app/components/ImageGenerator.tsx:52-66 | an attempt is a gateway timeout iff it parsed with status 504; an image iff it parsed with a 2xx status and `prediction[0]` or `prediction` is a non-empty URL, which is the image; otherwise a failure carrying the network error's message, the parse error's message, the endpoint's error (or the generic failure message) for another status, or the invalid-URL message |
| ImageGenerator.RetryLoop | src/app/components/ImageGenerator.tsx:37-79 | the loop ends in the state and with the calls and waits that the state machine `FinalState`/`Trace` gives |
| ImageGenerator.Decisive | src/app/components/ImageGenerator.tsx:42 | the attempt that ends the loop is one of the three allowed |
| ImageGenerator.RunSummary | src/app/components/ImageGenerator.tsx:42-79 | the loop ends as its decisive attempt says, after one call per attempt up to it and one wait per non-504 failure before it |
| ImageGenerator.AtMostThreeCalls | src/app/components/ImageGenerator.tsx:37-42 | at most three calls and at most two waits per run |
| ImageGenerator.OtherFailuresBound | src/app/components/ImageGenerator.tsx:71-78 | there are no more waits than attempts |
| ImageGenerator.ThreeGatewayTimeouts | src/app/components/ImageGenerator.tsx:55-58 | three 504s: three calls, no wait, the loop ends without image or error |
| ImageGenerator.GatewayTimeoutsRetryAtOnce | src/app/components/ImageGenerator.tsx:55-58 | two 504s then an image: three calls and no wait |
| ImageGenerator.FailuresRetryAfterWait | src/app/components/ImageGenerator.tsx:71-78 | two other failures then an image: a wait after each failure |
| ImageGenerator.RouteAnswersAsSeenByLoop | src/app/components/ImageGenerator.tsx:54-66 | an endpoint 504 is a gateway timeout to the loop, a 200 an image or an invalid-URL failure, any other status (422 included) a plain failure with the endpoint's message |
| ImageGenerator.ConnectionTimeoutShowsHint | src/app/components/ImageGenerator.tsx:94-95 | the endpoint's connection-timeout message contains `超时`, so the component shows the timeout hint |
| ImageGenerator.Generator.GenerateImage | src/app/components/ImageGenerator.tsx:17-102 | signed out: sign-in error, route to `/login`, no call; blank prompt: prompt error, no call; otherwise the calls and waits of the loop, then on an image the save runs once with the user, prompt and URL and shows the image, and a failed save shows the partial-success message; a rethrown failure shows the timeout hint or its message; three 504s show nothing; loading ends false |
| MyDesigns.WithoutId | src/app/my-designs/page.tsx:73 | the filtered list holds exactly the entries of the old one with another id |
| MyDesigns.WithoutIdAppend | src/app/my-designs/page.tsx:73 | filtering distributes over concatenation, so the kept entries keep their relative order |
| MyDesigns.WithoutIdCounts | src/app/my-designs/page.tsx:73 | every entry with another id is kept as often as it occurs, and every entry with that id is dropped |
| MyDesigns.WithoutAbsentId | src/app/my-designs/page.tsx:73 | filtering an id no entry has leaves the list as it is |
| MyDesigns.WithoutIdKeepsOrder | src/app/my-designs/page.tsx:73 | filtering keeps the list newest first and its ids distinct |
| MyDesigns.DeleteKeepsListing | src/app/my-designs/page.tsx:66-77 | a listing of the user's designs, filtered by an id, is a listing of the records without that id |
| MyDesigns.MyDesignsPage.OnAuthStateChanged | src/app/my-designs/page.tsx:17-47 | signed out: route to `/login` and nothing loaded; otherwise loading ends false, and the shown list is the user's listing, or unchanged with the list error when the query fails |
| MyDesigns.MyDesignsPage.HandleDelete | src/app/my-designs/page.tsx:66-77 | declined: nothing changes; confirmed: the stores change as `DeleteEffect` says, and the shown list loses exactly the entries with that id on success and stays as it was on failure; a page showing a user's listing still shows it |

## Left out

- Rendering, styling, `handleDownload` in both components, and all console logging.
- The real network, the provider SDK, the object store and record store SDKs, and the authentication service: they are parameters of the operations.
- Real time: the clock readings are independent parameters, and nothing relates the record time to the path time. The two-second pause is a `Wait` event, and `maxDuration` is not modelled.
- Asynchronous scheduling, concurrent saves and two uploads colliding on the same millisecond.
- The provider's model parameters, including the floating-point guidance scale.
- `DesignService.Backend.GetUserDesigns` does not pin down the order of entries with equal creation times. `Array.prototype.sort` is stable, but the store answers the query in an order of its own that the model leaves abstract, so the relative order of ties is not determined either way.
- `DesignService.SaveEffect` does not require the new record id to be fresh, so an id that is already taken overwrites that record. The record store always assigns a fresh id; `DesignService.SaveThenDelete` requires that freshness.
- `StorageUrl.DecodeComponent` decodes only escapes of ASCII characters, and fails on any other `%` sequence. `decodeURIComponent` also decodes multi-byte UTF-8 escapes.
- `StorageUrl.StoragePathOf` takes the URL's path to be the text before its first `?`. Scheme, host, fragment and a throwing `new URL` are not modelled. The download URL's access token and its bucket address are abstract: the address is any string with no `?` and no `/o/` starting inside it.
- `ImageGenerator.Generator.GenerateImage` takes the signed-in user as a parameter. The model does not capture a sign-out between the start of generation and the save.
- `MyDesigns.MyDesignsPage.HandleDelete` filters the page's current list. In the component the filter runs on the list captured when the handler was created; with one delete at a time the two are the same.
- The unsubscribe cleanup of the auth listener is not modelled.
