# drag-and-drop-images, modelled in Dafny

A model of the logic of a small React and Express uploader:

- **Multipart upload client** (`client/src/Multipart.js`). It cuts a file into 25 MB parts and asks the API for an upload id. It then asks for one signed URL per part and PUTs each part to its URL. Finally it sends the parts' ETags as a completion manifest. Around this sit the component's state cells (`file`, `fileName`, `fileUploadId`, `uploading`, `aborting`, messages, `percentage`), `reset`, the progress average and the button guards.
- **Drag-and-drop image picker** (`src/DragAndDrop.js`, repeated in `client/src/DragAndDrop.js`). It keeps a list of accepted image entries and the names of ignored files. It fills in previews and counts drag enter/leave events. The client copy adds a key field and `handleUpload`, which posts the images to the API.
- **API routes** (`server/upload.js`). The `x-pass` guard runs in front of each route. Each route maps its store callback `(error, value)` to a response.
- **Key extraction** (`client/src/App.js`). This takes the access key from the page's query string.

## Layout

| file | module | models |
|---|---|---|
| wrappers.dfy | `Wrappers` | `Option`, for JavaScript's `undefined` |
| http.dfy | `Http` | a reply as the client sees it (`Reply`), `a \|\| b` on strings, and `Promise.all` as a fold (`FirstFailure`) |
| text.dfy | `Text` | `split`, `join`, `includes`, and the decimal form of a number |
| query_key.dfy | `QueryKey` | `client/src/App.js` |
| chunking.dfy | `Chunking` | the part ranges and the completion manifest of `Multipart.js` |
| progress.dfy | `Progress` | the `percentage` map and `percentageCount` of `Multipart.js` |
| multipart_upload.dfy | `MultipartUpload` | the upload run (`UploadRun`), its two `Promise.all` loops, and the component as the class `MultipartUploader` |
| image_picker.dfy | `ImagePicker` | `src/DragAndDrop.js`, as the class `DropZone` |
| image_uploader.dfy | `ImageUploader` | `client/src/DragAndDrop.js`: a `DropZone` plus the upload form (`UploadForm`) |
| upload_routes.dfy | `UploadRoutes` | `server/upload.js` |

The network is an input. A `MultipartUpload.Network` value gives the reply to every request: the `/id` reply, the URL and PUT replies by part number, the completion reply and the abort reply. A run's result is the sequence of requests it sent plus how it ended. This makes "no PUT is sent" and "abort is never requested" statements about that sequence. The source launches `uploadMultipartFile` from `startUpload` without awaiting it. The model therefore splits them into `StartUpload`, which returns the launch, and `UploadMultipartFile`. A caller may call `AbortUpload` between the two. No click can land at exactly that point in the source: `setFileUploadId` and the launch run in one synchronous continuation (client/src/Multipart.js:31-32). The model's abort point stands in for the two windows that do exist. One is while `/id` is pending: Abort is already enabled there by `reset({ upload: true })`. The other is in the middle of a run. "## Left out" names what this misses.

Where the code departs from the usual multipart protocol, the model follows the code:

- The part count is `size / 25000000 + 1`, not the ceiling of the quotient. When the size is a multiple of 25 MB, including an empty file, the last part is empty (`Chunking.ChunksPartition`, `Chunking.PartCountAgainstCeiling`).
- A failed URL request, PUT or completion only resets the component with an error. The client never sends an abort request on failure. Abort is sent only when the user clicks Abort (`MultipartUpload.RunNeverAborts`, `MultipartUpload.SixtyMegabytePartFails`).
- A failed PUT shows the server's message, or else "Missing urls found. Try again!". A failed completion does the same.
- The shown percentage can go down while an upload runs (`Progress.PercentageCanDecrease`).
- The guard's "Invalid key" reply carries HTTP status 200, because `res.send` is called without a status. The form therefore receives it as an ordinary reply and shows its message (`ImageUploader.FormAgainstServer`).

## Model

| member | source | states |
|---|---|---|
| `Chunking.PartCount` | client/src/Multipart.js:47 | `CHUNKS_COUNT`, `floor(size / C) + 1`; its relation to the ceiling is `PartCountAgainstCeiling`, and `Chunks` makes one range per count |
| `Chunking.Chunks` | client/src/Multipart.js:46-58 | one range per part, `size / 25000000 + 1` of them |
| `Chunking.ChunksPartition` | client/src/Multipart.js:50-58 | the parts tile `[0, size)` in order: first starts at 0, each starts where the previous ends, all but the last are exactly 25 MB, the last ends at `size` with `size % 25000000` bytes, so it is empty iff the size is a multiple of 25 MB |
| `Chunking.ByteInExactlyOnePart` | client/src/Multipart.js:53-57 | every byte of the file lies in exactly one part, the one numbered `b / 25000000` (no gap, no overlap) |
| `Chunking.PartCountAgainstCeiling` | client/src/Multipart.js:47 | the part count is `ceil(size / C)` when `C` does not divide the size, and `ceil(size / C) + 1` when it does |
| `Chunking.Manifest` | client/src/Multipart.js:92-95 | one entry per reply, entry `i` with `PartNumber` `i + 1` and the `i`-th ETag |
| `Chunking.ManifestProperties` | client/src/Multipart.js:92-97 | part numbers strictly ascending; the ETags read back from the manifest are the replies'; the manifest passes the `every` check iff every ETag is present |
| `Chunking.ManifestReady` | client/src/Multipart.js:97 | the `every(item => item?.ETag && item?.PartNumber)` check; `ManifestProperties` proves it holds iff every ETag is present (part numbers are never 0) |
| `Chunking.Etags` | client/src/Multipart.js:93 | one ETag per manifest entry |
| `Http.FirstFailure` | client/src/Multipart.js:117-120 | the message of the first rejected reply: none iff every reply resolved, otherwise the message of a rejected reply all of whose predecessors resolved, i.e. the earliest rejected one in request order |
| `Http.Replies` | client/src/Multipart.js:62-71 | the replies `Promise.all` resolves to, one per request, reply `i` for the request numbered `i + 1` |
| `Http.OrElse` | client/src/Multipart.js:119 | `a \|\| b` on strings: `a` unless it is empty |
| `MultipartUpload.UrlRequests` | client/src/Multipart.js:62-70 | exactly one URL request per part, with `partNumber` `index + 1`, so the numbers are 1..N in order |
| `MultipartUpload.UrlsOf` | client/src/Multipart.js:72-74 | one URL (possibly missing) per URL reply |
| `MultipartUpload.AllPresent` | client/src/Multipart.js:76 | `uploadUrlsArray.every(Boolean)`: no URL is empty; `UrlStageOutcome` ties it to `UrlsArrived` |
| `MultipartUpload.UrlsArrived` | client/src/Multipart.js:62-76 | every one of the N URL requests resolved with a URL, the condition under which `UrlStageOutcome`, `NoPutWithoutEveryUrl` and `PutsCarryTheirParts` say the PUTs are sent |
| `MultipartUpload.PartsAcknowledged` | client/src/Multipart.js:78-97 | every one of the N PUTs resolved with an ETag, the condition under which `PutStageOutcome` and `CompletionIffEveryPartAcknowledged` say completion is sent |
| `MultipartUpload.PutRequests` | client/src/Multipart.js:78-91 | one PUT per part: part `i`'s byte range to URL `i` with the file's type |
| `MultipartUpload.EtagsOf` | client/src/Multipart.js:92-93 | one ETag (possibly missing) per PUT reply |
| `MultipartUpload.UrlStage` | client/src/Multipart.js:72-76 | when the URL stage goes on, it yields one URL per part |
| `MultipartUpload.PutStage` | client/src/Multipart.js:92-113 | the PUT stage's end: the manifest, or the error that stops the run; stated exactly, per cause, by `PutStageOutcome` |
| `MultipartUpload.UploadRun` | client/src/Multipart.js:44-122 | the requests `uploadMultipartFile` sends and how it ends; stated by `RunAsksOneUrlPerPart`, `NoPutWithoutEveryUrl`, `PutsCarryTheirParts`, `RejectedPutStopsRun`, `MissingEtagStopsRun`, `CompletionIffEveryPartAcknowledged`, `RunNeverAborts` and `UploadedIffAllSucceeded` |
| `MultipartUpload.Begin` | client/src/Multipart.js:29-40 | how `startUpload` reads the `/id` reply: launched with a truthy `status` and `uploadId`, otherwise not started with the reply's message, or for a rejected post the server's message or "Unable to start upload. Try again!"; stated through `StartUpload`'s contract |
| `MultipartUpload.Session` | client/src/Multipart.js:20-122 | a whole upload: the `/id` request, then the launched run's requests; stated by `SixtyMegabyteUpload` and `SixtyMegabytePartFails` |
| `MultipartUpload.FetchUploadUrls` | client/src/Multipart.js:62-74 | the loop sends exactly `UrlRequests`, and returns the first rejection and the replies' URLs in part order |
| `MultipartUpload.PutParts` | client/src/Multipart.js:78-95 | the loop sends part `i` to URL `i` for every part, and returns the first rejection and the replies' ETags in part order |
| `MultipartUpload.UrlStageOutcome` | client/src/Multipart.js:72-76 | the URL stage goes on iff every URL request resolved with a URL, and then yields them in part order; when a request is rejected, the error is the first rejected one's message, or "Missing urls found. Try again!" when that is empty; when every request resolved but a URL is missing, it is "Missing urls found. Try again!" |
| `MultipartUpload.PutStageOutcome` | client/src/Multipart.js:92-109 | the PUT stage goes on iff every PUT resolved with an ETag, and then yields the manifest `(ETag of part k, k)`; when a PUT is rejected, the error is the first rejected one's message, or "Missing urls found. Try again!" when that is empty; when every PUT resolved but an ETag is missing, it is exactly "Missing fields found. Try again!" |
| `MultipartUpload.RunAsksOneUrlPerPart` | client/src/Multipart.js:62-70 | every run starts with the N URL requests numbered 1..N |
| `MultipartUpload.NoPutWithoutEveryUrl` | client/src/Multipart.js:72-113 | if any URL request fails or lacks a URL, the run sends only the URL requests (no PUT, no completion) and fails: with the first rejected URL request's message, or "Missing urls found. Try again!" when that rejection has none or when every request resolved but a URL is missing |
| `MultipartUpload.RejectedPutStopsRun` | client/src/Multipart.js:78-121 | once every URL arrived, a rejected PUT stops the run after the `2N` URL and PUT requests, with no completion, and shows the first rejected PUT's message or "Missing urls found. Try again!" |
| `MultipartUpload.MissingEtagStopsRun` | client/src/Multipart.js:92-110 | once every URL arrived and every PUT resolved, a missing ETag stops the run after `2N` requests, with no completion, and shows "Missing fields found. Try again!" |
| `MultipartUpload.PutsCarryTheirParts` | client/src/Multipart.js:78-91 | once every URL arrived, the PUT right after the URL requests sends part `i`'s byte range to URL `i` with the file's type |
| `MultipartUpload.CompletionIffEveryPartAcknowledged` | client/src/Multipart.js:92-110 | the completion request is sent iff every URL and every ETag arrived; it is then request `2N + 1`, for this file and upload id, with the manifest `(ETag of part k, k)` for k = 1..N |
| `MultipartUpload.RunNeverAborts` | client/src/Multipart.js:104-121 | no run ever sends an abort request |
| `MultipartUpload.UploadedIffAllSucceeded` | client/src/Multipart.js:97-107 | a run ends with a location iff every part was acknowledged and completion resolved, and the location is completion's |
| `MultipartUpload.SixtyMegabyteUpload` | client/src/Multipart.js:20-107 | a 60 MB file becomes parts of 25, 25 and 10 MB; with ETags a, b, c the eighth request completes with `[(a,1),(b,2),(c,3)]` and the run ends with the returned location |
| `MultipartUpload.SixtyMegabytePartFails` | client/src/Multipart.js:78-121 | when part 2's PUT is rejected without a message (the other parts succeed), seven requests are sent, none of them completion or abort, and the error is the default "Missing urls found. Try again!"; a rejection with message `m` would show `m` (`RejectedPutStopsRun`) |
| `MultipartUpload.FileName` | client/src/Multipart.js:178 | the name is the timestamp's digits, a dash, then the file's name, and the part before the first dash is the timestamp |
| `MultipartUpload.FileNamesDistinct` | client/src/Multipart.js:178 | files chosen at different instants get different names, whatever their own names |
| `MultipartUpload.MultipartUploader.constructor` | client/src/Multipart.js:10-18 | the initial state cells: no file, empty names, id and messages, no flags, empty progress |
| `MultipartUpload.MultipartUploader.UploadEnabled` | client/src/Multipart.js:192 | the Upload button's guard, `!(uploading \|\| aborting \|\| !file)`; `StartUpload` and `UploadMultipartFile` state its value after each step |
| `MultipartUpload.MultipartUploader.AbortEnabled` | client/src/Multipart.js:196 | the Abort button's guard, `!(aborting \|\| !uploading)`; enabled after a launch and disabled after every run and every abort (`StartUpload`, `UploadMultipartFile`, `AbortUpload`) |
| `MultipartUpload.MultipartUploader.IsReset` | client/src/Multipart.js:148-166 | the state `reset({...})` leaves, used by the contracts of `Reset`, `StartUpload`, `UploadMultipartFile` and `AbortUpload` |
| `MultipartUpload.MultipartUploader.SettledBy` | client/src/Multipart.js:98-120 | the `reset` a run's outcome calls for: success with the location, or the error; used by `UploadMultipartFile` |
| `MultipartUpload.MultipartUploader.ProgressBounded` | client/src/Multipart.js:84-87 | every progress entry is at most 100, the invariant `RecordProgress` keeps |
| `MultipartUpload.MultipartUploader.SelectFile` | client/src/Multipart.js:175-179 | the chosen file is kept and named `FileName(now, file)` |
| `MultipartUpload.MultipartUploader.RecordProgress` | client/src/Multipart.js:83-88 | only the part's key changes, to `round(loaded * 100 / total)`; with `loaded <= total` the all-entries-at-most-100 invariant is kept and the shown percentage stays at most 100 |
| `MultipartUpload.MultipartUploader.Reset` | client/src/Multipart.js:148-166 | the upload id and progress are cleared, url, messages and flags take the given values, and the file and its name are cleared only when a success message is given |
| `MultipartUpload.MultipartUploader.StartUpload` | client/src/Multipart.js:20-42 | sends `/id` once for the file; a resolved reply with a truthy `status` and `uploadId` has its id stored and the run launched, with Upload disabled and Abort enabled (client/src/Multipart.js:192, 196); otherwise the state is reset with the server's message or "Unable to start upload. Try again!" |
| `MultipartUpload.MultipartUploader.UploadMultipartFile` | client/src/Multipart.js:44-122 | sends exactly `UploadRun`'s requests and ends in one `reset`: success with the location (file forgotten) or the run's error (file kept); Abort is then disabled, and Upload is enabled again iff the run failed with a file chosen |
| `MultipartUpload.MultipartUploader.AbortUpload` | client/src/Multipart.js:134-146 | sends one abort request with the file name and upload id held before its `reset`, then resets with "Successfully aborted" or the error or "Unable to abort" |
| `Progress.RoundDiv` | client/src/Multipart.js:125 | `Math.round(x / y)` for non-negative `x` and positive `y`: the integer `q` with `q - 1/2 <= x / y < q + 1/2` |
| `Progress.RoundDivAtMost` | client/src/Multipart.js:125-130 | rounding `x / y` never exceeds a bound `b` with `x <= b * y` |
| `Progress.Percentage` | client/src/Multipart.js:86 | an event with `total > 0` records the rounded percentage; `total == 0` records `NaN` |
| `Progress.Entry.Counted` | client/src/Multipart.js:127 | `percentage[cur] \|\| 0`: a percentage counts as itself, `NaN` as 0 |
| `Progress.Sum` | client/src/Multipart.js:126-129 | the `reduce` over the keys; `SumWithout` proves it is independent of key order, `SumAtMost` bounds it, `RecordSum` gives its change on an event |
| `Progress.PercentageCount` | client/src/Multipart.js:124-131 | `percentageCount`: 0 for an empty map, else the rounded mean; bounded by `PercentageCountAtMost100`, not monotone by `PercentageCanDecrease` |
| `Progress.PercentageBounds` | client/src/Multipart.js:86 | an entry is at most 100 when `loaded <= total`, and exactly 100 when everything is sent |
| `Progress.Record` | client/src/Multipart.js:84-87 | the update adds or overwrites the part's key and leaves every other key as it was |
| `Progress.SumWithout` | client/src/Multipart.js:126-129 | the `reduce` sum does not depend on the order of the keys |
| `Progress.SumAtMost` | client/src/Multipart.js:126-129 | with every entry at most `b`, the sum is at most `b` times the number of parts |
| `Progress.RecordSum` | client/src/Multipart.js:84-129 | recording an event swaps the part's old entry for the new one in the sum |
| `Progress.PercentageCountAtMost100` | client/src/Multipart.js:124-131 | with every entry at most 100, the shown percentage (0 for an empty map, else the rounded mean) is at most 100 |
| `Progress.PercentageCanDecrease` | client/src/Multipart.js:124-131 | a part at 100 shows 100; the first event of a second part at 0 lowers the shown value to 50 |
| `Text.Split` | client/src/App.js:11 | at least one piece, no piece contains the separator, and there are two or more pieces iff the separator occurs |
| `Text.JoinSplit` | client/src/App.js:11 | joining the pieces of a split gives back the string |
| `Text.SplitAtFirst` | client/src/App.js:11 | the first piece is the text before the first separator |
| `Text.SplitWithoutSeparator` | client/src/App.js:11 | a string without the separator splits into itself alone |
| `Text.Contains` | client/src/App.js:10 | `includes` holds iff the text occurs at some position |
| `Text.Decimal` | client/src/Multipart.js:178 | a non-empty string of digits |
| `Text.DecimalRoundTrip` | client/src/Multipart.js:178 | reading the digits back gives the number |
| `QueryKey.Key` | client/src/App.js:8-13 | empty search or no "key" gives ""; no value (`undefined`) iff "key" occurs and no "=" does; a key never contains "=" |
| `QueryKey.SecondPiece` | client/src/App.js:11 | `split("=")` yields at least two pieces, the second being the text after the first "=" up to the next "=" or the end |
| `QueryKey.KeyIsSecondSegment` | client/src/App.js:9-13 | when "key" occurs, the key is the text between the first and the second "=", or to the end |
| `QueryKey.KeyOfPlainQuery` | client/src/App.js:8-13 | `?key=secret` gives `secret` |
| `ImagePicker.AllowedTypes` | src/DragAndDrop.js:16-21 | the accepted types are exactly image/png, image/jpeg, image/gif and image/svg+xml |
| `ImagePicker.Allowed` | src/DragAndDrop.js:88 | `fileTypes.includes(type)`; `AllowedTypes` lists the four types it admits |
| `ImagePicker.Accepted` | src/DragAndDrop.js:87-93 | every new entry is an allowed file of the batch with an empty preview |
| `ImagePicker.Rejected` | client/src/DragAndDrop.js:96-98 | at most one ignored name per file |
| `ImagePicker.EachFileLandsOnce` | client/src/DragAndDrop.js:85-99 | every file lands in exactly one place: accepted and rejected together number the batch, each allowed file has its entry, each other file's name is ignored |
| `ImagePicker.AcceptedAppend` | src/DragAndDrop.js:87-97 | the entries keep the batch's order: those of a concatenation are the first half's, then the second half's, whose ids continue the numbering |
| `ImagePicker.RejectedAppend` | src/DragAndDrop.js:87-97 | the ignored names keep the batch's order: those of a concatenation are the first half's, then the second half's |
| `ImagePicker.SplitSingle` | src/DragAndDrop.js:88-96 | a single file becomes one entry with the first id and an empty preview if its type is allowed, and otherwise its name alone is ignored (with the two append lemmas this fixes the split exactly) |
| `ImagePicker.SplitFiles` | src/DragAndDrop.js:83-97 | the loop builds exactly the accepted entries and the ignored names, in batch order |
| `ImagePicker.RemoveById` | src/DragAndDrop.js:131-135 | an entry survives iff it was there and has another id |
| `ImagePicker.RemoveByIdAppend` | client/src/DragAndDrop.js:133-137 | removal keeps order: removing from a concatenation removes from each side |
| `ImagePicker.RemoveAbsentId` | client/src/DragAndDrop.js:135 | removing an id no entry has changes nothing |
| `ImagePicker.FillPreview` | src/DragAndDrop.js:109-118 | same length; entries with the id get the preview, every other entry is unchanged |
| `ImagePicker.NeedingPreview` | client/src/DragAndDrop.js:108-109 | loads start for exactly the entries with no preview and an allowed type |
| `ImagePicker.PreviewLoads` | src/DragAndDrop.js:124-129 | `shouldComponentUpdate`: the loads start only when the list grew; stated by `NoLoadsWithoutGrowth` and the `UpdateFiles`, `Drop`, `ChooseFiles`, `RemoveFile` and `LoadPreview` contracts |
| `ImagePicker.NoLoadsWithoutGrowth` | src/DragAndDrop.js:124-129 | removing and filling previews never grow the list, so they start no loads |
| `ImagePicker.DropZone.constructor` | src/DragAndDrop.js:10-23 | counter 0, not dragging, no files, nothing ignored |
| `ImagePicker.DropZone.UpdateFiles` | src/DragAndDrop.js:83-102 | `files` is the old list followed by the batch's accepted entries, `ignoredFiles` is replaced by this batch's rejects, and the previews started are those `shouldComponentUpdate` starts |
| `ImagePicker.DropZone.ChooseFiles` | src/DragAndDrop.js:76-81 | a non-empty choice updates the files; an empty one changes nothing |
| `ImagePicker.DropZone.DragIn` | src/DragAndDrop.js:47-54 | the counter goes up by one; dragging is set when items are dragged |
| `ImagePicker.DropZone.DragOut` | src/DragAndDrop.js:56-63 | the counter goes down by one; dragging is cleared when it reaches 0 and kept otherwise |
| `ImagePicker.DropZone.Drop` | src/DragAndDrop.js:65-74 | dragging is cleared; only a drop with files adds them and resets the counter to 0 |
| `ImagePicker.DropZone.RemoveFile` | src/DragAndDrop.js:131-135 | `files` becomes `RemoveById(files, id)` |
| `ImagePicker.DropZone.LoadPreview` | src/DragAndDrop.js:104-122 | `files` becomes `FillPreview(files, id, preview)`, which starts no further loads |
| `ImageUploader.Photos` | client/src/DragAndDrop.js:148-151 | the form sends the entries' files, in order |
| `ImageUploader.Settle` | client/src/DragAndDrop.js:154-169 | stored iff the reply resolved with `status` and a non-empty `files`, which become the result; otherwise a non-empty error: "Something went wrong" for a rejected post, else the reply's message or "Nothing got uploaded" |
| `ImageUploader.Received` | client/src/DragAndDrop.js:152-169 | axios resolves with the body for a 2xx status and rejects otherwise; `FormAgainstServer` states what the form then shows for each server reply |
| `ImageUploader.FormAgainstServer` | client/src/DragAndDrop.js:152-169 | against the server's `/` route: a wrong or empty key shows "Invalid key"; with the right key, a failed `photos` middleware (a 500) shows "Something went wrong", and otherwise the form shows the stored locations, or "Nothing got uploaded" when none was stored |
| `ImageUploader.TwoImagesGoWrongByDefault` | server/key.js:19 | with the default `maxFileCount` of 1, the right key and two images show "Something went wrong" |
| `ImageUploader.UploadForm.constructor` | client/src/DragAndDrop.js:12-25 | empty drop zone, not uploading, no result, no messages, empty key |
| `ImageUploader.UploadForm.SetKey` | client/src/DragAndDrop.js:216 | the key is what was typed |
| `ImageUploader.UploadForm.UploadEnabled` | client/src/DragAndDrop.js:219 | the Upload button's guard `disabled={uploading}`: false after a post (`HandleUpload`), true after its reply (`ReceiveReply`) |
| `ImageUploader.UploadForm.HandleUpload` | client/src/DragAndDrop.js:139-153 | posts the entries' files with the key iff there are files and a key, and otherwise changes nothing; a post clears result, messages and `ignoredFiles`, keeps the files, and sets `uploading`, which disables the Upload button (client/src/DragAndDrop.js:219) |
| `ImageUploader.UploadForm.ReceiveReply` | client/src/DragAndDrop.js:154-169 | `uploading` ends; a stored reply sets the result and success message and empties the whole list, including entries dropped while the post was in flight; any other reply only sets the error `Settle` gives |
| `ImageUploader.UploadForm.UploadUndisturbed` | client/src/DragAndDrop.js:139-169 | with nothing dropped during the upload, the form ends settled by the reply: the files are kept exactly when nothing was stored |
| `UploadRoutes.AuthHeaderExactMatch` | server/upload.js:12-13 | the guard admits a request iff its `x-pass` equals the configured key and that key is not empty |
| `UploadRoutes.AuthHeader` | server/upload.js:12-13 | the `x-pass` test: the header is truthy and equals the key; `AuthHeaderExactMatch` states it exactly |
| `UploadRoutes.Serve` | server/upload.js:12-78 | a request through the guard and then its route; stated by `GuardDecides` and `EmptyKeyAdmitsNobody` |
| `UploadRoutes.GuardDecides` | server/upload.js:12-18 | the store is called iff the guard admits the request; a refused request gets 200 `{status:false, message:"Invalid key"}`, an admitted one its route's response |
| `UploadRoutes.EmptyKeyAdmitsNobody` | server/key.js:18 | with the key left at its default "", every request is refused |
| `UploadRoutes.HandleMapsCallback` | server/upload.js:24-78 | past the guard: 200 iff `status:true`; `/` answers 200 with the locations or `[]` when its middleware succeeded, and 500 (the only 500) when it failed; the other routes answer 200 iff the callback's value is truthy, with `uploadId`, `uploadUrl`, `location` or no payload, and otherwise 400 with the callback's error |
| `UploadRoutes.FromCallback` | server/upload.js:35-41 | the callback mapping `if (value) 200 {status:true, …} else 400 {status:false, message: error}`, shared by the four store routes; stated by `HandleMapsCallback` |
| `UploadRoutes.Handle` | server/upload.js:24-78 | a request past the guard; stated by `HandleMapsCallback` |
| `UploadRoutes.Multer` | server/upload.js:21-23 | the `photos` middleware (server/aws.js:21-25); stated by `MulterOutcome` |
| `UploadRoutes.MulterOutcome` | server/upload.js:21-24 | the middleware fails iff there are more files than `maxCount`, a file is over 10 MB, or the store fails on a non-empty post; otherwise the handler gets the stored locations, or nothing for a post without files |
| `UploadRoutes.DefaultRefusesTwoFiles` | server/key.js:19 | with `maxFileCount` left at its default 1, any post of two files fails in the middleware |

## Left out

- Rendering: JSX, styled-components and CSS. These are presentation only. The guards `disabled={...}` are modelled as `UploadEnabled` and `AbortEnabled`.
- HTTP transport (axios), Express setup, CORS and logging (index.js), and static-file serving. These are I/O. Every reply is an input value.
- The `x-pass` header the multipart client sends with each API request. The recorded requests leave it out. The server's check of it is modelled in `UploadRoutes`.
- AWS SDK and multer-s3 (server/aws.js) and the store's multipart primitives. These are foreign calls. Their results are inputs (`UploadRoutes.Callback`, and the `stored` argument of `UploadRoutes.Multer`). multer's own limits on a post, the file count and the 10 MB size, are modelled. Express's error page for a failed middleware is modelled as a 500 without a `message`.
- Environment variables (server/key.js). The upload key and `maxFileCount` are parameters. Only their defaults are used: "" in `EmptyKeyAdmitsNobody`, and 1 in `DefaultRefusesTwoFiles`. A `MAX_FILE_COUNT` set in the environment arrives as a string. The model takes it as the number it spells.
- src/App.js: a wrapper with no logic.
- Concurrency. `Promise.all` is a loop in part order. A rejection's message is therefore the one with the lowest part number, not the earliest in time. Progress events are a separate method that cannot interleave with a run. The model's only abort point is between `StartUpload` and `UploadMultipartFile`. It stands in for the source's two real windows, while `/id` is pending and in the middle of a run. Two consequences of those windows are not captured. An abort clicked while `/id` is pending sends an empty upload id. The upload is then still launched when the id arrives (client/src/Multipart.js:30-32), after the user aborted. An abort in the middle of a run races the run's own final `reset`.
- Floating point. Progress uses integer half-up rounding of non-negative values. A progress event with `total == 0` and `loaded > 0`, which would give `Infinity`, is recorded as `NaN` like `0 / 0`.
- `uuid4`, `Date.now` and `FileReader`. These become a supplied id function (by position in the batch), a timestamp and a preview string.
- Aliasing in the preview update. The source mutates the entry objects, which the previous state shares. The model updates values.
- The store's callback `error` is modelled as a string. An `Error` object would be serialised differently.
- `handleDrag`, the event-listener setup and teardown, and `dataTransfer.clearData`. These have no effect on the modelled state. `dataTransfer.items` is reduced to whether any items are dragged.
- The `blobArray.every(Boolean)` check (client/src/Multipart.js:60) and its "Missing chunk file found" branch. A Blob is always truthy, so this branch cannot be taken.
- `startUpload` with no file chosen. The Upload button is disabled then, so `StartUpload` requires a file.
- `ImageUploader.UploadForm.HandleUpload`: the post and its reply are two methods, `HandleUpload` and `ReceiveReply`. When the reply arrives, and which drop-zone events come before it, is up to the caller. Like the source, `HandleUpload` does not check `uploading`, because only the button does. So a second post while one is in flight is allowed, and the order in which their replies settle is not fixed by the model.
