# Chunked upload engine of the abrehamrahi storage bot

This project is a Dafny model of the upload engine inside `bot.py`, a
Telegram bot that stores files on the abrehamrahi cloud drive. It covers:

- the storage client `abrehamrahiStorage` and its credential state: the
  access token, the refresh token and the session headers;
- the refresh-once-on-401 pattern that the authorized calls share, and
  `list_objects`, which lacks it;
- `upload_file_part`: three attempts, with the ETag fallback;
- the part loop of the upload handler: partitioning into chunks, the
  lazy lookup of signed URLs, part receipts, and the throttled progress
  reports with their clamped byte count;
- the pure helpers: the id lookup in `get_file_details`, the reshaping of
  receipts for `complete_upload`, the display-name truncation and the
  version-group rule of the delete confirmation;
- the bot `abrehamrahiBot` as far as it drives the client: start-up with
  the bootstrap token exchange, the upload handler from `start_upload` to
  the public link, and the delete confirmation.

Network exchanges are inputs, not effects:

- a PUT is a function from (URL, body, attempt number) to an outcome: a
  failed request, or a reply with a status and maybe an `ETag` header;
- an authorized call is a `CallScript`: the first reply, the token-refresh
  reply used after a 401, and the reply to the re-issued request;
- the clock is a function from part number to integer milliseconds;
- whether a progress edit succeeds is a function of the part number.

Modules:

| file | module | contents |
|---|---|---|
| common.dfy | Common | `Option`, `Result`, the handler's errors, bytes, Python truthiness of a string |
| partition.dfy | Partition | part count, byte ranges, clamped byte count; coverage, disjointness and sum lemmas |
| etags.dfy | ETags | `strip('"')`, the `part-<n>` placeholder, decimal round trip |
| part_upload.dfy | PartUpload | the retry loop of `upload_file_part` and its specification |
| progress.dfy | Progress | the throttle as a function of the clock and the edit outcomes |
| receipts.dfy | Receipts | part receipts and the complete-upload body |
| upload_loop.dfy | UploadLoop | the part loop of `handle_file_upload` |
| directory.dfy | Directory | id lookup, display name, version-group rule |
| credentials.dfy | Credentials | token replies, session headers, `raise_for_status`, the refresh-once outcome |
| storage.dfy | Storage | class `StorageClient`: the client's fields and calls |
| bot.dfy | Bot | class `Bot`: start-up, the upload handler and the delete confirmation |

Three behaviours of the code differ from what a uniform reading of it
would suggest. The model follows the code each time.

- `upload_file_part` catches `requests.exceptions.RequestException`. The
  `HTTPError` that `raise_for_status` raises is one of these. So an error
  status on a PUT is retried like a lost connection, not raised at once.
  After the third failure the last attempt's error is raised: a network
  error, or the error status of the last reply (`PartUpload.PutError`).
- `last_update_time` starts when the handler starts, not at minus
  infinity. The first part is therefore reported only if three seconds
  have already passed, or if it is the final part. `Progress.FivePartExample`
  shows a five-part upload reported at parts 4 and 5 only.
- `list_objects` sends its request once and raises on 401 without
  refreshing. Only the other seven calls refresh.

## Model

| member | source | states |
|---|---|---|
| Partition.TotalPartsIsCeiling | bot.py:548 | `total_parts` is the ceiling of size / chunk: `total*chunk >= size`, `(total-1)*chunk < size`, and it is 0 exactly for an empty file |
| Partition.TotalPartsFormula | bot.py:548 | the part count equals `(file_size + chunk_size - 1) // chunk_size` |
| Partition.TotalPartsIsLeast | bot.py:548 | no smaller part count covers the file |
| Partition.FullPart | bot.py:552-555 | every part before the last has exactly `chunk_size` bytes and ends where the next part starts |
| Partition.LastPart | bot.py:552-555 | for a non-empty file the last part ends at the file size and holds between 1 and `chunk_size` bytes |
| Partition.PartBounds | bot.py:552-555 | each part 1..total lies inside `[0, size)` and holds between 1 and `chunk_size` bytes |
| Partition.FirstPart | bot.py:553 | part 1 starts at byte 0 |
| Partition.ByteInPart | bot.py:552-555 | a byte lies in part n exactly when it is a byte of the file and `n = b // chunk + 1`, so each byte is in exactly one part |
| Partition.ByteHasPart | bot.py:548-555 | every byte of the file has a part number between 1 and total |
| Partition.PartsDisjoint | bot.py:553-554 | an earlier part ends no later than a later part starts |
| Partition.UploadedBytesIsSumOfParts | bot.py:579-581 | the clamped `uploaded_bytes` after part n equals the bytes of parts 1..n and the end of part n |
| Partition.UploadedBytes | bot.py:579-581 | the reported byte count never exceeds the file size |
| Partition.PartsSumToSize | bot.py:548-555 | the part lengths add up to the file size |
| Partition.TwelveMiBExample | bot.py:542-555 | 12 MiB in the default 5 MiB chunks gives three parts of 5, 5 and 2 MiB |
| ETags.StripLeft | bot.py:137 | removes only leading quotes, and the result does not start with one |
| ETags.StripRight | bot.py:137 | removes only trailing quotes, and the result does not end with one |
| ETags.StripKeepsMiddle | bot.py:137 | the result of `strip('"')` is the slice of the header right after its leading quotes |
| ETags.StripDropsTrailingQuotes | bot.py:137 | every character after that slice is a quote |
| ETags.StripEnds | bot.py:137 | the stripped tag neither starts nor ends with a quote |
| ETags.StripShape | bot.py:137 | `strip('"')` keeps a middle slice with only quotes removed on either side |
| ETags.StripIdempotent | bot.py:137 | stripping twice equals stripping once |
| ETags.StripUnquoted | bot.py:137 | a tag without surrounding quotes is unchanged |
| ETags.Decimal | bot.py:139 | the rendered part number is a non-empty string of digits |
| ETags.DecimalRoundTrip | bot.py:139 | the part number can be read back from its decimal rendering |
| ETags.PartETagCases | bot.py:137-139 | the tag is never empty: it is the stripped header, or `part-` followed by the digits of the part number when the stripped header is empty |
| ETags.MissingHeaderPlaceholder | bot.py:137-139 | a missing header, an empty header and any header made only of quotes all give `part-<n>` |
| PartUpload.FirstSuccess | bot.py:131-144 | the first successful attempt at or after a given one, with every earlier attempt failed; None only if all remaining attempts fail |
| PartUpload.UploadPart | bot.py:128-144 | 1 to 3 attempts; every attempt before the last made failed; success returns the tag of the first successful attempt; failure means three failed attempts and raises the third attempt's error; result and count equal `PutResult` and `PutAttempts` |
| PartUpload.PutSucceedsIffSomeAttemptDoes | bot.py:131-144 | a part upload succeeds exactly when one of the three attempts succeeds |
| PartUpload.TwoFailuresThenSuccess | bot.py:131-144 | two failures, then a success: three requests and the third one's tag |
| PartUpload.ThreeFailures | bot.py:141-143 | three failures: three requests and the error propagates |
| PartUpload.FirstAttemptSucceeds | bot.py:133-139 | a successful first attempt is the only request |
| Progress.ThrottleReportsWellFormed | bot.py:574-595 | reports concern parts 1..n in increasing order, each showing `min(part*chunk, size) <= size`, and each marked delivered exactly when its edit succeeded |
| Progress.LastUpdateIsLastDelivered | bot.py:574-595 | `last_update_time` is always the clock reading of the last delivered report, or the start time |
| Progress.ThrottlePrefix | bot.py:574-595 | later parts only append reports about later parts |
| Progress.ReportedOnlyWhenRecorded | bot.py:573-574 | a part is reported, if ever, at its own step: later parts never add a report for it |
| Progress.ReportedAtOwnStep | bot.py:574 | part k is reported at its step exactly when the throttle test against `last_update_time` passes |
| Progress.ThrottleDecision | bot.py:574 | part k is reported exactly when 3 s have passed since the last delivered report, or k is the final part |
| Progress.FinalPartReported | bot.py:574 | the final part is always reported |
| Progress.FivePartExample | bot.py:506-595 | parts at 0, 1, 2, 3.5 and 4 s are reported at parts 4 and 5 only |
| Receipts.CompletionParts | bot.py:154-161 | one payload entry per receipt, in order, with the same number, size and tag |
| Receipts.CompletionRoundTrip | bot.py:154-161 | the reshaping loses nothing: the receipts are recovered exactly from the payload |
| Receipts.CompleteRequest | bot.py:146-162 | the payload lists as many parts as there are receipts, numbered 1..n when the receipts are |
| UploadLoop.ReadAt | bot.py:557-558 | reads at most n bytes, and exactly the range when it lies inside the file |
| UploadLoop.ChunkIsRange | bot.py:552-558 | for a file of the given size, the chunk read for part n is exactly its byte range |
| UploadLoop.RecordedAppend | bot.py:565-571 | appending the receipt of the next part keeps every receipt the record of its part |
| UploadLoop.RecordedPartsSucceeded | bot.py:547-571 | every recorded receipt belongs to a part that has a URL and uploaded |
| UploadLoop.CompleteMeansAllSucceeded | bot.py:547-571 | a full list of receipts means every part succeeded |
| UploadLoop.FailingPartBlocksAll | bot.py:547-571 | one failing part means the parts do not all succeed |
| UploadLoop.FailureIsFirstFailingPart | bot.py:547-571 | a failure right after the recorded parts is the first failing part of the file |
| UploadLoop.FirstFailingPartUnique | bot.py:547-571 | a file has at most one first failing part |
| UploadLoop.TooFewUrlsFail | bot.py:560-563 | with fewer signed URLs than parts the parts cannot all succeed |
| UploadLoop.UploadParts | bot.py:547-595 | on success one receipt per part, numbered 1..total in order, each with its chunk's size and upload tag. With too few URLs it stops at part `len(signed_urls)+1` after exactly `len(signed_urls)` receipts. A part failing three times stops it after the earlier receipts. It completes exactly when every part succeeds, and otherwise fails with the error of the part after the receipts, which does not succeed. The progress reports equal the throttle run over the recorded parts |
| UploadLoop.RecordPart | bot.py:567-595 | appends the receipt and takes one throttle step, keeping the receipts numbered 1..n, each the record of its part, and the reports equal to the throttle run |
| UploadLoop.UploadOnePart | bot.py:552-571 | the URL error happens exactly when the part's URL is missing; otherwise the part's upload result is recorded; it fails exactly when the part does not succeed, with the part's error |
| UploadLoop.ReportProgress | bot.py:573-595 | one throttle step: report if due, and move `last_update_time` only if the edit succeeds |
| UploadLoop.ReceiptsCoverFile | bot.py:565-571 | receipt sizes add up to the clamped byte count, and to the file size when the loop completes |
| Directory.FindById | bot.py:246-249 | the first entry with the id, or None exactly when no entry has it |
| Directory.DisplayName | bot.py:716-719 | at most 30 characters; unchanged exactly when at most 30; otherwise the first 27 followed by `...` |
| Directory.VersionGroupToDelete | bot.py:808-810 | a group is chosen exactly when the object was found with a non-empty `version_group`, and it is that group |
| Directory.NoVersionGroupExample | bot.py:807-810 | an object listed without a version group leads to no group deletion |
| Credentials.AuthorizationHeaderCarriesToken | bot.py:48 | the header is empty exactly without an access token and otherwise carries exactly `Bearer <token>` |
| Credentials.SessionHeaders | bot.py:46-53 | five headers, with `authorization` built from the access token |
| Credentials.SessionHeadersDifferOnlyInAuthorization | bot.py:46-53 | headers built for two tokens agree on every key but `authorization` |
| Credentials.ReplyOutcome | bot.py:118-125 | a failed request raises; a 401 reaching `raise_for_status` raises 401; success only on a non-error reply |
| Credentials.CallOutcome | bot.py:118-125 | without a 401, the first reply decides; a 401 whose refresh fails raises 401; a re-issued request decides alone, and a second 401 raises with no further refresh |
| Storage.StorageClient.constructor | bot.py:16-22 | stores the given tokens and builds headers matching the access token |
| Storage.StorageClient.UpdateSessionHeaders | bot.py:46-57 | headers match the current access token; tokens unchanged |
| Storage.StorageClient.GetAccessTokenFromRefresh | bot.py:59-84 | succeeds exactly on status 200 with a non-empty `access`; then sets both tokens; otherwise changes nothing |
| Storage.StorageClient.RefreshAccessToken | bot.py:86-113 | asks for a token only when a refresh token is held; on success replaces only the access token; on every failure changes nothing; the refresh token never changes |
| Storage.StorageClient.AuthorizedCall | bot.py:118-126 | exactly one refresh on a first 401, none otherwise; a second request only if the refresh succeeded; the outcome is `CallOutcome`; the access token changes only with a granted refresh |
| Storage.StorageClient.StartUpload | bot.py:115-126 | the decoded reply or error of the refresh-once call |
| Storage.StorageClient.CompleteUpload | bot.py:146-171 | sends the reshaped receipts, recoverable exactly; the result is that of the refresh-once call |
| Storage.StorageClient.CreatePublicLink | bot.py:173-188 | the decoded reply or error of the refresh-once call |
| Storage.StorageClient.GetProfile | bot.py:197-206 | the decoded reply or error of the refresh-once call |
| Storage.StorageClient.DeleteObjects | bot.py:208-219 | the decoded reply or error of the refresh-once call |
| Storage.StorageClient.DeleteVersionGroups | bot.py:221-232 | raises as the refresh-once call does; otherwise returns whether the final status is 200 |
| Storage.StorageClient.GetFileDetails | bot.py:234-249 | raises as the refresh-once call does; otherwise the first listed object with the id, or None |
| Storage.StorageClient.ListObjects | bot.py:190-195 | a single request: a 401 raises 401 with no refresh, any other status from 400 to 599 raises with that status, a failed request raises a network error, and success is exactly a non-error reply, returned as it is |
| Bot.Launch | bot.py:262-269 | the bot starts exactly when the bootstrap exchange grants a token, with a fresh client holding that access token and the given refresh token |
| Bot.Bot.constructor | bot.py:265 | the bot holds the given, valid client |
| Bot.Bot.HandleFileUpload | bot.py:537-607 | a failed start call raises its error; missing ids raise "Server error"; a chunk size of 0 or below fails. Completion is sent exactly when every part succeeds, with parts 1..total in order under the reply's ids, without overwrite; otherwise the error is that of the first failing part. Then success exactly when completion returns an id and the link call succeeds, carrying that id and the link or `N/A`; each failing call's error is raised. The access token is the one left by the calls made |
| Bot.Bot.CompleteAndLink | bot.py:600-607 | sends the receipts without overwrite; a failed completion raises its error, a reply without an id raises "File ID error", a failed link call raises its error; success carries the id and the link or `N/A`; the access token is the one left by the calls made |
| Bot.Bot.ConfirmDeleteFile | bot.py:805-812 | trashes, then looks up the object; the first failing call's error ends it. After a successful lookup, `details` is the first listed object with the id and the group deleted is exactly its non-empty version group; the access token is the one left by the calls made |

## Left out

- Token-file persistence (`_load_tokens`, `_save_tokens`) is not modelled. The constructor takes the tokens as given. Both functions swallow every exception.
- The `requests` session objects, the URLs, query parameters and JSON bodies of the calls other than `complete_upload` are not modelled. Neither are the 30-second PUT timeout and the two-second `time.sleep` between attempts.
- `_format_size` and the floating-point progress figures are not modelled: the percentage, the progress bar, speed and ETA. Only the integer byte clamp is.
- Bot.Launch: the environment set-up and the Telegram client are not modelled; the client starts without an access token, since the token file is not read, and `exit(1)` is the `None` result.
- Bot.Bot.ConfirmDeleteFile: the outer `except Exception` only shows the error message, so the model returns the error instead.
- Replies are taken to be JSON objects whose optional fields are either absent or hold a value of the expected type. A field present with `null` is not modelled: the source's `.get(key, default)` then yields `None` rather than the default, so a `null` `chunk_size` or `signed_urls` raises `TypeError` at bot.py:548 or bot.py:560, a `null` `results` raises at bot.py:246, and a `null` `link` gives `None` instead of `N/A` at bot.py:607. A 2xx reply whose body is not JSON, or not a JSON object, is not modelled either: `response.json()` or `.get` would raise (bot.py:126, 171, 188, 195, 206, 219, 244, 539).
- Telegram handlers, keyboards, message texts, the environment setup, `asyncio.to_thread`, the worker pool, the file download and the temporary-file deletion are I/O or dispatch. They are not modelled.
- The message edits are represented only by whether each progress edit succeeds. The edits before and after the loop are not modelled.
- Bot.Bot.HandleFileUpload: a chunk size of zero or below ends the upload with an error. Zero matches the source's `ZeroDivisionError`. The source does not reject a negative chunk size, so the model does not capture its floor-divided part count or the negative-length reads that follow.
- Bot.Bot.HandleFileUpload: the file content is given with the reported size. The model does not capture a file shorter or longer than `file_size`, beyond `ReadAt` returning fewer bytes at the end.
- Bot.Bot.ConfirmDeleteFile: the return value of `delete_version_groups` is ignored, as in the source. The `int(file_id)` conversion of the callback text is not modelled.
- Multiplication of part numbers by the chunk size is written as repeated addition (`Partition.Times`) and proved equal to `*` (`Partition.TimesIsProduct`).
- The part count `Partition.TotalParts` is written as repeated subtraction and proved equal to the source's ceiling division (`Partition.TotalPartsFormula`).
