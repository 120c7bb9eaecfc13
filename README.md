# TUSKit core in Dafny

A verified model of the upload core of TUSKit, an iOS client for version
1.0.0 of the tus resumable-upload protocol. The model covers the plain,
non-concatenation path:

- the Core Protocol's `HEAD` (ask the server for `Upload-Offset`) and
  `PATCH` (send one chunk at that offset);
- the Creation extension's `POST` with `Upload-Length` and `Upload-Metadata`;
- the client's single-flight gate (`ready` / `uploading`), the persisted
  list of uploads, the staging of files and chunk files, and the
  completion handler that drives one upload from creation to its last chunk.

There is one Dafny module per Swift file, leaves first:

| file | module | Swift source |
|---|---|---|
| `wrappers.dfy` | `Wrappers` | `Option` |
| `decimal.dfy` | `Decimal` | `String(n)` and `UInt64(String)` for byte counters |
| `upload_status.dfy` | `TusUploadStatus` | `TUSUploadStatus` |
| `extension.dfy` | `TusExtension` | `TUSExtension` |
| `chunk.dfy` | `TusChunk` | `TUSChunk`, `TUSChunkUnit` |
| `config.dfy` | `TusConfig` | `TUSConfig` |
| `partial_upload_state.dfy` | `TusPartialUploadState` | `TUSPartialUploadState` |
| `upload.dfy` | `TusUpload` | `TUSUpload` |
| `executor.dfy` | `TusExecutor` | the computing half of `TUSExecutor` |
| `client.dfy` | `TusClient` | `TUSClient` and the request-issuing half of `TUSExecutor` |

`TUSClient` and `TUSExecutor` are singletons that call each other
(`create` calls `updateUpload`, and the completion handler calls `upload`).
Dafny modules cannot import each other in a cycle. So the executor's pure
parts live in `TusExecutor`, and its request-issuing methods are methods of
`TusClient.Client`, next to the client state they change.

How the model represents the system:

- **Uploads.** An `Upload` is a class: its `status` observer and
  `encodedMetadata` change its fields in place. The persisted
  `currentUploads` is a `seq<UploadRecord>`. The getter decodes fresh
  objects from the stored bytes on every read, so every upload taken from
  the list is a new `Upload.FromRecord`. `DecodeEncode` proves that storing
  records loses nothing that storing the encoded container would keep.
- **Transport.** It is a log. `issued` holds the requests (method, URL,
  headers, task identifier, body file), and `events` holds the delegate's
  success calls. A completion is a call of `Complete` with the task's
  description, its HTTP method and its response.
- **File store.** `files` maps names to bytes, and `dirs` is the set of
  chunk directories. `external` holds the files outside the store that
  staging moves in.
- **Force unwraps and `fatalError`.** Each one becomes a `requires`. The
  predicates `CanUpload`, `ResumeDemands` and `PatchCompletionDemands`
  collect what a whole call chain unwraps.

Where the code and its own comments disagree with the protocol
description, the model follows the code:

- `cleanUp(forUpload:)` removes the first stored upload whatever its id.
- A `PATCH` completion acts on the first stored upload, not on the upload
  the task belongs to.
- `pauseAll` and `pause` cancel.
- A `retry` sends the chunk at the stored offset without asking the server
  for its offset.

## Model

| member | source | states |
|---|---|---|
| Decimal.NatToString | TUSKit/Classes/TUSClient.swift:132 | the text of a size is a non-empty run of digits with no leading zero |
| Decimal.DigitsValueOfNatToString | TUSKit/Classes/TUSClient.swift:132 | the digits written for `n` denote `n` |
| Decimal.FormatParseRoundTrip | TUSKit/Classes/TUSExecutor.swift:132 | `UInt64(String(n))` gives back `n` for every `n` that fits in 64 bits |
| Decimal.NatToStringInjective | TUSKit/Classes/TUSClient.swift:132 | distinct sizes are written as distinct upload lengths |
| Decimal.ParseRejectsNonDigit | TUSKit/Classes/TUSExecutor.swift:227-229 | an offset text with a non-digit anywhere, other than a leading sign, does not parse, so its chunk number is -1 |
| TusUploadStatus.FromRaw | TUSKit/Classes/TUSUploadStatus.swift:10-21 | a decoded status has exactly that raw string; nil means that no status has it |
| TusUploadStatus.ExactlyTenStatuses | TUSKit/Classes/TUSUploadStatus.swift:11-20 | every status is in the list of ten, and the list has no repeats |
| TusUploadStatus.RawRoundTrip | TUSKit/Classes/TUSUploadStatus.swift:10-21 | decoding the raw string of a status gives that status |
| TusUploadStatus.ToRawInjective | TUSKit/Classes/TUSUploadStatus.swift:11-20 | distinct statuses have distinct raw strings |
| TusUploadStatus.OnlyAuthRequiredIsSnakeCase | TUSKit/Classes/TUSUploadStatus.swift:16 | `authRequired` is `auth_required`, the only raw string with an underscore; all raw strings are lower-case |
| TusUploadStatus.UnknownRawRejected | TUSKit/Classes/TUSUploadStatus.swift:10 | near misses such as `auth-required` and `authRequired`, and the empty string, decode to nil |
| TusExtension.FromRaw | TUSKit/Classes/TUSExtension.swift:10-20 | a decoded extension has exactly that name; nil means that no extension has it |
| TusExtension.ExactlyNineExtensions | TUSKit/Classes/TUSExtension.swift:11-19 | every extension is in the list of nine, and the list has no repeats |
| TusExtension.RawRoundTrip | TUSKit/Classes/TUSExtension.swift:10-20 | decoding the name of an extension gives that extension |
| TusExtension.ToRawInjective | TUSKit/Classes/TUSExtension.swift:11-19 | distinct extensions have distinct names |
| TusExtension.UnknownNameRejected | TUSKit/Classes/TUSExtension.swift:10 | `foo`, `Creation` and `concatenation ` decode to nil |
| TusChunk.Value | TUSKit/Classes/TUSChunk.swift:14-18 | the value is a whole number of units, and that number is the size |
| TusChunk.UnitMultipliers | TUSKit/Classes/TUSChunk.swift:26-30 | byte is 1, kibibyte is 1024, and mebibyte is kibibyte times kibibyte |
| TusChunk.ByteValue | TUSKit/Classes/TUSChunk.swift:14-30 | in bytes, the value is the size |
| TusChunk.KibibytesAsBytes | TUSKit/Classes/TUSChunk.swift:14-30 | whenever `s` KiB fits in an `Int`, so does `1024·s` B, and the two byte counts are equal |
| TusChunk.MebibytesAsKibibytes | TUSKit/Classes/TUSChunk.swift:14-30 | whenever `s` MiB fits in an `Int`, so does `1024·s` KiB, and the two byte counts are equal |
| TusChunk.ValueMonotone | TUSKit/Classes/TUSChunk.swift:16 | for one unit, the value grows with the size, and a positive size gives a value at least the size |
| TusConfig.ParseExtensions | TUSKit/Classes/TUSConfig.swift:21 | the known extensions of a name list, never more than the names, each named in the list |
| TusConfig.RawNames | TUSKit/Classes/TUSConfig.swift:24 | one name per extension, position by position |
| TusConfig.ParseRawNames | TUSKit/Classes/TUSConfig.swift:21-24 | reading back written names gives the same extensions in the same order |
| TusConfig.ParseConcat | TUSKit/Classes/TUSConfig.swift:21 | name parsing is a filter-map: the parse of a concatenation is the concatenation of the parses |
| TusConfig.ParseDropsUnknown | TUSKit/Classes/TUSConfig.swift:21 | an unknown name is dropped wherever it stands, and its neighbours keep their order |
| TusConfig.Config.constructor | TUSKit/Classes/TUSConfig.swift:35-41 | URL, session configuration and initial headers are stored unchanged; the log level is off and concatenation mode is false |
| TusConfig.Config.AvailableExtensions | TUSKit/Classes/TUSConfig.swift:17-22 | nothing stored reads as `[]`; otherwise the known names are read, each named in the stored list |
| TusConfig.Config.SetAvailableExtensions | TUSKit/Classes/TUSConfig.swift:23-25 | the raw names are stored in list order, and reading gives back the list that was written |
| TusPartialUploadState.Default | TUSKit/Classes/TUSPartialUploadState.swift:10-41 | `offsetRequestPending` is false and every other field is nil |
| TusPartialUploadState.LocalFileURL | TUSKit/Classes/TUSPartialUploadState.swift:15-20 | nil exactly when `localFile` is nil; otherwise the store path followed by `localFile` |
| TusPartialUploadState.WithLocalFileURL | TUSKit/Classes/TUSPartialUploadState.swift:21-34 | only `localFile` changes: nil clears it, fewer than two components keep it, and otherwise it becomes the last two components joined by `/` |
| TusPartialUploadState.SetThenGet | TUSKit/Classes/TUSPartialUploadState.swift:15-34 | after setting a URL of two or more components, the getter gives the store path followed by the last two components |
| TusPartialUploadState.SetKeepsSameLocalFile | TUSKit/Classes/TUSPartialUploadState.swift:21-34 | setting the URL that ends in the current `localFile` changes nothing |
| TusUpload.PrevStatusAfter | TUSKit/Classes/TUSUpload.swift:115-125 | the new `prevStatus` is the old one or the replaced value, and a non-resting `prevStatus` stays non-resting |
| TusUpload.PrevIsLatestActive | TUSKit/Classes/TUSUpload.swift:115-125 | after any run of assignments, `prevStatus` is the latest replaced non-resting status, or the original `prevStatus` when every replaced status was resting |
| TusUpload.LatestActiveCons | TUSKit/Classes/TUSUpload.swift:118-123 | one assignment followed by others is the observer applied once, and then the rest |
| TusUpload.Encode | TUSKit/Classes/TUSUpload.swift:32-50 | a key is written exactly when the field has a value: `id`, the two lists and `metadata` always, the optional fields only when present, statuses as raw strings |
| TusUpload.Decode | TUSKit/Classes/TUSUpload.swift:52-78 | a decoded record's id, metadata and two lists are the values stored under their keys |
| TusUpload.StatusOfRawText | TUSKit/Classes/TUSUpload.swift:46-77 | a status written as its raw string reads back as that status, and nil reads back as nil |
| TusUpload.DecodeFields | TUSKit/Classes/TUSUpload.swift:52-78 | a container whose every key decodes to a record's field decodes to that record |
| TusUpload.EncodedTextsDecode | TUSKit/Classes/TUSUpload.swift:36-64 | the optional text fields that are written read back as they were |
| TusUpload.EncodedOthersDecode | TUSKit/Classes/TUSUpload.swift:35-77 | id, lists, maps and both statuses that are written read back as they were |
| TusUpload.DecodeEncode | TUSKit/Classes/TUSUpload.swift:32-78 | decoding the encoding of a record gives that record back, every one of its fourteen fields |
| TusUpload.UnknownStatusDecodesToNil | TUSKit/Classes/TUSUpload.swift:71-77 | an unknown status string decodes to a nil status; decoding does not fail and every other field, `prevStatus` included, is kept |
| TusUpload.UnknownPrevStatusDecodesToNil | TUSKit/Classes/TUSUpload.swift:71-77 | an unknown previous-status string decodes to a nil `prevStatus`; decoding does not fail and every other field, `status` included, is kept |
| TusUpload.SplitJoin | TUSKit/Classes/TUSUpload.swift:133 | joined items that contain no separator split back into the same items |
| TusUpload.MetadataSplitsIntoItems | TUSKit/Classes/TUSUpload.swift:131-133 | when no key and no encoded value contains a comma, the metadata value splits into exactly one `key base64(value)` item per entry, with no trailing separator |
| TusUpload.Upload.constructor | TUSKit/Classes/TUSUpload.swift:136-165 | every given field is stored, nil lists become empty, and `prevStatus` starts nil because initializer assignments skip the observer |
| TusUpload.Upload.WithFile | TUSKit/Classes/TUSUpload.swift:167-171 | only id, file path and file type are set; the metadata is empty |
| TusUpload.Upload.FromRecord | TUSKit/Classes/TUSUpload.swift:52-78 | the object holds the decoded record and no `data` |
| TusUpload.Upload.SetStatus | TUSKit/Classes/TUSUpload.swift:115-125 | the status is the new value, and `prevStatus` follows the observer rule |
| TusUpload.Upload.EncodedMetadata | TUSKit/Classes/TUSUpload.swift:129-134 | `filename` is set to the id and stays set; the result joins one `key base64(value)` item per key, in some enumeration of the keys |
| TusExecutor.NumberOfChunks | TUSKit/Classes/TUSExecutor.swift:214-224 | the count is the ceiling: `n` chunks cover the file, and `n - 1` do not |
| TusExecutor.ChunkCountIsCeiling | TUSKit/Classes/TUSExecutor.swift:214-224 | any count with those two properties is the count computed |
| TusExecutor.MoreChunksIff | TUSKit/Classes/TUSExecutor.swift:214-224 | another chunk follows the one at `position` exactly when that chunk ends before the end of the file |
| TusExecutor.CurrentChunkNumber | TUSKit/Classes/TUSExecutor.swift:226-242 | -1 exactly when the offset does not parse; otherwise the chunk number times the chunk size is the offset; a non-multiple is a `requires` |
| TusExecutor.ChunkNumberOfFormattedOffset | TUSKit/Classes/TUSExecutor.swift:226-242 | the offset written for chunk `p` parses back as chunk `p` |
| TusExecutor.ChunkAt | TUSKit/Classes/TUSExecutor.swift:181-204 | the chunk is exactly bytes `[offset, offset + min(C, F - offset))` of the staged file, so it is at most `C` long |
| TusExecutor.ChunksTileFile | TUSKit/Classes/TUSExecutor.swift:181-224 | the chunks read from an offset on concatenate to the rest of the file, and their number is the chunk count |
| TusExecutor.ChunksCount | TUSKit/Classes/TUSExecutor.swift:214-224 | the chunks read from an offset number as the chunk count of the remaining bytes |
| TusExecutor.ChunkCountStep | TUSKit/Classes/TUSExecutor.swift:214-224 | sending one chunk leaves one chunk fewer |
| TusExecutor.ChunkPathIsNotStaged | TUSKit/Classes/TUSExecutor.swift:206-212 | a chunk file never overwrites a staged file whose name has no `/` |
| TusExecutor.MergeHeaders | TUSKit/Classes/TUSExecutor.swift:53-55 | the keys are the union; a built-in value wins a clash; a custom header only adds a missing key |
| TusExecutor.HeadHeaders | TUSKit/Classes/TUSExecutor.swift:49-55 | the HEAD's header names are `Tus-Resumable` and the custom ones; it carries the protocol version, and every other custom header unchanged |
| TusExecutor.PostHeaders | TUSKit/Classes/TUSExecutor.swift:90-100 | the POST's header names are its five protocol names and the custom ones; it carries the version, `Upload-Extension: creation`, `Content-Length: 0`, the upload length and the metadata over any custom header of the same exact name, and every other custom header unchanged |
| TusExecutor.PatchHeaders | TUSKit/Classes/TUSExecutor.swift:144-154 | the PATCH's header names are its five protocol names and the custom ones; it carries the version, the offset content type, the chunk length written in decimal as `Content-Length`, the upload's offset text and the metadata, and every other custom header unchanged |
| TusExecutor.FormattedParse | TUSKit/Classes/TUSExecutor.swift:147 | a written byte count parses back exactly when it fits in 64 bits |
| TusExecutor.IdentifierForTask | TUSKit/Classes/TUSExecutor.swift:173-175 | the session identifier (or `tuskit.executor`), a `.`, then the task description |
| TusExecutor.IdentifierForTaskInjective | TUSKit/Classes/TUSExecutor.swift:173-175 | within one session, distinct task descriptions give distinct identifiers |
| TusExecutor.UploadIndexForTaskId | TUSKit/Classes/TUSExecutor.swift:177-179 | the first upload, in stored order, whose task ids contain the id; none exactly when no upload's do |
| TusExecutor.UploadIndexForId | TUSKit/Classes/TUSClient.swift:240 | the first upload with that id; none exactly when no upload has it |
| TusExecutor.HasIdIndex | TUSKit/Classes/TUSClient.swift:240-241 | the force-unwrapped index exists exactly when some upload has the id |
| TusExecutor.RemoveFirst | TUSKit/Classes/TUSClient.swift:275 | removing the first occurrence removes one copy of the id and keeps every other id |
| TusExecutor.KeepNotStopped | TUSKit/Classes/TUSExecutor.swift:274-289 | an id is kept exactly when it is listed and no running task carries it |
| TusExecutor.KeepAllWhenNoneStopped | TUSKit/Classes/TUSExecutor.swift:274-289 | when no listed id belongs to a running task, nothing is removed |
| TusExecutor.WithoutCount | TUSKit/Classes/TUSExecutor.swift:283-288 | removing every copy of an id shortens the list by its count |
| TusExecutor.ConcatSplit | TUSKit/Classes/TUSExecutor.swift:283-288 | removing and counting an id distribute over concatenation |
| TusExecutor.CountSnoc | TUSKit/Classes/TUSExecutor.swift:277-282 | the count over one more element grows by one exactly when that element is the id |
| TusExecutor.RemoveFirstWithout | TUSKit/Classes/TUSExecutor.swift:284-287 | removing one copy of an id keeps every other id and lowers its count by one |
| TusExecutor.StoppedBySnoc | TUSKit/Classes/TUSExecutor.swift:274-278 | an id is stopped by one more task exactly when it was already stopped or that task runs under it |
| TusExecutor.KeepNotStoppedSnoc | TUSKit/Classes/TUSExecutor.swift:274-289 | handling one more task removes exactly the copies of its id, when it runs |
| TusExecutor.MatchRunning | TUSKit/Classes/TUSExecutor.swift:275-282 | a running task collects one cancelled id per listed copy of its identifier, and `cancel()` is called once for each; an idle task collects none |
| TusExecutor.RemoveCancelled | TUSKit/Classes/TUSExecutor.swift:283-288 | each collected id removes one copy of itself; other ids stay in order |
| TusExecutor.CancelRoundStep | TUSKit/Classes/TUSExecutor.swift:274-289 | one round of the outer loop advances the kept list by one task |
| TusExecutor.CancelBookkeeping | TUSKit/Classes/TUSExecutor.swift:273-290 | the ids left are exactly those of no running task; `cancel()` is called on running tasks only, once per id removed |
| TusExecutor.CountMember | TUSKit/Classes/TUSExecutor.swift:284-286 | an id with a positive count is found, so the `guard` never skips |
| TusClient.DeleteItem | TUSKit/Classes/TUSClient.swift:209-219 | deleting a name removes it and everything beneath it, and keeps all the rest |
| TusClient.DeleteDir | TUSKit/Classes/TUSClient.swift:215 | deleting a chunk directory removes it and every directory beneath it |
| TusClient.ReplaceFirstWithId | TUSKit/Classes/TUSClient.swift:239-244 | the first entry with the id is replaced; the length, every id and every other entry are unchanged |
| TusClient.SameIdsSameIndex | TUSKit/Classes/TUSClient.swift:240 | lists with the same ids position by position find the same index for any id |
| TusClient.ReplaceKeepsIds | TUSKit/Classes/TUSClient.swift:239-244 | replacing keeps the same set of ids present |
| TusClient.ReplaceTwice | TUSKit/Classes/TUSClient.swift:239-244 | persisting twice under one id is persisting the second version |
| TusClient.AppendKeepsIds | TUSKit/Classes/TUSClient.swift:99 | appending keeps every id and adds the new one |
| TusClient.CancelIdempotent | TUSKit/Classes/TUSExecutor.swift:291-292 | a cancelled record is `canceled`, and cancelling it again changes nothing |
| TusClient.CancelStep | TUSKit/Classes/TUSClient.swift:168-171 | one iteration of `cancelAll` cancels the first record with the next id and keeps the rest |
| TusClient.ChunkWriteKeepsCanUpload | TUSKit/Classes/TUSExecutor.swift:206-212 | writing one upload's chunk file leaves every other upload able to send its chunk |
| TusClient.RetryReadyStep | TUSKit/Classes/TUSClient.swift:154-158 | retrying one upload keeps the uploads after it ready to send |
| TusClient.PatchesForStep | TUSKit/Classes/TUSClient.swift:154-158 | a PATCH for the next upload extends the run of PATCHes that follow stored order |
| TusClient.DispatchVerb | TUSKit/Classes/TUSClient.swift:122-138 | `paused` or `created` gives HEAD, `new` gives POST, and exactly the other statuses, nil included, give nothing |
| TusClient.Client.Status | TUSKit/Classes/TUSClient.swift:40-46 | nothing stored reads as `ready`; otherwise the stored gate |
| TusClient.Client.constructor | TUSKit/Classes/TUSClient.swift:64-81 | a stored upload list is kept and a missing one becomes empty; the file store is the one given; no request, task or event exists yet |
| TusClient.Client.ResetState | TUSKit/Classes/TUSClient.swift:233-235 | the gate reads as the given status |
| TusClient.Client.UpdateUpload | TUSKit/Classes/TUSClient.swift:239-244 | the stored list becomes the list with the object's record replacing the first entry with its id |
| TusClient.Client.NextTaskId | TUSKit/Classes/TUSExecutor.swift:57-61 | a new task is created, and its identifier is that of its description |
| TusClient.Client.AddTask | TUSKit/Classes/TUSExecutor.swift:61-62 | exactly one task id is appended, and the upload is persisted with it |
| TusClient.Client.RetrieveOffset | TUSKit/Classes/TUSExecutor.swift:28-65 | one HEAD to the upload's location with the merged headers, whose task id is appended and persisted before it is issued |
| TusClient.Client.PostRequest | TUSKit/Classes/TUSExecutor.swift:85-100 | a POST to the client's upload URL with the creation headers; the metadata gains `filename` |
| TusClient.Client.Create | TUSKit/Classes/TUSExecutor.swift:67-110 | one POST whose task id is appended and persisted before it is issued |
| TusClient.Client.GetChunkData | TUSKit/Classes/TUSExecutor.swift:181-204 | nil when the staged file is missing; otherwise exactly the chunk at the offset |
| TusClient.Client.WriteChunk | TUSKit/Classes/TUSExecutor.swift:206-212 | the chunk directory is created unless the name exists, and the chunk is filed as `<id>/<position + 1>`; with no directory under that name the write gives nil |
| TusClient.Client.StageChunk | TUSKit/Classes/TUSExecutor.swift:132-136 | the chunk at the stored offset is read and written as the next chunk file |
| TusClient.Client.PatchRequest | TUSKit/Classes/TUSExecutor.swift:139-156 | a PATCH to the upload's location with the chunk headers and the chunk file as body |
| TusClient.Client.StartTask | TUSKit/Classes/TUSExecutor.swift:160-164 | the status becomes `uploading` whatever it was, then the task id is appended, and both are persisted |
| TusClient.Client.IssuePatch | TUSKit/Classes/TUSExecutor.swift:139-166 | one PATCH is issued after the status, the task id and the metadata are stored |
| TusClient.Client.UploadChunk | TUSKit/Classes/TUSExecutor.swift:112-167 | the chunk at the stored offset is filed and sent in one PATCH, with `Content-Length` its length and `Upload-Offset` the stored offset |
| TusClient.Client.SendChunk | TUSKit/Classes/TUSExecutor.swift:112-167 | status, task ids, stored list and files as `upload` leaves them, and the one PATCH it appends |
| TusClient.Client.Retry | TUSKit/Classes/TUSClient.swift:187-189 | a retry is the whole chunk upload: the chunk at the stored offset is filed at the next chunk path and sent in one PATCH with that file as its body and the offset, chunk length and metadata headers; the upload becomes `uploading` with `filename` set, and the PATCH's task id is appended and persisted |
| TusClient.Client.Cancel | TUSKit/Classes/TUSExecutor.swift:270-293 | nothing happens when no upload has the id; otherwise the first one is stored `canceled`, and its decoded copy is handed to the task callback |
| TusClient.Client.CancelCallback | TUSKit/Classes/TUSExecutor.swift:273-290 | only the ids of running tasks are removed, and each removal cancels a running task |
| TusClient.Client.Pause | TUSKit/Classes/TUSClient.swift:192-194 | pausing is cancelling |
| TusClient.Client.StageFile | TUSKit/Classes/TUSClient.swift:94-115 | an absent staged file makes the upload `new` and appends it, then moves or writes the file; only a move from an empty location fails, and records a `Failure` event naming the location and the stored name; a staged file changes nothing |
| TusClient.Client.StartCreation | TUSKit/Classes/TUSClient.swift:127-135 | content length and offset become "0", the upload length is the decimal staged size, and one POST is issued |
| TusClient.Client.Dispatch | TUSKit/Classes/TUSClient.swift:119-141 | under a ready gate the gate becomes `uploading` and the status picks HEAD, POST or nothing; under any other gate no request is issued and the gate is unchanged |
| TusClient.Client.CreateOrResume | TUSKit/Classes/TUSClient.swift:90-142 | the custom headers are set, staging appends a new upload, and a failed staging records its `Failure` event and issues nothing, as does a closed gate; otherwise one dispatch by status |
| TusClient.Client.CleanUp | TUSKit/Classes/TUSClient.swift:204-220 | the first stored upload is dropped whatever its id, and the staged file and the chunk directory are deleted |
| TusClient.Client.ContinueFromOffset | TUSKit/Classes/TUSClient.swift:274-277 | the server's offset is stored, the finished task id replaced by the new PATCH's, and the next chunk sent |
| TusClient.Client.CompleteHead | TUSKit/Classes/TUSClient.swift:271-278 | a 200 stores `UPLOAD-OFFSET`, drops the task id and issues a PATCH; any other code changes nothing |
| TusClient.Client.AcceptCreated | TUSKit/Classes/TUSClient.swift:283-288 | the upload becomes `created` at the resolved location without the finished task id, and is persisted |
| TusClient.Client.CompletePost | TUSKit/Classes/TUSClient.swift:279-290 | a 201 stores `created` and the location, drops the finished task id, then issues a PATCH to that location whose task id is appended; any other code changes nothing |
| TusClient.Client.FinishUpload | TUSKit/Classes/TUSClient.swift:314-321 | success is signalled with the finished record, the upload cleaned up and the gate reopened; the upload now first is resumed |
| TusClient.Client.PatchNextChunk | TUSKit/Classes/TUSClient.swift:304-309 | the first stored upload takes the server's offset and sends its next chunk; the other uploads are unchanged |
| TusClient.Client.PatchFinished | TUSKit/Classes/TUSClient.swift:310-322 | the first stored upload is finished and signalled; with no other upload the list ends empty, the gate `ready`, and its staged file and chunk directory are deleted |
| TusClient.Client.CompletePatch | TUSKit/Classes/TUSClient.swift:295-336 | only 2xx acts: with chunks left the next PATCH goes out; after the last chunk a 204 signals success and, with no other upload, leaves the list empty, the gate `ready` and the upload's staged file and chunk directory deleted; otherwise nothing changes |
| TusClient.Client.Complete | TUSKit/Classes/TUSClient.swift:259-343 | the task must belong to a stored upload; without a response, for another method, for another status code, or for a PATCH with an error nothing changes; a HEAD 200 and a POST 201 each issue one PATCH |
| TusClient.Client.ResumeAll | TUSKit/Classes/TUSClient.swift:147-151 | every stored upload is resumed in order; the gate lets at most one request out, and none when it is closed; the only events it adds are staging `Failure`s |
| TusClient.Client.RetryNext | TUSKit/Classes/TUSClient.swift:155-157 | one round of `retryAll` sends the snapshot entry's PATCH and keeps the later entries ready |
| TusClient.Client.RetryAll | TUSKit/Classes/TUSClient.swift:154-158 | one PATCH per stored upload, to each location in stored order |
| TusClient.Client.CancelAll | TUSKit/Classes/TUSClient.swift:168-173 | every upload that is first with its id ends `canceled`; a later duplicate is untouched |
| TusClient.Client.PauseAll | TUSKit/Classes/TUSClient.swift:161-165 | the same result as `cancelAll` |
| TusClient.Client.CleanUpAll | TUSKit/Classes/TUSClient.swift:176-180 | the list ends empty, and the files and directories are those the stored uploads' cleanups leave in turn: no staged file or chunk directory of a stored upload remains, and nothing else changes |
| TusClient.FilesAfterCleanUps | TUSKit/Classes/TUSClient.swift:176-180 | an entry survives the cleanups of a list of uploads exactly when no upload's staged file or chunk directory is it or holds it, and keeps its contents |
| TusClient.DirsAfterCleanUps | TUSKit/Classes/TUSClient.swift:176-180 | a directory survives the cleanups of a list of uploads exactly when no upload's staged file or chunk directory is it or holds it |

## Left out

- URLSession: creating a session or a task, `resume()`, the request's cache policy and timeout, and the `didReceive response` handler, which does nothing. `describeTask` stands for the description Foundation gives each new task.
- `getTasksWithCompletionHandler` runs its callback later, on another thread. `CancelCallback` is that callback's body, run as a separate step on the decoded copy and on a given list of (identifier, running) tasks.
- Persistence through UserDefaults and JSON is plain in-memory state: the upload list, the gate and the stored extension names. Encoding is a keyed container of typed values, not JSON text, and the never-encoded `chunkSize` and `currentChunkPosition` keys are not modelled.
- Staging is lossless in memory: the model's file store never fails a write, a directory creation or a move. The one failure path modelled is a move from a location holding nothing (`TUSKit/Classes/TUSFileManager.swift:47-56`).
- `TUSFileManager.swift` is modelled by its effect, not as a class. Its file store is the `files`, `dirs` and `external` maps; `fileExists` and `sizeForUpload` are lookups, and a missing file has size 0. Its directory root is not modelled, so a failure message names the stored name without the store's path, and a location by its string rather than its absolute URL.
- Logging (`TUSLogger.swift`, `TUSLogLevelType.swift`): output only.
- `TUSDelegate.swift`: `TUSSuccess` is recorded as a `Success` event, and the failure `TUSFailure` reports when a file cannot be moved in (`TUSKit/Classes/TUSFileManager.swift:53`) as a `Failure` event with no upload. The other `TUSFailure` calls are not recorded: they report a failed directory creation, write, deletion or size lookup (`TUSKit/Classes/TUSFileManager.swift:25`, `:37`, `:64`, `:96`, `:108`, `:112`). The model's store never fails a directory creation or a write. A deletion of a missing item is a no-op, not a failure, and the size of a missing file is 0 with no failure recorded; the source reports both. The progress callback is left out below. `TUSResponse.swift` only holds a message.
- Header names are compared exactly, case included. `URLRequest.addValue`, which joins a second value after a comma when a name matches case-insensitively, is not modelled: the protocol headers are set over custom headers of the same exact name only.
- `toBase64` (section 4 of RFC 4648), `allHeaderFieldsUpper`, `TUSConstants` and `URL(string:relativeTo:)` are not part of this model. They are parameters: `toBase64`, responses whose header names are already upper case, and `resolveLocation`. `TusProtocolVersion` is assumed to be "1.0.0", the version of the tus protocol this client speaks; its value is not in the modelled files. `DefaultSessionIdentifier` is the fallback written at `TUSKit/Classes/TUSExecutor.swift:174`.
- `TUSClientStatus.swift` and `TUSSession.swift` are not part of this model. The gate has three cases, and a stored raw string no case matches (read as nil) is not modelled.
- Uploads keep `filePathURL` and `uploadLocationURL` as their absolute strings, as the stored fields do, without URL parsing.
- TusPartialUploadState.LocalFileURL: returns the store path and `localFile` concatenated as a string, in place of the file URL that `URL(fileURLWithPath:)` builds from them.
- Concatenation and termination: the fields exist and are carried through encoding, but there is no logic for them to model.
- The progress callback, `get` and `getFile`, and the unused `retries` parameter.
- `TUSConfig`'s convenience initializer, which only parses a URL string.
- `TUSClient.setup` and its fatal error: the client is built from its configuration values.
- Integer widths: Swift's 64-bit `Int` and `UInt64` are unbounded integers. The exceptions are `UInt64` parsing (`ParseUInt64`) and the `Int` product of a chunk (`ValueFits`), which are modelled where they can fail.
- TusUpload.Upload.EncodedMetadata: Swift dictionary order is unspecified, so the result is the join in SOME enumeration of the keys, returned as a ghost `order`, not one fixed order.
- TusClient.Client.ResumeAll: requires a file type for every stored upload, which `createOrResume` unwraps for each of them. It also requires a location for every paused or created upload. That is a simplification: the source unwraps the location only in `retrieveOffset` (`TUSKit/Classes/TUSExecutor.swift:46`), for the one upload dispatched under a ready gate, so a list whose later paused upload has no location runs in the source but is excluded here. It states only gate, request-count and id-preservation facts, not which upload was resumed.
- TusClient.Client.RetryAll: requires every stored upload to be able to send its chunk, and no staged name to contain `/`. The source unwraps each step; the `/` condition keeps one upload's chunk file apart from another's staged file.
- TusClient.Client.CleanUpAll: requires a file type for every stored upload, which `cleanUp(forUpload:)` unwraps.
- TusClient.Client.FinishUpload: when another upload remains, it states only that at most one request is issued and that the remaining ids keep their positions, not which request that is nor the files and directories after the next upload's staging. After the `Success` event it states only that at most one `Failure` event follows, from resuming the next upload.
- TusClient.Client.CompletePatch: with chunks left, it states the offset, the request and the untouched remainder, not the new task id list of the first upload. `ContinueFromOffset` states that list. After the last chunk with another upload left, it states the files and directories no more than `FinishUpload` does.
- TusClient.Client.PatchFinished: with another upload left, it states the same as `FinishUpload`, and no more.
- TusClient.Client.StartCreation: it states the POST's method and URL; `Create` states its headers.
