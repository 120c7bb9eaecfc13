/**
 * TUSClient together with the request-issuing half of TUSExecutor. Both are
 * singletons that call each other, so their state is one class: the
 * persisted upload list and gate, the executor's custom headers, the file
 * store, and the transport seen as a log of issued requests and delegate
 * events. Stored uploads are records; every read of the list yields fresh
 * `Upload` objects built from them, as decoding the persisted list does.
 */
module TusClient {
  import opened Wrappers
  import opened Decimal
  import opened TusUploadStatus
  import opened TusUpload
  import opened TusExecutor

  /** The single-flight gate. Its file is not part of this model; these are its three cases. */
  datatype ClientStatus = Ready | Uploading | RetrieveCapabilities

  /** A request handed to the session: method, URL, headers, task identifier, body file. */
  datatype Request = Request(verb: Verb, url: string, headers: Headers, taskId: string, bodyFile: Option<string>)

  /** An HTTP response, with header names already upper-cased. */
  datatype Response = Response(statusCode: int, headers: Headers)

  /** A delegate callback: `TUSSuccess` with the upload, or `TUSFailure` with an optional upload and the response's message. */
  datatype DelegateEvent =
    | Success(upload: UploadRecord)
    | Failure(failed: Option<UploadRecord>, message: string)

  /** The message `moveFile` reports when the file at `location` cannot be moved to the stored name `name`. */
  function MoveFailureMessage(location: string, name: string): (m: string)
    ensures |m| == 46 + |location| + |name|
    ensures m[19..19 + |location|] == location
    ensures m[23 + |location|..23 + |location| + |name|] == name
  {
    "Failed moving file " + location + " to " + name + " for TUS folder storage"
  }

  type Files = map<string, seq<byte>>

  datatype ClientState = ClientState(
    uploads: seq<UploadRecord>, gate: Option<ClientStatus>, executorHeaders: Headers,
    files: Files, dirs: set<string>, external: Files, tasksCreated: nat,
    issued: seq<Request>, cancelled: seq<SessionTask>, events: seq<DelegateEvent>)

  function Lookup(h: Headers, key: string): Option<string> {
    if key in h then Some(h[key]) else None
  }

  /** `fileExists(withName:)`: a file or a directory of that name in the store. */
  predicate ExistsIn(files: Files, dirs: set<string>, name: string) {
    name in files || name in dirs
  }

  /** `sizeForLocalFilePath`: the size, or 0 when there is no such file. */
  function SizeIn(files: Files, name: string): nat {
    if name in files then |files[name]| else 0
  }

  predicate IsUnder(path: string, dir: string) {
    |path| > |dir| && path[..|dir| + 1] == dir + "/"
  }

  /** `deleteFile(withName:)` on the files: the item and, for a directory, all beneath it. */
  function DeleteItem(files: Files, name: string): (rest: Files)
    ensures forall k :: k in rest <==> k in files && k != name && !IsUnder(k, name)
    ensures forall k :: k in rest ==> rest[k] == files[k]
  {
    map k | k in files && k != name && !IsUnder(k, name) :: files[k]
  }

  function DeleteDir(dirs: set<string>, name: string): (rest: set<string>)
    ensures forall d :: d in rest <==> d in dirs && d != name && !IsUnder(d, name)
  {
    set d | d in dirs && d != name && !IsUnder(d, name)
  }

  /** Whether cleaning up `r` deletes the store entry `k`: its staged file, its chunk directory, or anything beneath them. */
  predicate RemovedBy(k: string, r: UploadRecord)
    requires r.fileType.Some?
  {
    var staged := StagedName(r.id, r.fileType.value);
    k == staged || IsUnder(k, staged) || k == r.id || IsUnder(k, r.id)
  }

  /** The files left once an upload's staged file and chunk directory are deleted. */
  function FilesAfterCleanUp(files: Files, r: UploadRecord): (rest: Files)
    requires r.fileType.Some?
    ensures forall k :: k in rest <==> k in files && !RemovedBy(k, r)
    ensures forall k :: k in rest ==> rest[k] == files[k]
  {
    DeleteItem(DeleteItem(files, StagedName(r.id, r.fileType.value)), r.id)
  }

  function DirsAfterCleanUp(dirs: set<string>, r: UploadRecord): (rest: set<string>)
    requires r.fileType.Some?
    ensures forall d :: d in rest <==> d in dirs && !RemovedBy(d, r)
  {
    DeleteDir(DeleteDir(dirs, StagedName(r.id, r.fileType.value)), r.id)
  }

  /** Whether no cleanup of an upload of `rs` deletes the store entry `k`. */
  predicate KeptByAll(k: string, rs: seq<UploadRecord>)
    requires forall i :: 0 <= i < |rs| ==> rs[i].fileType.Some?
  {
    forall i :: 0 <= i < |rs| ==> !RemovedBy(k, rs[i])
  }

  /** An entry survives the cleanups of `rs` when it survives all but the last and then the last. */
  lemma KeptByAllSnoc(rs: seq<UploadRecord>)
    requires |rs| > 0 && forall i :: 0 <= i < |rs| ==> rs[i].fileType.Some?
    ensures forall k :: KeptByAll(k, rs) <==> KeptByAll(k, rs[..|rs| - 1]) && !RemovedBy(k, rs[|rs| - 1])
  {
    var init := rs[..|rs| - 1];
    assert forall i :: 0 <= i < |init| ==> init[i] == rs[i];
  }

  /** The files left once each upload of `rs` is cleaned up, in order. */
  function FilesAfterCleanUps(files: Files, rs: seq<UploadRecord>): (rest: Files)
    requires forall i :: 0 <= i < |rs| ==> rs[i].fileType.Some?
    ensures forall k :: k in rest <==> k in files && KeptByAll(k, rs)
    ensures forall k :: k in rest ==> rest[k] == files[k]
    decreases |rs|
  {
    if |rs| == 0 then files
    else
      KeptByAllSnoc(rs);
      FilesAfterCleanUp(FilesAfterCleanUps(files, rs[..|rs| - 1]), rs[|rs| - 1])
  }

  /** The directories left once each upload of `rs` is cleaned up, in order. */
  function DirsAfterCleanUps(dirs: set<string>, rs: seq<UploadRecord>): (rest: set<string>)
    requires forall i :: 0 <= i < |rs| ==> rs[i].fileType.Some?
    ensures forall d :: d in rest <==> d in dirs && KeptByAll(d, rs)
    decreases |rs|
  {
    if |rs| == 0 then dirs
    else
      KeptByAllSnoc(rs);
      DirsAfterCleanUp(DirsAfterCleanUps(dirs, rs[..|rs| - 1]), rs[|rs| - 1])
  }

  // ---------------------------------------------------------------------
  // Replace-by-id persistence

  /** `updateUpload`: the first upload with the same id is replaced. */
  function ReplaceFirstWithId(uploads: seq<UploadRecord>, r: UploadRecord): (result: seq<UploadRecord>)
    requires HasId(uploads, r.id)
    ensures UploadIndexForId(uploads, r.id).Some?
    ensures |result| == |uploads|
    ensures forall j :: 0 <= j < |uploads| ==> result[j].id == uploads[j].id
    ensures result[UploadIndexForId(uploads, r.id).value] == r
    ensures forall j :: 0 <= j < |uploads| && j != UploadIndexForId(uploads, r.id).value ==> result[j] == uploads[j]
  {
    HasIdIndex(uploads, r.id);
    uploads[UploadIndexForId(uploads, r.id).value := r]
  }

  /** Every stored id stays at its position (the list may grow at the end). */
  predicate KeepsIds(before: seq<UploadRecord>, after: seq<UploadRecord>) {
    |before| <= |after| && forall j :: 0 <= j < |before| ==> after[j].id == before[j].id
  }

  /** Two lists with the same ids position by position find the same first index for any id. */
  lemma {:induction false} SameIdsSameIndex(a: seq<UploadRecord>, b: seq<UploadRecord>, id: string)
    requires |a| == |b| && forall j :: 0 <= j < |a| ==> a[j].id == b[j].id
    ensures UploadIndexForId(a, id) == UploadIndexForId(b, id)
  {
    if a != [] {
      SameIdsSameIndex(a[1..], b[1..], id);
    }
  }

  /** Replacing keeps exactly the same set of ids present. */
  lemma ReplaceKeepsIds(uploads: seq<UploadRecord>, r: UploadRecord, id: string)
    requires HasId(uploads, r.id)
    ensures HasId(ReplaceFirstWithId(uploads, r), id) <==> HasId(uploads, id)
  {
    var result := ReplaceFirstWithId(uploads, r);
    if HasId(uploads, id) {
      var j :| 0 <= j < |uploads| && uploads[j].id == id;
      assert result[j].id == id;
    }
    if HasId(result, id) {
      var j :| 0 <= j < |result| && result[j].id == id;
      assert uploads[j].id == id;
    }
  }

  /** Persisting twice under one id is persisting the second version. */
  lemma ReplaceTwice(uploads: seq<UploadRecord>, a: UploadRecord, b: UploadRecord)
    requires HasId(uploads, a.id) && b.id == a.id
    ensures HasId(ReplaceFirstWithId(uploads, a), b.id)
    ensures ReplaceFirstWithId(ReplaceFirstWithId(uploads, a), b) == ReplaceFirstWithId(uploads, b)
  {
    var once := ReplaceFirstWithId(uploads, a);
    ReplaceKeepsIds(uploads, a, b.id);
    SameIdsSameIndex(once, uploads, b.id);
  }

  /** Appending keeps every id and adds the new record's. */
  lemma AppendKeepsIds(uploads: seq<UploadRecord>, r: UploadRecord)
    ensures HasId(uploads + [r], r.id)
    ensures forall id :: HasId(uploads, id) ==> HasId(uploads + [r], id)
  {
    assert (uploads + [r])[|uploads|] == r;
    forall id | HasId(uploads, id)
      ensures HasId(uploads + [r], id)
    {
      var j :| 0 <= j < |uploads| && uploads[j].id == id;
      assert (uploads + [r])[j] == uploads[j];
    }
  }

  /** What `cancel` persists: status `canceled` through the status observer. */
  function CanceledRecord(r: UploadRecord): UploadRecord {
    r.(status := Some(Canceled), prevStatus := PrevStatusAfter(r.status, r.prevStatus))
  }

  /** Cancelling an already cancelled record changes nothing. */
  lemma CancelIdempotent(r: UploadRecord)
    ensures CanceledRecord(r).status == Some(Canceled)
    ensures CanceledRecord(CanceledRecord(r)) == CanceledRecord(r)
  {
  }

  /**
   * `cancelAll` after `k` of its iterations over `snapshot`: the records
   * that come first with their id, among the first `k`, are cancelled.
   */
  ghost predicate CanceledBefore(uploads: seq<UploadRecord>, snapshot: seq<UploadRecord>, k: nat) {
    && |uploads| == |snapshot|
    && (forall i :: 0 <= i < |snapshot| ==> uploads[i].id == snapshot[i].id)
    && (forall i :: 0 <= i < |snapshot| ==>
          uploads[i] == (if UploadIndexForId(snapshot, snapshot[i].id) == Some(i) && i < k
                         then CanceledRecord(snapshot[i]) else snapshot[i]))
  }

  /** One iteration of `cancelAll`: cancelling the k-th record's id advances the state. */
  lemma CancelStep(uploads: seq<UploadRecord>, snapshot: seq<UploadRecord>, k: nat)
    requires k < |snapshot| && CanceledBefore(uploads, snapshot, k)
    ensures UploadIndexForId(uploads, snapshot[k].id).Some?
    ensures var i := UploadIndexForId(uploads, snapshot[k].id).value;
            CanceledBefore(uploads[i := CanceledRecord(uploads[i])], snapshot, k + 1)
  {
    var id := snapshot[k].id;
    SameIdsSameIndex(uploads, snapshot, id);
    HasIdIndex(snapshot, id);
    assert HasId(snapshot, id);
    var p := UploadIndexForId(snapshot, id).value;
    assert p <= k;
    CancelIdempotent(snapshot[p]);
    var next := uploads[p := CanceledRecord(uploads[p])];
    forall i | 0 <= i < |snapshot|
      ensures next[i] == (if UploadIndexForId(snapshot, snapshot[i].id) == Some(i) && i < k + 1
                          then CanceledRecord(snapshot[i]) else snapshot[i])
    {
      if i == p {
        assert snapshot[i].id == id;
      } else if i == k {
        assert snapshot[i].id == id;
      }
    }
  }

  // ---------------------------------------------------------------------
  // What the source's force unwraps and fatal errors demand

  /**
   * The demands of `upload(forUpload:)` on an upload: a file type, a
   * location and an offset that parses to a multiple of the (non-zero)
   * chunk size, a staged file at least that long, and a place for the
   * chunk directory.
   */
  predicate CanUpload(r: UploadRecord, chunkSize: nat, files: Files, dirs: set<string>) {
    && chunkSize > 0
    && r.fileType.Some? && r.uploadLocation.Some? && r.uploadOffset.Some?
    && ParseUInt64(r.uploadOffset.value).Some?
    && ParseUInt64(r.uploadOffset.value).value % chunkSize == 0
    && StagedName(r.id, r.fileType.value) in files
    && ParseUInt64(r.uploadOffset.value).value <= |files[StagedName(r.id, r.fileType.value)]|
    && (r.id in dirs || r.id !in files)
  }

  /**
   * Writing one upload's chunk file, and creating its chunk directory,
   * leaves any other upload whose staged name has no `/` able to send its
   * chunk.
   */
  lemma ChunkWriteKeepsCanUpload(done: UploadRecord, other: UploadRecord, chunkSize: nat,
                                 files: Files, dirs: set<string>, chunk: seq<byte>)
    requires CanUpload(done, chunkSize, files, dirs) && CanUpload(other, chunkSize, files, dirs)
    requires '/' !in StagedName(other.id, other.fileType.value)
    ensures CanUpload(other, chunkSize,
                      files[ChunkPath(done.id, CurrentChunkNumber(done.uploadOffset, chunkSize) + 1) := chunk],
                      dirs + {done.id})
  {
    var staged := StagedName(other.id, other.fileType.value);
    var position := CurrentChunkNumber(done.uploadOffset, chunkSize) + 1;
    ChunkPathIsNotStaged(done.id, position, staged);
    forall p | 0 <= p < |other.id|
      ensures other.id[p] != '/'
    {
      assert staged[p] == other.id[p];
    }
    ChunkPathIsNotStaged(done.id, position, other.id);
  }

  /** `retryAll` can send the chunks of `snapshot[i..]`, and no staged name has a `/`. */
  ghost predicate RetryReady(snapshot: seq<UploadRecord>, i: nat, chunkSize: nat, files: Files, dirs: set<string>) {
    && (forall j :: 0 <= j < |snapshot| ==>
          snapshot[j].fileType.Some? && '/' !in StagedName(snapshot[j].id, snapshot[j].fileType.value))
    && (forall j :: i <= j < |snapshot| ==> CanUpload(snapshot[j], chunkSize, files, dirs))
  }

  /** Retrying `snapshot[i]` keeps the rest of the snapshot ready. */
  lemma RetryReadyStep(snapshot: seq<UploadRecord>, i: nat, chunkSize: nat, files: Files, dirs: set<string>, chunk: seq<byte>)
    requires i < |snapshot| && RetryReady(snapshot, i, chunkSize, files, dirs)
    ensures CanUpload(snapshot[i], chunkSize, files, dirs)
    ensures RetryReady(snapshot, i + 1, chunkSize,
                       files[ChunkPath(snapshot[i].id, CurrentChunkNumber(snapshot[i].uploadOffset, chunkSize) + 1) := chunk],
                       dirs + {snapshot[i].id})
  {
    forall j | i + 1 <= j < |snapshot|
      ensures CanUpload(snapshot[j], chunkSize,
                        files[ChunkPath(snapshot[i].id, CurrentChunkNumber(snapshot[i].uploadOffset, chunkSize) + 1) := chunk],
                        dirs + {snapshot[i].id})
    {
      ChunkWriteKeepsCanUpload(snapshot[i], snapshot[j], chunkSize, files, dirs, chunk);
    }
  }

  /** The requests from `base` on are the PATCHes of `snapshot`, in order. */
  ghost predicate PatchesFor(issued: seq<Request>, base: nat, snapshot: seq<UploadRecord>) {
    && base <= |issued| <= base + |snapshot|
    && forall k :: base <= k < |issued| ==>
         issued[k].verb == Patch && Some(issued[k].url) == snapshot[k - base].uploadLocation
  }

  /** Appending the PATCH of the next snapshot entry extends `PatchesFor`. */
  lemma PatchesForStep(before: seq<Request>, after: seq<Request>, base: nat, snapshot: seq<UploadRecord>)
    requires PatchesFor(before, base, snapshot) && |before| < base + |snapshot|
    requires |after| == |before| + 1 && after[..|before|] == before
    requires after[|before|].verb == Patch && Some(after[|before|].url) == snapshot[|before| - base].uploadLocation
    ensures PatchesFor(after, base, snapshot)
  {
    forall k | base <= k < |after|
      ensures after[k].verb == Patch && Some(after[k].url) == snapshot[k - base].uploadLocation
    {
      if k < |before| {
        assert after[k] == after[..|before|][k];
      }
    }
  }

  /**
   * The demands of `createOrResume` under a ready gate when the file is
   * already staged: a HEAD needs the location, and both HEAD and POST
   * persist the upload, so its id must be stored.
   */
  predicate ResumeDemands(r: UploadRecord, files: Files, dirs: set<string>, uploads: seq<UploadRecord>) {
    && r.fileType.Some?
    && ((ExistsIn(files, dirs, StagedName(r.id, r.fileType.value)) && r.status in {Some(Paused), Some(Created)})
          ==> r.uploadLocation.Some?)
    && ((ExistsIn(files, dirs, StagedName(r.id, r.fileType.value)) && r.status in {Some(Paused), Some(Created), Some(New)})
          ==> HasId(uploads, r.id))
  }

  /** The request `createOrResume` dispatches for a status under a ready gate. */
  function DispatchVerb(s: Option<UploadStatus>): (v: Option<Verb>)
    ensures v == Some(Head) <==> s == Some(Paused) || s == Some(Created)
    ensures v == Some(Post) <==> s == Some(New)
    ensures v.None? <==> s !in {Some(Paused), Some(Created), Some(New)}
  {
    match s
    case Some(Paused) => Some(Head)
    case Some(Created) => Some(Head)
    case Some(New) => Some(Post)
    case _ => None
  }

  /** The status dispatch sees: staging an absent file makes the upload `new`. */
  function StatusForDispatch(existed: bool, s: Option<UploadStatus>): Option<UploadStatus> {
    if existed then s else Some(New)
  }

  /** Staging fails only when the file must be moved from a location that holds nothing. */
  predicate StagingSucceeds(existed: bool, filePath: Option<string>, external: Files) {
    existed || filePath.None? || filePath.value in external
  }

  predicate HeadCompletionDemands(r: UploadRecord, response: Response, chunkSize: nat, files: Files, dirs: set<string>) {
    response.statusCode == 200 ==>
      CanUpload(r.(uploadOffset := Lookup(response.headers, "UPLOAD-OFFSET")), chunkSize, files, dirs)
  }

  predicate PostCompletionDemands(r: UploadRecord, response: Response, resolveLocation: string -> Option<string>,
                                  chunkSize: nat, files: Files, dirs: set<string>) {
    response.statusCode == 201 ==>
      && "LOCATION" in response.headers
      && CanUpload(r.(uploadLocation := resolveLocation(response.headers["LOCATION"])), chunkSize, files, dirs)
  }

  /** What a 2xx PATCH completion unwraps of the first stored upload. */
  predicate PatchPositionDefined(r: UploadRecord, chunkSize: nat) {
    && chunkSize > 0 && r.fileType.Some? && r.uploadOffset.Some?
    && (ParseUInt64(r.uploadOffset.value).Some? ==> ParseUInt64(r.uploadOffset.value).value % chunkSize == 0)
  }

  function ChunkCountOf(r: UploadRecord, chunkSize: nat, files: Files): nat
    requires PatchPositionDefined(r, chunkSize)
  {
    NumberOfChunks(SizeIn(files, StagedName(r.id, r.fileType.value)), chunkSize)
  }

  /** There is another chunk after the one at the stored offset. */
  predicate HasNextChunk(r: UploadRecord, chunkSize: nat, files: Files)
    requires PatchPositionDefined(r, chunkSize)
  {
    CurrentChunkNumber(r.uploadOffset, chunkSize) + 1 < ChunkCountOf(r, chunkSize, files)
  }

  /** The chunk at the stored offset was the last one and the server answered 204. */
  predicate IsFinalChunk(r: UploadRecord, response: Response, chunkSize: nat, files: Files)
    requires PatchPositionDefined(r, chunkSize)
  {
    response.statusCode == 204 && CurrentChunkNumber(r.uploadOffset, chunkSize) + 1 == ChunkCountOf(r, chunkSize, files)
  }

  predicate PatchCompletionDemands(uploads: seq<UploadRecord>, taskId: string, response: Response,
                                   chunkSize: nat, files: Files, dirs: set<string>)
    requires |uploads| > 0
  {
    200 <= response.statusCode < 300 ==>
      && PatchPositionDefined(uploads[0], chunkSize)
      && (HasNextChunk(uploads[0], chunkSize, files) ==>
            && taskId in uploads[0].currentSessionTasksId
            && CanUpload(uploads[0].(uploadOffset := Lookup(response.headers, "UPLOAD-OFFSET")), chunkSize, files, dirs))
      && (IsFinalChunk(uploads[0], response, chunkSize, files) ==>
            && taskId in uploads[0].currentSessionTasksId
            && uploads[0].uploadLocation.Some?
            && (|uploads| > 1 ==>
                  ResumeDemands(uploads[1], FilesAfterCleanUp(files, uploads[0]),
                                DirsAfterCleanUp(dirs, uploads[0]), uploads[1..])))
  }

  // ---------------------------------------------------------------------

  class Client {
    const uploadURL: string
    /** The session configuration's identifier. */
    const sessionIdentifier: Option<string>
    /** Base64 of a metadata value (section 4 of RFC 4648), a parameter of the client. */
    const toBase64: string -> string
    /** The description Foundation gives the n-th session task created. */
    const describeTask: nat -> string
    /** `URL(string:relativeTo: uploadURL)` of a `Location` value. */
    const resolveLocation: string -> Option<string>

    var chunkSize: nat
    /** The persisted `currentUploads`. */
    var uploads: seq<UploadRecord>
    /** The persisted gate; nothing stored reads as `ready`. */
    var gate: Option<ClientStatus>
    /** The executor's `customHeaders`. */
    var executorHeaders: Headers
    /** The files of the store, by name relative to the store path. */
    var files: Files
    /** The chunk directories of the store. */
    var dirs: set<string>
    /** Files outside the store, by path, that staging moves in. */
    var external: Files
    var tasksCreated: nat
    var issued: seq<Request>
    /** The session tasks on which the cancel callback called `cancel()`. */
    var cancelled: seq<SessionTask>
    var events: seq<DelegateEvent>

    function State(): ClientState
      reads this
    {
      ClientState(uploads, gate, executorHeaders, files, dirs, external, tasksCreated, issued, cancelled, events)
    }

    /** `status`: the stored gate, `ready` when nothing is stored. */
    function Status(): (s: ClientStatus)
      reads this
      ensures gate.None? ==> s == ClientStatus.Ready
      ensures gate.Some? ==> s == gate.value
    {
      gate.GetOr(ClientStatus.Ready)
    }

    function Exists(name: string): bool
      reads this
    {
      ExistsIn(files, dirs, name)
    }

    /**
     * `init`: the stored upload list is kept, an absent one becomes empty;
     * the chunk size starts at its configured default.
     */
    constructor (uploadURL: string, sessionIdentifier: Option<string>, toBase64: string -> string,
                 describeTask: nat -> string, resolveLocation: string -> Option<string>,
                 defaultChunkSize: nat, stored: Option<seq<UploadRecord>>, storedGate: Option<ClientStatus>,
                 files: Files, dirs: set<string>, external: Files)
      ensures this.uploadURL == uploadURL && this.sessionIdentifier == sessionIdentifier
      ensures this.toBase64 == toBase64 && this.describeTask == describeTask
      ensures this.resolveLocation == resolveLocation
      ensures chunkSize == defaultChunkSize && uploads == stored.GetOr([]) && gate == storedGate
      ensures executorHeaders == map[] && this.files == files && this.dirs == dirs && this.external == external
      ensures tasksCreated == 0 && issued == [] && cancelled == [] && events == []
    {
      this.uploadURL := uploadURL;
      this.sessionIdentifier := sessionIdentifier;
      this.toBase64 := toBase64;
      this.describeTask := describeTask;
      this.resolveLocation := resolveLocation;
      chunkSize := defaultChunkSize;
      uploads := stored.GetOr([]);
      gate := storedGate;
      executorHeaders := map[];
      this.files := files;
      this.dirs := dirs;
      this.external := external;
      tasksCreated := 0;
      issued := [];
      cancelled := [];
      events := [];
    }

    /** `resetState(to:)`. */
    method ResetState(s: ClientStatus)
      modifies this`gate
      ensures Status() == s
    {
      gate := Some(s);
    }

    /** `updateUpload`: the id must be stored (force unwrap). */
    method UpdateUpload(upload: Upload)
      requires HasId(uploads, upload.id)
      modifies this`uploads
      ensures uploads == ReplaceFirstWithId(old(uploads), upload.Record())
    {
      HasIdIndex(uploads, upload.id);
      var i := UploadIndexForId(uploads, upload.id).value;
      uploads := uploads[i := upload.Record()];
    }

    /** A new session task and its `identifierForTask`. */
    method NextTaskId() returns (taskId: string)
      modifies this`tasksCreated
      ensures tasksCreated == old(tasksCreated) + 1
      ensures taskId == IdentifierForTask(sessionIdentifier, describeTask(old(tasksCreated)))
    {
      taskId := IdentifierForTask(sessionIdentifier, describeTask(tasksCreated));
      tasksCreated := tasksCreated + 1;
    }

    /** `currentSessionTasksId.append` and `updateUpload`. */
    method AddTask(upload: Upload, taskId: string)
      requires HasId(uploads, upload.id)
      modifies upload`currentSessionTasksId, this`uploads
      ensures upload.currentSessionTasksId == old(upload.currentSessionTasksId) + [taskId]
      ensures uploads == ReplaceFirstWithId(old(uploads), upload.Record())
    {
      upload.currentSessionTasksId := upload.currentSessionTasksId + [taskId];
      UpdateUpload(upload);
    }

    /** `retrieveOffset`: a HEAD to the upload's location; its task id is persisted before it is issued. */
    method RetrieveOffset(upload: Upload) returns (taskId: string)
      requires upload.uploadLocation.Some? && HasId(uploads, upload.id)
      modifies upload`currentSessionTasksId, this`uploads, this`tasksCreated, this`issued
      ensures taskId == IdentifierForTask(sessionIdentifier, describeTask(old(tasksCreated)))
      ensures tasksCreated == old(tasksCreated) + 1
      ensures upload.currentSessionTasksId == old(upload.currentSessionTasksId) + [taskId]
      ensures uploads == ReplaceFirstWithId(old(uploads), upload.Record())
      ensures issued == old(issued) + [Request(Head, upload.uploadLocation.value, HeadHeaders(executorHeaders), taskId, None)]
    {
      var headers := HeadHeaders(executorHeaders);
      taskId := NextTaskId();
      AddTask(upload, taskId);
      issued := issued + [Request(Head, upload.uploadLocation.value, headers, taskId, None)];
    }

    /**
     * The POST `create` builds: the upload length (force unwrap) and the
     * encoded metadata, which stores `filename`.
     */
    method PostRequest(upload: Upload, taskId: string) returns (request: Request, ghost order: seq<string>)
      requires upload.uploadLength.Some?
      modifies upload`metadata
      ensures upload.metadata == old(upload.metadata)["filename" := upload.id]
      ensures Enumerates(order, upload.metadata.Keys)
      ensures forall i :: 0 <= i < |order| ==> order[i] in upload.metadata
      ensures request == Request(Post, uploadURL,
                PostHeaders(upload.uploadLength.value, MetadataString(order, upload.metadata, toBase64), executorHeaders),
                taskId, None)
    {
      var encoded;
      encoded, order := upload.EncodedMetadata(toBase64);
      var headers := PostHeaders(upload.uploadLength.value, encoded, executorHeaders);
      request := Request(Post, uploadURL, headers, taskId, None);
    }

    /** `create`: a POST to the client's upload URL; its task id is persisted before it is issued. */
    method Create(upload: Upload) returns (taskId: string, ghost order: seq<string>)
      requires upload.uploadLength.Some? && HasId(uploads, upload.id)
      modifies upload`metadata, upload`currentSessionTasksId, this`uploads, this`tasksCreated, this`issued
      ensures upload.metadata == old(upload.metadata)["filename" := upload.id]
      ensures Enumerates(order, upload.metadata.Keys)
      ensures forall i :: 0 <= i < |order| ==> order[i] in upload.metadata
      ensures taskId == IdentifierForTask(sessionIdentifier, describeTask(old(tasksCreated)))
      ensures tasksCreated == old(tasksCreated) + 1
      ensures upload.currentSessionTasksId == old(upload.currentSessionTasksId) + [taskId]
      ensures uploads == ReplaceFirstWithId(old(uploads), upload.Record())
      ensures issued == old(issued) + [Request(Post, uploadURL,
                PostHeaders(upload.uploadLength.value, MetadataString(order, upload.metadata, toBase64), executorHeaders),
                taskId, None)]
    {
      taskId := NextTaskId();
      var request;
      request, order := PostRequest(upload, taskId);
      AddTask(upload, taskId);
      issued := issued + [request];
    }

    /**
     * `getChunkData`: the size of a missing staged file counts as 0, the
     * offset must not exceed the size (unsigned subtraction), and a file
     * that cannot be opened gives nil.
     */
    method GetChunkData(upload: Upload, offset: nat) returns (data: Option<seq<byte>>)
      requires upload.fileType.Some?
      requires offset <= SizeIn(files, StagedName(upload.id, upload.fileType.value))
      ensures StagedName(upload.id, upload.fileType.value) !in files ==> data.None?
      ensures StagedName(upload.id, upload.fileType.value) in files ==>
                data == Some(ChunkAt(files[StagedName(upload.id, upload.fileType.value)], offset, chunkSize))
    {
      var name := StagedName(upload.id, upload.fileType.value);
      if name in files {
        data := Some(ChunkAt(files[name], offset, chunkSize));
      } else {
        data := None;
      }
    }

    /**
     * `writeChunk`: creates the chunk directory unless something of that
     * name exists, then writes the chunk as `<id>/<position + 1>`; the
     * write fails, giving nil, when there is no such directory.
     */
    method WriteChunk(upload: Upload, data: seq<byte>) returns (path: Option<string>)
      requires upload.uploadOffset.Some? && chunkSize > 0
      requires ParseUInt64(upload.uploadOffset.value).Some? ==> ParseUInt64(upload.uploadOffset.value).value % chunkSize == 0
      modifies this`files, this`dirs
      ensures dirs == old(dirs) + (if old(Exists(upload.id)) then {} else {upload.id})
      ensures upload.id in dirs ==> path == Some(ChunkPath(upload.id, CurrentChunkNumber(upload.uploadOffset, chunkSize) + 1))
      ensures upload.id in dirs ==> files == old(files)[path.value := data]
      ensures upload.id !in dirs ==> path.None? && files == old(files)
    {
      if !Exists(upload.id) {
        dirs := dirs + {upload.id};
      }
      var chunkPath := ChunkPath(upload.id, CurrentChunkNumber(upload.uploadOffset, chunkSize) + 1);
      if upload.id in dirs {
        files := files[chunkPath := data];
        path := Some(chunkPath);
      } else {
        path := None;
      }
    }

    /**
     * The first half of `upload(forUpload:)`: the chunk at the stored offset,
     * read from the staged file and written as a chunk file.
     */
    method StageChunk(upload: Upload) returns (chunk: seq<byte>, path: string)
      requires CanUpload(upload.Record(), chunkSize, files, dirs)
      modifies this`files, this`dirs
      ensures chunk == ChunkAt(old(files)[StagedName(upload.id, upload.fileType.value)],
                               ParseUInt64(upload.uploadOffset.value).value, chunkSize)
      ensures path == ChunkPath(upload.id, CurrentChunkNumber(upload.uploadOffset, chunkSize) + 1)
      ensures files == old(files)[path := chunk]
      ensures dirs == old(dirs) + {upload.id}
    {
      var offset := ParseUInt64(upload.uploadOffset.GetOr("0")).value;
      var data := GetChunkData(upload, offset);
      chunk := data.value;
      var chunkFile := WriteChunk(upload, chunk);
      path := chunkFile.value;
    }

    /**
     * The PATCH `upload(forUpload:)` builds for a staged chunk: the encoded
     * metadata (which stores `filename`) and the chunk's headers.
     */
    method PatchRequest(upload: Upload, chunk: seq<byte>, path: string, taskId: string)
      returns (request: Request, ghost order: seq<string>)
      requires upload.uploadLocation.Some? && upload.uploadOffset.Some?
      modifies upload`metadata
      ensures upload.metadata == old(upload.metadata)["filename" := upload.id]
      ensures Enumerates(order, upload.metadata.Keys)
      ensures forall i :: 0 <= i < |order| ==> order[i] in upload.metadata
      ensures request == Request(Patch, upload.uploadLocation.value,
                PatchHeaders(|chunk|, upload.uploadOffset.value, MetadataString(order, upload.metadata, toBase64), executorHeaders),
                taskId, Some(path))
    {
      var encoded;
      encoded, order := upload.EncodedMetadata(toBase64);
      var headers := PatchHeaders(|chunk|, upload.uploadOffset.value, encoded, executorHeaders);
      request := Request(Patch, upload.uploadLocation.value, headers, taskId, Some(path));
    }

    /** The bookkeeping of `upload(forUpload:)`: status `uploading`, persisted, then the task id, persisted. */
    method StartTask(upload: Upload, taskId: string)
      requires HasId(uploads, upload.id)
      modifies upload`currentSessionTasksId, upload`status, upload`prevStatus, this`uploads
      ensures upload.status == Some(UploadStatus.Uploading)
      ensures upload.prevStatus == PrevStatusAfter(old(upload.status), old(upload.prevStatus))
      ensures upload.currentSessionTasksId == old(upload.currentSessionTasksId) + [taskId]
      ensures uploads == ReplaceFirstWithId(old(uploads), upload.Record())
    {
      upload.SetStatus(Some(UploadStatus.Uploading));
      UpdateUpload(upload);
      ghost var first := upload.Record();
      AddTask(upload, taskId);
      ReplaceTwice(old(uploads), first, upload.Record());
    }

    /**
     * The second half of `upload(forUpload:)`: a new task for the staged
     * chunk file, the status set to `uploading` and persisted, the task id
     * appended and persisted, and the PATCH issued.
     */
    method IssuePatch(upload: Upload, chunk: seq<byte>, path: string) returns (taskId: string, ghost order: seq<string>)
      requires upload.uploadLocation.Some? && upload.uploadOffset.Some?
      requires HasId(uploads, upload.id)
      modifies upload`metadata, upload`currentSessionTasksId, upload`status, upload`prevStatus
      modifies this`uploads, this`tasksCreated, this`issued
      ensures upload.status == Some(UploadStatus.Uploading)
      ensures upload.prevStatus == PrevStatusAfter(old(upload.status), old(upload.prevStatus))
      ensures upload.metadata == old(upload.metadata)["filename" := upload.id]
      ensures Enumerates(order, upload.metadata.Keys)
      ensures forall i :: 0 <= i < |order| ==> order[i] in upload.metadata
      ensures taskId == IdentifierForTask(sessionIdentifier, describeTask(old(tasksCreated)))
      ensures tasksCreated == old(tasksCreated) + 1
      ensures upload.currentSessionTasksId == old(upload.currentSessionTasksId) + [taskId]
      ensures uploads == ReplaceFirstWithId(old(uploads), upload.Record())
      ensures issued == old(issued) + [Request(Patch, upload.uploadLocation.value,
                PatchHeaders(|chunk|, upload.uploadOffset.value, MetadataString(order, upload.metadata, toBase64), executorHeaders),
                taskId, Some(path))]
    {
      taskId := NextTaskId();
      var request;
      request, order := PatchRequest(upload, chunk, path, taskId);
      ghost var sent := issued + [request];
      StartTask(upload, taskId);
      issued := issued + [request];
      assert issued == sent;
    }

    /**
     * `upload(forUpload:)`: stages the chunk at the stored offset, then
     * issues the PATCH with the chunk file as its body.
     */
    method UploadChunk(upload: Upload) returns (taskId: string, chunk: seq<byte>, ghost order: seq<string>)
      requires CanUpload(upload.Record(), chunkSize, files, dirs)
      requires HasId(uploads, upload.id)
      modifies upload`metadata, upload`currentSessionTasksId, upload`status, upload`prevStatus
      modifies this`uploads, this`tasksCreated, this`issued, this`files, this`dirs
      ensures chunk == ChunkAt(old(files)[StagedName(upload.id, upload.fileType.value)],
                               ParseUInt64(upload.uploadOffset.value).value, chunkSize)
      ensures files == old(files)[ChunkPath(upload.id, CurrentChunkNumber(upload.uploadOffset, chunkSize) + 1) := chunk]
      ensures dirs == old(dirs) + {upload.id}
      ensures upload.status == Some(UploadStatus.Uploading)
      ensures upload.prevStatus == PrevStatusAfter(old(upload.status), old(upload.prevStatus))
      ensures upload.metadata == old(upload.metadata)["filename" := upload.id]
      ensures Enumerates(order, upload.metadata.Keys)
      ensures forall i :: 0 <= i < |order| ==> order[i] in upload.metadata
      ensures taskId == IdentifierForTask(sessionIdentifier, describeTask(old(tasksCreated)))
      ensures tasksCreated == old(tasksCreated) + 1
      ensures upload.currentSessionTasksId == old(upload.currentSessionTasksId) + [taskId]
      ensures uploads == ReplaceFirstWithId(old(uploads), upload.Record())
      ensures issued == old(issued) + [Request(Patch, upload.uploadLocation.value,
                PatchHeaders(|chunk|, upload.uploadOffset.value, MetadataString(order, upload.metadata, toBase64), executorHeaders),
                taskId, Some(ChunkPath(upload.id, CurrentChunkNumber(upload.uploadOffset, chunkSize) + 1)))]
    {
      var path;
      chunk, path := StageChunk(upload);
      ghost var staged := files;
      taskId, order := IssuePatch(upload, chunk, path);
      assert path == ChunkPath(upload.id, CurrentChunkNumber(upload.uploadOffset, chunkSize) + 1);
      assert files == staged;
    }

    /**
     * `upload(forUpload:)` as the client's callers depend on it: the
     * status, task ids and store it leaves, and the PATCH it appends.
     */
    method SendChunk(upload: Upload) returns (taskId: string)
      requires CanUpload(upload.Record(), chunkSize, files, dirs)
      requires HasId(uploads, upload.id)
      modifies upload`metadata, upload`currentSessionTasksId, upload`status, upload`prevStatus
      modifies this`uploads, this`tasksCreated, this`issued, this`files, this`dirs
      ensures upload.status == Some(UploadStatus.Uploading)
      ensures upload.prevStatus == PrevStatusAfter(old(upload.status), old(upload.prevStatus))
      ensures upload.metadata == old(upload.metadata)["filename" := upload.id]
      ensures upload.currentSessionTasksId == old(upload.currentSessionTasksId) + [taskId]
      ensures uploads == ReplaceFirstWithId(old(uploads), upload.Record())
      ensures |issued| == |old(issued)| + 1 && issued[..|old(issued)|] == old(issued)
      ensures issued[|old(issued)|].verb == Patch
      ensures issued[|old(issued)|].url == upload.uploadLocation.value && issued[|old(issued)|].taskId == taskId
      ensures files == old(files)[ChunkPath(upload.id, CurrentChunkNumber(upload.uploadOffset, chunkSize) + 1)
                := ChunkAt(old(files)[StagedName(upload.id, upload.fileType.value)],
                           ParseUInt64(upload.uploadOffset.value).value, chunkSize)]
      ensures dirs == old(dirs) + {upload.id}
    {
      var chunk;
      ghost var order;
      taskId, chunk, order := UploadChunk(upload);
    }

    /**
     * `retry`: `upload(forUpload:)` straight away. The chunk at the stored
     * offset is filed and sent in one PATCH whose task id is recorded.
     */
    method Retry(upload: Upload) returns (taskId: string, chunk: seq<byte>, ghost order: seq<string>)
      requires CanUpload(upload.Record(), chunkSize, files, dirs)
      requires HasId(uploads, upload.id)
      modifies upload`metadata, upload`currentSessionTasksId, upload`status, upload`prevStatus
      modifies this`uploads, this`tasksCreated, this`issued, this`files, this`dirs
      ensures chunk == ChunkAt(old(files)[StagedName(upload.id, upload.fileType.value)],
                               ParseUInt64(upload.uploadOffset.value).value, chunkSize)
      ensures files == old(files)[ChunkPath(upload.id, CurrentChunkNumber(upload.uploadOffset, chunkSize) + 1) := chunk]
      ensures dirs == old(dirs) + {upload.id}
      ensures upload.status == Some(UploadStatus.Uploading)
      ensures upload.prevStatus == PrevStatusAfter(old(upload.status), old(upload.prevStatus))
      ensures upload.metadata == old(upload.metadata)["filename" := upload.id]
      ensures Enumerates(order, upload.metadata.Keys)
      ensures forall i :: 0 <= i < |order| ==> order[i] in upload.metadata
      ensures taskId == IdentifierForTask(sessionIdentifier, describeTask(old(tasksCreated)))
      ensures tasksCreated == old(tasksCreated) + 1
      ensures upload.currentSessionTasksId == old(upload.currentSessionTasksId) + [taskId]
      ensures uploads == ReplaceFirstWithId(old(uploads), upload.Record())
      ensures issued == old(issued) + [Request(Patch, upload.uploadLocation.value,
                PatchHeaders(|chunk|, upload.uploadOffset.value, MetadataString(order, upload.metadata, toBase64), executorHeaders),
                taskId, Some(ChunkPath(upload.id, CurrentChunkNumber(upload.uploadOffset, chunkSize) + 1)))]
    {
      taskId, chunk, order := UploadChunk(upload);
    }

    /**
     * `cancel` (the executor's): when an upload with this id is stored,
     * its status becomes `canceled` and is persisted at once; the object the
     * asynchronous task callback will edit is returned as `pending`.
     */
    method Cancel(upload: Upload) returns (pending: Option<Upload>)
      modifies this`uploads
      ensures UploadIndexForId(old(uploads), upload.id).None? ==> pending.None? && uploads == old(uploads)
      ensures UploadIndexForId(old(uploads), upload.id).Some? ==>
                var i := UploadIndexForId(old(uploads), upload.id).value;
                && pending.Some? && fresh(pending.value)
                && pending.value.Record() == CanceledRecord(old(uploads)[i])
                && uploads == old(uploads)[i := CanceledRecord(old(uploads)[i])]
    {
      var index := UploadIndexForId(uploads, upload.id);
      if index.None? {
        return None;
      }
      var existing := new Upload.FromRecord(uploads[index.value]);
      existing.SetStatus(Some(Canceled));
      HasIdIndex(uploads, upload.id);
      UpdateUpload(existing);
      pending := Some(existing);
    }

    /**
     * The body of cancel's task callback, on the object `cancel` returned
     * and the session's upload tasks. It edits that object only: nothing
     * persists the ids it removes.
     */
    method CancelCallback(pending: Upload, tasks: seq<SessionTask>)
      modifies pending`currentSessionTasksId, this`cancelled
      ensures pending.currentSessionTasksId == KeepNotStopped(old(pending.currentSessionTasksId), tasks)
      ensures |cancelled| == |old(cancelled)| + |old(pending.currentSessionTasksId)| - |pending.currentSessionTasksId|
      ensures cancelled[..|old(cancelled)|] == old(cancelled)
      ensures forall c :: |old(cancelled)| <= c < |cancelled| ==> cancelled[c] in tasks && cancelled[c].running
    {
      var remaining, calls := CancelBookkeeping(pending.currentSessionTasksId, tasks);
      pending.currentSessionTasksId := remaining;
      var stopped := seq(|calls|, c requires 0 <= c < |calls| && calls[c] < |tasks| => tasks[calls[c]]);
      cancelled := cancelled + stopped;
    }

    /** `pause`: cancelling. */
    method Pause(upload: Upload) returns (pending: Option<Upload>)
      modifies this`uploads
      ensures UploadIndexForId(old(uploads), upload.id).None? ==> pending.None? && uploads == old(uploads)
      ensures UploadIndexForId(old(uploads), upload.id).Some? ==>
                var i := UploadIndexForId(old(uploads), upload.id).value;
                pending.Some? && uploads == old(uploads)[i := CanceledRecord(old(uploads)[i])]
    {
      pending := Cancel(upload);
    }

    /**
     * The staging step of `createOrResume`: when `id + fileType` is absent
     * from the store, the upload becomes `new` and is appended to the
     * stored list, then its file is moved in from `filePath` or written
     * from `data`. Only a move from a path that holds nothing fails.
     */
    method StageFile(upload: Upload) returns (ok: bool)
      requires upload.fileType.Some?
      modifies this`uploads, this`files, this`external, this`events, upload`status, upload`prevStatus
      ensures ok == StagingSucceeds(old(Exists(StagedName(upload.id, upload.fileType.value))), upload.filePath, old(external))
      ensures upload.status == StatusForDispatch(old(Exists(StagedName(upload.id, upload.fileType.value))), old(upload.status))
      ensures old(Exists(StagedName(upload.id, upload.fileType.value))) ==>
                && uploads == old(uploads) && files == old(files) && external == old(external)
                && upload.prevStatus == old(upload.prevStatus)
      ensures !old(Exists(StagedName(upload.id, upload.fileType.value))) ==>
                && upload.prevStatus == PrevStatusAfter(old(upload.status), old(upload.prevStatus))
                && uploads == old(uploads) + [upload.Record()]
                && HasId(uploads, upload.id)
      ensures (!old(Exists(StagedName(upload.id, upload.fileType.value))) && upload.filePath.Some?
                 && upload.filePath.value in old(external)) ==>
                && files == old(files)[StagedName(upload.id, upload.fileType.value) := old(external)[upload.filePath.value]]
                && external == old(external) - {upload.filePath.value}
      ensures (!old(Exists(StagedName(upload.id, upload.fileType.value))) && upload.filePath.None? && upload.data.Some?) ==>
                files == old(files)[StagedName(upload.id, upload.fileType.value) := upload.data.value]
      ensures (!old(Exists(StagedName(upload.id, upload.fileType.value))) && upload.filePath.None? && upload.data.None?) ==>
                files == old(files)
      ensures !ok ==> files == old(files) && external == old(external)
      ensures ok ==> events == old(events)
      ensures !ok ==> events == old(events)
                        + [Failure(None, MoveFailureMessage(upload.filePath.value, StagedName(upload.id, upload.fileType.value)))]
    {
      var fileName := StagedName(upload.id, upload.fileType.value);
      ok := true;
      if !Exists(fileName) {
        upload.SetStatus(Some(New));
        AppendKeepsIds(uploads, upload.Record());
        uploads := uploads + [upload.Record()];
        if upload.filePath.Some? {
          if upload.filePath.value !in external {
            events := events + [Failure(None, MoveFailureMessage(upload.filePath.value, fileName))];
            return false;
          }
          files := files[fileName := external[upload.filePath.value]];
          external := external - {upload.filePath.value};
        } else if upload.data.Some? {
          files := files[fileName := upload.data.value];
        }
      }
    }

    /**
     * The `new` case of `createOrResume`: the content length and offset
     * become "0", the upload length the staged file's size, the upload is
     * persisted and then created.
     */
    method StartCreation(upload: Upload)
      requires upload.fileType.Some? && HasId(uploads, upload.id)
      modifies upload`contentLength, upload`uploadOffset, upload`uploadLength, upload`metadata
      modifies upload`currentSessionTasksId, this`uploads, this`tasksCreated, this`issued
      ensures upload.contentLength == Some("0") && upload.uploadOffset == Some("0")
      ensures upload.uploadLength == Some(NatToString(SizeIn(files, StagedName(upload.id, upload.fileType.value))))
      ensures |issued| == |old(issued)| + 1 && issued[|old(issued)|].verb == Post && issued[|old(issued)|].url == uploadURL
      ensures uploads == ReplaceFirstWithId(old(uploads), upload.Record())
    {
      upload.contentLength := Some("0");
      upload.uploadOffset := Some("0");
      upload.uploadLength := Some(NatToString(SizeIn(files, StagedName(upload.id, upload.fileType.value))));
      UpdateUpload(upload);
      ghost var first := upload.Record();
      var taskId, order := Create(upload);
      ReplaceTwice(old(uploads), first, upload.Record());
    }

    /**
     * The dispatch step of `createOrResume`: only under a ready gate, the
     * gate becomes `uploading`, and a `paused` or `created` upload asks for
     * its offset (HEAD) while a `new` one is created (POST).
     */
    method Dispatch(upload: Upload)
      requires upload.fileType.Some?
      requires Status() == ClientStatus.Ready && upload.status in {Some(Paused), Some(Created)} ==>
                 upload.uploadLocation.Some?
      requires Status() == ClientStatus.Ready && upload.status in {Some(Paused), Some(Created), Some(New)} ==>
                 HasId(uploads, upload.id)
      modifies this`gate, this`uploads, this`tasksCreated, this`issued
      modifies upload`contentLength, upload`uploadOffset, upload`uploadLength, upload`metadata, upload`currentSessionTasksId
      ensures old(Status()) != ClientStatus.Ready ==> gate == old(gate) && issued == old(issued) && uploads == old(uploads)
      ensures old(Status()) == ClientStatus.Ready ==> gate == Some(ClientStatus.Uploading)
      ensures KeepsIds(old(uploads), uploads) && |uploads| == |old(uploads)|
      ensures old(Status()) == ClientStatus.Ready ==>
                && |issued| == |old(issued)| + (if DispatchVerb(upload.status).Some? then 1 else 0)
                && (DispatchVerb(upload.status).Some? ==> issued[|old(issued)|].verb == DispatchVerb(upload.status).value)
                && (DispatchVerb(upload.status) == Some(Post) ==>
                      && issued[|old(issued)|].url == uploadURL
                      && upload.contentLength == Some("0") && upload.uploadOffset == Some("0")
                      && upload.uploadLength == Some(NatToString(SizeIn(files, StagedName(upload.id, upload.fileType.value)))))
    {
      if Status() == ClientStatus.Ready {
        gate := Some(ClientStatus.Uploading);
        if upload.status == Some(Paused) || upload.status == Some(Created) {
          var taskId := RetrieveOffset(upload);
        } else if upload.status == Some(New) {
          StartCreation(upload);
        }
      }
    }

    /**
     * `createOrResume`: sets the executor's custom headers, stages the
     * file, and when staging did not fail dispatches the upload.
     */
    method CreateOrResume(upload: Upload, headers: Headers := map[])
      requires upload.fileType.Some?
      requires Status() == ClientStatus.Ready ==> ResumeDemands(upload.Record(), files, dirs, uploads)
      modifies this`executorHeaders, this`uploads, this`files, this`external, this`gate
      modifies this`tasksCreated, this`issued, this`events
      modifies upload`status, upload`prevStatus, upload`contentLength, upload`uploadOffset
      modifies upload`uploadLength, upload`metadata, upload`currentSessionTasksId
      ensures executorHeaders == headers
      ensures StagingSucceeds(old(Exists(StagedName(upload.id, upload.fileType.value))), upload.filePath, old(external)) ==>
                events == old(events)
      ensures !StagingSucceeds(old(Exists(StagedName(upload.id, upload.fileType.value))), upload.filePath, old(external)) ==>
                events == old(events)
                  + [Failure(None, MoveFailureMessage(upload.filePath.value, StagedName(upload.id, upload.fileType.value)))]
      ensures KeepsIds(old(uploads), uploads)
      ensures old(Status()) != ClientStatus.Ready ==> gate == old(gate) && issued == old(issued)
      ensures Status() == ClientStatus.Ready ==> issued == old(issued)
      ensures !StagingSucceeds(old(Exists(StagedName(upload.id, upload.fileType.value))), upload.filePath, old(external)) ==>
                gate == old(gate) && issued == old(issued)
      ensures (old(Status()) == ClientStatus.Ready
                 && StagingSucceeds(old(Exists(StagedName(upload.id, upload.fileType.value))), upload.filePath, old(external))) ==>
                gate == Some(ClientStatus.Uploading)
      ensures var s := StatusForDispatch(old(Exists(StagedName(upload.id, upload.fileType.value))), old(upload.status));
              (old(Status()) == ClientStatus.Ready
                 && StagingSucceeds(old(Exists(StagedName(upload.id, upload.fileType.value))), upload.filePath, old(external))) ==>
                && |issued| == |old(issued)| + (if DispatchVerb(s).Some? then 1 else 0)
                && (DispatchVerb(s).Some? ==> issued[|old(issued)|].verb == DispatchVerb(s).value)
                && (DispatchVerb(s) == Some(Post) ==>
                      && issued[|old(issued)|].url == uploadURL
                      && upload.contentLength == Some("0") && upload.uploadOffset == Some("0")
                      && upload.uploadLength == Some(NatToString(SizeIn(files, StagedName(upload.id, upload.fileType.value)))))
      ensures !old(Exists(StagedName(upload.id, upload.fileType.value))) ==>
                |uploads| == |old(uploads)| + 1 && uploads[|old(uploads)|].id == upload.id
      ensures old(Exists(StagedName(upload.id, upload.fileType.value))) ==> |uploads| == |old(uploads)|
      ensures old(Exists(StagedName(upload.id, upload.fileType.value))) ==> files == old(files) && external == old(external)
      ensures (!old(Exists(StagedName(upload.id, upload.fileType.value))) && upload.filePath.Some?
                 && upload.filePath.value in old(external)) ==>
                && files == old(files)[StagedName(upload.id, upload.fileType.value) := old(external)[upload.filePath.value]]
                && external == old(external) - {upload.filePath.value}
      ensures (!old(Exists(StagedName(upload.id, upload.fileType.value))) && upload.filePath.None? && upload.data.Some?) ==>
                files == old(files)[StagedName(upload.id, upload.fileType.value) := upload.data.value]
    {
      executorHeaders := headers;
      var ok := StageFile(upload);
      if ok {
        Dispatch(upload);
      }
    }

    /** `cleanUp(forUpload:)`: drops the FIRST stored upload whatever its id, then deletes the upload's files. */
    method CleanUp(upload: Upload)
      requires upload.fileType.Some? && |uploads| > 0
      modifies this`uploads, this`files, this`dirs
      ensures uploads == old(uploads)[1..]
      ensures files == FilesAfterCleanUp(old(files), upload.Record())
      ensures dirs == DirsAfterCleanUp(old(dirs), upload.Record())
      ensures StagedName(upload.id, upload.fileType.value) !in files && upload.id !in files && upload.id !in dirs
    {
      var fileName := StagedName(upload.id, upload.fileType.value);
      uploads := uploads[1..];
      files := DeleteItem(files, fileName);
      dirs := DeleteDir(dirs, fileName);
      files := DeleteItem(files, upload.id);
      dirs := DeleteDir(dirs, upload.id);
    }

    // ---------------------------------------------------------------------
    // The completion handler

    /**
     * The step the HEAD (200) and PATCH (2xx, more chunks to send)
     * completions share: store the server's offset, drop the finished task
     * id, persist, and upload the chunk at the new offset.
     */
    method ContinueFromOffset(current: Upload, taskId: string, response: Response)
      requires HasId(uploads, current.id) && taskId in current.currentSessionTasksId
      requires CanUpload(current.Record().(uploadOffset := Lookup(response.headers, "UPLOAD-OFFSET")), chunkSize, files, dirs)
      modifies current`uploadOffset, current`currentSessionTasksId, current`metadata, current`status, current`prevStatus
      modifies this`uploads, this`tasksCreated, this`issued, this`files, this`dirs
      ensures current.uploadOffset == Lookup(response.headers, "UPLOAD-OFFSET")
      ensures current.status == Some(UploadStatus.Uploading)
      ensures current.prevStatus == PrevStatusAfter(old(current.status), old(current.prevStatus))
      ensures |issued| == |old(issued)| + 1 && issued[|old(issued)|].verb == Patch
      ensures Some(issued[|old(issued)|].url) == current.uploadLocation
      ensures current.currentSessionTasksId
                == RemoveFirst(old(current.currentSessionTasksId), taskId) + [issued[|old(issued)|].taskId]
      ensures uploads == ReplaceFirstWithId(old(uploads), current.Record())
    {
      current.uploadOffset := Lookup(response.headers, "UPLOAD-OFFSET");
      current.currentSessionTasksId := RemoveFirst(current.currentSessionTasksId, taskId);
      UpdateUpload(current);
      ghost var first := current.Record();
      var newTask := SendChunk(current);
      ReplaceTwice(old(uploads), first, current.Record());
    }

    /** HEAD completion: on 200, continue from the server's offset. */
    method CompleteHead(taskId: string, index: nat, response: Response) returns (ghost after: UploadRecord)
      requires index < |uploads| && taskId in uploads[index].currentSessionTasksId
      requires HeadCompletionDemands(uploads[index], response, chunkSize, files, dirs)
      modifies this`uploads, this`tasksCreated, this`issued, this`files, this`dirs
      ensures response.statusCode != 200 ==> State() == old(State())
      ensures response.statusCode == 200 ==>
                && after.id == old(uploads)[index].id
                && after.uploadOffset == Lookup(response.headers, "UPLOAD-OFFSET")
                && after.status == Some(UploadStatus.Uploading)
                && |issued| == |old(issued)| + 1 && issued[|old(issued)|].verb == Patch
                && after.currentSessionTasksId
                     == RemoveFirst(old(uploads)[index].currentSessionTasksId, taskId) + [issued[|old(issued)|].taskId]
                && HasId(old(uploads), after.id)
                && uploads == ReplaceFirstWithId(old(uploads), after)
    {
      after := uploads[index];
      if response.statusCode == 200 {
        var current := new Upload.FromRecord(uploads[index]);
        assert HasId(uploads, current.id);
        ContinueFromOffset(current, taskId, response);
        after := current.Record();
      }
    }

    /**
     * A 201 to the POST: a fresh decoded copy of the stored upload becomes
     * `created` at `location`, loses the finished task id and is persisted.
     */
    method AcceptCreated(taskId: string, index: nat, location: Option<string>) returns (current: Upload)
      requires index < |uploads| && taskId in uploads[index].currentSessionTasksId
      modifies this`uploads
      ensures fresh(current)
      ensures current.Record() == old(uploads)[index].(status := Some(Created),
                prevStatus := PrevStatusAfter(old(uploads)[index].status, old(uploads)[index].prevStatus),
                uploadLocation := location,
                currentSessionTasksId := RemoveFirst(old(uploads)[index].currentSessionTasksId, taskId))
      ensures uploads == ReplaceFirstWithId(old(uploads), current.Record())
    {
      current := new Upload.FromRecord(uploads[index]);
      current.SetStatus(Some(Created));
      current.uploadLocation := location;
      current.currentSessionTasksId := RemoveFirst(current.currentSessionTasksId, taskId);
      assert HasId(uploads, current.id);
      UpdateUpload(current);
    }

    /** POST completion: on 201, the status becomes `created`, the resolved location is stored, and the first chunk sent. */
    method CompletePost(taskId: string, index: nat, response: Response) returns (ghost after: UploadRecord)
      requires index < |uploads| && taskId in uploads[index].currentSessionTasksId
      requires PostCompletionDemands(uploads[index], response, resolveLocation, chunkSize, files, dirs)
      modifies this`uploads, this`tasksCreated, this`issued, this`files, this`dirs
      ensures response.statusCode != 201 ==> State() == old(State())
      ensures response.statusCode == 201 ==>
                && after.id == old(uploads)[index].id
                && after.uploadLocation == resolveLocation(response.headers["LOCATION"])
                && after.status == Some(UploadStatus.Uploading)
                && after.prevStatus
                     == PrevStatusAfter(Some(Created), PrevStatusAfter(old(uploads)[index].status, old(uploads)[index].prevStatus))
                && |issued| == |old(issued)| + 1 && issued[|old(issued)|].verb == Patch
                && Some(issued[|old(issued)|].url) == after.uploadLocation
                && after.currentSessionTasksId
                     == RemoveFirst(old(uploads)[index].currentSessionTasksId, taskId) + [issued[|old(issued)|].taskId]
                && HasId(old(uploads), after.id)
                && uploads == ReplaceFirstWithId(old(uploads), after)
    {
      after := uploads[index];
      if response.statusCode == 201 {
        var current := AcceptCreated(taskId, index, resolveLocation(response.headers["LOCATION"]));
        ghost var first := current.Record();
        var newTask := SendChunk(current);
        after := current.Record();
        ReplaceTwice(old(uploads), first, after);
      }
    }

    /**
     * The last chunk's 204: drop the task id, persist, signal success, clean
     * up (which drops the first stored upload), reopen the gate and resume
     * the upload that is now first.
     */
    method FinishUpload(current: Upload, taskId: string)
      requires |uploads| > 0 && current.Record() == uploads[0]
      requires taskId in current.currentSessionTasksId && current.fileType.Some? && current.uploadLocation.Some?
      requires |uploads| > 1 ==>
                 ResumeDemands(uploads[1], FilesAfterCleanUp(files, uploads[0]), DirsAfterCleanUp(dirs, uploads[0]), uploads[1..])
      modifies current`currentSessionTasksId
      modifies this`executorHeaders, this`uploads, this`files, this`dirs, this`external, this`gate
      modifies this`tasksCreated, this`issued, this`events
      ensures |old(events)| < |events| <= |old(events)| + 2
      ensures events[..|old(events)| + 1] == old(events) + [Success(old(uploads)[0].(currentSessionTasksId
                                              := RemoveFirst(old(uploads)[0].currentSessionTasksId, taskId)))]
      ensures |events| == |old(events)| + 2 ==> events[|old(events)| + 1].Failure?
      ensures |issued| <= |old(issued)| + 1
      ensures |old(uploads)| == 1 ==>
                && uploads == [] && Status() == ClientStatus.Ready && issued == old(issued)
                && files == FilesAfterCleanUp(old(files), old(uploads)[0])
                && dirs == DirsAfterCleanUp(old(dirs), old(uploads)[0])
      ensures KeepsIds(old(uploads)[1..], uploads)
    {
      current.currentSessionTasksId := RemoveFirst(current.currentSessionTasksId, taskId);
      assert UploadIndexForId(uploads, current.id) == Some(0);
      UpdateUpload(current);
      events := events + [Success(current.Record())];
      assert uploads[1..] == old(uploads)[1..];
      CleanUp(current);
      gate := Some(ClientStatus.Ready);
      if |uploads| > 0 {
        var next := new Upload.FromRecord(uploads[0]);
        CreateOrResume(next);
      }
    }

    /**
     * PATCH completion without a transport error. Only 2xx answers act, and
     * on the FIRST stored upload, with the position computed from its stored
     * offset: while chunks remain, continue from the server's offset; after
     * the last one, a 204 finishes the upload.
     */
    method CompletePatch(taskId: string, response: Response)
      requires |uploads| > 0
      requires PatchCompletionDemands(uploads, taskId, response, chunkSize, files, dirs)
      modifies this`executorHeaders, this`uploads, this`files, this`dirs, this`external, this`gate
      modifies this`tasksCreated, this`issued, this`events
      ensures !(200 <= response.statusCode < 300) ==> State() == old(State())
      ensures (200 <= response.statusCode < 300
                 && !HasNextChunk(old(uploads)[0], chunkSize, old(files))
                 && !IsFinalChunk(old(uploads)[0], response, chunkSize, old(files))) ==>
                State() == old(State())
      ensures 200 <= response.statusCode < 300 && HasNextChunk(old(uploads)[0], chunkSize, old(files)) ==>
                && |issued| == |old(issued)| + 1 && issued[|old(issued)|].verb == Patch
                && |uploads| == |old(uploads)| && uploads[0].id == old(uploads)[0].id
                && uploads[0].uploadOffset == Lookup(response.headers, "UPLOAD-OFFSET")
                && uploads[1..] == old(uploads)[1..]
                && events == old(events) && gate == old(gate)
      ensures 200 <= response.statusCode < 300 && IsFinalChunk(old(uploads)[0], response, chunkSize, old(files)) ==>
                && |old(events)| < |events| <= |old(events)| + 2
                && events[..|old(events)| + 1] == old(events) + [Success(old(uploads)[0].(currentSessionTasksId
                                              := RemoveFirst(old(uploads)[0].currentSessionTasksId, taskId)))]
                && (|events| == |old(events)| + 2 ==> events[|old(events)| + 1].Failure?)
                && |issued| <= |old(issued)| + 1
                && (|old(uploads)| == 1 ==>
                      && uploads == [] && Status() == ClientStatus.Ready && issued == old(issued)
                      && files == FilesAfterCleanUp(old(files), old(uploads)[0])
                      && dirs == DirsAfterCleanUp(old(dirs), old(uploads)[0]))
                && KeepsIds(old(uploads)[1..], uploads)
    {
      if !(200 <= response.statusCode < 300) {
        return;
      }
      var first := uploads[0];
      var chunkCount := NumberOfChunks(SizeIn(files, StagedName(first.id, first.fileType.value)), chunkSize);
      var position := CurrentChunkNumber(first.uploadOffset, chunkSize);
      if position + 1 < chunkCount {
        PatchNextChunk(taskId, response);
      } else if response.statusCode == 204 && position + 1 == chunkCount {
        PatchFinished(taskId);
      }
    }

    /** A 2xx PATCH with chunks left: the first stored upload continues from the server's offset. */
    method PatchNextChunk(taskId: string, response: Response)
      requires |uploads| > 0 && taskId in uploads[0].currentSessionTasksId
      requires CanUpload(uploads[0].(uploadOffset := Lookup(response.headers, "UPLOAD-OFFSET")), chunkSize, files, dirs)
      modifies this`uploads, this`tasksCreated, this`issued, this`files, this`dirs
      ensures |issued| == |old(issued)| + 1 && issued[|old(issued)|].verb == Patch
      ensures |uploads| == |old(uploads)| && uploads[0].id == old(uploads)[0].id
      ensures uploads[0].uploadOffset == Lookup(response.headers, "UPLOAD-OFFSET")
      ensures uploads[1..] == old(uploads)[1..]
    {
      var current := new Upload.FromRecord(uploads[0]);
      assert UploadIndexForId(uploads, current.id) == Some(0);
      ContinueFromOffset(current, taskId, response);
    }

    /** A 204 to the last chunk's PATCH: the first stored upload is finished. */
    method PatchFinished(taskId: string)
      requires |uploads| > 0 && taskId in uploads[0].currentSessionTasksId
      requires uploads[0].fileType.Some? && uploads[0].uploadLocation.Some?
      requires |uploads| > 1 ==>
                 ResumeDemands(uploads[1], FilesAfterCleanUp(files, uploads[0]), DirsAfterCleanUp(dirs, uploads[0]), uploads[1..])
      modifies this`executorHeaders, this`uploads, this`files, this`dirs, this`external, this`gate
      modifies this`tasksCreated, this`issued, this`events
      ensures |old(events)| < |events| <= |old(events)| + 2
      ensures events[..|old(events)| + 1] == old(events) + [Success(old(uploads)[0].(currentSessionTasksId
                                              := RemoveFirst(old(uploads)[0].currentSessionTasksId, taskId)))]
      ensures |events| == |old(events)| + 2 ==> events[|old(events)| + 1].Failure?
      ensures |issued| <= |old(issued)| + 1
      ensures |old(uploads)| == 1 ==>
                && uploads == [] && Status() == ClientStatus.Ready && issued == old(issued)
                && files == FilesAfterCleanUp(old(files), old(uploads)[0])
                && dirs == DirsAfterCleanUp(old(dirs), old(uploads)[0])
      ensures KeepsIds(old(uploads)[1..], uploads)
    {
      var current := new Upload.FromRecord(uploads[0]);
      FinishUpload(current, taskId);
    }

    /**
     * `urlSession(_:task:didCompleteWithError:)`: the completing task must
     * belong to a stored upload (fatal error otherwise); without an HTTP
     * response, or for another method, nothing happens.
     */
    method Complete(description: string, httpMethod: Option<string>, response: Option<Response>, error: bool)
      requires UploadIndexForTaskId(uploads, IdentifierForTask(sessionIdentifier, description)).Some?
      requires response.Some? && httpMethod == Some("HEAD") ==>
                 HeadCompletionDemands(uploads[UploadIndexForTaskId(uploads, IdentifierForTask(sessionIdentifier, description)).value],
                                       response.value, chunkSize, files, dirs)
      requires response.Some? && httpMethod == Some("POST") ==>
                 PostCompletionDemands(uploads[UploadIndexForTaskId(uploads, IdentifierForTask(sessionIdentifier, description)).value],
                                       response.value, resolveLocation, chunkSize, files, dirs)
      requires response.Some? && httpMethod == Some("PATCH") && !error ==>
                 PatchCompletionDemands(uploads, IdentifierForTask(sessionIdentifier, description), response.value,
                                        chunkSize, files, dirs)
      modifies this`executorHeaders, this`uploads, this`files, this`dirs, this`external, this`gate
      modifies this`tasksCreated, this`issued, this`events
      ensures response.None? ==> State() == old(State())
      ensures httpMethod !in {Some("HEAD"), Some("POST"), Some("PATCH")} ==> State() == old(State())
      ensures response.Some? && httpMethod == Some("HEAD") && response.value.statusCode != 200 ==> State() == old(State())
      ensures response.Some? && httpMethod == Some("POST") && response.value.statusCode != 201 ==> State() == old(State())
      ensures (response.Some? && httpMethod == Some("PATCH") && (error || !(200 <= response.value.statusCode < 300))) ==>
                State() == old(State())
      ensures response.Some? && httpMethod == Some("HEAD") && response.value.statusCode == 200 ==>
                |issued| == |old(issued)| + 1 && issued[|old(issued)|].verb == Patch && |uploads| == |old(uploads)|
      ensures response.Some? && httpMethod == Some("POST") && response.value.statusCode == 201 ==>
                |issued| == |old(issued)| + 1 && issued[|old(issued)|].verb == Patch && |uploads| == |old(uploads)|
    {
      var taskId := IdentifierForTask(sessionIdentifier, description);
      var index := UploadIndexForTaskId(uploads, taskId).value;
      if response.None? {
        return;
      }
      if httpMethod == Some("HEAD") {
        ghost var after := CompleteHead(taskId, index, response.value);
      } else if httpMethod == Some("POST") {
        ghost var after := CompletePost(taskId, index, response.value);
      } else if httpMethod == Some("PATCH") {
        if !error {
          CompletePatch(taskId, response.value);
        }
      }
    }

    // ---------------------------------------------------------------------
    // Bulk operations: each applies the single-upload operation to a
    // snapshot of the stored uploads, in stored order.

    /**
     * `resumeAll`: with no custom headers. The gate lets at most one upload
     * start: the first dispatch closes it for all that follow.
     */
    method ResumeAll()
      requires forall i :: 0 <= i < |uploads| ==> uploads[i].fileType.Some?
      requires forall i :: 0 <= i < |uploads| && uploads[i].status in {Some(Paused), Some(Created)}
                 ==> uploads[i].uploadLocation.Some?
      modifies this`executorHeaders, this`uploads, this`files, this`external, this`gate
      modifies this`tasksCreated, this`issued, this`events
      ensures |issued| <= |old(issued)| + 1
      ensures old(Status()) != ClientStatus.Ready ==> issued == old(issued) && gate == old(gate)
      ensures KeepsIds(old(uploads), uploads)
      ensures |old(events)| <= |events| && events[..|old(events)|] == old(events)
      ensures forall k :: |old(events)| <= k < |events| ==> events[k].Failure?
    {
      var snapshot := uploads;
      for i := 0 to |snapshot|
        invariant KeepsIds(snapshot, uploads)
        invariant |old(events)| <= |events| && events[..|old(events)|] == old(events)
        invariant forall k :: |old(events)| <= k < |events| ==> events[k].Failure?
        invariant |issued| <= |old(issued)| + 1
        invariant Status() == ClientStatus.Ready ==> issued == old(issued)
        invariant old(Status()) != ClientStatus.Ready ==> issued == old(issued) && gate == old(gate)
      {
        assert uploads[i].id == snapshot[i].id;
        var u := new Upload.FromRecord(snapshot[i]);
        CreateOrResume(u);
      }
    }

    /** One round of `retryAll`'s loop: a fresh decoded copy of `snapshot[i]` is retried. */
    method RetryNext(snapshot: seq<UploadRecord>, i: nat)
      requires i < |snapshot| && RetryReady(snapshot, i, chunkSize, files, dirs)
      requires KeepsIds(snapshot, uploads) && |uploads| == |snapshot|
      modifies this`uploads, this`tasksCreated, this`issued, this`files, this`dirs
      ensures RetryReady(snapshot, i + 1, chunkSize, files, dirs)
      ensures KeepsIds(snapshot, uploads) && |uploads| == |snapshot|
      ensures |issued| == |old(issued)| + 1 && issued[..|old(issued)|] == old(issued)
      ensures issued[|old(issued)|].verb == Patch && Some(issued[|old(issued)|].url) == snapshot[i].uploadLocation
    {
      assert uploads[i].id == snapshot[i].id;
      var u := new Upload.FromRecord(snapshot[i]);
      assert u.id == snapshot[i].id && u.fileType == snapshot[i].fileType && u.uploadOffset == snapshot[i].uploadOffset;
      var taskId, sent;
      ghost var order;
      taskId, sent, order := Retry(u);
      RetryReadyStep(snapshot, i, chunkSize, old(files), old(dirs), sent);
    }

    /** `retryAll`: one PATCH per stored upload, in stored order. */
    method RetryAll()
      requires forall i :: 0 <= i < |uploads| ==>
                 CanUpload(uploads[i], chunkSize, files, dirs) && '/' !in StagedName(uploads[i].id, uploads[i].fileType.value)
      modifies this`uploads, this`tasksCreated, this`issued, this`files, this`dirs
      ensures |issued| == |old(issued)| + |old(uploads)|
      ensures issued[..|old(issued)|] == old(issued)
      ensures forall k :: |old(issued)| <= k < |issued| ==>
                issued[k].verb == Patch && Some(issued[k].url) == old(uploads)[k - |old(issued)|].uploadLocation
      ensures KeepsIds(old(uploads), uploads) && |uploads| == |old(uploads)|
    {
      var snapshot := uploads;
      for i := 0 to |snapshot|
        invariant RetryReady(snapshot, i, chunkSize, files, dirs)
        invariant KeepsIds(snapshot, uploads) && |uploads| == |snapshot|
        invariant |issued| == |old(issued)| + i && issued[..|old(issued)|] == old(issued)
        invariant PatchesFor(issued, |old(issued)|, snapshot)
      {
        ghost var issuedBefore := issued;
        RetryNext(snapshot, i);
        PatchesForStep(issuedBefore, issued, |old(issued)|, snapshot);
        assert issued[..|old(issued)|] == issuedBefore[..|old(issued)|];
      }
    }

    /**
     * `cancelAll`: every stored upload that is the first with its id ends
     * `canceled`; later duplicates and everything else are untouched.
     */
    method CancelAll()
      modifies this`uploads
      ensures |uploads| == |old(uploads)|
      ensures forall i :: 0 <= i < |uploads| ==>
                uploads[i] == (if UploadIndexForId(old(uploads), old(uploads)[i].id) == Some(i)
                               then CanceledRecord(old(uploads)[i]) else old(uploads)[i])
    {
      var snapshot := uploads;
      for k := 0 to |snapshot|
        invariant CanceledBefore(uploads, snapshot, k)
      {
        var u := new Upload.FromRecord(snapshot[k]);
        CancelStep(uploads, snapshot, k);
        var pending := Cancel(u);
      }
    }

    /** `pauseAll`: the same loop as `cancelAll`. */
    method PauseAll()
      modifies this`uploads
      ensures |uploads| == |old(uploads)|
      ensures forall i :: 0 <= i < |uploads| ==>
                uploads[i] == (if UploadIndexForId(old(uploads), old(uploads)[i].id) == Some(i)
                               then CanceledRecord(old(uploads)[i]) else old(uploads)[i])
    {
      CancelAll();
    }

    /** `cleanUp()`: every stored upload is dropped and its files deleted. */
    method CleanUpAll()
      requires forall i :: 0 <= i < |uploads| ==> uploads[i].fileType.Some?
      modifies this`uploads, this`files, this`dirs
      ensures uploads == []
      ensures files == FilesAfterCleanUps(old(files), old(uploads))
      ensures dirs == DirsAfterCleanUps(old(dirs), old(uploads))
      ensures forall i :: 0 <= i < |old(uploads)| ==>
                var r := old(uploads)[i];
                StagedName(r.id, r.fileType.value) !in files && r.id !in files && r.id !in dirs
    {
      var snapshot := uploads;
      for k := 0 to |snapshot|
        invariant uploads == snapshot[k..]
        invariant files == FilesAfterCleanUps(old(files), snapshot[..k])
        invariant dirs == DirsAfterCleanUps(old(dirs), snapshot[..k])
        invariant forall i :: 0 <= i < k ==>
                    StagedName(snapshot[i].id, snapshot[i].fileType.value) !in files
                    && snapshot[i].id !in files && snapshot[i].id !in dirs
      {
        var u := new Upload.FromRecord(snapshot[k]);
        CleanUp(u);
        assert uploads == snapshot[k + 1..];
        assert snapshot[..k + 1][..k] == snapshot[..k];
      }
      assert snapshot[..|snapshot|] == snapshot;
    }
  }
}
