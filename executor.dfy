/**
 * The value-level half of TUSExecutor: the chunk policy, the headers of the
 * three requests, task identifiers, the lookups over the stored uploads and
 * the bookkeeping of the asynchronous cancel callback. The request-issuing
 * methods live beside the client state in `TusClient`, because executor and
 * client call each other through one shared state.
 */
module TusExecutor {
  import opened Wrappers
  import opened Decimal
  import opened TusUpload

  /** The protocol version sent in every `Tus-Resumable` header, assumed to be version 1.0.0 of tus. */
  const TusProtocolVersion: string := "1.0.0"

  /** The prefix of task identifiers when the session configuration has none. */
  const DefaultSessionIdentifier: string := "tuskit.executor"

  datatype Verb = Head | Post | Patch

  function Min(a: int, b: int): int {
    if a <= b then a else b
  }

  // ---------------------------------------------------------------------
  // Chunk policy

  lemma MulMonotone(a: int, b: int, c: nat)
    requires a <= b
    ensures a * c <= b * c
  {
    assert b * c - a * c == (b - a) * c;
  }

  /** `getNumberOfChunks`: the least number of `chunkSize` pieces covering the file. */
  function NumberOfChunks(fileSize: nat, chunkSize: nat): (n: nat)
    requires chunkSize > 0
    ensures n * chunkSize >= fileSize
    ensures n > 0 ==> (n - 1) * chunkSize < fileSize
  {
    var q := fileSize / chunkSize;
    var r := fileSize % chunkSize;
    assert fileSize == q * chunkSize + r;
    if r > 0 then
      assert (q + 1) * chunkSize == q * chunkSize + chunkSize;
      q + 1
    else
      assert q > 0 ==> (q - 1) * chunkSize == q * chunkSize - chunkSize;
      q
  }

  /** The two bounds of `NumberOfChunks` determine it: it is the ceiling of size over chunk size. */
  lemma ChunkCountIsCeiling(fileSize: nat, chunkSize: nat, n: nat)
    requires chunkSize > 0
    requires n * chunkSize >= fileSize
    requires n > 0 ==> (n - 1) * chunkSize < fileSize
    ensures n == NumberOfChunks(fileSize, chunkSize)
  {
    var m := NumberOfChunks(fileSize, chunkSize);
    if n < m {
      MulMonotone(n, m - 1, chunkSize);
    } else if m < n {
      MulMonotone(m, n - 1, chunkSize);
    }
  }

  /**
   * The position test of a PATCH completion: for a chunk starting at
   * `position * chunkSize` inside the file, `position + 1` is below the
   * chunk count exactly when a full chunk from there still leaves bytes
   * after it; otherwise this was the last chunk.
   */
  lemma MoreChunksIff(fileSize: nat, chunkSize: nat, position: nat)
    requires chunkSize > 0
    requires position * chunkSize < fileSize
    ensures position + 1 <= NumberOfChunks(fileSize, chunkSize)
    ensures position + 1 < NumberOfChunks(fileSize, chunkSize) <==> position * chunkSize + chunkSize < fileSize
  {
    var n := NumberOfChunks(fileSize, chunkSize);
    assert (position + 1) * chunkSize == position * chunkSize + chunkSize;
    if n < position + 1 {
      MulMonotone(n, position, chunkSize);
    }
    if position + 1 < n {
      MulMonotone(position + 1, n - 1, chunkSize);
    }
    if position * chunkSize + chunkSize < fileSize && n <= position + 1 {
      MulMonotone(n, position + 1, chunkSize);
    }
  }

  /**
   * `getCurrentChunkNumber`: the offset string must be present (force
   * unwrap) and, when it parses, a multiple of the chunk size (fatal error
   * otherwise); an unparsable offset gives -1.
   */
  function CurrentChunkNumber(uploadOffset: Option<string>, chunkSize: nat): (position: int)
    requires uploadOffset.Some? && chunkSize > 0
    requires ParseUInt64(uploadOffset.value).Some? ==> ParseUInt64(uploadOffset.value).value % chunkSize == 0
    ensures position == -1 <==> ParseUInt64(uploadOffset.value).None?
    ensures position >= 0 ==> position * chunkSize == ParseUInt64(uploadOffset.value).value
  {
    match ParseUInt64(uploadOffset.value)
    case None => -1
    case Some(offset) =>
      assert offset == (offset / chunkSize) * chunkSize + offset % chunkSize;
      offset / chunkSize
  }

  /** An offset written as a decimal multiple of the chunk size gives back its chunk position. */
  lemma ChunkNumberOfFormattedOffset(position: nat, chunkSize: nat)
    requires chunkSize > 0 && position * chunkSize <= UInt64Max
    ensures ParseUInt64(NatToString(position * chunkSize)) == Some(position * chunkSize)
    ensures (position * chunkSize) % chunkSize == 0
    ensures CurrentChunkNumber(Some(NatToString(position * chunkSize)), chunkSize) == position
  {
    FormatParseRoundTrip(position * chunkSize);
    MulDivMod(position, chunkSize);
  }

  lemma MulDivMod(p: nat, c: nat)
    requires c > 0
    ensures (p * c) % c == 0 && (p * c) / c == p
  {
    var q := (p * c) / c;
    var r := (p * c) % c;
    assert p * c == q * c + r;
    assert (p - q) * c == r;
    if p - q >= 1 {
      MulMonotone(1, p - q, c);
    } else if p - q <= -1 {
      MulMonotone(p - q, -1, c);
    }
  }

  /** The bytes `getChunkData` reads: `min(chunkSize, size - offset)` bytes from `offset`. */
  function ChunkAt(file: seq<byte>, offset: nat, chunkSize: nat): (chunk: seq<byte>)
    requires offset <= |file|
    ensures |chunk| <= chunkSize
    ensures |chunk| == Min(chunkSize, |file| - offset)
    ensures offset + |chunk| <= |file| && chunk == file[offset..offset + |chunk|]
  {
    file[offset..offset + Min(chunkSize, |file| - offset)]
  }

  /** The chunks a run of successive PATCH requests sends, starting at `offset`. */
  function ChunksFrom(file: seq<byte>, offset: nat, chunkSize: nat): seq<seq<byte>>
    requires chunkSize > 0 && offset <= |file|
    decreases |file| - offset
  {
    if offset == |file| then []
    else
      var chunk := ChunkAt(file, offset, chunkSize);
      [chunk] + ChunksFrom(file, offset + |chunk|, chunkSize)
  }

  function Flatten(chunks: seq<seq<byte>>): seq<byte> {
    if chunks == [] then [] else chunks[0] + Flatten(chunks[1..])
  }

  /**
   * Chunking tiles the file: the chunks from `offset` concatenate to the
   * rest of the file, and there are as many as `getNumberOfChunks` counts
   * for that rest.
   */
  lemma {:induction false} ChunksTileFile(file: seq<byte>, offset: nat, chunkSize: nat)
    requires chunkSize > 0 && offset <= |file|
    ensures Flatten(ChunksFrom(file, offset, chunkSize)) == file[offset..]
    ensures |ChunksFrom(file, offset, chunkSize)| == NumberOfChunks(|file| - offset, chunkSize)
    decreases |file| - offset
  {
    ChunksCount(file, offset, chunkSize);
    if offset < |file| {
      var chunk := ChunkAt(file, offset, chunkSize);
      var next := offset + |chunk|;
      ChunksTileFile(file, next, chunkSize);
      var rest := ChunksFrom(file, next, chunkSize);
      assert ChunksFrom(file, offset, chunkSize) == [chunk] + rest;
      assert ([chunk] + rest)[1..] == rest;
      assert file[offset..] == chunk + file[next..];
    }
  }

  lemma {:induction false} ChunksCount(file: seq<byte>, offset: nat, chunkSize: nat)
    requires chunkSize > 0 && offset <= |file|
    ensures |ChunksFrom(file, offset, chunkSize)| == NumberOfChunks(|file| - offset, chunkSize)
    decreases |file| - offset
  {
    if offset == |file| {
      ChunkCountIsCeiling(0, chunkSize, 0);
    } else {
      var chunk := ChunkAt(file, offset, chunkSize);
      ChunksCount(file, offset + |chunk|, chunkSize);
      ChunkCountStep(|file| - offset, chunkSize);
    }
  }

  /** One chunk taken off a non-empty rest leaves one chunk fewer to send. */
  lemma ChunkCountStep(m: nat, chunkSize: nat)
    requires chunkSize > 0 && m > 0
    ensures NumberOfChunks(m, chunkSize) == 1 + NumberOfChunks(m - Min(chunkSize, m), chunkSize)
  {
    if m <= chunkSize {
      ChunkCountIsCeiling(0, chunkSize, 0);
      ChunkCountIsCeiling(m, chunkSize, 1);
    } else {
      var k := NumberOfChunks(m - chunkSize, chunkSize);
      assert (k + 1) * chunkSize == k * chunkSize + chunkSize;
      ChunkCountIsCeiling(m, chunkSize, k + 1);
    }
  }

  /** The name `writeChunk` files a chunk under: `<id>/<position>`. */
  function ChunkPath(id: string, position: int): string {
    id + "/" + (if position >= 0 then NatToString(position) else "-" + NatToString(-position))
  }

  /** The staged copy of an upload's file: `id` followed by `fileType`. */
  function StagedName(id: string, fileType: string): string {
    id + fileType
  }

  /** A chunk path never names a staged file whose name has no `/`. */
  lemma ChunkPathIsNotStaged(id: string, position: int, staged: string)
    requires '/' !in staged
    ensures ChunkPath(id, position) != staged
  {
    assert ChunkPath(id, position)[|id|] == '/';
  }

  // ---------------------------------------------------------------------
  // Headers

  type Headers = map<string, string>

  /** `builtIn.merging(custom) { current, _ in current }`: built-in values win every clash. */
  function MergeHeaders(builtIn: Headers, custom: Headers): (h: Headers)
    ensures h.Keys == builtIn.Keys + custom.Keys
    ensures forall k :: k in builtIn ==> h[k] == builtIn[k]
    ensures forall k :: k in custom && k !in builtIn ==> h[k] == custom[k]
  {
    custom + builtIn
  }

  const PostHeaderNames: set<string> :=
    {"Tus-Resumable", "Upload-Extension", "Content-Length", "Upload-Length", "Upload-Metadata"}

  const PatchHeaderNames: set<string> :=
    {"Tus-Resumable", "Content-Type", "Content-Length", "Upload-Offset", "Upload-Metadata"}

  /** The HEAD's headers: the protocol version, then every custom header of another name. */
  function HeadHeaders(custom: Headers): (h: Headers)
    ensures h.Keys == {"Tus-Resumable"} + custom.Keys
    ensures h["Tus-Resumable"] == TusProtocolVersion
    ensures forall k :: k in custom && k != "Tus-Resumable" ==> h[k] == custom[k]
  {
    MergeHeaders(map["Tus-Resumable" := TusProtocolVersion], custom)
  }

  /** The POST's headers: the creation headers, then every custom header of another name. */
  function PostHeaders(uploadLength: string, encodedMetadata: string, custom: Headers): (h: Headers)
    ensures h.Keys == PostHeaderNames + custom.Keys
    ensures forall k :: k in custom && k !in PostHeaderNames ==> h[k] == custom[k]
    ensures h["Tus-Resumable"] == TusProtocolVersion && h["Upload-Extension"] == "creation"
    ensures h["Content-Length"] == "0" && h["Upload-Length"] == uploadLength
    ensures h["Upload-Metadata"] == encodedMetadata
  {
    MergeHeaders(map["Tus-Resumable" := TusProtocolVersion, "Upload-Extension" := "creation",
                     "Content-Length" := "0", "Upload-Length" := uploadLength,
                     "Upload-Metadata" := encodedMetadata], custom)
  }

  /** The PATCH's headers: the chunk headers, then every custom header of another name. */
  function PatchHeaders(chunkLength: nat, uploadOffset: string, encodedMetadata: string, custom: Headers): (h: Headers)
    ensures h.Keys == PatchHeaderNames + custom.Keys
    ensures forall k :: k in custom && k !in PatchHeaderNames ==> h[k] == custom[k]
    ensures h["Tus-Resumable"] == TusProtocolVersion
    ensures h["Content-Type"] == "application/offset+octet-stream"
    ensures h["Content-Length"] == NatToString(chunkLength)
    ensures h["Upload-Offset"] == uploadOffset && h["Upload-Metadata"] == encodedMetadata
  {
    MergeHeaders(map["Tus-Resumable" := TusProtocolVersion,
                     "Content-Type" := "application/offset+octet-stream",
                     "Content-Length" := NatToString(chunkLength), "Upload-Offset" := uploadOffset,
                     "Upload-Metadata" := encodedMetadata], custom)
  }

  /** A decimal count reads back as itself when it fits in 64 bits, and as nothing otherwise. */
  lemma FormattedParse(n: nat)
    ensures ParseUInt64(NatToString(n)) == (if n <= UInt64Max then Some(n) else None)
  {
    if n <= UInt64Max {
      FormatParseRoundTrip(n);
    } else if ParseUInt64(NatToString(n)).Some? {
      var v := ParseUInt64(NatToString(n)).value;
      FormatParseRoundTrip(v);
      NatToStringInjective(v, n);
    }
  }

  // ---------------------------------------------------------------------
  // Task identifiers and lookups

  /** `identifierForTask`: the session identifier (or the default), a dot, the task's description. */
  function IdentifierForTask(sessionIdentifier: Option<string>, description: string): (id: string)
    ensures |id| == |sessionIdentifier.GetOr(DefaultSessionIdentifier)| + 1 + |description|
    ensures id[..|sessionIdentifier.GetOr(DefaultSessionIdentifier)| + 1] == sessionIdentifier.GetOr(DefaultSessionIdentifier) + "."
    ensures id[|sessionIdentifier.GetOr(DefaultSessionIdentifier)| + 1..] == description
  {
    sessionIdentifier.GetOr(DefaultSessionIdentifier) + "." + description
  }

  /** Within one session, distinct tasks get distinct identifiers. */
  lemma IdentifierForTaskInjective(sessionIdentifier: Option<string>, d1: string, d2: string)
    requires IdentifierForTask(sessionIdentifier, d1) == IdentifierForTask(sessionIdentifier, d2)
    ensures d1 == d2
  {
  }

  /** `getUploadForTaskId`: the first upload whose task list holds `taskId`. */
  function UploadIndexForTaskId(uploads: seq<UploadRecord>, taskId: string): (i: Option<nat>)
    ensures i.Some? ==> i.value < |uploads| && taskId in uploads[i.value].currentSessionTasksId
    ensures i.Some? ==> forall j :: 0 <= j < i.value ==> taskId !in uploads[j].currentSessionTasksId
    ensures i.None? <==> forall j :: 0 <= j < |uploads| ==> taskId !in uploads[j].currentSessionTasksId
  {
    if uploads == [] then None
    else if taskId in uploads[0].currentSessionTasksId then Some(0)
    else
      match UploadIndexForTaskId(uploads[1..], taskId)
      case None => None
      case Some(i) => Some(i + 1)
  }

  /** `firstIndex(where: { $0.id == id })`. */
  function UploadIndexForId(uploads: seq<UploadRecord>, id: string): (i: Option<nat>)
    ensures i.Some? ==> i.value < |uploads| && uploads[i.value].id == id
    ensures i.Some? ==> forall j :: 0 <= j < i.value ==> uploads[j].id != id
    ensures i.None? <==> forall j :: 0 <= j < |uploads| ==> uploads[j].id != id
  {
    if uploads == [] then None
    else if uploads[0].id == id then Some(0)
    else
      match UploadIndexForId(uploads[1..], id)
      case None => None
      case Some(i) => Some(i + 1)
  }

  predicate HasId(uploads: seq<UploadRecord>, id: string) {
    exists j :: 0 <= j < |uploads| && uploads[j].id == id
  }

  lemma HasIdIndex(uploads: seq<UploadRecord>, id: string)
    ensures HasId(uploads, id) <==> UploadIndexForId(uploads, id).Some?
  {
  }

  /** `remove(at: firstIndex(of: x)!)`. */
  function RemoveFirst(s: seq<string>, x: string): (r: seq<string>)
    requires x in s
    ensures |r| == |s| - 1
    ensures multiset(r) == multiset(s) - multiset{x}
  {
    var i := IndexOf(s, x);
    assert s == s[..i] + [x] + s[i + 1..];
    s[..i] + s[i + 1..]
  }

  // ---------------------------------------------------------------------
  // Cancel bookkeeping

  /** What the cancel callback sees of one upload task of the session. */
  datatype SessionTask = SessionTask(identifier: string, running: bool)

  /** Some running task of `tasks` has identifier `id`. */
  predicate StoppedBy(id: string, tasks: seq<SessionTask>) {
    exists j :: 0 <= j < |tasks| && tasks[j].running && tasks[j].identifier == id
  }

  /** The ids that no running task matches, in their original order. */
  function KeepNotStopped(ids: seq<string>, tasks: seq<SessionTask>): (kept: seq<string>)
    ensures |kept| <= |ids|
    ensures forall id :: id in kept <==> id in ids && !StoppedBy(id, tasks)
  {
    if ids == [] then []
    else (if StoppedBy(ids[0], tasks) then [] else [ids[0]]) + KeepNotStopped(ids[1..], tasks)
  }

  /** With no running task matching any id, cancelling removes nothing. */
  lemma {:induction false} KeepAllWhenNoneStopped(ids: seq<string>, tasks: seq<SessionTask>)
    requires forall i :: 0 <= i < |ids| ==> !StoppedBy(ids[i], tasks)
    ensures KeepNotStopped(ids, tasks) == ids
  {
    if ids != [] {
      KeepAllWhenNoneStopped(ids[1..], tasks);
    }
  }

  /** The elements of `s` other than `x`. */
  function Without(s: seq<string>, x: string): seq<string> {
    if s == [] then [] else (if s[0] == x then [] else [s[0]]) + Without(s[1..], x)
  }

  function Count(s: seq<string>, x: string): nat {
    if s == [] then 0 else (if s[0] == x then 1 else 0) + Count(s[1..], x)
  }

  lemma {:induction false} WithoutCount(s: seq<string>, x: string)
    ensures |Without(s, x)| == |s| - Count(s, x)
    ensures Count(s, x) == 0 ==> Without(s, x) == s
  {
    if s != [] {
      WithoutCount(s[1..], x);
    }
  }

  lemma {:induction false} ConcatSplit(a: seq<string>, b: seq<string>, x: string)
    ensures Without(a + b, x) == Without(a, x) + Without(b, x)
    ensures Count(a + b, x) == Count(a, x) + Count(b, x)
  {
    if a != [] {
      assert (a + b)[0] == a[0];
      assert (a + b)[1..] == a[1..] + b;
      ConcatSplit(a[1..], b, x);
    } else {
      assert a + b == b;
    }
  }

  lemma CountSnoc(s: seq<string>, k: nat, x: string)
    requires k < |s|
    ensures Count(s[..k + 1], x) == Count(s[..k], x) + (if s[k] == x then 1 else 0)
  {
    assert s[..k + 1] == s[..k] + [s[k]];
    ConcatSplit(s[..k], [s[k]], x);
  }

  /** Removing the first `x` keeps every other element and one fewer `x`. */
  lemma RemoveFirstWithout(s: seq<string>, x: string)
    requires x in s
    ensures Without(RemoveFirst(s, x), x) == Without(s, x)
    ensures Count(RemoveFirst(s, x), x) == Count(s, x) - 1
  {
    var i := IndexOf(s, x);
    var before, after := s[..i], s[i + 1..];
    assert RemoveFirst(s, x) == before + after;
    var tail := [x] + after;
    assert s == before + tail;
    assert tail[0] == x && tail[1..] == after;
    assert Without(tail, x) == Without(after, x) && Count(tail, x) == 1 + Count(after, x);
    ConcatSplit(before, tail, x);
    ConcatSplit(before, after, x);
  }

  /** One more task stops an id exactly when it runs under that identifier, or an earlier one did. */
  lemma StoppedBySnoc(id: string, tasks: seq<SessionTask>, t: SessionTask)
    ensures StoppedBy(id, tasks + [t]) <==> StoppedBy(id, tasks) || (t.running && t.identifier == id)
  {
    var all := tasks + [t];
    if StoppedBy(id, tasks) {
      var j :| 0 <= j < |tasks| && tasks[j].running && tasks[j].identifier == id;
      assert all[j] == tasks[j];
    }
    if t.running && t.identifier == id {
      assert all[|tasks|] == t;
    }
    if StoppedBy(id, all) {
      var j :| 0 <= j < |all| && all[j].running && all[j].identifier == id;
      if j < |tasks| {
        assert tasks[j] == all[j];
      }
    }
  }

  /** Adding one more task to the callback's list removes its identifier too, if it runs. */
  lemma {:induction false} KeepNotStoppedSnoc(ids: seq<string>, tasks: seq<SessionTask>, t: SessionTask)
    ensures KeepNotStopped(ids, tasks + [t])
         == if t.running then Without(KeepNotStopped(ids, tasks), t.identifier) else KeepNotStopped(ids, tasks)
  {
    if ids != [] {
      KeepNotStoppedSnoc(ids[1..], tasks, t);
      StoppedBySnoc(ids[0], tasks, t);
      var rest := KeepNotStopped(ids[1..], tasks);
      var head := if StoppedBy(ids[0], tasks) then [] else [ids[0]];
      if t.running {
        ConcatSplit(head, rest, t.identifier);
      }
    }
  }

  /**
   * The first inner loop of `cancel`'s callback: every id equal to the
   * identifier of running task number `t` is collected, and a `cancel()`
   * call on that task is recorded for each.
   */
  method MatchRunning(ids: seq<string>, task: SessionTask, t: nat, calls: seq<nat>)
    returns (cancelledIds: seq<string>, callsAfter: seq<nat>)
    ensures |cancelledIds| == (if task.running then Count(ids, task.identifier) else 0)
    ensures forall c :: 0 <= c < |cancelledIds| ==> cancelledIds[c] == task.identifier
    ensures |callsAfter| == |calls| + |cancelledIds|
    ensures forall c :: 0 <= c < |callsAfter| ==>
              (c < |calls| && callsAfter[c] == calls[c]) || (task.running && callsAfter[c] == t)
  {
    cancelledIds := [];
    callsAfter := calls;
    for k := 0 to |ids|
      invariant |cancelledIds| == (if task.running then Count(ids[..k], task.identifier) else 0)
      invariant forall c :: 0 <= c < |cancelledIds| ==> cancelledIds[c] == task.identifier
      invariant |callsAfter| == |calls| + |cancelledIds|
      invariant forall c :: 0 <= c < |callsAfter| ==>
                  (c < |calls| && callsAfter[c] == calls[c]) || (task.running && callsAfter[c] == t)
    {
      CountSnoc(ids, k, task.identifier);
      if ids[k] == task.identifier && task.running {
        callsAfter := callsAfter + [t];
        cancelledIds := cancelledIds + [ids[k]];
      }
    }
    assert ids[..|ids|] == ids;
  }

  /**
   * The second inner loop: each collected id, when still present, has its
   * first occurrence removed.
   */
  method RemoveCancelled(ids: seq<string>, cancelledIds: seq<string>, x: string) returns (remaining: seq<string>)
    requires |cancelledIds| <= Count(ids, x)
    requires forall c :: 0 <= c < |cancelledIds| ==> cancelledIds[c] == x
    ensures Without(remaining, x) == Without(ids, x)
    ensures Count(remaining, x) == Count(ids, x) - |cancelledIds|
    ensures cancelledIds == [] ==> remaining == ids
    ensures |remaining| == |ids| - |cancelledIds|
  {
    remaining := ids;
    for k := 0 to |cancelledIds|
      invariant Without(remaining, x) == Without(ids, x)
      invariant Count(remaining, x) == Count(ids, x) - k
      invariant |remaining| == |ids| - k
      invariant k == 0 ==> remaining == ids
    {
      CountMember(remaining, x);
      if cancelledIds[k] in remaining {
        RemoveFirstWithout(remaining, cancelledIds[k]);
        remaining := RemoveFirst(remaining, cancelledIds[k]);
      }
    }
  }

  /** One round of the callback's outer loop leaves the ids `KeepNotStopped` keeps for one more task. */
  lemma CancelRoundStep(ids: seq<string>, tasks: seq<SessionTask>, t: nat, before: seq<string>, after: seq<string>)
    requires t < |tasks| && before == KeepNotStopped(ids, tasks[..t])
    requires Without(after, tasks[t].identifier) == Without(before, tasks[t].identifier)
    requires tasks[t].running ==> Count(after, tasks[t].identifier) == 0
    requires !tasks[t].running ==> after == before
    ensures after == KeepNotStopped(ids, tasks[..t + 1])
  {
    WithoutCount(after, tasks[t].identifier);
    assert tasks[..t + 1] == tasks[..t] + [tasks[t]];
    KeepNotStoppedSnoc(ids, tasks[..t], tasks[t]);
  }

  /**
   * The body of cancel's `getTasksWithCompletionHandler` callback: for each
   * upload task in turn, every id of the upload equal to the task's
   * identifier, when the task runs, has `cancel()` called on that task and
   * is then removed (first occurrence, once per match) from the id list.
   * `cancelCalls` lists the index of the task of each `cancel()` call.
   */
  method CancelBookkeeping(ids: seq<string>, tasks: seq<SessionTask>) returns (remaining: seq<string>, cancelCalls: seq<nat>)
    ensures remaining == KeepNotStopped(ids, tasks)
    ensures |cancelCalls| == |ids| - |remaining|
    ensures forall c :: 0 <= c < |cancelCalls| ==> cancelCalls[c] < |tasks| && tasks[cancelCalls[c]].running
  {
    remaining := ids;
    cancelCalls := [];
    KeepAllWhenNoneStopped(ids, []);
    for t := 0 to |tasks|
      invariant remaining == KeepNotStopped(ids, tasks[..t])
      invariant |cancelCalls| + |remaining| == |ids|
      invariant forall c :: 0 <= c < |cancelCalls| ==> cancelCalls[c] < t && tasks[cancelCalls[c]].running
    {
      var task := tasks[t];
      var before := remaining;
      var cancelledIds;
      cancelledIds, cancelCalls := MatchRunning(before, task, t, cancelCalls);
      remaining := RemoveCancelled(before, cancelledIds, task.identifier);
      CancelRoundStep(ids, tasks, t, before, remaining);
    }
    assert tasks[..|tasks|] == tasks;
  }

  lemma {:induction false} CountMember(s: seq<string>, x: string)
    requires Count(s, x) > 0
    ensures x in s
  {
    if s[0] != x {
      CountMember(s[1..], x);
    }
  }
}
