/**
 * TUSUpload: one logical file being transferred. The class is the live
 * object that callers and the executor mutate; `UploadRecord` is what is
 * persisted of it (everything but the in-memory `data`), and `Encode` /
 * `Decode` are its keyed container form.
 */
module TusUpload {
  import opened Wrappers
  import opened TusUploadStatus
  import opened TusPartialUploadState

  newtype byte = x: int | 0 <= x < 256

  /** The fields that the encoder writes, in the order of the coding keys. */
  datatype UploadRecord = UploadRecord(
    id: string,
    fileType: Option<string>,
    filePath: Option<string>,
    uploadLocation: Option<string>,
    partialUploadLocations: seq<PartialUploadState>,
    mergingRequestId: Option<string>,
    currentSessionTasksId: seq<string>,
    contentLength: Option<string>,
    uploadLength: Option<string>,
    uploadOffset: Option<string>,
    customHeaders: Option<map<string, string>>,
    status: Option<UploadStatus>,
    prevStatus: Option<UploadStatus>,
    metadata: map<string, string>)

  /** The statuses whose replacement leaves `prevStatus` untouched. */
  predicate IsResting(s: Option<UploadStatus>) {
    s.Some? && s.value in {Canceled, Paused, Error, AuthRequired, Finished, Ready}
  }

  /**
   * The `status` observer: the old value becomes `prevStatus` unless it is
   * a resting status; a nil old value is not resting.
   */
  function PrevStatusAfter(oldValue: Option<UploadStatus>, oldPrev: Option<UploadStatus>): (prev: Option<UploadStatus>)
    ensures prev == oldPrev || prev == oldValue
    ensures !IsResting(oldPrev) ==> !IsResting(prev)
  {
    if IsResting(oldValue) then oldPrev else oldValue
  }

  /** `prevStatus` after assigning each of `written` in turn, from `status` and `prev`. */
  function PrevAfterAssignments(status: Option<UploadStatus>, prev: Option<UploadStatus>,
                                written: seq<Option<UploadStatus>>): Option<UploadStatus>
    decreases |written|
  {
    if written == [] then prev
    else PrevAfterAssignments(written[0], PrevStatusAfter(status, prev), written[1..])
  }

  /** The latest value of `values` that is not resting, or `fallback` if there is none. */
  function LatestActive(values: seq<Option<UploadStatus>>, fallback: Option<UploadStatus>): Option<UploadStatus> {
    if values == [] then fallback
    else if IsResting(values[|values| - 1]) then LatestActive(values[..|values| - 1], fallback)
    else values[|values| - 1]
  }

  /**
   * After any run of assignments, `prevStatus` is the latest status that
   * was replaced while not resting, or the original `prevStatus` if every
   * replaced status was resting.
   */
  lemma {:induction false} PrevIsLatestActive(status: Option<UploadStatus>, prev: Option<UploadStatus>,
                                              written: seq<Option<UploadStatus>>)
    requires written != []
    ensures PrevAfterAssignments(status, prev, written) == LatestActive([status] + written[..|written| - 1], prev)
    decreases |written|
  {
    if |written| == 1 {
      assert [status] + written[..0] == [status];
      assert [status][..0] == [];
    } else {
      var rest := written[1..];
      PrevIsLatestActive(written[0], PrevStatusAfter(status, prev), rest);
      var replaced := [status] + written[..|written| - 1];
      assert replaced == [status] + ([written[0]] + rest[..|rest| - 1]);
      LatestActiveCons(status, [written[0]] + rest[..|rest| - 1], prev);
    }
  }

  lemma {:induction false} LatestActiveCons(first: Option<UploadStatus>, values: seq<Option<UploadStatus>>,
                                            prev: Option<UploadStatus>)
    ensures LatestActive([first] + values, prev) == LatestActive(values, PrevStatusAfter(first, prev))
    decreases |values|
  {
    if values == [] {
      assert [first] + values == [first];
      assert [first][..0] == [];
    } else {
      var all := [first] + values;
      assert all[..|all| - 1] == [first] + values[..|values| - 1];
      assert all[|all| - 1] == values[|values| - 1];
      LatestActiveCons(first, values[..|values| - 1], prev);
    }
  }

  // ---------------------------------------------------------------------
  // The keyed container of `encode(to:)` / `init(from:)`

  datatype CodingKey =
    | IdKey | FileTypeKey | FilePathKey | UploadLocationKey | PartialUploadLocationsKey
    | MergingRequestIdKey | CurrentSessionTasksIdKey | ContentLengthKey | UploadLengthKey
    | UploadOffsetKey | CustomHeadersKey | StatusKey | PrevStatusKey | ChunkSizeKey
    | CurrentChunkPositionKey | MetadataKey

  /** An encoded value: a string, a string list, a string dictionary, or the partial states. */
  datatype Coded =
    | Text(text: string)
    | TextList(texts: seq<string>)
    | TextMap(entries: map<string, string>)
    | Partials(states: seq<PartialUploadState>)

  type Container = map<CodingKey, Coded>

  function TextOf(s: Option<string>): Option<Coded> {
    if s.Some? then Some(Text(s.value)) else None
  }

  function RawOf(s: Option<UploadStatus>): Option<Coded> {
    if s.Some? then Some(Text(ToRaw(s.value))) else None
  }

  /**
   * What `encode(to:)` writes under each key: id, partial upload locations,
   * task ids and metadata always; every optional field only when present
   * (`encodeIfPresent`); statuses as their raw strings; the chunk keys never.
   */
  function EncodedValue(r: UploadRecord, key: CodingKey): Option<Coded> {
    match key
    case IdKey => Some(Text(r.id))
    case FileTypeKey => TextOf(r.fileType)
    case FilePathKey => TextOf(r.filePath)
    case UploadLocationKey => TextOf(r.uploadLocation)
    case PartialUploadLocationsKey => Some(Partials(r.partialUploadLocations))
    case MergingRequestIdKey => TextOf(r.mergingRequestId)
    case CurrentSessionTasksIdKey => Some(TextList(r.currentSessionTasksId))
    case ContentLengthKey => TextOf(r.contentLength)
    case UploadLengthKey => TextOf(r.uploadLength)
    case UploadOffsetKey => TextOf(r.uploadOffset)
    case CustomHeadersKey => if r.customHeaders.Some? then Some(TextMap(r.customHeaders.value)) else None
    case StatusKey => RawOf(r.status)
    case PrevStatusKey => RawOf(r.prevStatus)
    case ChunkSizeKey => None
    case CurrentChunkPositionKey => None
    case MetadataKey => Some(TextMap(r.metadata))
  }

  const AllKeys: set<CodingKey> :=
    {IdKey, FileTypeKey, FilePathKey, UploadLocationKey, PartialUploadLocationsKey,
     MergingRequestIdKey, CurrentSessionTasksIdKey, ContentLengthKey, UploadLengthKey,
     UploadOffsetKey, CustomHeadersKey, StatusKey, PrevStatusKey, ChunkSizeKey,
     CurrentChunkPositionKey, MetadataKey}

  /** `encode(to:)`. */
  function Encode(r: UploadRecord): (c: Container)
    ensures forall k :: k in c <==> EncodedValue(r, k).Some?
    ensures forall k :: k in c ==> c[k] == EncodedValue(r, k).value
  {
    map k | k in AllKeys && EncodedValue(r, k).Some? :: EncodedValue(r, k).value
  }

  /** `decode(String.self, forKey:)`: fails unless the key holds a string. */
  function DecodeText(c: Container, key: CodingKey): Option<string> {
    if key in c && c[key].Text? then Some(c[key].text) else None
  }

  /**
   * `decodeIfPresent(String.self, forKey:)`: `Some(None)` when the key is
   * absent, `Some(Some(s))` for a string, and a failure (`None`) otherwise.
   */
  function DecodeTextIfPresent(c: Container, key: CodingKey): Option<Option<string>> {
    if key !in c then Some(None)
    else if c[key].Text? then Some(Some(c[key].text))
    else None
  }

  function DecodeTextList(c: Container, key: CodingKey): Option<seq<string>> {
    if key in c && c[key].TextList? then Some(c[key].texts) else None
  }

  function DecodeTextMap(c: Container, key: CodingKey): Option<map<string, string>> {
    if key in c && c[key].TextMap? then Some(c[key].entries) else None
  }

  function DecodeTextMapIfPresent(c: Container, key: CodingKey): Option<Option<map<string, string>>> {
    if key !in c then Some(None)
    else if c[key].TextMap? then Some(Some(c[key].entries))
    else None
  }

  function DecodePartials(c: Container, key: CodingKey): Option<seq<PartialUploadState>> {
    if key in c && c[key].Partials? then Some(c[key].states) else None
  }

  /** A decoded raw status string: nil when the key is absent or the string is not a status. */
  function StatusOf(raw: Option<string>): Option<UploadStatus> {
    if raw.Some? then FromRaw(raw.value) else None
  }

  /**
   * `init(from:)`: fails when a required key is missing or any key holds a
   * value of the wrong kind; an unrecognised status string becomes nil.
   */
  function Decode(c: Container): (r: Option<UploadRecord>)
    ensures r.Some? ==> IdKey in c && c[IdKey] == Text(r.value.id)
    ensures r.Some? ==> MetadataKey in c && c[MetadataKey] == TextMap(r.value.metadata)
    ensures r.Some? ==> CurrentSessionTasksIdKey in c && c[CurrentSessionTasksIdKey] == TextList(r.value.currentSessionTasksId)
    ensures r.Some? ==> PartialUploadLocationsKey in c && c[PartialUploadLocationsKey] == Partials(r.value.partialUploadLocations)
  {
    var id := DecodeText(c, IdKey);
    var fileType := DecodeTextIfPresent(c, FileTypeKey);
    var filePath := DecodeTextIfPresent(c, FilePathKey);
    var uploadLocation := DecodeTextIfPresent(c, UploadLocationKey);
    var partials := DecodePartials(c, PartialUploadLocationsKey);
    var mergingRequestId := DecodeTextIfPresent(c, MergingRequestIdKey);
    var tasks := DecodeTextList(c, CurrentSessionTasksIdKey);
    var contentLength := DecodeTextIfPresent(c, ContentLengthKey);
    var uploadLength := DecodeTextIfPresent(c, UploadLengthKey);
    var uploadOffset := DecodeTextIfPresent(c, UploadOffsetKey);
    var metadata := DecodeTextMap(c, MetadataKey);
    var customHeaders := DecodeTextMapIfPresent(c, CustomHeadersKey);
    var status := DecodeTextIfPresent(c, StatusKey);
    var prevStatus := DecodeTextIfPresent(c, PrevStatusKey);
    if && id.Some? && fileType.Some? && filePath.Some? && uploadLocation.Some? && partials.Some?
       && mergingRequestId.Some? && tasks.Some? && contentLength.Some? && uploadLength.Some?
       && uploadOffset.Some? && metadata.Some? && customHeaders.Some? && status.Some?
       && prevStatus.Some?
    then
      Some(UploadRecord(id.value, fileType.value, filePath.value, uploadLocation.value, partials.value,
                        mergingRequestId.value, tasks.value, contentLength.value, uploadLength.value,
                        uploadOffset.value, customHeaders.value, StatusOf(status.value),
                        StatusOf(prevStatus.value), metadata.value))
    else None
  }

  /** The raw string stored for an optional status. */
  function RawText(s: Option<UploadStatus>): Option<string> {
    if s.Some? then Some(ToRaw(s.value)) else None
  }

  lemma StatusOfRawText(s: Option<UploadStatus>)
    ensures StatusOf(RawText(s)) == s
  {
    if s.Some? {
      RawRoundTrip(s.value);
    }
  }

  /** `Decode` succeeds with `r` once every key decodes to the matching field of `r`. */
  lemma DecodeFields(c: Container, r: UploadRecord)
    requires DecodeText(c, IdKey) == Some(r.id)
    requires DecodeTextIfPresent(c, FileTypeKey) == Some(r.fileType)
    requires DecodeTextIfPresent(c, FilePathKey) == Some(r.filePath)
    requires DecodeTextIfPresent(c, UploadLocationKey) == Some(r.uploadLocation)
    requires DecodePartials(c, PartialUploadLocationsKey) == Some(r.partialUploadLocations)
    requires DecodeTextIfPresent(c, MergingRequestIdKey) == Some(r.mergingRequestId)
    requires DecodeTextList(c, CurrentSessionTasksIdKey) == Some(r.currentSessionTasksId)
    requires DecodeTextIfPresent(c, ContentLengthKey) == Some(r.contentLength)
    requires DecodeTextIfPresent(c, UploadLengthKey) == Some(r.uploadLength)
    requires DecodeTextIfPresent(c, UploadOffsetKey) == Some(r.uploadOffset)
    requires DecodeTextMap(c, MetadataKey) == Some(r.metadata)
    requires DecodeTextMapIfPresent(c, CustomHeadersKey) == Some(r.customHeaders)
    requires DecodeTextIfPresent(c, StatusKey) == Some(RawText(r.status))
    requires DecodeTextIfPresent(c, PrevStatusKey) == Some(RawText(r.prevStatus))
    ensures Decode(c) == Some(r)
  {
    StatusOfRawText(r.status);
    StatusOfRawText(r.prevStatus);
  }

  /** The optional string fields come back from an encoding as they were. */
  lemma EncodedTextsDecode(r: UploadRecord)
    ensures DecodeTextIfPresent(Encode(r), FileTypeKey) == Some(r.fileType)
    ensures DecodeTextIfPresent(Encode(r), FilePathKey) == Some(r.filePath)
    ensures DecodeTextIfPresent(Encode(r), UploadLocationKey) == Some(r.uploadLocation)
    ensures DecodeTextIfPresent(Encode(r), MergingRequestIdKey) == Some(r.mergingRequestId)
    ensures DecodeTextIfPresent(Encode(r), ContentLengthKey) == Some(r.contentLength)
    ensures DecodeTextIfPresent(Encode(r), UploadLengthKey) == Some(r.uploadLength)
    ensures DecodeTextIfPresent(Encode(r), UploadOffsetKey) == Some(r.uploadOffset)
  {
    var c := Encode(r);
    assert DecodeTextIfPresent(c, FileTypeKey) == Some(r.fileType);
    assert DecodeTextIfPresent(c, FilePathKey) == Some(r.filePath);
    assert DecodeTextIfPresent(c, UploadLocationKey) == Some(r.uploadLocation);
    assert DecodeTextIfPresent(c, MergingRequestIdKey) == Some(r.mergingRequestId);
    assert DecodeTextIfPresent(c, ContentLengthKey) == Some(r.contentLength);
    assert DecodeTextIfPresent(c, UploadLengthKey) == Some(r.uploadLength);
    assert DecodeTextIfPresent(c, UploadOffsetKey) == Some(r.uploadOffset);
  }

  /** The id, lists, dictionaries and raw statuses come back from an encoding as they were. */
  lemma EncodedOthersDecode(r: UploadRecord)
    ensures DecodeText(Encode(r), IdKey) == Some(r.id)
    ensures DecodePartials(Encode(r), PartialUploadLocationsKey) == Some(r.partialUploadLocations)
    ensures DecodeTextList(Encode(r), CurrentSessionTasksIdKey) == Some(r.currentSessionTasksId)
    ensures DecodeTextMap(Encode(r), MetadataKey) == Some(r.metadata)
    ensures DecodeTextMapIfPresent(Encode(r), CustomHeadersKey) == Some(r.customHeaders)
    ensures DecodeTextIfPresent(Encode(r), StatusKey) == Some(RawText(r.status))
    ensures DecodeTextIfPresent(Encode(r), PrevStatusKey) == Some(RawText(r.prevStatus))
  {
    var c := Encode(r);
    assert DecodeText(c, IdKey) == Some(r.id);
    assert DecodePartials(c, PartialUploadLocationsKey) == Some(r.partialUploadLocations);
    assert DecodeTextList(c, CurrentSessionTasksIdKey) == Some(r.currentSessionTasksId);
    assert DecodeTextMap(c, MetadataKey) == Some(r.metadata);
    assert DecodeTextMapIfPresent(c, CustomHeadersKey) == Some(r.customHeaders);
    assert DecodeTextIfPresent(c, StatusKey) == Some(RawText(r.status));
    assert DecodeTextIfPresent(c, PrevStatusKey) == Some(RawText(r.prevStatus));
  }

  /** Decoding what was encoded gives every persisted field back. */
  lemma DecodeEncode(r: UploadRecord)
    ensures Decode(Encode(r)) == Some(r)
  {
    EncodedTextsDecode(r);
    EncodedOthersDecode(r);
    DecodeFields(Encode(r), r);
  }

  /** A stored status string that is not a status decodes to a nil status, not a failure. */
  lemma UnknownStatusDecodesToNil(r: UploadRecord, raw: string)
    requires FromRaw(raw).None?
    ensures Decode(Encode(r)[StatusKey := Text(raw)]).Some?
    ensures Decode(Encode(r)[StatusKey := Text(raw)]).value.status.None?
    ensures Decode(Encode(r)[StatusKey := Text(raw)]).value == r.(status := None)
  {
    var c := Encode(r)[StatusKey := Text(raw)];
    DecodeEncode(r);
    assert DecodeTextIfPresent(c, StatusKey) == Some(Some(raw));
    if r.prevStatus.Some? {
      RawRoundTrip(r.prevStatus.value);
    }
  }

  /** The same for `prevStatus`: an unknown string decodes to a nil `prevStatus`, and every other field is kept. */
  lemma UnknownPrevStatusDecodesToNil(r: UploadRecord, raw: string)
    requires FromRaw(raw).None?
    ensures Decode(Encode(r)[PrevStatusKey := Text(raw)]).Some?
    ensures Decode(Encode(r)[PrevStatusKey := Text(raw)]).value.prevStatus.None?
    ensures Decode(Encode(r)[PrevStatusKey := Text(raw)]).value == r.(prevStatus := None)
  {
    var c := Encode(r)[PrevStatusKey := Text(raw)];
    DecodeEncode(r);
    assert DecodeTextIfPresent(c, PrevStatusKey) == Some(Some(raw));
    if r.status.Some? {
      RawRoundTrip(r.status.value);
    }
  }

  // ---------------------------------------------------------------------
  // The `Upload-Metadata` value: comma-joined `key base64(value)` items

  /** `order` lists every key of `keys` exactly once. */
  ghost predicate Enumerates(order: seq<string>, keys: set<string>) {
    && (forall k :: k in keys <==> k in order)
    && (forall i, j :: 0 <= i < j < |order| ==> order[i] != order[j])
  }

  function MetadataItems(order: seq<string>, m: map<string, string>, toBase64: string -> string): (items: seq<string>)
    requires forall i :: 0 <= i < |order| ==> order[i] in m
  {
    seq(|order|, i requires 0 <= i < |order| => order[i] + " " + toBase64(m[order[i]]))
  }

  /** `joined(separator:)`. */
  function Join(items: seq<string>, sep: char): string {
    if items == [] then ""
    else if |items| == 1 then items[0]
    else items[0] + [sep] + Join(items[1..], sep)
  }

  /** `firstIndex(of:)` on a sequence that holds `x`. */
  function IndexOf<T(==)>(s: seq<T>, x: T): (i: nat)
    requires x in s
    ensures i < |s| && s[i] == x && x !in s[..i]
  {
    if s[0] == x then 0 else 1 + IndexOf(s[1..], x)
  }

  /** `components(separatedBy:)`: the pieces between separators, always at least one. */
  function Split(s: string, sep: char): (parts: seq<string>)
    ensures |parts| >= 1
    decreases |s|
  {
    if sep in s then
      var i := IndexOf(s, sep);
      [s[..i]] + Split(s[i + 1..], sep)
    else [s]
  }

  /** The value of `encodedMetadata` for one enumeration order of the keys. */
  function MetadataString(order: seq<string>, m: map<string, string>, toBase64: string -> string): string
    requires forall i :: 0 <= i < |order| ==> order[i] in m
  {
    Join(MetadataItems(order, m, toBase64), ',')
  }

  /** Joined items whose text holds no separator split back into the same items. */
  lemma {:induction false} SplitJoin(items: seq<string>, sep: char)
    requires |items| >= 1
    requires forall i :: 0 <= i < |items| ==> sep !in items[i]
    ensures Split(Join(items, sep), sep) == items
    decreases |items|
  {
    if |items| > 1 {
      var s := Join(items, sep);
      var n := |items[0]|;
      assert s == items[0] + [sep] + Join(items[1..], sep);
      assert s[n] == sep && s[..n] == items[0];
      var i := IndexOf(s, sep);
      assert i == n;
      assert s[i + 1..] == Join(items[1..], sep);
      SplitJoin(items[1..], sep);
    }
  }

  /**
   * When neither the keys nor the encoded values contain a comma, the
   * metadata value splits back into exactly one `key base64(value)` item
   * per entry, in enumeration order, with no empty trailing item.
   */
  lemma MetadataSplitsIntoItems(order: seq<string>, m: map<string, string>, toBase64: string -> string)
    requires |order| >= 1
    requires forall i :: 0 <= i < |order| ==> order[i] in m
    requires forall k :: k in m ==> ',' !in k && ',' !in toBase64(m[k])
    ensures Split(MetadataString(order, m, toBase64), ',') == MetadataItems(order, m, toBase64)
    ensures |Split(MetadataString(order, m, toBase64), ',')| == |order|
  {
    var items := MetadataItems(order, m, toBase64);
    forall i | 0 <= i < |items|
      ensures ',' !in items[i]
    {
      var k := order[i];
      assert items[i] == k + " " + toBase64(m[k]);
    }
    SplitJoin(items, ',');
  }

  // ---------------------------------------------------------------------
  // The live object

  class Upload {
    const id: string
    var fileType: Option<string>
    /** `filePathURL`, kept as its absolute string. */
    var filePath: Option<string>
    var data: Option<seq<byte>>
    /** `uploadLocationURL`, kept as its absolute string. */
    var uploadLocation: Option<string>
    var partialUploadLocations: seq<PartialUploadState>
    var mergingRequestId: Option<string>
    var currentSessionTasksId: seq<string>
    var contentLength: Option<string>
    var uploadLength: Option<string>
    var uploadOffset: Option<string>
    var customHeaders: Option<map<string, string>>
    var status: Option<UploadStatus>
    var prevStatus: Option<UploadStatus>
    var metadata: map<string, string>

    /** What persisting this object keeps: every field but `data`. */
    function Record(): UploadRecord
      reads this
    {
      UploadRecord(id, fileType, filePath, uploadLocation, partialUploadLocations, mergingRequestId,
                   currentSessionTasksId, contentLength, uploadLength, uploadOffset, customHeaders,
                   status, prevStatus, metadata)
    }

    /**
     * The designated initializer. Its assignment of `status` does not run
     * the observer, so `prevStatus` starts nil; nil lists become empty.
     */
    constructor (id: string, metadata: map<string, string>,
                 filePath: Option<string> := None, fileType: Option<string> := None,
                 data: Option<seq<byte>> := None, uploadLocation: Option<string> := None,
                 partialUploadLocations: Option<seq<PartialUploadState>> := None,
                 mergingRequestId: Option<string> := None,
                 currentSessionTasksId: Option<seq<string>> := None,
                 contentLength: Option<string> := None, uploadLength: Option<string> := None,
                 uploadOffset: Option<string> := None,
                 customHeaders: Option<map<string, string>> := None,
                 status: Option<UploadStatus> := None)
      ensures Record() == UploadRecord(id, fileType, filePath, uploadLocation,
                                       partialUploadLocations.GetOr([]), mergingRequestId,
                                       currentSessionTasksId.GetOr([]), contentLength, uploadLength,
                                       uploadOffset, customHeaders, status, None, metadata)
      ensures this.data == data
      ensures this.prevStatus.None?
    {
      this.id := id;
      this.metadata := metadata;
      this.filePath := filePath;
      this.fileType := fileType;
      this.data := data;
      this.uploadLocation := uploadLocation;
      this.partialUploadLocations := partialUploadLocations.GetOr([]);
      this.mergingRequestId := mergingRequestId;
      this.currentSessionTasksId := currentSessionTasksId.GetOr([]);
      this.contentLength := contentLength;
      this.uploadLength := uploadLength;
      this.uploadOffset := uploadOffset;
      this.customHeaders := customHeaders;
      this.status := status;
      this.prevStatus := None;
    }

    /** The convenience initializer: no metadata and no other field set. */
    constructor WithFile(id: string, filePath: Option<string> := None, fileType: Option<string> := None)
      ensures Record() == UploadRecord(id, fileType, filePath, None, [], None, [], None, None, None,
                                       None, None, None, map[])
      ensures data.None?
    {
      this.id := id;
      metadata := map[];
      this.filePath := filePath;
      this.fileType := fileType;
      data := None;
      uploadLocation := None;
      partialUploadLocations := [];
      mergingRequestId := None;
      currentSessionTasksId := [];
      contentLength := None;
      uploadLength := None;
      uploadOffset := None;
      customHeaders := None;
      status := None;
      prevStatus := None;
    }

    /** The object `init(from:)` builds from a decoded record: no `data`. */
    constructor FromRecord(r: UploadRecord)
      ensures Record() == r && data.None?
    {
      id := r.id;
      fileType := r.fileType;
      filePath := r.filePath;
      data := None;
      uploadLocation := r.uploadLocation;
      partialUploadLocations := r.partialUploadLocations;
      mergingRequestId := r.mergingRequestId;
      currentSessionTasksId := r.currentSessionTasksId;
      contentLength := r.contentLength;
      uploadLength := r.uploadLength;
      uploadOffset := r.uploadOffset;
      customHeaders := r.customHeaders;
      status := r.status;
      prevStatus := r.prevStatus;
      metadata := r.metadata;
    }

    /** Assigning `status` outside an initializer, with its `didSet` observer. */
    method SetStatus(s: Option<UploadStatus>)
      modifies this`status, this`prevStatus
      ensures status == s
      ensures prevStatus == PrevStatusAfter(old(status), old(prevStatus))
    {
      var oldValue := status;
      status := s;
      if !IsResting(oldValue) {
        prevStatus := oldValue;
      }
    }

    /**
     * `encodedMetadata`: stores `filename` = id into the metadata (replacing
     * any caller value, and kept after the call), then joins one
     * `key base64(value)` item per entry with ",". Dictionary order is
     * unspecified, so the items come in some enumeration `order` of the keys.
     */
    method EncodedMetadata(toBase64: string -> string) returns (encoded: string, ghost order: seq<string>)
      modifies this`metadata
      ensures metadata == old(metadata)["filename" := id]
      ensures Enumerates(order, metadata.Keys)
      ensures forall i :: 0 <= i < |order| ==> order[i] in metadata
      ensures encoded == MetadataString(order, metadata, toBase64)
    {
      metadata := metadata["filename" := id];
      var items: seq<string> := [];
      var remaining := metadata.Keys;
      order := [];
      while remaining != {}
        invariant remaining <= metadata.Keys
        invariant forall k :: k in metadata ==> (k in remaining <==> k !in order)
        invariant forall i :: 0 <= i < |order| ==> order[i] in metadata
        invariant forall i, j :: 0 <= i < j < |order| ==> order[i] != order[j]
        invariant items == MetadataItems(order, metadata, toBase64)
        decreases remaining
      {
        var key :| key in remaining;
        items := items + [key + " " + toBase64(metadata[key])];
        order := order + [key];
        remaining := remaining - {key};
      }
      encoded := Join(items, ',');
    }
  }
}
