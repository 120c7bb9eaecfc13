/** TUSPartialUploadState: the per-chunk record of the concatenation mode. */
module TusPartialUploadState {
  import opened Wrappers
  import opened TusUploadStatus

  /**
   * A Swift struct, so a value: assigning `localFileURL` yields the same
   * state with a new `localFile`.
   */
  datatype PartialUploadState = PartialUploadState(
    serverURL: Option<string>,
    chunkNumber: Option<int>,
    localFile: Option<string>,
    chunkSize: Option<int>,
    status: Option<UploadStatus>,
    offset: Option<string>,
    creationRequestId: Option<string>,
    offsetRequestPending: bool)

  /** The memberwise default: every optional field nil, no offset request pending. */
  function Default(): (p: PartialUploadState)
    ensures !p.offsetRequestPending
    ensures p.serverURL.None? && p.chunkNumber.None? && p.localFile.None? && p.chunkSize.None?
    ensures p.status.None? && p.offset.None? && p.creationRequestId.None?
  {
    PartialUploadState(None, None, None, None, None, None, None, false)
  }

  /**
   * The `localFileURL` getter: the file store path followed by `localFile`,
   * or nil when there is no local file.
   */
  function LocalFileURL(p: PartialUploadState, storePath: string): (url: Option<string>)
    ensures url.None? <==> p.localFile.None?
    ensures url.Some? ==> |url.value| == |storePath| + |p.localFile.value|
    ensures url.Some? ==> url.value[..|storePath|] == storePath && url.value[|storePath|..] == p.localFile.value
  {
    match p.localFile
    case None => None
    case Some(name) => Some(storePath + name)
  }

  /**
   * The `localFileURL` setter, given the new URL's path components (nil
   * for a nil URL): nil clears `localFile`; fewer than two components
   * leave the state as it was; otherwise `localFile` becomes the last two
   * components joined by "/". No other field changes.
   */
  function WithLocalFileURL(p: PartialUploadState, components: Option<seq<string>>): (q: PartialUploadState)
    ensures q == p.(localFile := q.localFile)
    ensures components.None? ==> q.localFile.None?
    ensures components.Some? && |components.value| <= 1 ==> q == p
    ensures components.Some? && |components.value| > 1 ==>
      var c := components.value;
      q.localFile == Some(c[|c| - 2] + "/" + c[|c| - 1])
  {
    match components
    case None => p.(localFile := None)
    case Some(c) =>
      if |c| > 1 then p.(localFile := Some(c[|c| - 2] + "/" + c[|c| - 1])) else p
  }

  /**
   * Reading the URL back after setting it yields the file store path
   * followed by the last two components.
   */
  lemma SetThenGet(p: PartialUploadState, components: seq<string>, storePath: string)
    requires |components| > 1
    ensures LocalFileURL(WithLocalFileURL(p, Some(components)), storePath)
      == Some(storePath + components[|components| - 2] + "/" + components[|components| - 1])
  {
    var a, b := components[|components| - 2], components[|components| - 1];
    assert storePath + (a + "/" + b) == storePath + a + "/" + b;
  }

  /**
   * Setting a URL whose last two components are the directory and name
   * already kept in `localFile` changes nothing: the rule is idempotent.
   */
  lemma SetKeepsSameLocalFile(p: PartialUploadState, prefix: seq<string>, dir: string, name: string)
    requires p.localFile == Some(dir + "/" + name)
    ensures WithLocalFileURL(p, Some(prefix + [dir, name])) == p
  {
    var c := prefix + [dir, name];
    assert c[|c| - 2] == dir && c[|c| - 1] == name;
  }
}
