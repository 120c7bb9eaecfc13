/** TUSUploadStatus: the ten lifecycle states of an upload and their raw strings. */
module TusUploadStatus {
  import opened Wrappers

  datatype UploadStatus =
    | New | Created | Enqueued | Ready | Uploading
    | AuthRequired | Error | Paused | Canceled | Finished

  /** Every status, in declaration order. */
  const AllStatuses: seq<UploadStatus> :=
    [New, Created, Enqueued, Ready, Uploading, AuthRequired, Error, Paused, Canceled, Finished]

  /** `rawValue`: each status is written as its case name, except `authRequired`. */
  function ToRaw(s: UploadStatus): (raw: string)
  {
    match s
    case New => "new"
    case Created => "created"
    case Enqueued => "enqueued"
    case Ready => "ready"
    case Uploading => "uploading"
    case AuthRequired => "auth_required"
    case Error => "error"
    case Paused => "paused"
    case Canceled => "canceled"
    case Finished => "finished"
  }

  /** `init(rawValue:)`: nil for any string outside the ten raw values. */
  function FromRaw(raw: string): (r: Option<UploadStatus>)
    ensures r.Some? ==> ToRaw(r.value) == raw
    ensures r.None? ==> forall s :: ToRaw(s) != raw
  {
    if raw == "new" then Some(New)
    else if raw == "created" then Some(Created)
    else if raw == "enqueued" then Some(Enqueued)
    else if raw == "ready" then Some(Ready)
    else if raw == "uploading" then Some(Uploading)
    else if raw == "auth_required" then Some(AuthRequired)
    else if raw == "error" then Some(Error)
    else if raw == "paused" then Some(Paused)
    else if raw == "canceled" then Some(Canceled)
    else if raw == "finished" then Some(Finished)
    else None
  }

  /** There are exactly ten statuses and the list names each once. */
  lemma ExactlyTenStatuses(s: UploadStatus)
    ensures s in AllStatuses
    ensures |AllStatuses| == 10
    ensures forall i, j :: 0 <= i < j < |AllStatuses| ==> AllStatuses[i] != AllStatuses[j]
  {
  }

  /** Decoding the raw string of a status gives that status back. */
  lemma RawRoundTrip(s: UploadStatus)
    ensures FromRaw(ToRaw(s)) == Some(s)
  {
  }

  /** Distinct statuses have distinct raw strings. */
  lemma ToRawInjective(s: UploadStatus, t: UploadStatus)
    requires ToRaw(s) == ToRaw(t)
    ensures s == t
  {
    assert FromRaw(ToRaw(s)) == Some(s);
  }

  /**
   * `authRequired` is the one status whose raw string is snake case; every
   * raw string is lower-case letters and underscores.
   */
  lemma OnlyAuthRequiredIsSnakeCase(s: UploadStatus)
    ensures ToRaw(AuthRequired) == "auth_required"
    ensures '_' in ToRaw(s) <==> s == AuthRequired
    ensures forall i :: 0 <= i < |ToRaw(s)| ==> 'a' <= ToRaw(s)[i] <= 'z' || ToRaw(s)[i] == '_'
  {
  }

  /** A string that is not one of the raw values, such as "auth-required", decodes to nil. */
  lemma UnknownRawRejected()
    ensures FromRaw("auth-required") == None
    ensures FromRaw("authRequired") == None
    ensures FromRaw("") == None
  {
  }
}
