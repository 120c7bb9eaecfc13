/** TUSExtension: the nine protocol extensions of tus 1.0.0 and their names. */
module TusExtension {
  import opened Wrappers

  datatype Extension =
    | Creation | CreationDeferLength | CreationWithUpload
    | Expiration | Checksum | ChecksumTrailer
    | Termination | Concatenation | ConcatenationUnfinished

  const AllExtensions: seq<Extension> :=
    [Creation, CreationDeferLength, CreationWithUpload, Expiration, Checksum,
     ChecksumTrailer, Termination, Concatenation, ConcatenationUnfinished]

  /** `rawValue`: the extension's name as advertised in `Tus-Extension`. */
  function ToRaw(e: Extension): (name: string)
  {
    match e
    case Creation => "creation"
    case CreationDeferLength => "creation-defer-length"
    case CreationWithUpload => "creation-with-upload"
    case Expiration => "expiration"
    case Checksum => "checksum"
    case ChecksumTrailer => "checksum-trailer"
    case Termination => "termination"
    case Concatenation => "concatenation"
    case ConcatenationUnfinished => "concatenation-unfinished"
  }

  /** `init(rawValue:)`: nil for any name that is not one of the nine. */
  function FromRaw(name: string): (r: Option<Extension>)
    ensures r.Some? ==> ToRaw(r.value) == name
    ensures r.None? ==> forall e :: ToRaw(e) != name
  {
    if name == "creation" then Some(Creation)
    else if name == "creation-defer-length" then Some(CreationDeferLength)
    else if name == "creation-with-upload" then Some(CreationWithUpload)
    else if name == "expiration" then Some(Expiration)
    else if name == "checksum" then Some(Checksum)
    else if name == "checksum-trailer" then Some(ChecksumTrailer)
    else if name == "termination" then Some(Termination)
    else if name == "concatenation" then Some(Concatenation)
    else if name == "concatenation-unfinished" then Some(ConcatenationUnfinished)
    else None
  }

  lemma ExactlyNineExtensions(e: Extension)
    ensures e in AllExtensions
    ensures |AllExtensions| == 9
    ensures forall i, j :: 0 <= i < j < |AllExtensions| ==> AllExtensions[i] != AllExtensions[j]
  {
  }

  /** Decoding the name of an extension gives that extension back. */
  lemma RawRoundTrip(e: Extension)
    ensures FromRaw(ToRaw(e)) == Some(e)
  {
  }

  /** Distinct extensions have distinct names. */
  lemma ToRawInjective(e: Extension, f: Extension)
    requires ToRaw(e) == ToRaw(f)
    ensures e == f
  {
    assert FromRaw(ToRaw(e)) == Some(e);
  }

  lemma UnknownNameRejected()
    ensures FromRaw("foo") == None
    ensures FromRaw("Creation") == None
    ensures FromRaw("concatenation ") == None
  {
  }
}
