/** TUSConfig: endpoint, session configuration, headers and the server's advertised extensions. */
module TusConfig {
  import opened Wrappers
  import opened TusExtension

  /** TUSLogLevel, only as the type of the `logLevel` setting. */
  datatype LogLevel = Off | Trace | Debug | Info | Notice | Warn | Error | Critical | All

  /** The part of a URLSessionConfiguration the client observes: its identifier. */
  datatype SessionConfig = SessionConfig(identifier: Option<string>)

  /**
   * The getter's `compactMap`: each stored name that is an extension's raw
   * name becomes that extension, in stored order; other names are dropped.
   */
  function ParseExtensions(names: seq<string>): (exts: seq<Extension>)
    ensures |exts| <= |names|
    ensures forall i :: 0 <= i < |exts| ==> ToRaw(exts[i]) in names
  {
    if names == [] then []
    else
      var rest := ParseExtensions(names[1..]);
      match FromRaw(names[0])
      case Some(e) => [e] + rest
      case None => rest
  }

  /** The setter's `compactMap { $0.rawValue }`: the names, in list order. */
  function RawNames(exts: seq<Extension>): (names: seq<string>)
    ensures |names| == |exts|
    ensures forall i :: 0 <= i < |exts| ==> names[i] == ToRaw(exts[i])
  {
    if exts == [] then [] else [ToRaw(exts[0])] + RawNames(exts[1..])
  }

  /** Storing a list of extensions and reading it back gives the same list. */
  lemma {:induction false} ParseRawNames(exts: seq<Extension>)
    ensures ParseExtensions(RawNames(exts)) == exts
  {
    if exts != [] {
      var names := RawNames(exts);
      assert names[1..] == RawNames(exts[1..]);
      RawRoundTrip(exts[0]);
      ParseRawNames(exts[1..]);
    }
  }

  /** Parsing keeps order across a split of the stored list: it is a filter-map. */
  lemma {:induction false} ParseConcat(a: seq<string>, b: seq<string>)
    ensures ParseExtensions(a + b) == ParseExtensions(a) + ParseExtensions(b)
  {
    if a != [] {
      assert (a + b)[1..] == a[1..] + b;
      ParseConcat(a[1..], b);
    } else {
      assert a + b == b;
    }
  }

  /** An unrecognised name, such as "foo", contributes nothing. */
  lemma ParseDropsUnknown(a: seq<string>, name: string, b: seq<string>)
    requires FromRaw(name).None?
    ensures ParseExtensions(a + [name] + b) == ParseExtensions(a) + ParseExtensions(b)
  {
    var single := [name];
    assert single[1..] == [];
    assert ParseExtensions(single) == [];
    ParseConcat(a, single);
    ParseConcat(a + single, b);
  }

  class Config {
    const uploadURL: string
    const sessionConfig: SessionConfig
    const initialHeaders: map<string, string>
    var logLevel: LogLevel
    var concatModeIfAvailable: bool
    /** The list of names kept in the defaults store under the capabilities key, if any. */
    var storedExtensions: Option<seq<string>>

    /**
     * `init(withUploadURL:andSessionConfig:withCustomHeaders:)`: keeps its
     * arguments as given; `stored` is what the defaults store already holds.
     */
    constructor (uploadURL: string, sessionConfig: SessionConfig := SessionConfig(None),
                 initialHeaders: map<string, string> := map[], stored: Option<seq<string>> := None)
      ensures this.uploadURL == uploadURL
      ensures this.sessionConfig == sessionConfig
      ensures this.initialHeaders == initialHeaders
      ensures logLevel == Off && !concatModeIfAvailable
      ensures storedExtensions == stored
    {
      this.uploadURL := uploadURL;
      this.sessionConfig := sessionConfig;
      this.initialHeaders := initialHeaders;
      logLevel := Off;
      concatModeIfAvailable := false;
      storedExtensions := stored;
    }

    /** The `availableExtensions` getter: empty when nothing is stored. */
    function AvailableExtensions(): (exts: seq<Extension>)
      reads this
      ensures storedExtensions.None? ==> exts == []
      ensures storedExtensions.Some? ==> |exts| <= |storedExtensions.value|
      ensures forall i :: 0 <= i < |exts| ==> ToRaw(exts[i]) in storedExtensions.value
    {
      match storedExtensions
      case None => []
      case Some(names) => ParseExtensions(names)
    }

    /** The `availableExtensions` setter. A read after it gives the list back. */
    method SetAvailableExtensions(exts: seq<Extension>)
      modifies this`storedExtensions
      ensures storedExtensions == Some(RawNames(exts))
      ensures AvailableExtensions() == exts
    {
      storedExtensions := Some(RawNames(exts));
      ParseRawNames(exts);
    }
  }
}
