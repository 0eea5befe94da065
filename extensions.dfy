// The query strings and request targets of the REST extension and resource
// installers (config/extensions.go). Unlike the `util` builders, `mapToParams`
// escapes nothing and keeps entries whose value is "".
module Extensions {
  import opened Common
  import opened Util
  import opened Targets

  /**
   * `mapToParams`: "?" and then every option as `key=value`, with no separator
   * right after the bare "?" and "&" before every later pair. `options` is the
   * map's entries in the order the range loop visits them.
   */
  method MapToParams(options: seq<(string, string)>) returns (params: string)
    ensures params == AppendAll("?", RawSegments(options))
  {
    ghost var segs := RawSegments(options);
    params := "?";
    var i := 0;
    while i < |options|
      invariant 0 <= i <= |options|
      invariant AppendAll(params, segs[i..]) == AppendAll("?", segs)
    {
      var separator := "&";
      if params == "?" {
        separator := "";
      }
      assert segs[i..][1..] == segs[i + 1..];
      assert segs[i] == options[i].0 + "=" + options[i].1;
      params := params + separator + (options[i].0 + "=" + options[i].1);
      i := i + 1;
    }
  }

  /**
   * The text written: "?" alone for no options; otherwise "?" directly
   * followed by the first pair, and "&" between later pairs.
   */
  lemma MapToParamsText(options: seq<(string, string)>)
    ensures options == [] ==> AppendAll("?", RawSegments(options)) == "?"
    ensures options != [] ==> AppendAll("?", RawSegments(options)) == "?" + Join(RawSegments(options), "&")
  {
    var segs := RawSegments(options);
    forall i | 0 <= i < |segs| ensures segs[i] != "" {
      assert segs[i][|options[i].0|] == '=';
    }
    AppendAllClosedForm("?", segs);
    assert Separator("?") == "";
  }

  /**
   * When no key or value holds '&', the server reads back one unescaped
   * `key=value` per option, in the loop's order, empty values included.
   */
  lemma MapToParamsReadBack(options: seq<(string, string)>)
    requires forall i :: 0 <= i < |options| ==> '&' !in options[i].0 && '&' !in options[i].1
    ensures QuerySegments(AppendAll("?", RawSegments(options))) == RawSegments(options)
    ensures |QuerySegments(AppendAll("?", RawSegments(options)))| == |options|
  {
    RawSegmentsWellFormed(options);
    AppendAllReadBack("?", RawSegments(options));
    QuerySegmentsOfQuestion();
  }

  /** A target `path` + `mapToParams(options)` has that path and reads back the options. */
  lemma OptionsTarget(path: string, options: seq<(string, string)>)
    requires '?' !in path
    requires forall i :: 0 <= i < |options| ==> '&' !in options[i].0 && '&' !in options[i].1
    ensures PathPart(path + AppendAll("?", RawSegments(options))) == path
    ensures QuerySegments(QueryPart(path + AppendAll("?", RawSegments(options)))) == RawSegments(options)
  {
    var q := AppendAll("?", RawSegments(options));
    MapToParamsText(options);
    assert q[0] == '?';
    SplitTarget(path, q);
    MapToParamsReadBack(options);
  }

  /** `createExtension`: PUT to "/ext" + asset name + options, typed `application/<extensionType>`. */
  method CreateExtension(assetName: string, extensionType: string, options: seq<(string, string)>)
    returns (target: string, contentType: string)
    ensures target == "/ext" + assetName + AppendAll("?", RawSegments(options))
    ensures contentType == "application/" + extensionType
  {
    var params := MapToParams(options);
    target := "/ext" + assetName + params;
    contentType := "application/" + extensionType;
  }

  /** `createResource`: PUT to "/config/resources/" + name + options, typed like an extension. */
  method CreateResource(name: string, extensionType: string, options: seq<(string, string)>)
    returns (target: string, contentType: string)
    ensures target == "/config/resources/" + name + AppendAll("?", RawSegments(options))
    ensures contentType == "application/" + extensionType
  {
    var params := MapToParams(options);
    target := "/config/resources/" + name + params;
    contentType := "application/" + extensionType;
  }

  /** The server sees the extension's path and exactly the options, whatever their order. */
  lemma ExtensionTarget(assetName: string, options: seq<(string, string)>)
    requires '?' !in assetName
    requires forall i :: 0 <= i < |options| ==> '&' !in options[i].0 && '&' !in options[i].1
    ensures PathPart("/ext" + assetName + AppendAll("?", RawSegments(options))) == "/ext" + assetName
    ensures QuerySegments(QueryPart("/ext" + assetName + AppendAll("?", RawSegments(options))))
         == RawSegments(options)
  {
    OptionsTarget("/ext" + assetName, options);
  }

  /** The server sees the resource's path and exactly the options. */
  lemma ResourceTarget(name: string, options: seq<(string, string)>)
    requires '?' !in name
    requires forall i :: 0 <= i < |options| ==> '&' !in options[i].0 && '&' !in options[i].1
    ensures PathPart("/config/resources/" + name + AppendAll("?", RawSegments(options)))
         == "/config/resources/" + name
    ensures QuerySegments(QueryPart("/config/resources/" + name + AppendAll("?", RawSegments(options))))
         == RawSegments(options)
  {
    OptionsTarget("/config/resources/" + name, options);
  }
}
