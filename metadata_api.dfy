// The query strings of the metadata extraction and validation endpoints
// (metadata/metadata.go). URIs are escaped and each one is written after "&",
// even the first; options go through `MappedParameters` with no prefix.
module MetadataApi {
  import opened Common
  import opened Util
  import opened Targets

  /** The URI loop: "?" and then "&uri=<escaped>" per URI, in order. */
  method UriParameters(uris: seq<string>) returns (params: string)
    ensures params == "?" + AmpEach(RepeatingSegments("uri", uris))
  {
    params := KeyedParameters("uri", uris);
  }

  /** "?" and then "&key=<escaped>" per value, in order. */
  method KeyedParameters(key: string, values: seq<string>) returns (params: string)
    ensures params == "?" + AmpEach(RepeatingSegments(key, values))
  {
    ghost var segs := RepeatingSegments(key, values);
    params := "?";
    var i := 0;
    while i < |values|
      invariant 0 <= i <= |values|
      invariant params + AmpEach(segs[i..]) == "?" + AmpEach(segs)
    {
      SliceStep(segs, i);
      AmpEachUnfold(params, segs[i..]);
      assert segs[i] == Param(key, values[i]);
      params := params + "&" + Param(key, values[i]);
      i := i + 1;
    }
    assert segs[i..] == [];
  }

  /** Options, when the map is not nil, appended with `MappedParameters(params, "", options)`. */
  function WithOptions(params: string, options: Option<seq<(string, string)>>): string
  {
    if options.Some? then AppendAll(params, MappedSegments("", options.value)) else params
  }

  /** The parameters the options become; none for a nil map. */
  function OptionSegments(options: Option<seq<(string, string)>>): seq<string>
  {
    if options.Some? then MappedSegments("", options.value) else []
  }

  method AddOptions(params: string, options: Option<seq<(string, string)>>) returns (r: string)
    ensures r == WithOptions(params, options)
  {
    r := params;
    if options.Some? {
      r := MappedParameters(r, "", options.value);
    }
  }

  /** `extractMetadata`: GET "/metadata" with the URIs and then the options. */
  method ExtractMetadata(uris: seq<string>, options: Option<seq<(string, string)>>) returns (target: string)
    ensures target == "/metadata" + WithOptions("?" + AmpEach(RepeatingSegments("uri", uris)), options)
  {
    var params := UriParameters(uris);
    params := AddOptions(params, options);
    target := "/metadata" + params;
  }

  /** `extractMetadataFromQuery`: POST to "/metadata/query" with only the options. */
  method ExtractMetadataFromQuery(options: Option<seq<(string, string)>>) returns (target: string)
    ensures target == "/metadata/query" + WithOptions("?", options)
  {
    var params := AddOptions("?", options);
    target := "/metadata/query" + params;
  }

  /** `validateDocuments`: POST to "/metadata/validate" with the URIs. */
  method ValidateDocuments(uris: seq<string>) returns (target: string)
    ensures target == "/metadata/validate" + "?" + AmpEach(RepeatingSegments("uri", uris))
  {
    var params := UriParameters(uris);
    target := "/metadata/validate" + params;
  }

  /** `validateQuery`: a fixed query, and the serialised rules in the X-Validation-Rules header. */
  method ValidateQuery(serializedRules: string) returns (target: string, header: (string, string))
    ensures target == "/metadata/query-validate" + "?validate=true"
    ensures header == ("X-Validation-Rules", serializedRules)
  {
    var params := "?validate=true";
    target := "/metadata/query-validate" + params;
    header := ("X-Validation-Rules", serializedRules);
  }

  /** `extractMetadataFromURI`: GET "/metadata/document" with one URI and then the options. */
  method ExtractMetadataFromUri(uri: string, options: Option<seq<(string, string)>>) returns (target: string)
    ensures target == "/metadata/document" + WithOptions("?" + Param("uri", uri), options)
  {
    var params := "?" + Param("uri", uri);
    params := AddOptions(params, options);
    target := "/metadata/document" + params;
  }

  /** `validateURI`: POST to "/metadata/validate-document" with one URI. */
  method ValidateUri(uri: string) returns (target: string)
    ensures target == "/metadata/validate-document" + "?" + Param("uri", uri)
  {
    target := "/metadata/validate-document" + ("?" + Param("uri", uri));
  }

  /**
   * The text of the URI list: "?" alone for none, and "?&uri=…" for the first
   * URI, since "&" is written before every URI.
   */
  lemma UriListText(uris: seq<string>)
    ensures uris == [] ==> "?" + AmpEach(RepeatingSegments("uri", uris)) == "?"
    ensures uris != [] ==> "?&" + Param("uri", uris[0]) <= "?" + AmpEach(RepeatingSegments("uri", uris))
  {
    KeyedText("uri", uris);
  }

  lemma KeyedText(key: string, values: seq<string>)
    ensures values == [] ==> "?" + AmpEach(RepeatingSegments(key, values)) == "?"
    ensures values != [] ==> "?&" + Param(key, values[0]) <= "?" + AmpEach(RepeatingSegments(key, values))
  {
    var segs := RepeatingSegments(key, values);
    if values != [] {
      AmpEachUnfold("?", segs);
      QuestionAmpLeads(segs[0], AmpEach(segs[1..]));
    }
  }

  lemma QuestionAmpLeads(first: string, rest: string)
    ensures "?&" + first <= "?" + "&" + first + rest
  {
    assert "?" + "&" == "?&";
    assert "?" + "&" + first + rest == ("?&" + first) + rest;
  }

  /** With no URIs, the first option that is written follows "?" with no separator. */
  lemma NoUrisFirstOption(options: Option<seq<(string, string)>>)
    requires OptionSegments(options) != []
    ensures "?" + OptionSegments(options)[0] <= WithOptions("?" + AmpEach(RepeatingSegments("uri", [])), options)
  {
    var segs := OptionSegments(options);
    assert "?" + AmpEach(RepeatingSegments("uri", [])) == "?";
    assert Separator("?") == "";
    assert AppendAll("?", segs) == AppendAll("?" + "" + segs[0], segs[1..]);
    AppendAllExtends("?" + "" + segs[0], segs[1..]);
  }

  /** Keys of the options hold no '&'. */
  predicate PlainKeys(options: Option<seq<(string, string)>>)
  {
    options.Some? ==> forall i :: 0 <= i < |options.value| ==> '&' !in options.value[i].0
  }

  /** The server reads every URI, escaped and in order, and then the non-empty options. */
  lemma ExtractMetadataReadBack(uris: seq<string>, options: Option<seq<(string, string)>>)
    requires PlainKeys(options)
    ensures QuerySegments(WithOptions("?" + AmpEach(RepeatingSegments("uri", uris)), options))
         == RepeatingSegments("uri", uris) + OptionSegments(options)
  {
    KeyedReadBack("uri", uris, options);
  }

  lemma KeyedReadBack(key: string, values: seq<string>, options: Option<seq<(string, string)>>)
    requires '&' !in key
    requires PlainKeys(options)
    ensures QuerySegments(WithOptions("?" + AmpEach(RepeatingSegments(key, values)), options))
         == RepeatingSegments(key, values) + OptionSegments(options)
  {
    var segs := RepeatingSegments(key, values);
    KeyedListReadBack(key, values);
    if options.Some? {
      MappedReadBack("?" + AmpEach(segs), "", options.value);
    }
  }

  lemma KeyedListReadBack(key: string, values: seq<string>)
    requires '&' !in key
    ensures QuerySegments("?" + AmpEach(RepeatingSegments(key, values))) == RepeatingSegments(key, values)
  {
    var segs := RepeatingSegments(key, values);
    forall i | 0 <= i < |segs| ensures segs[i] != "" && '&' !in segs[i] {
      ParamIsSegment(key, values[i]);
    }
    AmpEachReadBack("?", segs);
    QuerySegmentsOfQuestion();
  }

  /** The single-URI form reads back as that URI and then the options. */
  lemma ExtractMetadataFromUriReadBack(uri: string, options: Option<seq<(string, string)>>)
    requires PlainKeys(options)
    ensures QuerySegments(WithOptions("?" + Param("uri", uri), options)) == [Param("uri", uri)] + OptionSegments(options)
  {
    ParamIsSegment("uri", uri);
    QuerySegmentsQuestion(Param("uri", uri));
    if options.Some? {
      MappedReadBack("?" + Param("uri", uri), "", options.value);
    }
  }

  /** Any two visiting orders of the same options give the same parameters. */
  lemma OptionsOrderFree(uris: seq<string>, o1: seq<(string, string)>, o2: seq<(string, string)>)
    requires multiset(o1) == multiset(o2)
    requires PlainKeys(Some(o1)) && PlainKeys(Some(o2))
    ensures multiset(QuerySegments(WithOptions("?" + AmpEach(RepeatingSegments("uri", uris)), Some(o1))))
         == multiset(QuerySegments(WithOptions("?" + AmpEach(RepeatingSegments("uri", uris)), Some(o2))))
  {
    ExtractMetadataReadBack(uris, Some(o1));
    ExtractMetadataReadBack(uris, Some(o2));
    MappedSegmentsOrderFree("", o1, o2);
  }
}
