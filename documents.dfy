// The parts of the `documents` package that compute rather than talk to the
// server: the query string of the document endpoints (documents/documents.go),
// the part headers of a multipart write, and the metadata record and handle
// (documents/metadata.go).
module Documents {
  import opened Common
  import opened Util
  import Handles
  import Xml

  // ---------------------------------------------------------------------------
  // Documents and their metadata
  // ---------------------------------------------------------------------------

  datatype Permission = Permission(roleName: string, capability: seq<string>)

  /** A document's metadata; the two Go maps are entry lists in range order. */
  datatype Metadata = Metadata(
    collections: seq<string>, permissions: seq<Permission>,
    properties: seq<(string, string)>, metadataValues: seq<(string, string)>, quality: int)

  /** A document to write; its content stream is not part of this model. */
  datatype DocumentDescription = DocumentDescription(uri: string, metadata: Option<Metadata>, format: int, versionID: int)

  /** The URIs of the descriptions, one per description, in order. */
  method ToURIs(docs: seq<DocumentDescription>) returns (uris: seq<string>)
    ensures |uris| == |docs|
    ensures forall i :: 0 <= i < |docs| ==> uris[i] == docs[i].uri
  {
    uris := [];
    var i := 0;
    while i < |docs|
      invariant 0 <= i <= |docs|
      invariant |uris| == i
      invariant forall j :: 0 <= j < i ==> uris[j] == docs[j].uri
    {
      uris := uris + [docs[i].uri];
      i := i + 1;
    }
  }

  // ---------------------------------------------------------------------------
  // buildParameters (documents/documents.go:144-155)
  // ---------------------------------------------------------------------------

  /** What `Transform.ToParameters` writes: "&" and the transform's segments joined by "&". */
  function TransformText(t: Transform): string
  {
    "&" + Join(TransformSegments(t), "&")
  }

  /** The segments appended to "?": uris, categories, collections, then permissions and properties. */
  function DocumentSegments(uris: seq<string>, categories: seq<string>, collections: seq<string>,
                            permissions: seq<(string, string)>, properties: seq<(string, string)>): seq<string>
  {
    RepeatingSegments("uri", uris) + RepeatingSegments("category", categories)
    + RepeatingSegments("collection", collections)
    + MappedSegments("perm", permissions) + MappedSegments("prop", properties)
  }

  function DocumentQuery(uris: seq<string>, categories: seq<string>, collections: seq<string>,
                         permissions: seq<(string, string)>, properties: seq<(string, string)>,
                         transform: Option<Transform>): string
  {
    AppendAll("?", DocumentSegments(uris, categories, collections, permissions, properties))
    + (if transform.Some? then TransformText(transform.value) else "")
  }

  method BuildParameters(uris: seq<string>, categories: seq<string>, collections: seq<string>,
                         permissions: seq<(string, string)>, properties: seq<(string, string)>,
                         transform: Option<Transform>) returns (r: string)
    ensures r == DocumentQuery(uris, categories, collections, permissions, properties, transform)
  {
    r := "?";
    r := RepeatingParameters(r, "uri", uris);
    r := RepeatingParameters(r, "category", categories);
    r := RepeatingParameters(r, "collection", collections);
    r := MappedParameters(r, "perm", permissions);
    r := MappedParameters(r, "prop", properties);
    var s1, s2, s3 := RepeatingSegments("uri", uris), RepeatingSegments("category", categories),
                      RepeatingSegments("collection", collections);
    var s4, s5 := MappedSegments("perm", permissions), MappedSegments("prop", properties);
    AppendAllConcat("?", s1, s2);
    AppendAllConcat("?", s1 + s2, s3);
    AppendAllConcat("?", s1 + s2 + s3, s4);
    AppendAllConcat("?", s1 + s2 + s3 + s4, s5);
    if transform.Some? {
      var text := ToParameters(transform.value);
      r := r + text;
    }
  }

  /** Nothing to send gives a bare "?". */
  lemma EmptyDocumentQuery()
    ensures DocumentQuery([], [], [], [], [], None) == "?"
  {
    assert DocumentSegments([], [], [], [], []) == [];
  }

  /** A transform alone follows the "?" with its own "&": "?&transform=...". */
  lemma TransformOnlyQuery(t: Transform)
    ensures DocumentQuery([], [], [], [], [], Some(t)) == "?" + TransformText(t)
    ensures DocumentQuery([], [], [], [], [], Some(t))[..12] == "?&transform="
  {
    NoDocumentSegments();
    TransformPrefix(t);
    QuestionPrefix(TransformText(t), "&transform=");
  }

  lemma NoDocumentSegments()
    ensures AppendAll("?", DocumentSegments([], [], [], [], [])) == "?"
  {
    assert DocumentSegments([], [], [], [], []) == [];
  }

  lemma QuestionPrefix(text: string, prefix: string)
    requires |text| >= |prefix| && text[..|prefix|] == prefix
    ensures ("?" + text)[..|prefix| + 1] == "?" + prefix
  {
  }

  /**
   * The server reads back every uri, category and collection in order, then the
   * non-empty permissions and properties, then the transform's parameters.
   */
  lemma DocumentQueryReadBack(uris: seq<string>, categories: seq<string>, collections: seq<string>,
                              permissions: seq<(string, string)>, properties: seq<(string, string)>,
                              transform: Option<Transform>)
    requires forall i :: 0 <= i < |permissions| ==> '&' !in permissions[i].0
    requires forall i :: 0 <= i < |properties| ==> '&' !in properties[i].0
    requires transform.Some? ==> forall i :: 0 <= i < |transform.value.parameters| ==> '&' !in transform.value.parameters[i].0
    ensures QuerySegments(DocumentQuery(uris, categories, collections, permissions, properties, transform))
      == DocumentSegments(uris, categories, collections, permissions, properties)
         + (if transform.Some? then TransformSegments(transform.value) else [])
  {
    var segs := DocumentSegments(uris, categories, collections, permissions, properties);
    SegmentsWellFormed(uris, categories, collections, permissions, properties);
    QueryWithTransform(segs, transform);
  }

  lemma QueryWithTransform(segs: seq<string>, transform: Option<Transform>)
    requires forall i :: 0 <= i < |segs| ==> segs[i] != "" && '&' !in segs[i]
    requires transform.Some? ==> forall i :: 0 <= i < |transform.value.parameters| ==> '&' !in transform.value.parameters[i].0
    ensures QuerySegments(AppendAll("?", segs) + (if transform.Some? then TransformText(transform.value) else ""))
      == segs + (if transform.Some? then TransformSegments(transform.value) else [])
  {
    if transform.Some? {
      QueryWithSomeTransform(segs, transform.value);
    } else {
      QueryWithoutTransform(segs);
    }
  }

  lemma QueryWithSomeTransform(segs: seq<string>, t: Transform)
    requires forall i :: 0 <= i < |segs| ==> segs[i] != "" && '&' !in segs[i]
    requires forall i :: 0 <= i < |t.parameters| ==> '&' !in t.parameters[i].0
    ensures QuerySegments(AppendAll("?", segs) + TransformText(t)) == segs + TransformSegments(t)
  {
    QuestionReadBack(segs);
    WithTransformText(AppendAll("?", segs), segs, t);
  }

  lemma QueryWithoutTransform(segs: seq<string>)
    requires forall i :: 0 <= i < |segs| ==> segs[i] != "" && '&' !in segs[i]
    ensures QuerySegments(AppendAll("?", segs) + "") == segs + []
  {
    QuestionReadBack(segs);
    AppendNothing(AppendAll("?", segs));
    AppendNothing(segs);
  }

  lemma QuestionReadBack(segs: seq<string>)
    requires forall i :: 0 <= i < |segs| ==> segs[i] != "" && '&' !in segs[i]
    ensures QuerySegments(AppendAll("?", segs)) == segs
  {
    AppendAllReadBack("?", segs);
    assert QueryBody("?") == "";
  }

  lemma WithTransformText(q: string, segs: seq<string>, t: Transform)
    requires QuerySegments(q) == segs
    requires forall i :: 0 <= i < |t.parameters| ==> '&' !in t.parameters[i].0
    ensures QuerySegments(q + TransformText(t)) == segs + TransformSegments(t)
  {
    TransformReadBack(q, t);
    assert q + TransformText(t) == q + "&" + Join(TransformSegments(t), "&");
  }

  lemma SegmentsWellFormed(uris: seq<string>, categories: seq<string>, collections: seq<string>,
                           permissions: seq<(string, string)>, properties: seq<(string, string)>)
    requires forall i :: 0 <= i < |permissions| ==> '&' !in permissions[i].0
    requires forall i :: 0 <= i < |properties| ==> '&' !in properties[i].0
    ensures var segs := DocumentSegments(uris, categories, collections, permissions, properties);
      forall i :: 0 <= i < |segs| ==> segs[i] != "" && '&' !in segs[i]
  {
    RepeatingWellFormed("uri", uris);
    RepeatingWellFormed("category", categories);
    RepeatingWellFormed("collection", collections);
    MappedSegmentsWellFormed("perm", permissions);
    MappedSegmentsWellFormed("prop", properties);
    var a, b, c := RepeatingSegments("uri", uris), RepeatingSegments("category", categories),
                   RepeatingSegments("collection", collections);
    var d, e := MappedSegments("perm", permissions), MappedSegments("prop", properties);
    ConcatWellFormed(a, b);
    ConcatWellFormed(a + b, c);
    ConcatWellFormed(a + b + c, d);
    ConcatWellFormed(a + b + c + d, e);
  }

  lemma RepeatingWellFormed(valueLabel: string, values: seq<string>)
    requires '&' !in valueLabel
    ensures forall i :: 0 <= i < |RepeatingSegments(valueLabel, values)| ==>
      RepeatingSegments(valueLabel, values)[i] != "" && '&' !in RepeatingSegments(valueLabel, values)[i]
  {
    forall i | 0 <= i < |values| ensures Param(valueLabel, values[i]) != "" && '&' !in Param(valueLabel, values[i]) {
      ParamIsSegment(valueLabel, values[i]);
    }
  }

  lemma ConcatWellFormed(a: seq<string>, b: seq<string>)
    requires forall i :: 0 <= i < |a| ==> a[i] != "" && '&' !in a[i]
    requires forall i :: 0 <= i < |b| ==> b[i] != "" && '&' !in b[i]
    ensures forall i :: 0 <= i < |a + b| ==> (a + b)[i] != "" && '&' !in (a + b)[i]
  {
  }

  // ---------------------------------------------------------------------------
  // writeSet: query string and part headers (documents/documents.go:76-142)
  // ---------------------------------------------------------------------------

  /** Before database and txid: "?" and the transform text when there is a transform, "" otherwise. */
  function WriteSetPrefix(transform: Option<Transform>): string
  {
    if transform.Some? then "?" + TransformText(transform.value) else ""
  }

  /** The write-set query: the prefix, then the database and txid parameters. */
  function WriteSetQuery(transform: Option<Transform>, database: string, txid: Option<string>): string
  {
    AddTxid(AddDatabaseParam(WriteSetPrefix(transform), database), txid)
  }

  method WriteSetParams(transform: Option<Transform>, database: string, transaction: Transaction?, begunId: string)
    returns (r: string)
    modifies transaction
    ensures transaction != null ==>
      transaction.id == (if old(transaction.id) == "" then begunId else old(transaction.id))
    ensures r == WriteSetQuery(transform, database, if transaction == null then None else Some(transaction.id))
  {
    r := "";
    if transform.Some? {
      var text := ToParameters(transform.value);
      r := "?" + text;
    }
    r := AddDatabaseParam(r, database);
    r := AddTransactionParam(r, transaction, begunId);
  }

  /**
   * The server reads the transform's parameters (if any), then the database
   * and txid; without a transform the database follows "?" directly.
   */
  lemma WriteSetReadBack(transform: Option<Transform>, database: string, txid: Option<string>)
    requires transform.Some? ==> forall i :: 0 <= i < |transform.value.parameters| ==> '&' !in transform.value.parameters[i].0
    ensures QuerySegments(AddTxid(AddDatabaseParam(WriteSetPrefix(transform), database), txid))
      == (if transform.Some? then TransformSegments(transform.value) else []) + ExtraSegments(database, txid)
    ensures transform.None? && database != "" ==>
      AddDatabaseParam(WriteSetPrefix(transform), database) == "?" + Param("database", database)
  {
    QuerySegmentsOfQuestion();
    var tsegs := if transform.Some? then TransformSegments(transform.value) else [];
    if transform.Some? {
      WithTransformText("?", [], transform.value);
      assert [] + TransformSegments(transform.value) == tsegs;
    }
    ExtraReadBack(WriteSetPrefix(transform), tsegs, database, txid);
  }

  datatype PartHeader = PartHeader(contentType: string, disposition: string)

  /**
   * The Content-Type chosen for the metadata part and for each document part,
   * as written: the second test repeats the JSON test, so XML falls through.
   */
  function PartContentType(format: int): string
  {
    if format == Handles.JSON then "application/json"
    else if format == Handles.JSON then "application/xml"
    else if format == Handles.TEXTPLAIN then "text/plain"
    else "application/octet-stream"
  }

  /** As written, no part is ever sent as XML: an XML part goes out as an octet stream. */
  lemma PartContentTypeNeverXml(format: int)
    ensures PartContentType(format) != "application/xml"
    ensures PartContentType(Handles.XML) == "application/octet-stream"
  {
  }

  /** The evidently intended choice: the second test is for XML. */
  function IntendedPartContentType(format: int): (r: string)
    ensures r == "application/xml" <==> format == Handles.XML
    ensures r == "application/json" <==> format == Handles.JSON
    ensures r == "text/plain" <==> format == Handles.TEXTPLAIN
  {
    if format == Handles.JSON then "application/json"
    else if format == Handles.XML then "application/xml"
    else if format == Handles.TEXTPLAIN then "text/plain"
    else "application/octet-stream"
  }

  /** The two choices differ for XML and for nothing else. */
  lemma IntendedDiffersOnlyForXml(format: int)
    ensures IntendedPartContentType(format) == PartContentType(format) <==> format != Handles.XML
  {
  }

  /** The Content-Type of a per-document metadata part follows its handle's format: XML or else JSON. */
  function DocMetadataContentType(handleFormat: int): (r: string)
    ensures r == "application/xml" <==> handleFormat == Handles.XML
  {
    if handleFormat == Handles.XML then "application/xml" else "application/json"
  }

  /** A document's content part. */
  function ContentPart(doc: DocumentDescription): PartHeader
  {
    PartHeader(PartContentType(doc.format), "attachment; filename=\"" + doc.uri + "\"")
  }

  /** The content parts of the documents, in order. */
  function ContentParts(docs: seq<DocumentDescription>): seq<PartHeader>
  {
    seq(|docs|, i requires 0 <= i < |docs| => ContentPart(docs[i]))
  }

  /** The position of the first document with metadata, or the count when none has any. */
  function FirstWithMetadata(docs: seq<DocumentDescription>): (r: nat)
    ensures r <= |docs|
    ensures forall i :: 0 <= i < r ==> docs[i].metadata.None?
    ensures r < |docs| ==> docs[r].metadata.Some?
    decreases |docs|
  {
    if docs == [] then 0
    else if docs[0].metadata.Some? then 0
    else 1 + FirstWithMetadata(docs[1..])
  }

  /**
   * The part headers `writeSet` writes, and whether it panics on the way.
   * `sharedSerializes` says whether the shared metadata handle's `Serialized`
   * returns (a `MetadataHandle` of the XML format panics). Each document
   * with metadata gets a new `MetadataHandle` of the zero format, XML, whose
   * `Serialized` panics before that document's parts are written, so the
   * request is never sent once a document carries metadata.
   */
  method WriteSetParts(sharedSerializes: bool, metadataFormat: int, docs: seq<DocumentDescription>)
    returns (parts: seq<PartHeader>, panicked: bool)
    ensures panicked <==> !sharedSerializes || exists i :: 0 <= i < |docs| && docs[i].metadata.Some?
    ensures !sharedSerializes ==> parts == []
    ensures sharedSerializes ==>
      parts == [PartHeader(PartContentType(metadataFormat), "inline; category=metadata")]
               + ContentParts(docs[..FirstWithMetadata(docs)])
    ensures parts != [] ==> parts[0].contentType != "application/xml"
  {
    parts := [];
    if !sharedSerializes {
      return parts, true;
    }
    PartContentTypeNeverXml(metadataFormat);
    var shared := PartHeader(PartContentType(metadataFormat), "inline; category=metadata");
    parts := [shared];
    var i := 0;
    while i < |docs|
      invariant 0 <= i <= |docs|
      invariant forall j :: 0 <= j < i ==> docs[j].metadata.None?
      invariant parts == [shared] + ContentParts(docs[..i])
    {
      var doc := docs[i];
      if doc.metadata.Some? {
        var h := new MetadataHandle(0, doc.metadata.value);
        var encoded := h.Serialized();
        assert encoded == None;
        FirstWithMetadataAt(docs, i);
        return parts, true;
      }
      ContentPartsSnoc(docs, i);
      parts := parts + [ContentPart(doc)];
      i := i + 1;
    }
    NoMetadataReachesEnd(docs);
    assert docs[..i] == docs[..FirstWithMetadata(docs)];
    panicked := false;
  }

  lemma FirstWithMetadataAt(docs: seq<DocumentDescription>, i: nat)
    requires i < |docs| && docs[i].metadata.Some?
    requires forall j :: 0 <= j < i ==> docs[j].metadata.None?
    ensures FirstWithMetadata(docs) == i
  {
  }

  lemma ContentPartsSnoc(docs: seq<DocumentDescription>, i: nat)
    requires i < |docs|
    ensures ContentParts(docs[..i + 1]) == ContentParts(docs[..i]) + [ContentPart(docs[i])]
  {
  }

  /**
   * The headers one document contributes once `Serialized` no longer
   * panics: its metadata part (when it has metadata), typed by its handle's
   * zero format, XML, and then its content part.
   */
  function IntendedDocParts(doc: DocumentDescription): seq<PartHeader>
  {
    (if doc.metadata.Some?
     then [PartHeader(DocMetadataContentType(Handles.XML), "inline; category=metadata; filename=\"" + doc.uri + "\"")]
     else [])
    + [ContentPart(doc)]
  }

  function IntendedAllDocParts(docs: seq<DocumentDescription>): seq<PartHeader>
  {
    if docs == [] then [] else IntendedAllDocParts(docs[..|docs| - 1]) + IntendedDocParts(docs[|docs| - 1])
  }

  /** The headers of the intended multipart write: the shared metadata part, then each document's parts. */
  function IntendedWriteSetParts(metadataFormat: int, docs: seq<DocumentDescription>): seq<PartHeader>
  {
    [PartHeader(PartContentType(metadataFormat), "inline; category=metadata")] + IntendedAllDocParts(docs)
  }

  function MetadataCount(docs: seq<DocumentDescription>): nat
  {
    if docs == [] then 0 else MetadataCount(docs[..|docs| - 1]) + (if docs[|docs| - 1].metadata.Some? then 1 else 0)
  }

  /** Without metadata, the intended parts of the documents are their content parts. */
  lemma {:induction false} IntendedWithoutMetadata(docs: seq<DocumentDescription>)
    requires forall i :: 0 <= i < |docs| ==> docs[i].metadata.None?
    ensures IntendedAllDocParts(docs) == ContentParts(docs)
  {
    if docs != [] {
      var init := docs[..|docs| - 1];
      IntendedWithoutMetadata(init);
      assert ContentParts(docs) == ContentParts(init) + [ContentPart(docs[|docs| - 1])];
    }
  }

  /** With no document carrying metadata, `writeSet` reaches the end of the list. */
  lemma {:induction false} NoMetadataReachesEnd(docs: seq<DocumentDescription>)
    requires forall i :: 0 <= i < |docs| ==> docs[i].metadata.None?
    ensures FirstWithMetadata(docs) == |docs|
    decreases |docs|
  {
    if docs != [] {
      NoMetadataReachesEnd(docs[1..]);
    }
  }

  /**
   * Where the code as written sends its request (a shared handle that
   * serializes and no document with metadata), it writes the intended parts.
   */
  lemma WriteSetAgrees(metadataFormat: int, docs: seq<DocumentDescription>)
    requires forall i :: 0 <= i < |docs| ==> docs[i].metadata.None?
    ensures [PartHeader(PartContentType(metadataFormat), "inline; category=metadata")] + ContentParts(docs[..FirstWithMetadata(docs)])
         == IntendedWriteSetParts(metadataFormat, docs)
  {
    NoMetadataReachesEnd(docs);
    IntendedWithoutMetadata(docs);
    assert docs[..|docs|] == docs;
  }

  /**
   * Intended: one part per document and one more per document with
   * metadata; a JSON part only for a JSON-format document.
   */
  lemma {:induction false} AllDocPartsShape(docs: seq<DocumentDescription>)
    ensures |IntendedAllDocParts(docs)| == |docs| + MetadataCount(docs)
    ensures forall i :: 0 <= i < |IntendedAllDocParts(docs)| && IntendedAllDocParts(docs)[i].contentType == "application/json" ==>
      exists j :: 0 <= j < |docs| && docs[j].format == Handles.JSON
  {
    if docs != [] {
      var init := docs[..|docs| - 1];
      AllDocPartsShape(init);
      var last := docs[|docs| - 1];
      var all := IntendedAllDocParts(docs);
      forall i | 0 <= i < |all| && all[i].contentType == "application/json"
        ensures exists j :: 0 <= j < |docs| && docs[j].format == Handles.JSON
      {
        if i < |IntendedAllDocParts(init)| {
          assert all[i] == IntendedAllDocParts(init)[i];
          var j :| 0 <= j < |init| && init[j].format == Handles.JSON;
          assert docs[j] == init[j];
        } else {
          assert all[i] in IntendedDocParts(last);
          assert docs[|docs| - 1] == last;
        }
      }
    }
  }

  // ---------------------------------------------------------------------------
  // Metadata.PermissionsMap (documents/metadata.go:94-105)
  // ---------------------------------------------------------------------------

  /** A permission's capabilities as one comma-separated text. */
  function CapsText(p: Permission): string
  {
    Join(p.capability, ",")
  }

  /** The capability texts of the role's permissions, in input order. */
  function RoleTexts(perms: seq<Permission>, role: string): seq<string>
  {
    if perms == [] then []
    else RoleTexts(perms[..|perms| - 1], role)
         + (if perms[|perms| - 1].roleName == role then [CapsText(perms[|perms| - 1])] else [])
  }

  function RoleNames(perms: seq<Permission>): set<string>
  {
    set i | 0 <= i < |perms| :: perms[i].roleName
  }

  /** Reference definition: one key per role, valued with the ","-join of its permissions' capability texts. */
  function PermissionsSpec(perms: seq<Permission>): map<string, string>
  {
    map role | role in RoleNames(perms) :: Join(RoleTexts(perms, role), ",")
  }

  method PermissionsMap(m: Metadata) returns (pm: map<string, string>)
    ensures pm == PermissionsSpec(m.permissions)
  {
    var perms := m.permissions;
    pm := map[];
    var i := 0;
    while i < |perms|
      invariant 0 <= i <= |perms|
      invariant pm == PermissionsSpec(perms[..i])
    {
      var p := perms[i];
      assert perms[..i + 1] == perms[..i] + [p];
      PermissionsStep(perms[..i], p);
      if p.roleName in pm {
        pm := pm[p.roleName := pm[p.roleName] + "," + Join(p.capability, ",")];
      } else {
        pm := pm[p.roleName := Join(p.capability, ",")];
      }
      i := i + 1;
    }
    assert perms[..i] == perms;
  }

  /** A role has capability texts exactly when one of the permissions names it. */
  lemma {:induction false} RoleTextsPresent(perms: seq<Permission>, role: string)
    ensures RoleTexts(perms, role) != [] <==> role in RoleNames(perms)
  {
    if perms != [] {
      RoleTextsPresent(perms[..|perms| - 1], role);
      RoleNamesSnoc(perms);
    }
  }

  /** The roles of a list are those of all but its last permission, and the last one's. */
  lemma RoleNamesSnoc(perms: seq<Permission>)
    requires perms != []
    ensures RoleNames(perms) == RoleNames(perms[..|perms| - 1]) + {perms[|perms| - 1].roleName}
  {
    var init := perms[..|perms| - 1];
    forall r | r in RoleNames(perms) ensures r in RoleNames(init) + {perms[|perms| - 1].roleName} {
      var i :| 0 <= i < |perms| && perms[i].roleName == r;
      if i < |init| {
        assert init[i] == perms[i];
      }
    }
    forall r | r in RoleNames(init) ensures r in RoleNames(perms) {
      var i :| 0 <= i < |init| && init[i].roleName == r;
      assert perms[i] == init[i];
    }
  }

  /** Adding one permission extends its role's value with "," and its capabilities, or starts it. */
  lemma PermissionsStep(prefix: seq<Permission>, p: Permission)
    ensures var before := PermissionsSpec(prefix);
      PermissionsSpec(prefix + [p])
      == before[p.roleName := if p.roleName in before then before[p.roleName] + "," + CapsText(p) else CapsText(p)]
  {
    var perms := prefix + [p];
    assert perms[..|perms| - 1] == prefix && perms[|perms| - 1] == p;
    RoleNamesSnoc(perms);
    RoleTextsPresent(prefix, p.roleName);
    var texts := RoleTexts(prefix, p.roleName);
    RoleTextsSnoc(prefix, p, p.roleName);
    forall r | r != p.roleName ensures RoleTexts(perms, r) == RoleTexts(prefix, r) {
      RoleTextsSnoc(prefix, p, r);
    }
    if texts != [] {
      JoinAppend(texts, [CapsText(p)], ",");
    } else {
      assert texts + [CapsText(p)] == [CapsText(p)];
    }
  }

  lemma RoleTextsSnoc(prefix: seq<Permission>, p: Permission, role: string)
    ensures role == p.roleName ==> RoleTexts(prefix + [p], role) == RoleTexts(prefix, role) + [CapsText(p)]
    ensures role != p.roleName ==> RoleTexts(prefix + [p], role) == RoleTexts(prefix, role)
  {
    var perms := prefix + [p];
    assert perms[..|perms| - 1] == prefix && perms[|perms| - 1] == p;
    AppendNothing(RoleTexts(prefix, role));
  }

  /** Without permissions there are no keys. */
  lemma NoPermissions()
    ensures PermissionsSpec([]) == map[]
  {
    assert RoleNames([]) == {};
  }

  /** A role whose only permission has no capabilities maps to "". */
  lemma SoleEmptyPermission(perms: seq<Permission>, k: nat)
    requires k < |perms| && perms[k].capability == []
    requires forall i :: 0 <= i < |perms| && i != k ==> perms[i].roleName != perms[k].roleName
    ensures perms[k].roleName in PermissionsSpec(perms)
    ensures PermissionsSpec(perms)[perms[k].roleName] == ""
  {
    SoleRoleTexts(perms, k);
    assert perms[k].roleName in RoleNames(perms);
  }

  lemma {:induction false} SoleRoleTexts(perms: seq<Permission>, k: nat)
    requires k < |perms|
    requires forall i :: 0 <= i < |perms| && i != k ==> perms[i].roleName != perms[k].roleName
    ensures RoleTexts(perms, perms[k].roleName) == [CapsText(perms[k])]
  {
    var role := perms[k].roleName;
    var init := perms[..|perms| - 1];
    if k == |perms| - 1 {
      NoRoleTexts(init, role);
    } else {
      SoleRoleTexts(init, k);
      assert init[k] == perms[k];
    }
  }

  lemma {:induction false} NoRoleTexts(perms: seq<Permission>, role: string)
    requires forall i :: 0 <= i < |perms| ==> perms[i].roleName != role
    ensures RoleTexts(perms, role) == []
  {
    if perms != [] {
      NoRoleTexts(perms[..|perms| - 1], role);
    }
  }

  /** All capabilities of the role's permissions, in input order. */
  function RoleCaps(perms: seq<Permission>, role: string): seq<string>
  {
    if perms == [] then []
    else RoleCaps(perms[..|perms| - 1], role)
         + (if perms[|perms| - 1].roleName == role then perms[|perms| - 1].capability else [])
  }

  /**
   * When every permission of the role has capabilities and none contains a
   * ',', splitting the role's value on ',' gives back all its capabilities in order.
   */
  lemma PermissionValueSplits(perms: seq<Permission>, role: string)
    requires role in RoleNames(perms)
    requires forall i :: 0 <= i < |perms| && perms[i].roleName == role ==> perms[i].capability != []
    requires forall i, j :: 0 <= i < |perms| && 0 <= j < |perms[i].capability| ==> ',' !in perms[i].capability[j]
    ensures SplitOn(PermissionsSpec(perms)[role], ',') == RoleCaps(perms, role)
  {
    RoleTextsPresent(perms, role);
    RoleJoin(perms, role);
    SplitOnJoin(RoleCaps(perms, role), ',');
  }

  /** The ","-join of the capability texts is the ","-join of all the capabilities. */
  lemma {:induction false} RoleJoin(perms: seq<Permission>, role: string)
    requires forall i :: 0 <= i < |perms| && perms[i].roleName == role ==> perms[i].capability != []
    requires forall i, j :: 0 <= i < |perms| && 0 <= j < |perms[i].capability| ==> ',' !in perms[i].capability[j]
    ensures RoleTexts(perms, role) == [] <==> RoleCaps(perms, role) == []
    ensures Join(RoleTexts(perms, role), ",") == Join(RoleCaps(perms, role), ",")
    ensures forall i :: 0 <= i < |RoleCaps(perms, role)| ==> ',' !in RoleCaps(perms, role)[i]
  {
    if perms != [] {
      var init := perms[..|perms| - 1];
      var last := perms[|perms| - 1];
      RoleJoin(init, role);
      var t, c := RoleTexts(init, role), RoleCaps(init, role);
      if last.roleName == role {
        assert RoleTexts(perms, role) == t + [CapsText(last)];
        assert RoleCaps(perms, role) == c + last.capability;
        if t != [] {
          JoinAppend(t, [CapsText(last)], ",");
          JoinAppend(c, last.capability, ",");
        } else {
          assert c == [];
          assert t + [CapsText(last)] == [CapsText(last)];
          assert c + last.capability == last.capability;
        }
        forall i | 0 <= i < |c + last.capability| ensures ',' !in (c + last.capability)[i] {
          if i >= |c| {
            assert (c + last.capability)[i] == last.capability[i - |c|];
          }
        }
      } else {
        assert t + [] == t && c + [] == c;
        assert RoleTexts(perms, role) == t;
        assert RoleCaps(perms, role) == c;
      }
    }
  }

  // ---------------------------------------------------------------------------
  // MetadataHandle (documents/metadata.go:12-91)
  // ---------------------------------------------------------------------------

  datatype Encoding = JsonEncoding | XmlEncoding

  /** `Serialize` encodes as JSON only for the JSON format, and as XML otherwise. */
  function SerializeEncoding(format: int): (e: Encoding)
    ensures e == JsonEncoding <==> format == Handles.JSON
  {
    if format == Handles.JSON then JsonEncoding else XmlEncoding
  }

  /** `Serialized` and `Deserialize` use XML only for the XML format, and JSON otherwise. */
  function SerializedEncoding(format: int): (e: Encoding)
    ensures e == XmlEncoding <==> format == Handles.XML
  {
    if format == Handles.XML then XmlEncoding else JsonEncoding
  }

  /** The two choices agree for XML and JSON and disagree for every other format. */
  lemma EncodingsAgree(format: int)
    ensures SerializeEncoding(format) == SerializedEncoding(format) <==> format == Handles.XML || format == Handles.JSON
  {
  }

  /** The text an encoder writes for a metadata record, kept abstract. */
  datatype Encoded = Encoded(encoding: Encoding, metadata: Metadata)

  /**
   * What an encoder makes of a metadata record, `None` when it fails.
   * `Metadata` declares its properties and metadata values as
   * `map[string]string` (documents/metadata.go:27-28), and encoding/xml
   * refuses a map field, an empty or nil one included, with an
   * unsupported-type error; encoding/json writes maps as objects.
   */
  function Encode(e: Encoding, md: Metadata): (r: Option<Encoded>)
    ensures r.Some? <==> e == JsonEncoding
    ensures r.Some? ==> r.value == Encoded(JsonEncoding, md)
  {
    if e == JsonEncoding then Some(Encoded(JsonEncoding, md)) else None
  }

  class MetadataHandle {
    /** The encoding the buffer holds; `None` when it holds none. */
    var buffer: Option<Encoded>
    var versionID: int
    var format: int
    var metadata: Metadata
    var timestamp: string

    constructor (format: int, metadata: Metadata)
      ensures this.format == format && this.metadata == metadata
      ensures buffer == None && versionID == 0 && timestamp == ""
    {
      this.format := format;
      this.metadata := metadata;
      buffer := None;
      versionID := 0;
      timestamp := "";
    }

    function GetFormat(): (r: int)
      reads this
      ensures r == format
    {
      format
    }

    /**
     * Stores the record, empties the buffer and encodes into it with the
     * encoder `SerializeEncoding` chooses. The encoder's error is ignored:
     * for every format but JSON the XML encoder fails, and the buffer is
     * left without an encoding.
     */
    method Serialize(md: Metadata)
      modifies this
      ensures metadata == md && buffer == Encode(SerializeEncoding(format), md)
      ensures buffer.Some? <==> format == Handles.JSON
      ensures format == old(format) && versionID == old(versionID) && timestamp == old(timestamp)
    {
      metadata := md;
      buffer := None;
      if format == Handles.JSON {
        buffer := Encode(JsonEncoding, metadata);
      } else {
        buffer := Encode(XmlEncoding, metadata);
      }
    }

    /**
     * Encodes the current record afresh with the encoder `SerializedEncoding`
     * chooses; the buffer is not touched. `None` is the `panic` on the
     * encoder's error, which the XML format always reaches.
     */
    function Serialized(): (r: Option<Encoded>)
      reads this
      ensures r.None? <==> format == Handles.XML
      ensures r.Some? ==> r.value == Encoded(JsonEncoding, metadata)
    {
      Encode(SerializedEncoding(format), metadata)
    }

    method SetTimestamp(t: string)
      modifies this
      ensures timestamp == t
      ensures buffer == old(buffer) && versionID == old(versionID) && format == old(format) && metadata == old(metadata)
    {
      timestamp := t;
    }

    function Timestamp(): (r: string)
      reads this
      ensures r == timestamp
    {
      timestamp
    }
  }

  /**
   * After `Serialize`, the buffer holds an encoding and `Serialized` repeats
   * it exactly for the JSON format; for XML both fail.
   */
  method SerializeThenSerialized(h: MetadataHandle, md: Metadata) returns (same: bool)
    modifies h
    ensures same <==> h.format == Handles.JSON
    ensures h.format == Handles.XML ==> h.buffer == None && h.Serialized() == None
  {
    h.Serialize(md);
    same := h.buffer.Some? && h.buffer == h.Serialized();
  }

  /** The empty record, the metadata of `&MetadataHandle{}`. */
  function EmptyMetadata(): Metadata
  {
    Metadata([], [], [], [], 0)
  }

  /**
   * As written, `&MetadataHandle{}` has the zero format, which is XML, so
   * its `Serialized` panics on the empty record.
   */
  method ZeroHandleSerialized() returns (r: Option<Encoded>)
    ensures r == None
  {
    var h := new MetadataHandle(0, EmptyMetadata());
    r := h.Serialized();
  }

  // ---------------------------------------------------------------------------
  // The evidently intended metadata encoding
  // ---------------------------------------------------------------------------

  /**
   * The intended encoders: both succeed, the XML one writing each map as a
   * `SerializableStringMap`, an element with one child per entry.
   */
  function IntendedEncode(e: Encoding, md: Metadata): (r: Encoded)
    ensures r.encoding == e && r.metadata == md
  {
    Encoded(e, md)
  }

  const PropertiesName: Xml.Name := Xml.Name("http://marklogic.com/xdmp/property", "properties")
  const MetadataValuesName: Xml.Name := Xml.Name("http://marklogic.com/rest-api", "metadata-values")

  /** The intended XML of the two maps: the properties element, then the metadata-values element. */
  function IntendedMapTokens(md: Metadata): seq<Xml.Token>
  {
    MarshalledTokens(PropertiesName, [], md.properties) + MarshalledTokens(MetadataValuesName, [], md.metadataValues)
  }

  /** The intended XML gives both maps back: each element holds its map's entries, in order. */
  lemma IntendedMapsReadBack(md: Metadata)
    ensures var ts := IntendedMapTokens(md);
      var p := 3 * |md.properties| + 2;
      |ts| == p + 3 * |md.metadataValues| + 2
      && ts[0] == Xml.StartElement(PropertiesName, []) && ts[p - 1] == Xml.EndElement(PropertiesName)
      && ReadEntries(ts[1..p - 1]) == Some(md.properties)
      && ts[p] == Xml.StartElement(MetadataValuesName, []) && ts[|ts| - 1] == Xml.EndElement(MetadataValuesName)
      && ReadEntries(ts[p + 1..|ts| - 1]) == Some(md.metadataValues)
  {
    var a := MarshalledTokens(PropertiesName, [], md.properties);
    var b := MarshalledTokens(MetadataValuesName, [], md.metadataValues);
    MarshalledTokensReadBack(PropertiesName, [], md.properties);
    MarshalledTokensReadBack(MetadataValuesName, [], md.metadataValues);
    var ts := a + b;
    assert ts[1..|a| - 1] == a[1..|a| - 1];
    assert ts[|a| + 1..|ts| - 1] == b[1..|b| - 1];
  }

  /**
   * With the intended encoders, what `Serialize` writes is what `Serialized`
   * gives exactly for the XML and JSON formats.
   */
  lemma IntendedSerializeThenSerialized(format: int, md: Metadata)
    ensures IntendedEncode(SerializeEncoding(format), md) == IntendedEncode(SerializedEncoding(format), md)
      <==> format == Handles.XML || format == Handles.JSON
  {
    EncodingsAgree(format);
  }
}
