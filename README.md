# A verified model of the go-marklogic-go client core

go-marklogic-go is a Go client for the MarkLogic REST API. This project
models its core in Dafny and proves what the code promises:

- how the client builds its REST query strings: the shared parameter
  builders, URL escaping, and the database and transaction parameters;
- how the document, values, metadata, eval and extension services build
  their request targets;
- how clients are created, and the REST base URL they carry;
- the response handles for raw bytes, maps, URI lists, timestamps,
  transactions and document metadata;
- how search responses are decoded: query containers and highlighted
  match text;
- the data-movement batchers: the write batchers (current and legacy) and
  the query batcher;
- the bulk Data Service runner.

Each source file keeps its own form in the model:

- Functions that only compute become Dafny functions, stated against a
  reference definition or an inverse.
  - Example: every query-string builder is proved against `QuerySegments`,
    which is what a server reads back from the text.
- Go structs whose methods update fields become classes with `modifies`
  clauses.
- Loops become methods with loop invariants, each proved equal to a
  specification function whose own properties are proved as lemmas.
  - Examples: the writer thread, the query reader, the bulk process and
    input threads, the parameter loops and the `RemoveListener` shift.

Go maps are modelled as their entries, in the order a `range` happens to
visit them. The properties that should not depend on that order are
proved for every order:

- a multiset equality;
- or, for the URI request, the same parameters up to order followed by
  the database and the transaction ID.

Channels and server replies are finite sequences given as inputs. A
thread is modelled as one sequential worker over what it receives.

Some members are declared twice, in two packages, and one Dafny member
stands for both declarations. The copies share these members only:

- `util/internals.go` and `datamovement/internals.go` share
  `ForestInfo.PreferredHost`, the `URIsHandle` methods other than
  `Deserialized`, and the parameter map of the URI request (`GetURIs`,
  unexported as `getURIs` in the second file). `GetClientsByHost` and the
  two `Deserialized` methods exist only in `util/internals.go`.
- `search/search.go` and `search.go` share `Match.UnmarshalXML`; the root
  copy appends `*Text` references where the other appends `Text` values.
  The two files differ elsewhere: the root `Search` and `StructuredSearch`
  build their own `format` parameters, which are not part of this model.
- `handle/handles.go` and `handles.go` declare the same `RawHandle`
  fields and methods; `Handles.RawHandle` models both.

The table cites the first copy of each.

Modules, one per file:

| file | module | source |
|---|---|---|
| common.dfy | Common | `strings.Join` and `strings.Split`, Option |
| escape.dfy | QueryEscape | `url.QueryEscape` as the builders use it |
| decimal.dfy | Decimal | `strconv.FormatInt`, used for ports |
| urilist.dfy | UriList | the `text/uri-list` bodies |
| xml.dfy | Xml | XML tokens and `DecodeElement` into a string |
| handles.dfy | Handles | handle/handles.go, and the same `RawHandle` in handles.go |
| util.dfy | Util | util/util.go, util/transform.go |
| clients.dfy | Clients | clients/*.go, and the `/LATEST` rewrite of util/util.go |
| util_internals.dfy | UtilInternals | util/internals.go, datamovement/internals.go |
| targets.dfy | Targets | request targets: path and query |
| documents.dfy | Documents | documents/documents.go, documents/metadata.go |
| extensions.dfy | Extensions | config/extensions.go |
| eval.dfy | Eval | eval/eval.go |
| values.dfy | Values | values/values.go |
| metadata_api.dfy | MetadataApi | metadata/metadata.go |
| search_query.dfy | SearchQuery | search/query.go |
| search_match.dfy | SearchMatch | search/search.go |
| batching.dfy | Batching | what the batchers share: batching, listeners, removal |
| write_batcher.dfy | WriteBatchers | datamovement/write-batcher.go |
| legacy_write_batcher.dfy | LegacyWriteBatchers | data-movement/write-batcher.go |
| query_batcher.dfy | QueryBatchers | datamovement/query-batcher.go |
| bulk_data_services.dfy | BulkDataServices | dataservices/bulk-data-services.go |
| timestamp.dfy | Admin | admin/timestamp.go |
| transactions.dfy | Transactions | transactions/transactions.go |

## Model

| member | source | states |
|---|---|---|
| Common.SplitOn | util/internals.go:182 | `strings.Split` with a one-character separator always gives at least one piece |
| Common.SplitOnJoin | documents/metadata.go:99-101 | splitting a join on a separator that no part holds gives the parts back |
| Common.SplitOnAround | util/internals.go:182 | splitting distributes over one separator occurrence |
| Common.Join | documents/metadata.go:99-101 | `strings.Join`: the parts with the separator between neighbours, "" for none |
| Common.JoinAppend | documents/metadata.go:99 | joining two non-empty lists is joining each, with one separator between |
| QueryEscape.Escape | util/util.go:53 | `url.QueryEscape`: every UTF-8 byte kept when unreserved, a space as "+", any other byte as %XX; what it promises is proved by the lemmas below |
| QueryEscape.EscapeByte | util/util.go:53 | one escaped byte is 1 to 3 characters, all from the safe set |
| QueryEscape.EscapeBytes | util/util.go:53 | the escaped bytes are at least as long as the bytes, all from the safe set |
| QueryEscape.Utf8 | util/util.go:53 | UTF-8 gives 1 to 4 bytes; one byte exactly for ASCII; every byte of a multi-byte form is at least 0x80 |
| QueryEscape.EscapeRoundTrip | util/util.go:53 | what a server unescapes from `QueryEscape(s)` is the UTF-8 text of `s` |
| QueryEscape.UnescapeEscapeBytes | util/util.go:53 | unescaping undoes escaping, byte for byte |
| QueryEscape.EscapedHasNoDelimiters | util/util.go:69 | an escaped value never holds `&`, `=`, `?`, space, `:`, `/`, CR or LF |
| QueryEscape.EscapeIsIdentityIff | util/util.go:53 | a value comes through unchanged exactly when every character is unreserved |
| QueryEscape.EscapeOneChar | util/util.go:53 | a single character is kept exactly when it is unreserved |
| QueryEscape.EscapeAppend | util/util.go:53 | escaping works character by character |
| Decimal.FormatInt | clients/client.go:65 | the decimal text is non-empty and starts with '-' exactly for a negative number |
| Decimal.FormatNat | clients/client.go:65 | digits only, at least one, with no leading zero |
| Decimal.ParseFormatInt | clients/client.go:65 | reading the decimal text back gives the port number |
| Decimal.ParseFormatNat | clients/client.go:65 | reading the digits back gives the number |
| Decimal.FormatIntInjective | clients/client.go:65 | different ports are written differently |
| UriList.ParseUriList | util/internals.go:182-189 | a `text/uri-list` body read as its non-empty CRLF-separated lines, in order |
| UriList.SplitJoinCRLF | util/internals.go:182 | splitting the CRLF join of URIs without CRLF gives the URIs back |
| UriList.SplitCRLF | util/internals.go:182 | splitting on CRLF always gives at least one piece |
| UriList.UriListRoundTrip | util/internals.go:198-202 | reading back a written list of non-empty, CRLF-free URIs gives the same list |
| UriList.TrailingCRLF | util/internals.go:184-188 | a trailing CRLF adds no URI |
| UriList.BlankLine | util/internals.go:184-188 | blank lines are dropped |
| UriList.SplitAroundCRLF | util/internals.go:182 | a CRLF always separates the texts around it |
| UriList.TwoUriReply | datamovement/query-batcher_integration_test.go:24 | the mocked reply body is read as the two URIs |
| UriList.TwoLinesEachEnded | util/internals.go:184-188 | two non-empty, CRLF-free URIs, each followed by CRLF, read back as those two URIs |
| Xml.ReadElement | search/search.go:169 | decoding an element into a string consumes a proper suffix-closing prefix of the tokens and leaves the rest |
| Handles.FormatEnumToString | handle/handles.go:10-18 | "json" exactly for JSON, "xml" for every other code |
| Handles.RawHandle.constructor | handle/handles.go:29-32 | a new raw handle holds its format and no bytes |
| Handles.RawHandle.GetFormat | handle/handles.go:35-37 | the handle's format |
| Handles.RawHandle.Encode | handle/handles.go:40-42 | the bytes are stored |
| Handles.RawHandle.Decode | handle/handles.go:45-47 | decoding stores the bytes, like encoding |
| Handles.RawHandle.Get | handle/handles.go:50-52 | the stored bytes |
| Handles.RawHandle.Serialized | handle/handles.go:55-57 | the serialization is what `Get` returns |
| Handles.MapHandle.constructor | handle/handles.go:60-64 | a new map handle holds no bytes and no map |
| Handles.MapHandle.GetFormat | handle/handles.go:67-69 | the handle's format |
| Handles.MapHandle.Encode | handle/handles.go:72-74 | the bytes are stored and the map is left alone |
| Handles.MapHandle.Decode | handle/handles.go:77-80 | the map is stored and the bytes are left alone |
| Handles.MapHandle.Get | handle/handles.go:83-85 | the stored map |
| Handles.MapHandle.Serialized | handle/handles.go:88-90 | the bytes of the last `Encode` |
| Util.QuerySegmentsStep | util/util.go:48-53 | one step of the builders' fold adds exactly its segment to what the server reads, with no separator after a bare "?" |
| Util.Separator | util/util.go:48-51 | no separator right after a bare "?", "&" after anything else |
| Util.AppendAll | util/util.go:47-56 | the builders' fold: each segment appended in turn after the separator rule |
| Util.AppendAllReadBack | util/util.go:47-56 | whatever came before, the server reads back the appended segments, in order, after the ones already there |
| Util.AppendAllClosedForm | util/util.go:47-56 | the fold writes one separator (none after a bare "?") and then the "&"-joined segments |
| Util.AppendAllConcat | util/util.go:47-56 | two folds in a row are one fold over both lists |
| Util.ParamIsSegment | util/util.go:53 | a `key=escaped value` parameter is one non-empty, '&'-free segment |
| Util.ParamKey | util/util.go:53 | the key is read back from its parameter |
| Util.Param | util/util.go:53 | the key, "=" and the query-escaped value |
| Util.SegmentKeys | util/internals.go:242-250 | the name read from every segment, one per segment |
| Util.RepeatingSegments | util/util.go:47-56 | one `label=escaped value` segment per value, in order |
| Util.RepeatingParameters | util/util.go:47-56 | the loop appends one `label=escaped value` per value, in order, by the fold's separator rule |
| Util.RepeatingReadBack | util/util.go:47-56 | the server reads one `label=value` per value, in input order, after what was there |
| Util.PrefixOf | util/util.go:60-62 | an empty prefix adds nothing; any other is followed by one ':' |
| Util.MappedSegment | util/util.go:63-70 | an entry valued "" writes nothing; any other writes `prefix:key=escaped value` |
| Util.MappedSegments | util/util.go:59-73 | the segments of the entries, in visiting order |
| Util.MappedParameters | util/util.go:59-73 | the loop appends one `prefix:key=escaped value` per entry with a non-empty value, in visiting order |
| Util.MappedSegmentsMembers | util/util.go:63-70 | a segment is written exactly for the entries whose value is not "" |
| Util.MappedSegmentsOrderFree | util/util.go:63 | any visiting order of the same entries writes the same segments, each as often |
| Util.MappedSegmentsAppend | util/util.go:63-70 | the segments of two entry lists are the segments of each |
| Util.MappedReadBack | util/util.go:59-73 | with keys free of '&', the server reads back exactly the written segments |
| Util.MappedSegmentsWellFormed | util/util.go:69 | every mapped segment is non-empty and '&'-free |
| Util.AddParam | util/util.go:78-82 | one more parameter after "?" on an empty query and after "&" otherwise; the old text stays a prefix |
| Util.AddDatabaseParam | util/util.go:76-85 | no database leaves the query alone; a database is read back last as `database=` |
| Util.AddTxid | util/util.go:93-97 | no transaction leaves the query alone; a transaction is read back last as `txid=` |
| Util.ExtraReadBack | util/util.go:76-100 | the database and transaction parameters come last, in that order |
| Util.QuerySegmentsOfQuestion | util/util.go:50 | "?" and "" carry no parameters |
| Util.Transaction.constructor | util/util.go:88-92 | a transaction carries its ID |
| Util.AddTransactionParam | util/util.go:88-100 | nil leaves the query alone; a transaction without an ID is begun first; its ID is then appended |
| Util.BeginIfUnset | util/util.go:88-91 | nil begins nothing and gives no ID; otherwise an empty ID is replaced by the begun one, a set ID is kept, and the ID is returned |
| Util.IdAfter | util/util.go:88-91 | the transaction's ID after n calls, each of which begins the transaction only while its ID is "" |
| Util.IdAfterSticks | util/util.go:89-91 | once the ID is set, no later call changes it |
| Util.FirstBeginWins | util/util.go:89-91 | from no ID, the first Begin that yields an ID fixes it for every later call |
| Util.ToParameters | util/transform.go:12-18 | "&transform=name" and then "&trans:key=value" per parameter |
| Util.TransformSegments | util/transform.go:12-18 | the `transform=` name parameter, then one `trans:key=escaped value` per parameter |
| Util.TransformReadBack | util/transform.go:12-18 | the transform is read back as its name parameter followed by one `trans:` parameter per entry |
| Util.TransformPrefix | util/transform.go:13 | the transform text always starts with "&transform=" |
| Util.AmpJoinReadBack | util/transform.go:12-18 | "&" and an "&"-join of segments read back as those segments |
| Util.JoinStartsWithFirst | util/transform.go:13 | a join starts with its first part |
| Util.MarshalXML | util/util.go:23-44 | the encoder is handed start, one start/text/end triple per entry, and end, and stops at its first error; success exactly when no token and no flush fails |
| Util.EntryTokens | util/util.go:25-32 | per entry: a start element named by its key, its value as character data, and the end element |
| Util.MarshalledTokens | util/util.go:23-44 | the start token, the entries' triples and the end token |
| Util.EntryTokensLength | util/util.go:25-32 | three tokens per entry |
| Util.MarshalledTokensReadBack | util/util.go:23-44 | the 3n+2 tokens lie between start and end, and a reader finds every entry again, in order |
| Util.EntryTokensReadBack | util/util.go:25-32 | reading the entry triples back gives the entries |
| Util.EntryTokensAppend | util/util.go:25-32 | tokens of two entry lists are the tokens of each |
| Util.PostFormBodyKind | util/util.go:158-169 | the form is URL-encoded exactly when no parameter carries handles |
| Util.RemoveAll | util/util.go:195 | `strings.Replace(s, old, "", -1)`: the non-overlapping occurrences, scanned left to right, removed |
| Util.DataServiceBase | util/util.go:193-196 | as written: every "/LATEST" removed from the client base |
| Util.DataServiceBaseTrailing | util/util.go:194-196 | the corrected base: only the trailing "/LATEST" is removed |
| Clients.Connection.constructor | clients/client.go:23-30 | a connection holds the settings it is given |
| Clients.BasicClient.constructor | clients/client.go:48-57 | a client copies base, credentials, auth type, database and connection |
| Clients.BasicClient.Base | clients/client.go:95-97 | the client's base URL |
| Clients.BasicClient.SetBase | clients/client.go:101-103 | only the base changes |
| Clients.BasicClient.Database | clients/client.go:126-128 | the client's database |
| Clients.BasicClient.ConnectionInfo | clients/client.go:131-133 | the connection the client was built from |
| Clients.ClientBuilder | clients/client.go:38-60 | the digest handshake runs only for digest auth; its error is returned with a nil client; otherwise the client copies the connection's settings |
| Clients.NewClient | clients/client.go:63-71 | the base is host, port and "/LATEST"; it fails exactly when digest auth fails |
| Clients.ClientBase | clients/client.go:65 | the REST base: "http://", host, ":", the port in decimal, "/LATEST" |
| Clients.ManagementBase | clients/managementClient.go:18 | the Management API base: host, port and "/manage/v2" |
| Clients.AdminBase | clients/adminClient.go:18 | the Admin API base: host, port and "/admin/v1" |
| Clients.ClientBaseInjective | clients/client.go:65 | equal bases have equal hosts and ports |
| Clients.PortOrDefault | clients/managementClient.go:15-17 | a port of zero or less becomes the default; a positive one is kept |
| Clients.NewManagementClient | clients/managementClient.go:13-24 | the default port 8002 is written back to the connection; the base is `http://host:port/manage/v2` |
| Clients.NewAdminClient | clients/adminClient.go:13-24 | the default port 8001 is written back to the connection; the base is `http://host:port/admin/v1` |
| Clients.ManagementBaseExamples | clients/managementClient_test.go:6-16 | the bases the tests expect, for port 28002 and for the default port |
| Clients.DataServiceBaseCutsHost | util/util.go:195 | as written, removing every "/LATEST" also cuts into a host named "LATESTdb" |
| Clients.CutHostPrefix | util/util.go:195 | any host starting with "LATEST" loses those letters and one '/' of the scheme |
| Clients.RemoveAllPlain | util/util.go:195 | text without '/' passes through the removal unchanged |
| Clients.DataServiceBaseKeepsHost | util/util.go:194-196 | as written, for every '/'-free host not beginning with "LATEST" and every port, the data-service base is scheme, host and port |
| Clients.DataServiceBaseCutsLatestHost | util/util.go:194-196 | as written, every '/'-free host beginning with "LATEST" loses those letters and one '/' of the scheme, for every port |
| Clients.DataServiceBaseTrailingKeepsHost | util/util.go:194-196 | removing only the trailing "/LATEST" gives back scheme, host and port, for every host |
| UtilInternals.PreferredHost | util/internals.go:113-122 | the result is one of the four hosts, and "" only when all are empty |
| UtilInternals.PreferredHostPriority | util/internals.go:113-122 | the preferred host is the first non-empty of request, alternate and open-replica host, else the forest's host |
| UtilInternals.GetClientsByHost | util/internals.go:134-157 | one entry per distinct preferred host: the caller's client for its own host, otherwise a client for that host on a copy of the connection, nil exactly when that host's own digest handshake fails |
| UtilInternals.UniqueHosts | util/internals.go:135-139 | the set of distinct preferred hosts |
| UtilInternals.PreferredHosts | util/internals.go:135-139 | the set of the forests' preferred hosts |
| UtilInternals.ClientForHost | util/internals.go:146-153 | a new client on a copy of the connection with only the host replaced; nil exactly on a digest error |
| UtilInternals.URIsHandle.constructor | util/internals.go:160-164 | a new handle holds nothing |
| UtilInternals.URIsHandle.GetFormat | util/internals.go:167-169 | always `text/uri-list` |
| UtilInternals.URIsHandle.Deserialize | util/internals.go:179-190 | the body is kept and the URIs are its non-empty CRLF-separated lines, in order |
| UtilInternals.URIsHandle.Deserialized | util/internals.go:193-195 | the URIs |
| UtilInternals.URIsHandle.Serialize | util/internals.go:198-202 | the URIs are stored and their CRLF join is written into an emptied buffer |
| UtilInternals.URIsHandle.Get | util/internals.go:205-207 | the URIs |
| UtilInternals.URIsHandle.Serialized | util/internals.go:210-213 | the CRLF join of the current URIs, which the buffer then holds |
| UtilInternals.URIsHandle.SetTimestamp | util/internals.go:216-218 | only the timestamp changes |
| UtilInternals.URIsHandle.Timestamp | util/internals.go:221-223 | the timestamp |
| UtilInternals.SerializeDeserialize | util/internals.go:179-202 | serializing URIs and reading the body back gives the same URIs |
| UtilInternals.URIsParams | util/internals.go:242-249 | forest name, cursor and page length always; start only when non-zero |
| UtilInternals.URIsQuery | util/internals.go:240-252 | "?", the mapped parameters in the map's visiting order (a reordering of the canonical ones), then database and txid |
| UtilInternals.URIsQueryReadBack | util/internals.go:240-252 | for every map order, the server reads the canonical parameters up to order, then database and txid |
| UtilInternals.URIsQuerySegments | util/internals.go:250-252 | the mapped parameters are followed by database and txid |
| UtilInternals.MappedOrderFree | util/internals.go:250 | the mapped parameters are the canonical ones, up to order |
| UtilInternals.CanonicalMapped | util/internals.go:242-250 | the mapped parameters in source order drop the empty values |
| UtilInternals.URIsQueryKeys | util/internals.go:242-249 | page length always; start only when non-zero; cursor and forest name only when non-empty |
| Targets.SplitTarget | util/util.go:110-114 | a '?'-free path and its query are split back into those two parts |
| Targets.RawSegmentsWellFormed | config/extensions.go:86 | unescaped pairs without '&' are segments the server reads whole |
| Targets.RawParam | eval/eval.go:32-35 | an unescaped key, "=" and value |
| Targets.RawSegments | eval/eval.go:30-37 | one unescaped pair per entry, in visiting order |
| Targets.AmpEach | eval/eval.go:31-36 | "&" before every segment, the first one included |
| Targets.AmpEachReadBack | metadata/metadata.go:65-67 | "&" before every segment reads back as those segments, in order |
| Targets.QuerySegmentsTrailingAmp | eval/eval.go:23-24 | a trailing "&" adds no parameter |
| Targets.AppendAllExtends | util/util.go:47-56 | the fold only appends |
| Targets.DatabaseExtends | util/util.go:76-85 | adding the database only appends |
| Documents.ToURIs | documents/documents.go:31-37 | one URI per description, in order |
| Documents.BuildParameters | documents/documents.go:144-155 | uris, categories, collections, `perm:` and `prop:` entries, then the transform text |
| Documents.DocumentQuery | documents/documents.go:144-155 | "?" and the uri, category, collection, `perm:` and `prop:` segments by the fold, then the transform text |
| Documents.EmptyDocumentQuery | documents/documents.go:145 | nothing to send gives a bare "?" |
| Documents.TransformOnlyQuery | documents/documents.go:151-153 | a transform alone gives "?&transform=..." |
| Documents.DocumentQueryReadBack | documents/documents.go:144-155 | the server reads every uri, category and collection in order, then the non-empty permissions and properties, then the transform |
| Documents.WriteSetParams | documents/documents.go:79-84 | "?" and the transform only with a transform, then database and txid, beginning the transaction if needed |
| Documents.WriteSetQuery | documents/documents.go:79-84 | the transform text after "?" only with a transform, then the database, then the txid when there is one |
| Documents.WriteSetReadBack | documents/documents.go:79-84 | the transform parameters, then database and txid; without a transform the database follows "?" directly |
| Documents.PartContentType | documents/documents.go:87-95 | the part Content-Type as written: JSON, plain text, or an octet stream |
| Documents.PartContentTypeNeverXml | documents/documents.go:87-95 | as written, no part is ever sent as XML |
| Documents.IntendedPartContentType | documents/documents.go:121-129 | the corrected choice: XML, JSON and plain text each get their own type |
| Documents.IntendedDiffersOnlyForXml | documents/documents.go:121-129 | the corrected and the written choice differ for XML only |
| Documents.DocMetadataContentType | documents/documents.go:105-109 | per-document metadata is XML exactly for the XML handle format |
| Documents.ContentPart | documents/documents.go:115-133 | a document's content part: typed by `PartContentType` of its format, as an attachment named by its URI |
| Documents.ContentParts | documents/documents.go:100-131 | the content parts of the documents, in order |
| Documents.FirstWithMetadata | documents/documents.go:100-101 | the position of the first document with metadata, every earlier one without; the count when none has any |
| Documents.WriteSetParts | documents/documents.go:85-134 | as written: a panic exactly when the shared handle's `Serialized` panics or some document has metadata; no part when the shared handle panics, otherwise the shared part (never XML) and the content parts of the documents before the first with metadata |
| Documents.NoMetadataReachesEnd | documents/documents.go:100-101 | with no document carrying metadata, the loop reaches the end of the list |
| Documents.WriteSetAgrees | documents/documents.go:85-134 | where the code as written sends its request, its parts are the corrected ones |
| Documents.IntendedDocParts | documents/documents.go:100-134 | corrected: one document's headers, its metadata part (XML, the handle's zero format) when it has metadata, then its content part |
| Documents.IntendedWriteSetParts | documents/documents.go:85-134 | corrected: the shared metadata part, then every document's parts in order |
| Documents.IntendedWithoutMetadata | documents/documents.go:100-134 | without metadata, the corrected document parts are the content parts |
| Documents.AllDocPartsShape | documents/documents.go:100-134 | corrected: one part per document and one more per document with metadata; a JSON part only when some document is JSON |
| Documents.PermissionsMap | documents/metadata.go:94-105 | one key per role, valued with the ","-join of its permissions' capabilities |
| Documents.RoleTextsPresent | documents/metadata.go:96-102 | a role is a key exactly when one of the permissions names it |
| Documents.PermissionsStep | documents/metadata.go:97-102 | one more permission extends its role's value with "," and its capabilities, or starts it |
| Documents.NoPermissions | documents/metadata.go:95 | no permissions give no keys |
| Documents.SoleEmptyPermission | documents/metadata.go:101 | a role whose only permission has no capabilities maps to "" |
| Documents.PermissionValueSplits | documents/metadata.go:94-105 | splitting a role's value on ',' gives back its capabilities in order |
| Documents.RoleJoin | documents/metadata.go:99-101 | the join of the capability texts is the join of all the capabilities |
| Documents.SerializeEncoding | documents/metadata.go:57-63 | `Serialize` uses JSON exactly for the JSON format |
| Documents.SerializedEncoding | documents/metadata.go:70-76 | `Serialized` uses XML exactly for the XML format |
| Documents.EncodingsAgree | documents/metadata.go:54-81 | the two choices agree exactly for XML and JSON |
| Documents.Encode | documents/metadata.go:27-28 | an encoding only with JSON: the XML encoder refuses the two map fields of every record |
| Documents.MetadataHandle.constructor | documents/metadata.go:13-19 | a new handle holds its format and record, no buffer and no timestamp |
| Documents.MetadataHandle.GetFormat | documents/metadata.go:33-35 | the handle's format |
| Documents.MetadataHandle.Serialize | documents/metadata.go:54-64 | the record is stored and the emptied buffer gets its encoding; only the JSON format gets one, since the XML encoder fails and its error is ignored |
| Documents.MetadataHandle.Serialized | documents/metadata.go:67-81 | a panic (`None`) exactly for the XML format; otherwise the current record's JSON encoding |
| Documents.MetadataHandle.SetTimestamp | documents/metadata.go:84-86 | only the timestamp changes |
| Documents.MetadataHandle.Timestamp | documents/metadata.go:89-91 | the timestamp |
| Documents.SerializeThenSerialized | documents/metadata.go:54-81 | after `Serialize`, the buffer holds an encoding that `Serialized` repeats exactly for JSON; for XML both fail |
| Documents.ZeroHandleSerialized | documents/metadata.go:67-81 | as written, `&MetadataHandle{}` has the XML format and its `Serialized` panics on the empty record |
| Documents.IntendedEncode | documents/metadata_test.go:23-43 | corrected: the encoders never fail and keep the encoding chosen and the record |
| Documents.IntendedMapTokens | documents/metadata_test.go:23-43 | corrected XML of the two maps: a properties and a metadata-values element, each a `SerializableStringMap` |
| Documents.IntendedMapsReadBack | util/util.go:22-44 | the corrected XML reads back as both maps' entries, in order, each inside its own element |
| Documents.IntendedSerializeThenSerialized | documents/metadata.go:54-81 | corrected: what `Serialize` writes is what `Serialized` gives exactly for XML and JSON |
| Extensions.MapToParams | config/extensions.go:79-89 | "?" and one unescaped `key=value` per option, by the fold's separator rule |
| Extensions.MapToParamsText | config/extensions.go:79-89 | "?" alone for no options, otherwise "?" and the "&"-join of the pairs |
| Extensions.MapToParamsReadBack | config/extensions.go:79-89 | the server reads one pair per option, in the loop's order, empty values included |
| Extensions.OptionsTarget | config/extensions.go:31-39 | a target of path and options has that path and reads back the options |
| Extensions.CreateExtension | config/extensions.go:31-39 | PUT to "/ext" + asset name + options, typed `application/<type>` |
| Extensions.CreateResource | config/extensions.go:60-68 | PUT to "/config/resources/" + name + options, typed like an extension |
| Extensions.ExtensionTarget | config/extensions.go:31-39 | the server sees the extension's path and exactly the options |
| Extensions.ResourceTarget | config/extensions.go:60-68 | the server sees the resource's path and exactly the options |
| Eval.EvalContentType | eval/eval.go:51-55 | JavaScript as such; every other language as XQuery |
| Eval.LanguageText | eval/eval.go:16-27 | "?rex:language=" with the language and "&" when there is one; a bare "?" when there is none |
| Eval.EvalTarget | eval/eval.go:14-42 | "/eval", the language text, "&key=value" per variable unescaped, then the database |
| Eval.EvalCode | eval/eval.go:14-58 | the target, the Content-Type and the body (the code) of the POST |
| Eval.EvalXQuery | eval/service.go:24-25 | evaluates as "xquery" |
| Eval.EvalJavaScript | eval/service.go:33-34 | evaluates as "javascript" |
| Eval.LanguageReadBack | eval/eval.go:16-27 | the language text reads back as the language parameter, or as nothing |
| Eval.EvalReadBack | eval/eval.go:14-42 | path "/eval", then the language, each external variable and the database; the doubled "&" adds no parameter |
| Eval.EvalDoubleAmp | eval/eval.go:23-35 | with a language, the first variable follows "&&" |
| Eval.EvalWithoutLanguage | eval/eval.go:25-41 | without a language the query starts "/eval?" |
| Eval.EvalDatabaseAmp | eval/eval.go:40-41 | the database always follows "&" |
| Eval.HeadOfTarget | eval/eval.go:40-41 | the target starts with what was written before the database |
| Values.NamesParameters | values/values.go:46-53 | "name=" after "?" for the first name, "&name=" for each later one |
| Values.NamesQuery | values/values.go:46-54 | the `name=` segments folded after "?", then the database |
| Values.CoOccurrenceValues | values/values.go:45-60 | POST to "/values/cooccurrence" with the names and the database |
| Values.TupleValues | values/values.go:63-78 | POST to "/values/tuples" with the names and the database |
| Values.NamesQueryText | values/values.go:46-54 | the first name follows "?" directly; no names give "?" or "?&database=..." |
| Values.NamesReadBack | values/values.go:45-54 | one `name=` per name, in order, then the database |
| Values.LexiconParameters | values/values.go:12-20 | mapped options after "?", then the database |
| Values.LexiconQuery | values/values.go:12-15 | the mapped options after "?", then the database |
| Values.ListValues | values/values.go:12-20 | GET "/values/<name>" with the options |
| Values.QueryValues | values/values.go:23-31 | POST to "/values/<name>" with the options |
| Values.AggregateValues | values/values.go:34-42 | POST to "/values/<name>/aggregate" with the options |
| Values.LexiconReadBack | values/values.go:12-20 | the non-empty options in visiting order, then the database |
| Values.LexiconOrderFree | values/values.go:12-20 | any two visiting orders give the same parameters |
| Values.LexiconTarget | values/values.go:12-20 | the lexicon query starts with '?', so the path is read back whole |
| MetadataApi.KeyedParameters | metadata/metadata.go:64-67 | "?" and "&key=escaped value" per value, in order |
| MetadataApi.UriParameters | metadata/metadata.go:64-67 | "?" and "&uri=escaped URI" per URI, in order |
| MetadataApi.AddOptions | metadata/metadata.go:68-70 | options only for a non-nil map, through the mapped builder |
| MetadataApi.WithOptions | metadata/metadata.go:68-70 | the options appended through the mapped builder only for a non-nil map |
| MetadataApi.ExtractMetadata | metadata/metadata.go:63-77 | GET "/metadata" with the URIs and then the options |
| MetadataApi.ExtractMetadataFromQuery | metadata/metadata.go:79-89 | POST to "/metadata/query" with only the options |
| MetadataApi.ValidateDocuments | metadata/metadata.go:91-101 | POST to "/metadata/validate" with the URIs |
| MetadataApi.ValidateQuery | metadata/metadata.go:103-114 | a fixed query, and the rules in the X-Validation-Rules header |
| MetadataApi.ExtractMetadataFromUri | metadata/metadata.go:133-144 | GET "/metadata/document" with one URI and then the options |
| MetadataApi.ValidateUri | metadata/metadata.go:146-153 | POST to "/metadata/validate-document" with one URI |
| MetadataApi.UriListText | metadata/metadata.go:64-67 | "?" alone for no URIs; otherwise "?&uri=..." since "&" precedes every URI |
| MetadataApi.NoUrisFirstOption | metadata/metadata.go:64-70 | with no URIs, the first option follows "?" with no separator |
| MetadataApi.ExtractMetadataReadBack | metadata/metadata.go:63-70 | every URI, escaped and in order, then the non-empty options |
| MetadataApi.KeyedReadBack | metadata/metadata.go:63-70 | every value, escaped and in order, then the non-empty options |
| MetadataApi.ExtractMetadataFromUriReadBack | metadata/metadata.go:133-137 | the single URI, then the options |
| MetadataApi.OptionsOrderFree | metadata/metadata.go:68-70 | any two visiting orders of the options give the same parameters |
| SearchQuery.KindName | search/query.go:526-607 | the element name each query kind is decoded from |
| SearchQuery.KindNameLookup | search/query.go:526-607 | every kind's name looks up that kind, so the 38 names map to 38 distinct kinds |
| SearchQuery.QueryKindOf | search/query.go:526-607 | a string that looks up a kind is that kind's name, so only the 38 names look anything up |
| SearchQuery.KindsFrom2 | search/query.go:538-547 | run 2 of the switch: a kind it finds is the kind named by the string |
| SearchQuery.KindsFrom3 | search/query.go:548-557 | run 3 of the switch: a kind it finds is the kind named by the string |
| SearchQuery.KindsFrom4 | search/query.go:558-567 | run 4 of the switch: a kind it finds is the kind named by the string |
| SearchQuery.KindsFrom5 | search/query.go:568-577 | run 5 of the switch: a kind it finds is the kind named by the string |
| SearchQuery.KindsFrom6 | search/query.go:578-587 | run 6 of the switch: a kind it finds is the kind named by the string |
| SearchQuery.KindsFrom7 | search/query.go:588-595 | run 7 of the switch: a kind it finds is the kind named by the string |
| SearchQuery.KindsFrom8 | search/query.go:596-606 | run 8 of the switch: a kind it finds is the kind named by the string |
| SearchQuery.TablePart | search/query.go:526-607 | every kind sits in one of the eight parts of the table |
| SearchQuery.WalksOwnChildren | search/query.go:384-500 | the ten kinds whose own `UnmarshalXML` goes straight to `SerializeXMLWithQueries`, with no namespace check |
| SearchQuery.Decodes | search/query.go:72-382 | a child is read exactly when its name maps to a kind and, for the 28 reflection-decoded kinds, its start tag is in the search namespace that their `XMLName` tags name |
| SearchQuery.DecodesKind | search/query.go:72-500 | for every kind and namespace: read in every namespace for the ten self-walking kinds, only in the search namespace for the others |
| SearchQuery.AfterChild | search/query.go:511-512 | a child that is not read leaves every token; a child that is read leaves the tokens after its end tag; never more tokens than before |
| SearchQuery.QueriesWalk | search/query.go:504-524 | the walk returns nil or the decoder's terminal error |
| SearchQuery.SerializeXMLWithQueries | search/query.go:504-524 | the decoder loop produces exactly the walk's children and error |
| SearchQuery.UpToQueriesEnd | search/query.go:514-518 | the children seen: all, or up to the first one named like the container's end tag |
| SearchQuery.FlatChildren | search/query.go:504-524 | for every list of content-free children, in any namespaces: one entry per child in order, nil for an unknown name, and nil returned at the first search:queries end tag, with nothing after it read |
| SearchQuery.WalkQueriesNamedChild | search/query.go:511-518 | a child named search:queries maps to nil, is not read, and its end tag ends the walk with nil |
| SearchQuery.NeedsSpace | search/query.go:72-382 | the start tags whose namespace matters: names of reflection-decoded kinds |
| SearchQuery.ForgetLooseSpaces | search/query.go:511 | clearing the namespaces that do not matter keeps the token count |
| SearchQuery.NamespaceIgnored | search/query.go:511-512 | the lookup uses only local names: clearing every start tag's namespace except on reflection-decoded kinds changes nothing in the walk |
| SearchQuery.ReadElementForget | search/query.go:512 | decoding a child never looks at names |
| SearchQuery.ForeignChildNotRead | search/query.go:93-97 | a reflection-decoded kind outside the search namespace is added, and the walk goes on inside it |
| SearchQuery.ForeignTermQuery | search/query.go:93-97 | a term query with no namespace holding a text element gives a term query, then nil for the text element |
| SearchQuery.SearchTermQuery | search/query.go:93-97 | the same term query in the search namespace is read whole and gives one term query |
| SearchQuery.UnknownElementChildren | search/query.go:511-513 | a child that is not read is walked, so a query inside it is still added after the child's own entry |
| SearchQuery.WalkUnreadStart | search/query.go:511-513 | a start tag that is not read adds its entry, and the walk goes on with the next token |
| SearchQuery.WalkEmptyChild | search/query.go:511-518 | a child with no content adds its entry, read or not, and the walk goes on after its end tag |
| SearchQuery.WalkSkipEnd | search/query.go:514-518 | an end tag other than search:queries is skipped |
| SearchMatch.FirstPath | search/search.go:156-162 | the value of the first attribute named "path", in any namespace, and None exactly when there is none |
| SearchMatch.MatchWalk | search/search.go:163-191 | the walk returns nil or the decoder's terminal error |
| SearchMatch.Match.constructor | search/search.go:110-113 | a new match has no path and no text |
| SearchMatch.Match.UnmarshalXML | search/search.go:155-192 | the path from the first "path" attribute (kept without one), and the walk's runs appended |
| SearchMatch.DecodeTexts | search/search.go:163-191 | the token loop produces exactly the walk's runs and error |
| SearchMatch.ReadTextChild | search/search.go:169 | a child holding only text yields all of it and the tokens after its end tag |
| SearchMatch.TextChild | search/search.go:166-174 | a text-only child is one run, highlighted exactly when it is search:highlight |
| SearchMatch.CharRunTexts | search/search.go:180-186 | each piece of character data is one plain run |
| SearchMatch.HighlightSplit | search/search.go:163-191 | plain, highlighted and plain text closed by search:match give three runs and nil |
| SearchMatch.SampleMatch | search/search_test.go:78-93 | the test's snippet decodes to its three expected runs |
| Batching.BatchLimit | datamovement/write-batcher.go:160 | a batch fills at the batch size, or at 1 for size 0 |
| Batching.Batches | datamovement/write-batcher.go:144-174 | the writer's batches: non-nil documents gathered up to the batch size, a non-empty leftover flushed at the end |
| Batching.BatchesAreChunks | datamovement/write-batcher.go:150-173 | the writer's batching is cutting the documents into runs of max(size, 1) |
| Batching.ChunksFlatten | datamovement/write-batcher.go:159-168 | the runs put back together are the documents |
| Batching.ChunksWellCut | datamovement/write-batcher.go:159-168 | every run is non-empty and full but the last |
| Batching.WorkerBatches | datamovement/write-batcher.go:144-174 | the batches are the non-nil documents in arrival order, every batch non-empty and full but the last |
| Batching.NoDocumentsNoBatches | datamovement/write-batcher.go:164-169 | no document, no batch: an empty leftover is not flushed |
| Batching.Broadcast | datamovement/write-batcher.go:309-311 | every item handed to every listener in slice order, item by item |
| Batching.RoundReceived | datamovement/write-batcher.go:309-311 | one item reaches each listener as often as it occurs in the slice |
| Batching.BroadcastReceived | datamovement/write-batcher.go:309-311 | a listener occurring n times receives every item n times in a row |
| Batching.ListenerReceives | datamovement/write-batcher.go:309-311 | a listener added once receives every item once, in order; an absent one nothing |
| Batching.Send | datamovement/write-batcher.go:309-311 | the send loop hands the item to each listener, in order |
| Batching.SubmitBatch | datamovement/write-batcher.go:302-313 | an empty batch is dropped; a panicking write set ends the thread with nothing written or handed out; any other batch is written once and handed to every listener |
| Batching.Written | datamovement/write-batcher.go:144-174 | what a writer writes: every batch, or nothing when write sets panic |
| Batching.WriteWorker | datamovement/write-batcher.go:144-174 | the writer loop submits exactly the specified batches, each to every listener; with panicking write sets it writes nothing and panics exactly when there is a batch |
| Batching.WorkerDeliveries | datamovement/write-batcher.go:144-174 | a listener added once receives every written batch once, in order; succeeding writers write the documents in arrival order in well-cut batches, panicking ones nothing |
| Batching.IndexOf | datamovement/write-batcher.go:95-100 | the position of the first match, or the length when there is none |
| Batching.ShiftOut | datamovement/write-batcher.go:94-102 | as written: the entries after the first match shifted left, the length kept |
| Batching.Remove | datamovement/write-batcher.go:94-102 | the intended removal: the first match taken out |
| Batching.ShiftOutInPlace | datamovement/write-batcher.go:94-102 | the in-place shift leaves exactly `ShiftOut` |
| Batching.ShiftOutKeepsLength | datamovement/write-batcher.go:94-102 | as written, removal keeps the length: the intended removal followed by a second copy of the last entry |
| Batching.RemoveOne | datamovement/write-batcher.go:94-102 | the corrected removal takes out exactly one occurrence |
| Batching.RemovedListenerReceivesNothing | datamovement/write-batcher.go:94-102 | after the corrected removal the listener receives nothing and the others what they did |
| Batching.ShiftOutLastOfTwo | datamovement/write-batcher.go:94-102 | as written, removing the last of two listeners changes nothing |
| Batching.ShiftOutFirstOfTwo | datamovement/write-batcher.go:94-102 | as written, removing the first of two leaves the second twice |
| Batching.ShiftOutDeliveries | datamovement/write-batcher.go:94-102 | a removed last listener still receives every batch; the remaining one after a removed first receives each twice |
| Batching.ModSucc | datamovement/write-batcher.go:133 | a counter kept modulo r is the step count modulo r |
| Batching.RoundRobinCovers | datamovement/write-batcher.go:123-134 | every round-robin entry is an element, and enough entries use every element |
| WriteBatchers.DefaultThreadCount | datamovement/service.go:42 | twice the forest count, truncated to 8 bits |
| WriteBatchers.ByForest | datamovement/write-batcher.go:113 | threads are dealt by forest exactly when there are forests and at least as many threads as forests |
| WriteBatchers.Distribute | datamovement/write-batcher.go:110-134 | the round-robin loop deals threads by forest or by host, and fails with no host to index |
| WriteBatchers.WriteBatcher.constructor | datamovement/service.go:33-46 | a documents service per client host, batches of 250, twice the forests as threads |
| WriteBatchers.WriteBatcher.BatchSize | datamovement/write-batcher.go:38-40 | the batch size |
| WriteBatchers.WriteBatcher.ThreadCount | datamovement/write-batcher.go:43-45 | the thread count |
| WriteBatchers.WriteBatcher.Timestamp | datamovement/write-batcher.go:53-55 | the timestamp |
| WriteBatchers.WriteBatcher.WithThreadCount | datamovement/write-batcher.go:58-61 | only the thread count changes |
| WriteBatchers.WriteBatcher.WithBatchSize | datamovement/write-batcher.go:64-67 | only the batch size changes |
| WriteBatchers.WriteBatcher.WithTransform | datamovement/write-batcher.go:70-73 | only the transform changes |
| WriteBatchers.WriteBatcher.WithTransaction | datamovement/write-batcher.go:76-79 | only the transaction changes |
| WriteBatchers.WriteBatcher.WithWriteChannel | datamovement/write-batcher.go:82-85 | only the write channel changes |
| WriteBatchers.WriteBatcher.WithListener | datamovement/write-batcher.go:88-91 | the listener is added at the end |
| WriteBatchers.WriteBatcher.RemoveListener | datamovement/write-batcher.go:94-102 | the listeners become `ShiftOut` of the old ones |
| WriteBatchers.WriteBatcher.Run | datamovement/write-batcher.go:105-136 | the threads are dealt over the host list as written: n empty strings, then the hosts |
| WriteBatchers.WriteBatcher.Iterator | datamovement/write-batcher.go:227-269 | end of stream without a channel or a service; otherwise every thread gets a host |
| WriteBatchers.WriteBatcher.RunWriteThread | datamovement/write-batcher.go:144-174 | as written, nothing is written or handed out and the thread panics exactly when a batch forms. With a documents service, that write set's query is built and the transaction begun first. A thread `Run` dealt a host without a service panics in `WriteSet` at `s.client` (documents/service.go:38-40): it builds no query and leaves the transaction's ID unchanged |
| WriteBatchers.WriteBatcher.RunWriteThreadWith | datamovement/write-batcher.go:144-174 | with write sets that panic or not: the batches written, every batch to every listener, each begun write set's query (transform, database, and the transaction's ID after its Begin attempt) and the transaction's ID afterwards |
| WriteBatchers.WriteSetQueries | datamovement/write-batcher.go:302-305 | n write sets in turn: query k carries the transform, the database and, with a transaction, the ID after k+1 Begin attempts; the transaction ends with the ID after n |
| WriteBatchers.Plan | datamovement/write-batcher.go:104-135 | `Run`'s host per thread: by forest when there are at least as many threads as forests, else round-robin over the host list, None at a modulo by zero |
| WriteBatchers.HostsAsWritten | datamovement/write-batcher.go:106-109 | the host list as written: n empty strings, then the n hosts |
| WriteBatchers.RunBlankHosts | datamovement/write-batcher.go:106-109 | as written, with 1 to n threads by host, every thread gets host "" |
| WriteBatchers.RunFirstThreadBlank | datamovement/write-batcher.go:106-109 | as written, the first thread by host always gets host "" |
| WriteBatchers.RunWithoutHosts | datamovement/write-batcher.go:106-129 | without a documents service, `Run` by host fails on its first thread |
| WriteBatchers.PlanHostsHaveServices | datamovement/write-batcher.go:237-262 | dealt over the service hosts, every thread gets a host with a service, and enough threads use every host |
| LegacyWriteBatchers.WriteBatcher.constructor | data-movement/service.go:26-34 | four threads and batches of 250 |
| LegacyWriteBatchers.WriteBatcher.BatchSize | data-movement/write-batcher.go:25-27 | the batch size |
| LegacyWriteBatchers.WriteBatcher.ThreadCount | data-movement/write-batcher.go:35-37 | the thread count |
| LegacyWriteBatchers.WriteBatcher.Timestamp | data-movement/write-batcher.go:45-47 | the timestamp |
| LegacyWriteBatchers.WriteBatcher.WithThreadCount | data-movement/write-batcher.go:50-53 | only the thread count changes |
| LegacyWriteBatchers.WriteBatcher.WithBatchSize | data-movement/write-batcher.go:56-59 | only the batch size changes |
| LegacyWriteBatchers.WriteBatcher.WithWriteChannel | data-movement/write-batcher.go:62-65 | only the write channel changes |
| LegacyWriteBatchers.WriteBatcher.WithListener | data-movement/write-batcher.go:68-71 | the listener is added at the end |
| LegacyWriteBatchers.WriteBatcher.RemoveListener | data-movement/write-batcher.go:74-82 | the listeners become `ShiftOut` of the old ones |
| LegacyWriteBatchers.WriteBatcher.Run | data-movement/write-batcher.go:85-93 | one writer thread per unit of the thread count, each on the batcher's write channel |
| LegacyWriteBatchers.WriteBatcher.RunWriteThread | data-movement/write-batcher.go:101-131 | as written, nothing is written or handed out, and the thread panics exactly when a batch forms |
| QueryBatchers.Read | datamovement/query-batcher.go:94-128 | one reader: a request per page at the cursor with the batcher's timestamp, each page handed out, stopping after a short page |
| QueryBatchers.NextCursor | datamovement/query-batcher.go:112-115 | the page's last URI, or the old cursor after an empty page |
| QueryBatchers.Stamp | datamovement/query-batcher.go:105-111 | the batcher's timestamp is kept once set, otherwise taken from the reply |
| QueryBatchers.ReadPages | datamovement/query-batcher.go:94-128 | one request per page handed out, each page as the server sent it; every page but the last is full; stopping early means a short page |
| QueryBatchers.ReadRequests | datamovement/query-batcher.go:99-115 | the first request carries the start cursor and timestamp; each later one the previous page's last URI and the previous batch's timestamp |
| QueryBatchers.ReadStamps | datamovement/query-batcher.go:103-111 | the timestamp is set at most once and then stamps every later batch |
| QueryBatchers.ShortFirstPage | datamovement/query-batcher.go:124-126 | a short first page is handed out once and ends the reading |
| QueryBatchers.TwoUriPage | datamovement/query-batcher_integration_test.go:35-57 | one two-URI page with batch size 10 gives one batch with both URIs, then the end |
| QueryBatchers.ReadFullPage | datamovement/query-batcher.go:113-126 | a full page continues the reading after one request and one batch |
| QueryBatchers.Resume | datamovement/query-batcher.go:101-127 | a reading continued after the requests and batches already done |
| QueryBatchers.ResumeTwice | datamovement/query-batcher.go:94-128 | continuing twice is continuing once with both |
| QueryBatchers.ReadForest | datamovement/query-batcher.go:94-128 | the reader loop sends exactly the specified requests and hands every batch to every listener |
| QueryBatchers.QueryBatcher.constructor | datamovement/service.go:49-57 | the service's clients and forests, pages of 1000 |
| QueryBatchers.QueryBatcher.BatchSize | datamovement/query-batcher.go:34-36 | the batch size |
| QueryBatchers.QueryBatcher.Timestamp | datamovement/query-batcher.go:39-41 | the timestamp |
| QueryBatchers.QueryBatcher.WithBatchSize | datamovement/query-batcher.go:44-47 | only the batch size changes |
| QueryBatchers.QueryBatcher.WithQuery | datamovement/query-batcher.go:50-53 | only the query changes |
| QueryBatchers.QueryBatcher.WithTransaction | datamovement/query-batcher.go:56-59 | only the transaction changes |
| QueryBatchers.QueryBatcher.WithListener | datamovement/query-batcher.go:62-65 | the listener is added at the end |
| QueryBatchers.QueryBatcher.RemoveListener | datamovement/query-batcher.go:68-76 | the listeners become `ShiftOut` of the old ones |
| QueryBatchers.QueryBatcher.Run | datamovement/query-batcher.go:79-86 | one reader per forest, in order, on its preferred host |
| QueryBatchers.QueryBatcher.Iterator | datamovement/query-batcher.go:140-143 | end of stream at once exactly when there is no forest |
| QueryBatchers.QueryBatcher.RunReadThread | datamovement/query-batcher.go:94-128 | one reader's requests and the URI parameters of each (forest name, cursor, batch size as page length, no start), every batch to every listener, the timestamp it leaves, the txid each request carries (none without a transaction, else the ID after that request's Begin attempt) and the transaction's ID afterwards |
| QueryBatchers.ReaderPageKeys | datamovement/query-batcher.go:104 | every page request carries the page length and never a start; the first carries no cursor |
| QueryBatchers.ReadersHaveClients | datamovement/query-batcher.go:81-84 | every reader's host has a client in the per-host map |
| BulkDataServices.AfterWait | dataservices/bulk-data-services.go:175-183 | the phase after waiting: Interrupted after an interrupt request, else Completed |
| BulkDataServices.WaitOutcome | dataservices/bulk-data-services.go:175-183 | `Wait` ends Interrupted exactly after an interrupt request, Completed otherwise |
| BulkDataServices.DealHosts | dataservices/bulk-data-services.go:131-172 | every thread gets a target, and enough threads use every target |
| BulkDataServices.DealUnits | dataservices/bulk-data-services.go:131-172 | every thread gets a unit when there are any, and enough threads use every unit |
| BulkDataServices.UnitFor | dataservices/bulk-data-services.go:159-162 | no unit without units; otherwise thread i gets unit i mod the unit count |
| BulkDataServices.Deal | dataservices/bulk-data-services.go:150-170 | thread i runs on target i mod the target count, with `UnitFor`'s unit |
| BulkDataServices.RunPlan | dataservices/bulk-data-services.go:131-172 | `Run`'s threads, None when threads are to be dealt over no host |
| BulkDataServices.RunPlanShape | dataservices/bulk-data-services.go:131-172 | `Run` fails exactly when threads are dealt over no hosts; otherwise one thread per forest or `threadCount` threads, on a valid host |
| BulkDataServices.IteratorPlanAsWritten | dataservices/bulk-data-services.go:306-355 | `Iterator`'s threads as written, None at the modulo by zero |
| BulkDataServices.IteratorPlan | dataservices/bulk-data-services.go:339-355 | the corrected plan: no host to deal over ends the stream |
| BulkDataServices.IteratorModuloByZero | dataservices/bulk-data-services.go:339-355 | as written, forests without clients and host-based work reach `% 0` |
| BulkDataServices.IteratorOnServiceHosts | dataservices/service.go:20-28 | with a client for every forest's preferred host, as the service is built, `Iterator` never takes `% 0` and deals the corrected plan |
| BulkDataServices.IteratorPlanSafe | dataservices/bulk-data-services.go:306-362 | the corrected plan agrees with the code where it does not panic, and with `Run` when threads are set |
| BulkDataServices.DealThreads | dataservices/bulk-data-services.go:155-170 | the loop with two modulo counters deals exactly `Deal` |
| BulkDataServices.ReplySplit | dataservices/bulk-data-services.go:282-296 | a state-tracking call takes the first part as the new state and hands out the rest; any other call hands out every part |
| BulkDataServices.Tracks | dataservices/bulk-data-services.go:261-274 | the endpoint state is sent and tracked exactly when it is non-empty and parses as JSON other than `null` |
| BulkDataServices.NextState | dataservices/bulk-data-services.go:261-296 | the first reply part when tracking and the reply is non-empty; "" otherwise |
| BulkDataServices.Outputs | dataservices/bulk-data-services.go:283-295 | every reply part, except the first one when tracking |
| BulkDataServices.SubmitDataServiceBatch | dataservices/bulk-data-services.go:250-298 | the call made, the endpoint state left and every handed-out part to every listener |
| BulkDataServices.Process | dataservices/bulk-data-services.go:216-248 | one state-driven thread: calls while the state is non-empty, each carrying the state the previous call left |
| BulkDataServices.ProcessChain | dataservices/bulk-data-services.go:216-248 | no call from an empty state; each later call carries the first part of the previous reply |
| BulkDataServices.ProcessUnparsedState | dataservices/bulk-data-services.go:261-274 | a state that does not parse is dropped after one stateless call |
| BulkDataServices.ProcessStep | dataservices/bulk-data-services.go:222-246 | one round of the process loop |
| BulkDataServices.ProcessLoop | dataservices/bulk-data-services.go:216-248 | the process loop makes exactly the specified calls and hands out its outputs |
| BulkDataServices.InputLoop | dataservices/bulk-data-services.go:185-214 | inputs batched like a writer's, each batch one stateless call; nothing when interrupting |
| BulkDataServices.Submit | dataservices/bulk-data-services.go:202-212 | one input batch sent and its reply handed out |
| BulkDataServices.ForestWorkUnits | dataservices/bulk-data-services.go:72-82 | one forest unit per forest, in order |
| BulkDataServices.BulkDataService.constructor | dataservices/service.go:32-44 | batches of 1000, one thread per forest cut to 8 bits, not forest-based, Initializing, and no endpoint-state mutex |
| BulkDataServices.BulkDataService.Intended | dataservices/service.go:32-44 | the intended construction: the same service with its endpoint-state mutex allocated |
| BulkDataServices.BulkDataService.BatchSize | dataservices/bulk-data-services.go:91-93 | the batch size |
| BulkDataServices.BulkDataService.ThreadCount | dataservices/bulk-data-services.go:114-116 | the thread count |
| BulkDataServices.BulkDataService.WithOutputListener | dataservices/bulk-data-services.go:53-56 | the listener is added at the end |
| BulkDataServices.BulkDataService.WithInputChannel | dataservices/bulk-data-services.go:59-62 | only the input channel changes |
| BulkDataServices.BulkDataService.WithWorkUnits | dataservices/bulk-data-services.go:65-69 | the caller's units replace the old ones and work is not forest-based |
| BulkDataServices.BulkDataService.WithForestBasedWorkUnits | dataservices/bulk-data-services.go:72-82 | one forest unit per forest and work is forest-based |
| BulkDataServices.BulkDataService.WithEndpointState | dataservices/bulk-data-services.go:85-88 | only the endpoint state changes |
| BulkDataServices.BulkDataService.WithBatchSize | dataservices/bulk-data-services.go:96-99 | only the batch size changes |
| BulkDataServices.BulkDataService.WithThreadCount | dataservices/bulk-data-services.go:102-105 | only the thread count changes |
| BulkDataServices.BulkDataService.Wait | dataservices/bulk-data-services.go:175-183 | the phase becomes `AfterWait` of the old one |
| BulkDataServices.BulkDataService.Cancel | dataservices/bulk-data-services.go:108-111 | the service ends Interrupted |
| BulkDataServices.BulkDataService.Run | dataservices/bulk-data-services.go:131-172 | the service is Running and its threads are `RunPlan`'s |
| BulkDataServices.BulkDataService.Iterator | dataservices/bulk-data-services.go:306-362 | the threads are `IteratorPlanAsWritten`'s, None where the host counter is taken `% 0` |
| BulkDataServices.BulkDataService.RunProcessThread | dataservices/bulk-data-services.go:216-248 | a panic at the first lock exactly when the endpoint-state mutex is nil; otherwise nothing when interrupting, else `Process` from the endpoint state, which is stored back |
| BulkDataServices.BulkDataService.RunInputThread | dataservices/bulk-data-services.go:185-214 | the input thread's calls and every reply part to every listener |
| BulkDataServices.NewServiceProcessPanics | dataservices/bulk-data-services.go:222 | as written, a state-driven thread of a service from the service constructor panics before any call |
| BulkDataServices.IntendedServiceProcesses | dataservices/bulk-data-services.go:216-248 | with the mutex allocated, the thread makes `Process`'s calls from the given endpoint state and hands every output to the listener |
| Admin.TimestampResponseHandle.constructor | admin/timestamp.go:16-20 | a new handle holds its format, no bytes and no timestamp |
| Admin.TimestampResponseHandle.GetFormat | admin/timestamp.go:23-25 | the handle's format |
| Admin.TimestampResponseHandle.Deserialize | admin/timestamp.go:35-41 | the buffer becomes the bytes; only plain text also takes them as the timestamp |
| Admin.TimestampResponseHandle.Deserialized | admin/timestamp.go:44-46 | the timestamp |
| Admin.TimestampResponseHandle.Serialize | admin/timestamp.go:54-60 | the buffer is emptied; plain text stores and writes the response |
| Admin.TimestampResponseHandle.Get | admin/timestamp.go:63-65 | the timestamp |
| Admin.TimestampResponseHandle.Serialized | admin/timestamp.go:68-72 | the timestamp for plain text, "" otherwise; the timestamp is unchanged |
| Admin.TimestampResponseHandle.SetTimestamp | admin/timestamp.go:75-77 | only the timestamp changes |
| Admin.TimestampResponseHandle.Timestamp | admin/timestamp.go:80-82 | the timestamp |
| Admin.RoundTrip | admin/timestamp_test.go:10-14 | plain text gives the timestamp back both ways; other formats serialize to "" |
| Transactions.TransactionHandle.constructor | transactions/transactions.go:60-64 | a new handle holds its format, no information and no bytes |
| Transactions.TransactionHandle.GetFormat | transactions/transactions.go:66 | the handle's format |
| Transactions.TransactionHandle.Serialize | transactions/transactions.go:68-70 | only the information changes |
| Transactions.TransactionHandle.Deserialize | transactions/transactions.go:72-78 | the buffer becomes the bytes; the information is decoded only for JSON |
| Transactions.TransactionHandle.Deserialized | transactions/transactions.go:80 | the information |
| Transactions.TransactionHandle.Serialized | transactions/transactions.go:82 | the buffer |
| Transactions.TransactionHandle.SetTimestamp | transactions/transactions.go:84 | nothing changes |
| Transactions.TransactionHandle.Timestamp | transactions/transactions.go:86 | always "" |
| Transactions.TransactionHandle.Read | transactions/transactions.go:88-91 | as many bytes as fit are copied, the rest is untouched, and the whole length is reported |
| Transactions.TransactionHandle.Write | transactions/transactions.go:93-96 | the bytes are appended and all are reported written |
| Transactions.DeserializeWriteRead | transactions/transactions.go:72-96 | after deserializing and writing, a read copies the old bytes and then the new ones |

## Left out

- Network I/O: the HTTP requests and `Execute` are not modelled.
  - Operations are modelled up to the target, headers and body they send.
  - Server replies are inputs.
- Concurrency is not modelled: goroutines, mutexes, wait groups, contexts and channel timing. Only whether the bulk service's endpoint-state mutex exists is kept, because locking a nil one panics.
  - Each thread is one sequential worker over a finite sequence it receives.
  - The `Iterator` variants that feed a results channel are modelled by their thread plans.
- JSON and XML encoding and decoding is not modelled. The model takes it as a parameter:
  - whether a state parses (`parses`);
  - what a handle decodes (`decoded`);
  - an abstract `Encoded` value for metadata. Only whether the encoder succeeds is kept: JSON always does, and XML never does on a metadata record, whose two maps encoding/xml refuses.
- `Documents.MetadataHandle.Serialize`: the bytes the failing XML encoder may already have flushed (output beyond its 4096-byte buffer, before it reaches the maps) are not modelled; the buffer is taken to hold no encoding.
- `Documents.WriteSetParts`: a panic is an outcome (`panicked`); the parts written before it are returned, although Go never sends them. Recovery from the panic is not modelled: nothing in the program recovers, so it ends the process.
- The replies and received sequences bound the loops. A reply that never ends or a channel that never closes is outside the model.
- Bytes and strings are one type here; `[]byte` buffers are `seq<char>`.
- Pointer results are modelled as values. `Handles.MapHandle` holds a `*map[string]interface{}` and `Admin.TimestampResponseHandle.Get` returns a `*string`, so in Go a caller shares the handle's state and sees later changes through them. In the model a caller gets a copy.
- The fixed-path metadata wrappers `getValidationRules` and `setValidationRules` are not modelled: they add no query text.
- `MetadataHandle.Deserialize` is left out: it only dispatches to a decoder by format.
- `statusChangeListener` and status reporting in the bulk service are not modelled: they are callbacks into caller code.
- The bulk input thread sleeps on a nil input; that wait is timing and is not modelled.
- `ForestInfoHandle` is not modelled: it only wraps a JSON decoding of the forest list.
- `GetForestInfo` and `getForestInfo` are not modelled: each is one request with no logic of its own.
- The handle constants `TEXTPLAIN` and `TEXT_URI_LIST` are declared in a file that is not part of this model. They are placeholders; the model relies only on all four codes being distinct.
- `Clients.BasicClient` does not model the HTTP client, the `Userinfo` value or `Do`/`ApplyAuth`: they belong to the transport.
- The digest-authentication handshake is an external library. Its outcome is a parameter.
- `Escape` models `url.QueryEscape` over the UTF-8 encoding of each Dafny character; invalid UTF-8 cannot occur in a Dafny string.
- `LegacyWriteBatchers.WriteBatcher.RunWriteThread`: the legacy `submitBatch` (data-movement/write-batcher.go:136) calls `WriteSet` with four arguments, but `Service.WriteSet` (documents/service.go:38) takes five, so the package does not compile against the documents package shown. The model reads the call as passing no transform and no transaction.
- `LegacyWriteBatchers.WriteBatcher.Run` does not state which service each thread uses: all threads share one.
- `QueryBatchers.QueryBatcher.WithBatchSize` keeps the source's `uint16` parameter as a `requires` bound.
- The legacy query batcher `data-movement/query-batcher.go` is not part of this model.
- `Util.BeginIfUnset`, `Util.AddTransactionParam`: `Transaction.Begin` is a request to the server, so the ID each Begin yields is a parameter (`begin(k)` for the k-th attempt); "" stands for a Begin that failed and left the ID unset.
- `Admin.TimestampResponseHandle.Serialized`: the `log.Println` of the timestamp (admin/timestamp.go:70) is logging and is not modelled.
- `SearchQuery.AfterChild` does not model these ways the Go decoder can differ on a known child:
  - An `and-query`, `near-query` or `container-query` in a foreign namespace fails inside its own decoder, which leaves an end-of-element marker behind; Go's walk then stops with EOF after that child's end tag, while the model goes on with the next child.
  - A child whose fields fail to parse (a bad number or boolean) is left part-consumed in Go; the model treats field values as always parsing.
  - A `search:queries` end tag nested inside a child that walks its own children ends that inner walk early in Go; the model skips the child as one element.
  - Token sequences that are not well nested are outside the model.

## Findings

| source | as written | input that shows it | evidently intended | confidence | as-written member | corrected member |
|---|---|---|---|---|---|---|
| datamovement/write-batcher.go:106-109 | `make([]string, n)` already holds n empty strings, and the n hosts are appended after them | one documents service and 1 thread not by forest: the thread gets host "" and no documents service | a list of just the n hosts, as `Iterator` builds at 237-240 | high, not executed | WriteBatchers.RunBlankHosts | WriteBatchers.PlanHostsHaveServices |
| documents/documents.go:87-95 | the second test repeats the JSON test, so the XML branch is dead | an XML metadata handle or document goes out as `application/octet-stream` | the second test is for XML | high, not executed | Documents.PartContentTypeNeverXml | Documents.IntendedPartContentType |
| datamovement/write-batcher.go:94-102 | `copy` shifts later listeners left but the slice keeps its length | listeners [a, b], remove b: still [a, b]; remove a: [b, b] | the slice shortened by one after the shift | high, not executed | Batching.ShiftOutDeliveries | Batching.RemovedListenerReceivesNothing |
| dataservices/bulk-data-services.go:339-355 | the guard lets forests without clients through, and the host counter is taken `% 0` | a service built with forests and no clients, work not forest-based | end of stream, as with no clients and no forests | low, not executed (the service constructor always has a client per forest host) | BulkDataServices.IteratorModuloByZero | BulkDataServices.IteratorPlanSafe |
| dataservices/bulk-data-services.go:222 | `runProcessThread` first locks `endpointStateMutex`, which `Service.BulkDataService` (dataservices/service.go:33-43) never sets, so the lock dereferences nil | any service from `BulkDataService(endpoint)` run without an input channel: every thread panics at its first lock, whatever the endpoint state | the constructor allocates the mutex, as it does `mutex` | high, not executed | BulkDataServices.NewServiceProcessPanics | BulkDataServices.IntendedServiceProcesses |
| util/util.go:194-196 | every "/LATEST" is removed from the base URL, also inside the host name | host "LATESTdb", port 8000: base `http://LATESTdb:8000/LATEST` becomes `http:/db:8000` | only the trailing version path removed | low, not executed | Clients.DataServiceBaseCutsHost | Clients.DataServiceBaseTrailingKeepsHost |
| documents/metadata.go:77-79 | `Metadata` declares its properties and metadata values as `map[string]string`, which encoding/xml cannot encode, so `Serialized` panics for the XML format; the batchers pass `&documents.MetadataHandle{}`, whose zero format is XML, and `writeSet` gives each document's metadata a zero-format handle | any non-empty batch of a write batcher, or any document with metadata: `writeSet` panics before the request is built | the maps written as `SerializableStringMap` elements, as documents/metadata_test.go:23-43 expects | high, not executed | Documents.ZeroHandleSerialized | Documents.IntendedMapsReadBack |
