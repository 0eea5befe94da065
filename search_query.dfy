// Structured-query decoding (search/query.go): the table from a child
// element's local name to the kind of query struct it is decoded into, and
// `SerializeXMLWithQueries`, which walks the children of a query container.
// The structs' own fields come from `encoding/xml` reflection and are not
// part of this model: a decoded child is its kind, or nil.
module SearchQuery {
  import opened Common
  import opened Xml

  const SearchNamespace: string := "http://marklogic.com/appservices/search"

  /** The 38 query structs a child element can be decoded into. */
  datatype QueryKind =
    | Query | OrQuery | AndQuery | TermQuery | AndNotQuery | PositiveQuery
    | NegativeQuery | NotQuery | NotInQuery | NearQuery | BoostQuery
    | MatchingQuery | BoostingQuery | PropertiesQuery | DirectoryQuery
    | CollectionQuery | ContainerQuery | QueryElement | QueryAttribute
    | DocumentQuery | DocumentFragmentQuery | LocksQuery | RangeQuery
    | FieldReference | ValueQuery | WordQuery | QueryParent | HeatMap | Point
    | Box | Circle | Polygon | GeoElemQuery | Lat | Lon | GeoElemPairQuery
    | GeoAttrPairQuery | GeoPathQuery

  /** The local name each kind is decoded from. */
  function KindName(k: QueryKind): string
  {
    match k
    case Query => "query"
    case OrQuery => "or-query"
    case AndQuery => "and-query"
    case TermQuery => "term-query"
    case AndNotQuery => "and-not-query"
    case PositiveQuery => "positive-query"
    case NegativeQuery => "negative-query"
    case NotQuery => "not-query"
    case NotInQuery => "not-in-query"
    case NearQuery => "near-query"
    case BoostQuery => "boost-query"
    case MatchingQuery => "matching-query"
    case BoostingQuery => "boosting-query"
    case PropertiesQuery => "properties-query"
    case DirectoryQuery => "directory-query"
    case CollectionQuery => "collection-query"
    case ContainerQuery => "container-query"
    case QueryElement => "element"
    case QueryAttribute => "attribute"
    case DocumentQuery => "document-query"
    case DocumentFragmentQuery => "document-fragment-query"
    case LocksQuery => "locks-query"
    case RangeQuery => "range-query"
    case FieldReference => "field"
    case ValueQuery => "value-query"
    case WordQuery => "word-query"
    case QueryParent => "parent"
    case HeatMap => "heatmap"
    case Point => "point"
    case Box => "box"
    case Circle => "circle"
    case Polygon => "polygon"
    case GeoElemQuery => "geo-elem-query"
    case Lat => "lat"
    case Lon => "lon"
    case GeoElemPairQuery => "geo-elem-pair-query"
    case GeoAttrPairQuery => "geo-attr-pair-query"
    case GeoPathQuery => "geo-path-query"
  }

  /**
   * `stringToQueryStruct`: the kind for one of the 38 names, nil (None) for
   * every other string. The switch is written as eight runs of cases, each
   * falling through to the next, so that each run is checked on its own.
   */
  function QueryKindOf(local: string): (r: Option<QueryKind>)
    ensures r.Some? ==> KindName(r.value) == local
  {
    match local
    case "query" => Some(Query)
    case "or-query" => Some(OrQuery)
    case "and-query" => Some(AndQuery)
    case "term-query" => Some(TermQuery)
    case "and-not-query" => Some(AndNotQuery)
    case _ => KindsFrom2(local)
  }

  /** Run 2 of the switch. */
  function KindsFrom2(local: string): (r: Option<QueryKind>)
    ensures r.Some? ==> KindName(r.value) == local
  {
    match local
    case "positive-query" => Some(PositiveQuery)
    case "negative-query" => Some(NegativeQuery)
    case "not-query" => Some(NotQuery)
    case "not-in-query" => Some(NotInQuery)
    case "near-query" => Some(NearQuery)
    case _ => KindsFrom3(local)
  }

  /** Run 3 of the switch. */
  function KindsFrom3(local: string): (r: Option<QueryKind>)
    ensures r.Some? ==> KindName(r.value) == local
  {
    match local
    case "boost-query" => Some(BoostQuery)
    case "matching-query" => Some(MatchingQuery)
    case "boosting-query" => Some(BoostingQuery)
    case "properties-query" => Some(PropertiesQuery)
    case "directory-query" => Some(DirectoryQuery)
    case _ => KindsFrom4(local)
  }

  /** Run 4 of the switch. */
  function KindsFrom4(local: string): (r: Option<QueryKind>)
    ensures r.Some? ==> KindName(r.value) == local
  {
    match local
    case "collection-query" => Some(CollectionQuery)
    case "container-query" => Some(ContainerQuery)
    case "element" => Some(QueryElement)
    case "attribute" => Some(QueryAttribute)
    case "document-query" => Some(DocumentQuery)
    case _ => KindsFrom5(local)
  }

  /** Run 5 of the switch. */
  function KindsFrom5(local: string): (r: Option<QueryKind>)
    ensures r.Some? ==> KindName(r.value) == local
  {
    match local
    case "document-fragment-query" => Some(DocumentFragmentQuery)
    case "locks-query" => Some(LocksQuery)
    case "range-query" => Some(RangeQuery)
    case "field" => Some(FieldReference)
    case "value-query" => Some(ValueQuery)
    case _ => KindsFrom6(local)
  }

  /** Run 6 of the switch. */
  function KindsFrom6(local: string): (r: Option<QueryKind>)
    ensures r.Some? ==> KindName(r.value) == local
  {
    match local
    case "word-query" => Some(WordQuery)
    case "parent" => Some(QueryParent)
    case "heatmap" => Some(HeatMap)
    case "point" => Some(Point)
    case "box" => Some(Box)
    case _ => KindsFrom7(local)
  }

  /** Run 7 of the switch. */
  function KindsFrom7(local: string): (r: Option<QueryKind>)
    ensures r.Some? ==> KindName(r.value) == local
  {
    match local
    case "circle" => Some(Circle)
    case "polygon" => Some(Polygon)
    case "geo-elem-query" => Some(GeoElemQuery)
    case "lat" => Some(Lat)
    case _ => KindsFrom8(local)
  }

  /** Run 8 of the switch. */
  function KindsFrom8(local: string): (r: Option<QueryKind>)
    ensures r.Some? ==> KindName(r.value) == local
  {
    match local
    case "lon" => Some(Lon)
    case "geo-elem-pair-query" => Some(GeoElemPairQuery)
    case "geo-attr-pair-query" => Some(GeoAttrPairQuery)
    case "geo-path-query" => Some(GeoPathQuery)
    case _ => None
  }

  /**
   * The kinds in the eight runs of the switch, so that each run's lookups
   * are checked on their own.
   */
  function TablePart(k: QueryKind): (r: nat)
    ensures 1 <= r <= 8
  {
    match k
    case Query | OrQuery | AndQuery | TermQuery | AndNotQuery => 1
    case PositiveQuery | NegativeQuery | NotQuery | NotInQuery | NearQuery => 2
    case BoostQuery | MatchingQuery | BoostingQuery | PropertiesQuery | DirectoryQuery => 3
    case CollectionQuery | ContainerQuery | QueryElement | QueryAttribute | DocumentQuery => 4
    case DocumentFragmentQuery | LocksQuery | RangeQuery | FieldReference | ValueQuery => 5
    case WordQuery | QueryParent | HeatMap | Point | Box => 6
    case Circle | Polygon | GeoElemQuery | Lat => 7
    case Lon | GeoElemPairQuery | GeoAttrPairQuery | GeoPathQuery => 8
  }

  /** Every kind's name looks up that kind, so the 38 names map to 38 distinct kinds. */
  lemma KindNameLookup(k: QueryKind)
    ensures QueryKindOf(KindName(k)) == Some(k)
  {
    match TablePart(k)
    case 1 => LookupPart1(k);
    case 2 => LookupPart2(k);
    case 3 => LookupPart3(k);
    case 4 => LookupPart4(k);
    case 5 => LookupPart5(k);
    case 6 => LookupPart6(k);
    case 7 => LookupPart7(k);
    case 8 => LookupPart8(k);
  }

  lemma LookupPart1(k: QueryKind)
    requires TablePart(k) == 1
    ensures QueryKindOf(KindName(k)) == Some(k)
  {
  }

  lemma LookupPart2(k: QueryKind)
    requires TablePart(k) == 2
    ensures QueryKindOf(KindName(k)) == Some(k)
  {
  }

  lemma LookupPart3(k: QueryKind)
    requires TablePart(k) == 3
    ensures QueryKindOf(KindName(k)) == Some(k)
  {
  }

  lemma LookupPart4(k: QueryKind)
    requires TablePart(k) == 4
    ensures QueryKindOf(KindName(k)) == Some(k)
  {
  }

  lemma LookupPart5(k: QueryKind)
    requires TablePart(k) == 5
    ensures QueryKindOf(KindName(k)) == Some(k)
  {
  }

  lemma LookupPart6(k: QueryKind)
    requires TablePart(k) == 6
    ensures QueryKindOf(KindName(k)) == Some(k)
  {
  }

  lemma LookupPart7(k: QueryKind)
    requires TablePart(k) == 7
    ensures QueryKindOf(KindName(k)) == Some(k)
  {
  }

  lemma LookupPart8(k: QueryKind)
    requires TablePart(k) == 8
    ensures QueryKindOf(KindName(k)) == Some(k)
  {
  }

  // ---------------------------------------------------------------------------
  // SerializeXMLWithQueries (search/query.go:503-524)
  // ---------------------------------------------------------------------------

  /** The end tag that closes a query container. */
  function QueriesEnd(): Name
  {
    Name(SearchNamespace, "queries")
  }

  /** The decoded children, each a kind or nil, and the error returned (None for nil). */
  datatype Walked = Walked(queries: seq<Option<QueryKind>>, err: Option<StreamError>)

  /**
   * The ten kinds whose own `UnmarshalXML` hands the decoder straight to
   * `SerializeXMLWithQueries`, whatever the element's namespace. Every other
   * kind is decoded by `encoding/xml` reflection, directly or through a
   * fake type, against an `XMLName` tag in the search namespace.
   */
  predicate WalksOwnChildren(k: QueryKind)
  {
    match k
    case Query | OrQuery | PositiveQuery | NegativeQuery | NotQuery | MatchingQuery
       | BoostingQuery | PropertiesQuery | DocumentFragmentQuery | LocksQuery => true
    case _ => false
  }

  /**
   * Whether decoding a child reads any of its tokens: its local name must
   * map to a kind, and a reflection-decoded kind must be in the search
   * namespace, since the `XMLName` check fails before a token is read.
   */
  predicate Decodes(name: Name)
  {
    var q := QueryKindOf(name.local);
    q.Some? && (WalksOwnChildren(q.value) || name.space == SearchNamespace)
  }

  /**
   * The tokens left once the child started by `name` has been decoded:
   * after its end tag when it is read at all, all of them otherwise
   * (decoding into nil, or a failed namespace check, consumes nothing), and
   * None when the tokens run out inside the child.
   */
  function AfterChild(name: Name, ts: seq<Token>): (r: Option<seq<Token>>)
    ensures r.Some? ==> |r.value| <= |ts|
    ensures !Decodes(name) ==> r == Some(ts)
  {
    if !Decodes(name) then Some(ts)
    else
      var d := ReadElement(ts, 0);
      if d.None? then None else Some(d.value.1)
  }

  /**
   * The walk over the tokens after the container's start tag. A child start
   * tag adds the kind its local name maps to, and the child is decoded; the
   * children of an element that is not read (unknown, or outside the search
   * namespace for a reflection-decoded kind) are therefore walked as well.
   * The search:queries end tag returns nil; other end tags and character
   * data are skipped. When the tokens run out, the walk returns what the
   * decoder then reports. Errors from decoding a child are dropped.
   */
  function QueriesWalk(ts: seq<Token>, terminal: StreamError): (r: Walked)
    ensures r.err == None || r.err == Some(terminal)
    decreases |ts|
  {
    if ts == [] then Walked([], Some(terminal))
    else match ts[0]
      case StartElement(name, _) =>
        var q := QueryKindOf(name.local);
        var rest := AfterChild(name, ts[1..]);
        if rest.None? then Walked([q], Some(terminal))
        else
          var w := QueriesWalk(rest.value, terminal);
          Walked([q] + w.queries, w.err)
      case EndElement(name) =>
        if name == QueriesEnd() then Walked([], None) else QueriesWalk(ts[1..], terminal)
      case CharData(_) => QueriesWalk(ts[1..], terminal)
  }

  /** `SerializeXMLWithQueries`: the decoder loop, token by token. */
  method SerializeXMLWithQueries(tokens: seq<Token>, terminal: StreamError)
    returns (queries: seq<Option<QueryKind>>, err: Option<StreamError>)
    ensures Walked(queries, err) == QueriesWalk(tokens, terminal)
  {
    queries := [];
    var rest := tokens;
    while true
      invariant QueriesWalk(tokens, terminal).queries == queries + QueriesWalk(rest, terminal).queries
      invariant QueriesWalk(tokens, terminal).err == QueriesWalk(rest, terminal).err
      decreases |rest|
    {
      if rest == [] {
        return queries, Some(terminal);
      }
      match rest[0]
      case StartElement(name, _) =>
        var q := QueryKindOf(name.local);
        var after := AfterChild(name, rest[1..]);
        var w := QueriesWalk(rest, terminal);
        if after.None? {
          assert w.queries == [q];
          queries := queries + [q];
          return queries, Some(terminal);
        }
        assert w.queries == [q] + QueriesWalk(after.value, terminal).queries;
        Assoc(queries, [q], QueriesWalk(after.value, terminal).queries);
        queries := queries + [q];
        rest := after.value;
      case EndElement(name) =>
        if name == QueriesEnd() {
          return queries, None;
        }
        rest := rest[1..];
      case CharData(_) =>
        rest := rest[1..];
    }
  }

  /** Children with no content of their own: a start tag and its end tag each. */
  function EmptyChildren(names: seq<Name>): seq<Token>
    decreases |names|
  {
    if names == [] then [] else [StartElement(names[0], []), EndElement(names[0])] + EmptyChildren(names[1..])
  }

  function KindsOf(names: seq<Name>): seq<Option<QueryKind>>
  {
    seq(|names|, i requires 0 <= i < |names| => QueryKindOf(names[i].local))
  }

  /**
   * How many of the children the walk sees: all of them, or up to and
   * including the first one named like the container's end tag, whose own
   * end tag then ends the walk.
   */
  function UpToQueriesEnd(names: seq<Name>): (r: nat)
    ensures r <= |names|
    decreases |names|
  {
    if names == [] then 0
    else if names[0] == QueriesEnd() then 1
    else 1 + UpToQueriesEnd(names[1..])
  }

  /**
   * One entry per child, in order, nil for an unknown name, whichever
   * namespaces the children are in, and nil returned at the first
   * search:queries end tag; what follows that tag is never read.
   */
  lemma {:induction false} FlatChildren(names: seq<Name>, after: seq<Token>, terminal: StreamError)
    ensures QueriesWalk(EmptyChildren(names) + [EndElement(QueriesEnd())] + after, terminal)
         == Walked(KindsOf(names[..UpToQueriesEnd(names)]), None)
    decreases |names|
  {
    var ts := EmptyChildren(names) + [EndElement(QueriesEnd())] + after;
    if names == [] {
      assert ts == [EndElement(QueriesEnd())] + after;
    } else {
      var n := names[0];
      var tail := EmptyChildren(names[1..]) + [EndElement(QueriesEnd())] + after;
      EmptyChildrenShape(names, after);
      if n == QueriesEnd() {
        WalkQueriesNamedChild(tail, terminal);
        assert KindsOf(names[..1]) == [QueryKindOf(n.local)];
      } else {
        FlatChildren(names[1..], after, terminal);
        WalkEmptyChild(n, tail, terminal);
        var u := UpToQueriesEnd(names);
        assert names[..u][1..] == names[1..][..u - 1];
        assert KindsOf(names[..u]) == [QueryKindOf(n.local)] + KindsOf(names[1..][..u - 1]);
      }
    }
  }

  lemma EmptyChildrenShape(names: seq<Name>, after: seq<Token>)
    requires names != []
    ensures EmptyChildren(names) + [EndElement(QueriesEnd())] + after
         == [StartElement(names[0], []), EndElement(names[0])] + (EmptyChildren(names[1..]) + [EndElement(QueriesEnd())] + after)
  {
    var pair := [StartElement(names[0], []), EndElement(names[0])];
    Assoc(pair, EmptyChildren(names[1..]), [EndElement(QueriesEnd())]);
    Assoc(pair, EmptyChildren(names[1..]) + [EndElement(QueriesEnd())], after);
  }

  /** "queries" is no query name, so a child named like the container is not read, and its end tag ends the walk. */
  lemma WalkQueriesNamedChild(ts: seq<Token>, terminal: StreamError)
    ensures QueriesWalk([StartElement(QueriesEnd(), []), EndElement(QueriesEnd())] + ts, terminal) == Walked([None], None)
  {
    assert QueryKindOf(QueriesEnd().local) == None;
    var all := [StartElement(QueriesEnd(), []), EndElement(QueriesEnd())] + ts;
    assert all[1..] == [EndElement(QueriesEnd())] + ts;
  }

  /**
   * Whether a start tag's namespace matters: it does only for a name that
   * maps to a reflection-decoded kind.
   */
  predicate NeedsSpace(name: Name)
  {
    var q := QueryKindOf(name.local);
    q.Some? && !WalksOwnChildren(q.value)
  }

  /** The tokens with the namespace cleared on every start tag that does not need one. */
  function ForgetLooseSpaces(ts: seq<Token>): (r: seq<Token>)
    ensures |r| == |ts|
    decreases |ts|
  {
    if ts == [] then []
    else
      var t := match ts[0]
        case StartElement(name, attrs) =>
          if NeedsSpace(name) then ts[0] else StartElement(Name("", name.local), attrs)
        case _ => ts[0];
      [t] + ForgetLooseSpaces(ts[1..])
  }

  /** Decoding a child never looks at names, so it reads the same text and leaves the same tokens. */
  lemma {:induction false} ReadElementForget(ts: seq<Token>, depth: nat)
    ensures ReadElement(ForgetLooseSpaces(ts), depth).None? <==> ReadElement(ts, depth).None?
    ensures ReadElement(ts, depth).Some? ==>
      ReadElement(ForgetLooseSpaces(ts), depth).value
        == (ReadElement(ts, depth).value.0, ForgetLooseSpaces(ReadElement(ts, depth).value.1))
    decreases |ts|
  {
    if ts != [] {
      var f := ForgetLooseSpaces(ts);
      assert f[1..] == ForgetLooseSpaces(ts[1..]);
      match ts[0]
      case StartElement(_, _) =>
        ReadElementForget(ts[1..], depth + 1);
      case EndElement(_) =>
        if depth > 0 {
          ReadElementForget(ts[1..], depth - 1);
        }
      case CharData(_) =>
        ReadElementForget(ts[1..], depth);
    }
  }

  /**
   * The lookup uses only local names, and the namespace decides only whether
   * a reflection-decoded kind is read: clearing every other start tag's
   * namespace changes nothing.
   */
  lemma {:induction false} NamespaceIgnored(ts: seq<Token>, terminal: StreamError)
    ensures QueriesWalk(ForgetLooseSpaces(ts), terminal) == QueriesWalk(ts, terminal)
    decreases |ts|
  {
    if ts != [] {
      var f := ForgetLooseSpaces(ts);
      assert f[1..] == ForgetLooseSpaces(ts[1..]);
      match ts[0]
      case StartElement(name, _) =>
        assert Decodes(f[0].name) == Decodes(name);
        ReadElementForget(ts[1..], 0);
        var rest := AfterChild(name, ts[1..]);
        if rest.Some? {
          NamespaceIgnored(rest.value, terminal);
        }
      case EndElement(_) =>
        NamespaceIgnored(ts[1..], terminal);
      case CharData(_) =>
        NamespaceIgnored(ts[1..], terminal);
    }
  }

  /**
   * A reflection-decoded kind outside the search namespace is added, but
   * none of its tokens is read: the walk goes on inside it.
   */
  lemma ForeignChildNotRead(k: QueryKind, space: string, attrs: seq<Attr>, ts: seq<Token>, terminal: StreamError)
    requires !WalksOwnChildren(k) && space != SearchNamespace
    ensures QueriesWalk([StartElement(Name(space, KindName(k)), attrs)] + ts, terminal)
         == Walked([Some(k)] + QueriesWalk(ts, terminal).queries, QueriesWalk(ts, terminal).err)
  {
    KindNameLookup(k);
    assert ([StartElement(Name(space, KindName(k)), attrs)] + ts)[1..] == ts;
  }

  /**
   * A kind with its own `UnmarshalXML` is read in every namespace, and a
   * reflection-decoded kind exactly in the search namespace.
   */
  lemma DecodesKind(k: QueryKind, space: string)
    ensures Decodes(Name(space, KindName(k))) <==> WalksOwnChildren(k) || space == SearchNamespace
  {
    KindNameLookup(k);
  }

  /**
   * A term query without a namespace, holding a text element: the term query
   * is not read, so its text element is walked and added as nil.
   */
  lemma ForeignTermQuery(terminal: StreamError)
    ensures QueriesWalk([StartElement(Name("", "term-query"), []), StartElement(Name("", "text"), []),
                         CharData("x"), EndElement(Name("", "text")), EndElement(Name("", "term-query")),
                         EndElement(QueriesEnd())], terminal)
         == Walked([Some(TermQuery), None], None)
  {
    var close := [EndElement(QueriesEnd())];
    var inner := [StartElement(Name("", "text"), []), CharData("x"), EndElement(Name("", "text")),
                  EndElement(Name("", "term-query"))] + close;
    assert QueryKindOf("text") == None;
    ForeignChildNotRead(TermQuery, "", [], inner, terminal);
    assert inner[1..][1..][1..][1..] == close;
    assert [StartElement(Name("", "term-query"), [])] + inner
        == [StartElement(Name("", "term-query"), []), StartElement(Name("", "text"), []),
            CharData("x"), EndElement(Name("", "text")), EndElement(Name("", "term-query")),
            EndElement(QueriesEnd())];
  }

  /** The same term query in the search namespace is read whole, text element included. */
  lemma SearchTermQuery(terminal: StreamError)
    ensures QueriesWalk([StartElement(Name(SearchNamespace, "term-query"), []), StartElement(Name(SearchNamespace, "text"), []),
                         CharData("x"), EndElement(Name(SearchNamespace, "text")), EndElement(Name(SearchNamespace, "term-query")),
                         EndElement(QueriesEnd())], terminal)
         == Walked([Some(TermQuery)], None)
  {
    var ts := [StartElement(Name(SearchNamespace, "term-query"), []), StartElement(Name(SearchNamespace, "text"), []),
               CharData("x"), EndElement(Name(SearchNamespace, "text")), EndElement(Name(SearchNamespace, "term-query")),
               EndElement(QueriesEnd())];
    assert Decodes(Name(SearchNamespace, "term-query"));
    var close := [EndElement(QueriesEnd())];
    assert ts[4..][1..] == close && ts[3..][1..] == ts[4..] && ts[2..][1..] == ts[3..] && ts[1..][1..] == ts[2..];
    assert ReadElement(ts[4..], 0) == Some(("", close));
    assert ReadElement(ts[3..], 1) == Some(("", close));
    var empty: string := "";
    assert empty + empty == empty;
    assert ReadElement(ts[2..], 1) == Some(("", close));
    assert ReadElement(ts[1..], 0) == Some(("", close));
  }

  /**
   * A child that is not read is walked: a query inside it is still added,
   * after the outer child's own entry.
   */
  lemma UnknownElementChildren(outer: Name, inner: Name, rest: seq<Token>, terminal: StreamError)
    requires !Decodes(outer)
    requires outer != QueriesEnd() && inner != QueriesEnd()
    ensures QueriesWalk([StartElement(outer, []), StartElement(inner, []), EndElement(inner), EndElement(outer)] + rest, terminal)
         == Walked([QueryKindOf(outer.local), QueryKindOf(inner.local)] + QueriesWalk(rest, terminal).queries, QueriesWalk(rest, terminal).err)
  {
    var tail := [EndElement(outer)] + rest;
    var mid := [StartElement(inner, []), EndElement(inner)] + tail;
    Regroup(StartElement(outer, []), StartElement(inner, []), EndElement(inner), EndElement(outer), rest);
    WalkSkipEnd(outer, rest, terminal);
    WalkEmptyChild(inner, tail, terminal);
    WalkUnreadStart(outer, mid, terminal);
    ConsCons(QueryKindOf(outer.local), QueryKindOf(inner.local), QueriesWalk(rest, terminal).queries);
  }

  /** Helper for `UnknownElementChildren`: sequence regrouping only. */
  lemma Regroup<T>(a: T, b: T, c: T, d: T, rest: seq<T>)
    ensures [a, b, c, d] + rest == [a] + ([b, c] + ([d] + rest))
  {
  }

  /** A start tag that is not read adds its entry and the walk goes on with the very next token. */
  lemma WalkUnreadStart(name: Name, ts: seq<Token>, terminal: StreamError)
    requires !Decodes(name)
    ensures QueriesWalk([StartElement(name, [])] + ts, terminal)
         == Walked([QueryKindOf(name.local)] + QueriesWalk(ts, terminal).queries, QueriesWalk(ts, terminal).err)
  {
    assert ([StartElement(name, [])] + ts)[1..] == ts;
  }

  /** A child with no content adds its kind, read or not, and the walk goes on after its end tag. */
  lemma WalkEmptyChild(name: Name, ts: seq<Token>, terminal: StreamError)
    requires name != QueriesEnd()
    ensures QueriesWalk([StartElement(name, []), EndElement(name)] + ts, terminal)
         == Walked([QueryKindOf(name.local)] + QueriesWalk(ts, terminal).queries, QueriesWalk(ts, terminal).err)
  {
    var all := [StartElement(name, []), EndElement(name)] + ts;
    assert all[1..] == [EndElement(name)] + ts;
    assert all[1..][1..] == ts;
    if Decodes(name) {
      assert ReadElement(all[1..], 0) == Some(("", ts));
    }
  }

  /** An end tag other than the container's is skipped. */
  lemma WalkSkipEnd(name: Name, ts: seq<Token>, terminal: StreamError)
    requires name != QueriesEnd()
    ensures QueriesWalk([EndElement(name)] + ts, terminal) == QueriesWalk(ts, terminal)
  {
    assert ([EndElement(name)] + ts)[1..] == ts;
  }
}
