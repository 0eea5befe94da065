// The forest-aware helpers of util/internals.go: host choice, one client per
// host, the `text/uri-list` handle and the query string of the internal URIs
// endpoint. datamovement/internals.go repeats `PreferredHost`, the
// `URIsHandle` methods other than `Deserialized`, and the parameter map of the
// URI request; this module models those copies as well.
module UtilInternals {
  import opened Common
  import opened Decimal
  import opened Util
  import opened UriList
  import Handles
  import Clients

  datatype ForestInfo = ForestInfo(
    id: string, name: string, updatesAllowed: string, database: string,
    host: string, requestHost: string, alternateHost: string, openReplicaHost: string)

  /** Reference definition of a priority fallback: the first non-empty candidate, else `fallback`. */
  function FirstNonEmpty(candidates: seq<string>, fallback: string): string
  {
    if candidates == [] then fallback
    else if candidates[0] != "" then candidates[0]
    else FirstNonEmpty(candidates[1..], fallback)
  }

  /** The host to talk to for a forest: request host, then alternate host, then open-replica host, then its own host. */
  function PreferredHost(fi: ForestInfo): (r: string)
    ensures r == fi.requestHost || r == fi.alternateHost || r == fi.openReplicaHost || r == fi.host
    ensures r == "" <==> fi.requestHost == "" && fi.alternateHost == "" && fi.openReplicaHost == "" && fi.host == ""
  {
    if fi.requestHost != "" then fi.requestHost
    else if fi.alternateHost != "" then fi.alternateHost
    else if fi.openReplicaHost != "" then fi.openReplicaHost
    else fi.host
  }

  /** The if-chain is the priority fallback over request, alternate and open-replica host, with the forest's host last. */
  lemma PreferredHostPriority(fi: ForestInfo)
    ensures PreferredHost(fi) == FirstNonEmpty([fi.requestHost, fi.alternateHost, fi.openReplicaHost], fi.host)
  {
    var c := [fi.requestHost, fi.alternateHost, fi.openReplicaHost];
    assert c[1..] == [fi.alternateHost, fi.openReplicaHost];
    assert c[1..][1..] == [fi.openReplicaHost];
    assert c[1..][1..][1..] == [];
    assert FirstNonEmpty([], fi.host) == fi.host;
    assert FirstNonEmpty([fi.openReplicaHost], fi.host)
      == if fi.openReplicaHost != "" then fi.openReplicaHost else fi.host;
    assert FirstNonEmpty(c[1..], fi.host)
      == if fi.alternateHost != "" then fi.alternateHost else FirstNonEmpty([fi.openReplicaHost], fi.host);
  }

  /** The distinct preferred hosts of the forests. */
  ghost function PreferredHosts(forests: seq<ForestInfo>): set<string>
  {
    set i | 0 <= i < |forests| :: PreferredHost(forests[i])
  }

  /** The preferred host of every forest, in forest order. */
  function ForestHosts(forests: seq<ForestInfo>): seq<string>
  {
    seq(|forests|, i requires 0 <= i < |forests| => PreferredHost(forests[i]))
  }

  /**
   * One client per distinct preferred host: the caller's own client for the
   * caller's host, and for every other host a client built from a copy of the
   * caller's connection with only the host replaced (nil when building fails).
   * Each host's digest handshake has its own outcome, `digests(host)`.
   */
  method GetClientsByHost(client: Clients.BasicClient, forests: seq<ForestInfo>, digests: string -> Clients.DigestOutcome)
    returns (byHost: map<string, Clients.BasicClient?>)
    ensures byHost.Keys == PreferredHosts(forests)
    ensures forall h :: h in byHost ==> HostEntry(byHost[h], h, client, client.connectionInfo, digests(h))
  {
    var info := client.ConnectionInfo();
    var uniqueHosts := UniqueHosts(forests);
    byHost := map[];
    var remaining := uniqueHosts;
    while remaining != {}
      invariant remaining <= uniqueHosts
      invariant byHost.Keys == uniqueHosts - remaining
      invariant forall h :: h in byHost ==> HostEntry(byHost[h], h, client, info, digests(h))
      decreases |remaining|
    {
      var host :| host in remaining;
      var c := client;
      if host != info.host {
        c := ClientForHost(host, info, digests(host));
      }
      assert HostEntry(c, host, client, info, digests(host));
      byHost := byHost[host := c];
      remaining := remaining - {host};
    }
  }

  /** The entry for `host`: the caller's client for its own host, otherwise a client built for `host` or nil. */
  ghost predicate HostEntry(c: Clients.BasicClient?, host: string, client: Clients.BasicClient,
                            info: Clients.Connection, digest: Clients.DigestOutcome)
    reads c, if c != null then {c.connectionInfo} else {}, info
  {
    (host == info.host ==> c == client)
    && (host != info.host ==>
          (c == null <==> info.authenticationType == Clients.DigestAuth && digest.DigestError?)
          && (c != null ==> ClientFor(c, host, info)))
  }

  method UniqueHosts(forests: seq<ForestInfo>) returns (hosts: set<string>)
    ensures hosts == PreferredHosts(forests)
  {
    hosts := {};
    var i := 0;
    while i < |forests|
      invariant 0 <= i <= |forests|
      invariant hosts == set j | 0 <= j < i :: PreferredHost(forests[j])
    {
      hosts := hosts + {PreferredHost(forests[i])};
      i := i + 1;
    }
  }

  /** A client for `host` on a copy of the caller's connection settings. */
  method ClientForHost(host: string, info: Clients.Connection, digest: Clients.DigestOutcome)
    returns (c: Clients.BasicClient?)
    ensures c == null <==> info.authenticationType == Clients.DigestAuth && digest.DigestError?
    ensures c != null ==> fresh(c) && ClientFor(c, host, info)
  {
    var connection := new Clients.Connection(host, info.port, info.username, info.password,
                                             info.authenticationType, info.database);
    var err;
    c, err := Clients.NewClient(connection, digest);
  }

  /** `c` was built for `host` from a copy of `info` with the host replaced. */
  ghost predicate ClientFor(c: Clients.BasicClient, host: string, info: Clients.Connection)
    reads c, c.connectionInfo, info
  {
    c.base == Clients.ClientBase(host, info.port)
    && c.connectionInfo.host == host && c.connectionInfo.port == info.port
    && c.connectionInfo.username == info.username && c.connectionInfo.password == info.password
    && c.connectionInfo.authenticationType == info.authenticationType
    && c.connectionInfo.database == info.database && c.database == info.database
  }

  // ---------------------------------------------------------------------------
  // URIsHandle: a `text/uri-list` body and the URIs it holds
  // ---------------------------------------------------------------------------

  class URIsHandle {
    var buffer: string
    var uris: seq<string>
    var timestamp: string

    constructor ()
      ensures buffer == "" && uris == [] && timestamp == ""
    {
      buffer := "";
      uris := [];
      timestamp := "";
    }

    /** Always `text/uri-list`, whatever the handle holds. */
    function GetFormat(): (r: int)
      ensures r == Handles.TEXT_URI_LIST && r != Handles.XML && r != Handles.JSON
    {
      Handles.TEXT_URI_LIST
    }

    /** Keeps the body as received and the non-empty CRLF-separated lines of it, in order. */
    method Deserialize(bytes: string)
      modifies this
      ensures buffer == bytes && uris == ParseUriList(bytes) && timestamp == old(timestamp)
    {
      buffer := bytes;
      var pieces := SplitCRLF(bytes);
      var filtered: seq<string> := [];
      var i := 0;
      while i < |pieces|
        invariant 0 <= i <= |pieces|
        invariant filtered == NonEmpty(pieces[..i])
        invariant buffer == bytes && timestamp == old(timestamp)
      {
        NonEmptyAppend(pieces[..i], [pieces[i]]);
        assert pieces[..i + 1] == pieces[..i] + [pieces[i]];
        if pieces[i] != "" {
          filtered := filtered + [pieces[i]];
        }
        i := i + 1;
      }
      assert pieces[..i] == pieces;
      uris := filtered;
    }

    function Deserialized(): (r: seq<string>)
      reads this
      ensures r == uris
    {
      uris
    }

    /** Stores the URIs and writes their CRLF join into an emptied buffer. */
    method Serialize(newUris: seq<string>)
      modifies this
      ensures uris == newUris && buffer == JoinCRLF(newUris) && timestamp == old(timestamp)
    {
      uris := newUris;
      buffer := "";
      buffer := buffer + Join(uris, "\r\n");
    }

    function Get(): (r: seq<string>)
      reads this
      ensures r == uris
    {
      uris
    }

    /** Re-serialises the current URIs; a second call returns the same text. */
    method Serialized() returns (s: string)
      modifies this
      ensures s == JoinCRLF(old(uris)) && buffer == s
      ensures uris == old(uris) && timestamp == old(timestamp)
    {
      Serialize(uris);
      s := buffer;
    }

    method SetTimestamp(t: string)
      modifies this
      ensures timestamp == t && buffer == old(buffer) && uris == old(uris)
    {
      timestamp := t;
    }

    function Timestamp(): (r: string)
      reads this
      ensures r == timestamp
    {
      timestamp
    }
  }

  /** Serialising URIs and reading the body back gives the same URIs, when none is empty or holds a CRLF. */
  method SerializeDeserialize(h: URIsHandle, uris: seq<string>)
    requires forall i :: 0 <= i < |uris| ==> uris[i] != "" && !HasCRLF(uris[i])
    modifies h
    ensures h.uris == uris && h.buffer == JoinCRLF(uris)
  {
    h.Serialize(uris);
    h.Deserialize(h.buffer);
    UriListRoundTrip(uris);
  }

  // ---------------------------------------------------------------------------
  // The query string of the internal URIs endpoint (GetURIs / getURIs)
  // ---------------------------------------------------------------------------

  /**
   * The entries of the parameter map: forest name, cursor and page length
   * always; start only when non-zero.
   */
  function URIsParams(forestName: string, after: string, pageLength: nat, start: Uint64): (r: seq<(string, string)>)
    ensures |r| == if start != 0 then 4 else 3
  {
    [("forest-name", forestName), ("after", after), ("pageLength", FormatNat(pageLength))]
    + (if start != 0 then [("start", FormatNat(start))] else [])
  }

  /**
   * "?" then the mapped parameters in the order `visited` (the order the
   * range loop happens to take), then the database and transaction parameters.
   */
  function URIsQuery(forestName: string, after: string, pageLength: nat, start: Uint64,
                     database: string, txid: Option<string>, visited: seq<(string, string)>): string
    requires multiset(visited) == multiset(URIsParams(forestName, after, pageLength, start))
  {
    AddTxid(AddDatabaseParam(AppendAll("?", MappedSegments("", visited)), database), txid)
  }

  /** The parameters in source order; a "" value is left out, as `MappedParameters` does. */
  function CanonicalURIsSegments(forestName: string, after: string, pageLength: nat, start: Uint64): seq<string>
  {
    Optional("forest-name", forestName, forestName != "")
    + Optional("after", after, after != "")
    + [Param("pageLength", FormatNat(pageLength))]
    + Optional("start", FormatNat(start), start != 0)
  }

  /**
   * Whatever order the map is visited in, the server reads the same
   * parameters: page length always, start only when non-zero, forest name and
   * cursor only when non-empty; then database and txid, in that order.
   */
  lemma URIsQueryReadBack(forestName: string, after: string, pageLength: nat, start: Uint64,
                          database: string, txid: Option<string>, visited: seq<(string, string)>)
    requires multiset(visited) == multiset(URIsParams(forestName, after, pageLength, start))
    ensures var segs := QuerySegments(URIsQuery(forestName, after, pageLength, start, database, txid, visited));
      var n := |segs| - |ExtraSegments(database, txid)|;
      n >= 0
      && multiset(segs[..n]) == multiset(CanonicalURIsSegments(forestName, after, pageLength, start))
      && segs[n..] == ExtraSegments(database, txid)
  {
    var mapped := MappedSegments("", visited);
    MappedOrderFree(forestName, after, pageLength, start, visited);
    URIsQuerySegments(mapped, visited, database, txid);
    var extra := ExtraSegments(database, txid);
    assert (mapped + extra)[..|mapped|] == mapped;
    assert (mapped + extra)[|mapped|..] == extra;
  }

  lemma URIsQuerySegments(mapped: seq<string>, visited: seq<(string, string)>, database: string, txid: Option<string>)
    requires mapped == MappedSegments("", visited)
    requires forall i :: 0 <= i < |visited| ==> '&' !in visited[i].0
    ensures QuerySegments(AddTxid(AddDatabaseParam(AppendAll("?", mapped), database), txid))
      == mapped + ExtraSegments(database, txid)
  {
    MappedReadBack("?", "", visited);
    QuerySegmentsOfQuestion();
    ExtraReadBack(AppendAll("?", mapped), mapped, database, txid);
  }

  /** The mapped parameters are the canonical ones, up to order. */
  lemma MappedOrderFree(forestName: string, after: string, pageLength: nat, start: Uint64, visited: seq<(string, string)>)
    requires multiset(visited) == multiset(URIsParams(forestName, after, pageLength, start))
    ensures forall i :: 0 <= i < |visited| ==> '&' !in visited[i].0
    ensures multiset(MappedSegments("", visited)) == multiset(CanonicalURIsSegments(forestName, after, pageLength, start))
  {
    var params := URIsParams(forestName, after, pageLength, start);
    URIsParamsKeys(forestName, after, pageLength, start);
    KeysOfPermutation(visited, params);
    MappedSegmentsOrderFree("", visited, params);
    CanonicalMapped(forestName, after, pageLength, start);
  }

  lemma URIsParamsKeys(forestName: string, after: string, pageLength: nat, start: Uint64)
    ensures forall i :: 0 <= i < |URIsParams(forestName, after, pageLength, start)| ==>
      '&' !in URIsParams(forestName, after, pageLength, start)[i].0
  {
    var p := URIsParams(forestName, after, pageLength, start);
    assert p[0].0 == "forest-name" && p[1].0 == "after" && p[2].0 == "pageLength";
    assert |p| == 4 ==> p[3].0 == "start";
  }

  lemma KeysOfPermutation(visited: seq<(string, string)>, params: seq<(string, string)>)
    requires multiset(visited) == multiset(params)
    requires forall i :: 0 <= i < |params| ==> '&' !in params[i].0
    ensures forall i :: 0 <= i < |visited| ==> '&' !in visited[i].0
  {
    forall i | 0 <= i < |visited| ensures '&' !in visited[i].0 {
      assert visited[i] in multiset(params);
      var j :| 0 <= j < |params| && params[j] == visited[i];
    }
  }

  lemma CanonicalMapped(forestName: string, after: string, pageLength: nat, start: Uint64)
    ensures MappedSegments("", URIsParams(forestName, after, pageLength, start))
      == CanonicalURIsSegments(forestName, after, pageLength, start)
  {
    MappedFour(forestName, after, FormatNat(pageLength), FormatNat(start), start != 0);
    assert FormatNat(pageLength) != "" && FormatNat(start) != "";
  }

  lemma MappedFour(forestName: string, after: string, pageLength: string, start: string, hasStart: bool)
    ensures MappedSegments("", [("forest-name", forestName), ("after", after), ("pageLength", pageLength)]
                               + (if hasStart then [("start", start)] else []))
      == Optional("forest-name", forestName, forestName != "") + Optional("after", after, after != "")
         + Optional("pageLength", pageLength, pageLength != "") + Optional("start", start, hasStart && start != "")
  {
    var tail: seq<(string, string)> := if hasStart then [("start", start)] else [];
    var s4 := Optional("start", start, hasStart && start != "");
    assert MappedSegments("", tail) == s4 by {
      if hasStart {
        MappedOne("start", start);
      }
    }
    MappedThree(("forest-name", forestName), ("after", after), ("pageLength", pageLength), tail, s4);
  }

  lemma MappedThree(e1: (string, string), e2: (string, string), e3: (string, string),
                    tail: seq<(string, string)>, s4: seq<string>)
    requires MappedSegments("", tail) == s4
    ensures MappedSegments("", [e1, e2, e3] + tail)
      == Optional(e1.0, e1.1, e1.1 != "") + Optional(e2.0, e2.1, e2.1 != "") + Optional(e3.0, e3.1, e3.1 != "") + s4
  {
    var s1, s2, s3 := Optional(e1.0, e1.1, e1.1 != ""), Optional(e2.0, e2.1, e2.1 != ""), Optional(e3.0, e3.1, e3.1 != "");
    MappedCons(e3, tail, s4);
    MappedCons(e2, [e3] + tail, s3 + s4);
    MappedCons(e1, [e2] + ([e3] + tail), s2 + (s3 + s4));
    ThreeCons(e1, e2, e3, tail);
    FourConcat(s1, s2, s3, s4);
  }

  lemma MappedCons(e: (string, string), rest: seq<(string, string)>, tailSegs: seq<string>)
    requires MappedSegments("", rest) == tailSegs
    ensures MappedSegments("", [e] + rest) == Optional(e.0, e.1, e.1 != "") + tailSegs
  {
    MappedSegmentsAppend("", [e], rest);
    MappedOne(e.0, e.1);
  }

  lemma MappedOne(key: string, value: string)
    ensures MappedSegments("", [(key, value)]) == Optional(key, value, value != "")
  {
    assert [(key, value)][1..] == [];
    assert MappedSegments("", [(key, value)]) == MappedSegment("", (key, value)) + MappedSegments("", []);
    assert PrefixOf("") + Param(key, value) == Param(key, value);
  }

  /**
   * The parameter names the server sees: page length always, start only when
   * non-zero, cursor and forest name only when non-empty.
   */
  lemma URIsQueryKeys(forestName: string, after: string, pageLength: nat, start: Uint64)
    ensures SegmentKeys(CanonicalURIsSegments(forestName, after, pageLength, start))
      == OptionalKey("forest-name", forestName != "") + OptionalKey("after", after != "")
         + ["pageLength"] + OptionalKey("start", start != 0)
    ensures "after" in SegmentKeys(CanonicalURIsSegments(forestName, after, pageLength, start)) <==> after != ""
    ensures "start" in SegmentKeys(CanonicalURIsSegments(forestName, after, pageLength, start)) <==> start != 0
    ensures "pageLength" in SegmentKeys(CanonicalURIsSegments(forestName, after, pageLength, start))
  {
    URIsKeyLiterals();
    FourKeys("forest-name", forestName, forestName != "", "after", after, after != "",
             "pageLength", FormatNat(pageLength), "start", FormatNat(start), start != 0);
    KeyMembers("forest-name", forestName != "", "after", after != "", "pageLength", "start", start != 0);
  }

  lemma URIsKeyLiterals()
    ensures '=' !in "forest-name" && '=' !in "after" && '=' !in "pageLength" && '=' !in "start"
    ensures "after" != "forest-name" && "after" != "pageLength" && "after" != "start"
    ensures "start" != "forest-name" && "start" != "pageLength"
  {
  }

  /** Which keys a list of two optional keys, a required one and another optional one holds. */
  lemma KeyMembers(o1: string, p1: bool, o2: string, p2: bool, o3: string, o4: string, p4: bool)
    requires o2 != o1 && o2 != o3 && o2 != o4
    requires o4 != o1 && o4 != o3
    ensures o2 in OptionalKey(o1, p1) + OptionalKey(o2, p2) + [o3] + OptionalKey(o4, p4) <==> p2
    ensures o4 in OptionalKey(o1, p1) + OptionalKey(o2, p2) + [o3] + OptionalKey(o4, p4) <==> p4
    ensures o3 in OptionalKey(o1, p1) + OptionalKey(o2, p2) + [o3] + OptionalKey(o4, p4)
  {
    var keys := OptionalKey(o1, p1) + OptionalKey(o2, p2) + [o3] + OptionalKey(o4, p4);
    assert keys[|OptionalKey(o1, p1) + OptionalKey(o2, p2)|] == o3;
  }

  lemma FourKeys(k1: string, v1: string, p1: bool, k2: string, v2: string, p2: bool,
                 k3: string, v3: string, k4: string, v4: string, p4: bool)
    requires '=' !in k1 && '=' !in k2 && '=' !in k3 && '=' !in k4
    ensures SegmentKeys(Optional(k1, v1, p1) + Optional(k2, v2, p2) + [Param(k3, v3)] + Optional(k4, v4, p4))
      == OptionalKey(k1, p1) + OptionalKey(k2, p2) + [k3] + OptionalKey(k4, p4)
  {
    var a, b, c, d := Optional(k1, v1, p1), Optional(k2, v2, p2), [Param(k3, v3)], Optional(k4, v4, p4);
    OptionalKeys(k1, v1, p1);
    OptionalKeys(k2, v2, p2);
    OptionalKeys(k3, v3, true);
    OptionalKeys(k4, v4, p4);
    SegmentKeysAppend(a, b);
    SegmentKeysAppend(a + b, c);
    SegmentKeysAppend(a + b + c, d);
  }

  function OptionalKey(key: string, present: bool): seq<string>
  {
    if present then [key] else []
  }

  lemma OptionalKeys(key: string, value: string, present: bool)
    requires '=' !in key
    ensures SegmentKeys(Optional(key, value, present)) == OptionalKey(key, present)
  {
    ParamKey(key, value);
  }

  lemma SegmentKeysAppend(a: seq<string>, b: seq<string>)
    ensures SegmentKeys(a + b) == SegmentKeys(a) + SegmentKeys(b)
  {
  }
}
