// The query-string helpers of the `util` package (util/util.go and
// util/transform.go), the token list of `SerializableStringMap.MarshalXML`,
// and the two decisions `PostForm` makes before it talks to the network.
module Util {
  import opened Common
  import opened Xml
  import QueryEscape

  // ---------------------------------------------------------------------------
  // The "?" / "&" convention and how a server reads a query string back
  // ---------------------------------------------------------------------------

  /** The separator written before the next parameter: none right after a bare "?". */
  function Separator(params: string): string
  {
    if params == "?" then "" else "&"
  }

  /** The builders' fold: append each segment with the separator rule above. */
  function AppendAll(params: string, segments: seq<string>): string
    decreases |segments|
  {
    if segments == [] then params
    else AppendAll(params + Separator(params) + segments[0], segments[1..])
  }

  function QueryBody(q: string): string
  {
    if |q| > 0 && q[0] == '?' then q[1..] else q
  }

  /**
   * The parameters a server sees in a query string: the text after a leading
   * "?" split on "&", empty pieces dropped (as `url.ParseQuery` does).
   */
  function QuerySegments(q: string): seq<string>
  {
    NonEmpty(SplitOn(QueryBody(q), '&'))
  }

  /** "&" followed by one '&'-free segment adds exactly that segment. */
  lemma QuerySegmentsAmp(params: string, seg: string)
    requires seg != "" && '&' !in seg
    ensures QuerySegments(params + "&" + seg) == QuerySegments(params) + [seg]
  {
    var q := params + "&" + seg;
    assert QueryBody(q) == QueryBody(params) + "&" + seg by {
      if params == "" {
        assert q == "&" + seg;
      } else {
        assert q[0] == params[0];
        if params[0] == '?' {
          assert q[1..] == params[1..] + "&" + seg;
        }
      }
    }
    SplitOnAround(QueryBody(params), seg, '&');
    assert QueryBody(params) + "&" + seg == QueryBody(params) + ['&'] + seg;
    SplitOnWithoutSeparator(seg, '&');
    NonEmptyAppend(SplitOn(QueryBody(params), '&'), [seg]);
  }

  /** A single segment right after "?" is read as that one parameter. */
  lemma QuerySegmentsQuestion(seg: string)
    requires seg != "" && '&' !in seg
    ensures QuerySegments("?" + seg) == [seg]
  {
    assert QueryBody("?" + seg) == seg;
    SplitOnWithoutSeparator(seg, '&');
    assert NonEmpty([seg]) == [seg] + NonEmpty([seg][1..]);
  }

  /** One step of the fold adds exactly its segment to what the server reads. */
  lemma QuerySegmentsStep(params: string, seg: string)
    requires seg != "" && '&' !in seg
    ensures QuerySegments(params + Separator(params) + seg) == QuerySegments(params) + [seg]
  {
    if params == "?" {
      QuerySegmentsQuestion(seg);
      assert QuerySegments("?") == [];
    } else {
      QuerySegmentsAmp(params, seg);
    }
  }

  /**
   * Whatever came before, the server reads back exactly the appended segments,
   * in order, after the ones already present.
   */
  lemma {:induction false} AppendAllReadBack(params: string, segments: seq<string>)
    requires forall i :: 0 <= i < |segments| ==> segments[i] != "" && '&' !in segments[i]
    ensures QuerySegments(AppendAll(params, segments)) == QuerySegments(params) + segments
    decreases |segments|
  {
    if segments != [] {
      var next := params + Separator(params) + segments[0];
      assert AppendAll(params, segments) == AppendAll(next, segments[1..]);
      QuerySegmentsStep(params, segments[0]);
      AppendAllReadBack(next, segments[1..]);
      ReadBackStep(QuerySegments(AppendAll(next, segments[1..])), QuerySegments(next), QuerySegments(params), segments);
    }
  }

  /** Reading back one segment and then the rest is reading back all of them. */
  lemma ReadBackStep(whole: seq<string>, next: seq<string>, before: seq<string>, segments: seq<string>)
    requires segments != []
    requires whole == next + segments[1..]
    requires next == before + [segments[0]]
    ensures whole == before + segments
  {
    assert [segments[0]] + segments[1..] == segments;
  }

  /** The text the fold writes: one separator (none after a bare "?"), then the "&"-joined segments. */
  lemma {:induction false} AppendAllClosedForm(params: string, segments: seq<string>)
    requires forall i :: 0 <= i < |segments| ==> segments[i] != ""
    ensures segments == [] ==> AppendAll(params, segments) == params
    ensures segments != [] ==>
      AppendAll(params, segments) == params + Separator(params) + Join(segments, "&")
    decreases |segments|
  {
    if segments != [] {
      var next := params + Separator(params) + segments[0];
      assert next != "?" by {
        assert |next| >= 2;
      }
      AppendAllClosedForm(next, segments[1..]);
      if |segments| > 1 {
        assert Join(segments, "&") == segments[0] + "&" + Join(segments[1..], "&");
      }
    }
  }

  /** Two folds in a row are one fold over both lists. */
  lemma {:induction false} AppendAllConcat(params: string, a: seq<string>, b: seq<string>)
    ensures AppendAll(AppendAll(params, a), b) == AppendAll(params, a + b)
    decreases |a|
  {
    if a == [] {
      assert a + b == b;
    } else {
      assert (a + b)[0] == a[0] && (a + b)[1..] == a[1..] + b;
      AppendAllConcat(params + Separator(params) + a[0], a[1..], b);
    }
  }

  /** `key=QueryEscape(value)`. */
  function Param(key: string, value: string): string
  {
    key + "=" + QueryEscape.Escape(value)
  }

  /** A parameter whose key has no '&' is one segment the server reads back whole. */
  lemma ParamIsSegment(key: string, value: string)
    requires '&' !in key
    ensures Param(key, value) != "" && '&' !in Param(key, value)
  {
    QueryEscape.EscapedHasNoDelimiters(value);
  }

  /** The name a server reads from a segment: the text before its first '='. */
  function SegmentKey(seg: string): string
  {
    if seg == [] || seg[0] == '=' then [] else [seg[0]] + SegmentKey(seg[1..])
  }

  function SegmentKeys(segs: seq<string>): (r: seq<string>)
    ensures |r| == |segs| && forall i :: 0 <= i < |segs| ==> r[i] == SegmentKey(segs[i])
  {
    seq(|segs|, i requires 0 <= i < |segs| => SegmentKey(segs[i]))
  }

  /** A key without '=' is read back from its parameter. */
  lemma {:induction false} ParamKey(key: string, value: string)
    requires '=' !in key
    ensures SegmentKey(Param(key, value)) == key
  {
    if key == [] {
      assert Param(key, value)[0] == '=';
    } else {
      assert Param(key, value) == [key[0]] + Param(key[1..], value);
      assert Param(key, value)[1..] == Param(key[1..], value);
      ParamKey(key[1..], value);
    }
  }

  // ---------------------------------------------------------------------------
  // RepeatingParameters (util/util.go:47-56)
  // ---------------------------------------------------------------------------

  function RepeatingSegments(valueLabel: string, values: seq<string>): seq<string>
  {
    seq(|values|, i requires 0 <= i < |values| => Param(valueLabel, values[i]))
  }

  method RepeatingParameters(params: string, valueLabel: string, values: seq<string>) returns (r: string)
    ensures r == AppendAll(params, RepeatingSegments(valueLabel, values))
  {
    ghost var segs := RepeatingSegments(valueLabel, values);
    r := params;
    var i := 0;
    while i < |values|
      invariant 0 <= i <= |values|
      invariant AppendAll(r, segs[i..]) == AppendAll(params, segs)
    {
      var separator := "&";
      if r == "?" {
        separator := "";
      }
      assert segs[i..][1..] == segs[i + 1..];
      r := r + separator + Param(valueLabel, values[i]);
      i := i + 1;
    }
  }

  /** The server reads one `valueLabel=escaped value` per value, in input order, after what was there. */
  lemma RepeatingReadBack(params: string, valueLabel: string, values: seq<string>)
    requires '&' !in valueLabel
    ensures QuerySegments(AppendAll(params, RepeatingSegments(valueLabel, values)))
         == QuerySegments(params) + RepeatingSegments(valueLabel, values)
  {
    var segs := RepeatingSegments(valueLabel, values);
    forall i | 0 <= i < |segs| ensures segs[i] != "" && '&' !in segs[i] {
      ParamIsSegment(valueLabel, values[i]);
    }
    AppendAllReadBack(params, segs);
  }

  // ---------------------------------------------------------------------------
  // MappedParameters (util/util.go:59-73); a Go map is a list of entries in
  // whatever order the range loop visits them
  // ---------------------------------------------------------------------------

  /** An empty prefix adds nothing; any other is followed by one ':'. */
  function PrefixOf(prefix: string): (r: string)
    ensures prefix == "" ==> r == ""
    ensures prefix != "" ==> |r| == |prefix| + 1 && r[..|prefix|] == prefix && r[|prefix|] == ':'
  {
    if prefix != "" then prefix + ":" else ""
  }

  function MappedSegment(prefix: string, entry: (string, string)): seq<string>
  {
    if entry.1 == "" then [] else [PrefixOf(prefix) + Param(entry.0, entry.1)]
  }

  function MappedSegments(prefix: string, entries: seq<(string, string)>): seq<string>
  {
    if entries == [] then [] else MappedSegment(prefix, entries[0]) + MappedSegments(prefix, entries[1..])
  }

  method MappedParameters(params: string, prefix: string, values: seq<(string, string)>) returns (r: string)
    ensures r == AppendAll(params, MappedSegments(prefix, values))
  {
    var p := prefix;
    if p != "" {
      p := p + ":";
    }
    r := params;
    var i := 0;
    while i < |values|
      invariant 0 <= i <= |values|
      invariant AppendAll(r, MappedSegments(prefix, values[i..])) == AppendAll(params, MappedSegments(prefix, values))
    {
      var (key, value) := values[i];
      MappedStep(r, prefix, values[i..]);
      assert values[i..][1..] == values[i + 1..];
      if value != "" {
        var separator := "&";
        if r == "?" {
          separator := "";
        }
        r := r + separator + (p + Param(key, value));
      }
      i := i + 1;
    }
  }

  /** One entry of the loop: a non-empty value appends its segment, an empty one nothing. */
  lemma MappedStep(r: string, prefix: string, entries: seq<(string, string)>)
    requires entries != []
    ensures AppendAll(r, MappedSegments(prefix, entries)) ==
      AppendAll(if entries[0].1 == "" then r else r + Separator(r) + (PrefixOf(prefix) + Param(entries[0].0, entries[0].1)),
        MappedSegments(prefix, entries[1..]))
  {
    var rest := MappedSegments(prefix, entries[1..]);
    if entries[0].1 != "" {
      var seg := PrefixOf(prefix) + Param(entries[0].0, entries[0].1);
      assert MappedSegments(prefix, entries) == [seg] + rest;
      assert ([seg] + rest)[1..] == rest;
    } else {
      assert MappedSegments(prefix, entries) == rest;
    }
  }

  lemma {:induction false} MappedSegmentsAppend(prefix: string, a: seq<(string, string)>, b: seq<(string, string)>)
    ensures MappedSegments(prefix, a + b) == MappedSegments(prefix, a) + MappedSegments(prefix, b)
  {
    if a == [] {
      assert a + b == b;
    } else {
      assert (a + b)[0] == a[0] && (a + b)[1..] == a[1..] + b;
      MappedSegmentsAppend(prefix, a[1..], b);
    }
  }

  /** A segment is written exactly for the entries whose value is not "" (whatever the order). */
  lemma {:induction false} MappedSegmentsMembers(prefix: string, entries: seq<(string, string)>, seg: string)
    ensures seg in MappedSegments(prefix, entries) <==>
      exists i :: 0 <= i < |entries| && entries[i].1 != "" && seg == PrefixOf(prefix) + Param(entries[i].0, entries[i].1)
  {
    if entries != [] {
      MappedSegmentsMembers(prefix, entries[1..], seg);
      if seg in MappedSegments(prefix, entries[1..]) {
        var i :| 0 <= i < |entries[1..]| && entries[1..][i].1 != "" && seg == PrefixOf(prefix) + Param(entries[1..][i].0, entries[1..][i].1);
        assert entries[i + 1] == entries[1..][i];
      }
      if exists i :: 0 <= i < |entries| && entries[i].1 != "" && seg == PrefixOf(prefix) + Param(entries[i].0, entries[i].1) {
        var i :| 0 <= i < |entries| && entries[i].1 != "" && seg == PrefixOf(prefix) + Param(entries[i].0, entries[i].1);
        if i > 0 {
          assert entries[1..][i - 1] == entries[i];
        }
      }
    }
  }

  /** Visiting the same entries in another order writes the same segments, each as often. */
  lemma {:induction false} MappedSegmentsOrderFree(prefix: string, e1: seq<(string, string)>, e2: seq<(string, string)>)
    requires multiset(e1) == multiset(e2)
    ensures multiset(MappedSegments(prefix, e1)) == multiset(MappedSegments(prefix, e2))
    decreases |e1|
  {
    if e1 == [] {
      assert |e2| == |multiset(e2)| == 0;
    } else {
      var x := e1[0];
      assert x in multiset(e2);
      var k :| 0 <= k < |e2| && e2[k] == x;
      var before, after := e2[..k], e2[k + 1..];
      var rest := before + after;
      assert e2 == before + ([x] + after);
      assert e1 == [x] + e1[1..];
      RemoveOne(e1[1..], before, after, x);
      MappedSegmentsOrderFree(prefix, e1[1..], rest);
      MappedSegmentsAppend(prefix, [x], e1[1..]);
      MappedSegmentsAppend(prefix, before, [x] + after);
      MappedSegmentsAppend(prefix, [x], after);
      MappedSegmentsAppend(prefix, before, after);
      InsertBag(MappedSegments(prefix, [x]), MappedSegments(prefix, e1[1..]),
                MappedSegments(prefix, before), MappedSegments(prefix, after));
    }
  }

  /** Putting `y` in front of a rearrangement of `b + c` rearranges `b + y + c`. */
  lemma InsertBag<T>(y: seq<T>, t: seq<T>, b: seq<T>, c: seq<T>)
    requires multiset(t) == multiset(b + c)
    ensures multiset(y + t) == multiset(b + (y + c))
  {
    calc {
      multiset(y + t);
      multiset(y) + multiset(t);
      multiset(y) + (multiset(b) + multiset(c));
      multiset(b) + (multiset(y) + multiset(c));
      multiset(b + (y + c));
    }
  }

  lemma RemoveOne<T>(tail: seq<T>, before: seq<T>, after: seq<T>, x: T)
    requires multiset([x] + tail) == multiset(before + ([x] + after))
    ensures multiset(tail) == multiset(before + after)
  {
    assert multiset([x] + tail) == multiset{x} + multiset(tail);
    assert multiset(before + ([x] + after)) == multiset(before) + multiset([x] + after);
    assert multiset([x] + after) == multiset{x} + multiset(after);
    assert multiset(before + after) == multiset(before) + multiset(after);
    forall y
      ensures multiset(tail)[y] == multiset(before + after)[y]
    {
      assert (multiset{x} + multiset(tail))[y] == multiset{x}[y] + multiset(tail)[y];
      assert (multiset(before) + (multiset{x} + multiset(after)))[y] == multiset(before)[y] + multiset{x}[y] + multiset(after)[y];
    }
  }

  /** With keys free of '&', the server reads back exactly the written segments. */
  lemma MappedReadBack(params: string, prefix: string, entries: seq<(string, string)>)
    requires '&' !in prefix
    requires forall i :: 0 <= i < |entries| ==> '&' !in entries[i].0
    ensures QuerySegments(AppendAll(params, MappedSegments(prefix, entries)))
         == QuerySegments(params) + MappedSegments(prefix, entries)
  {
    MappedSegmentsWellFormed(prefix, entries);
    AppendAllReadBack(params, MappedSegments(prefix, entries));
  }

  lemma {:induction false} MappedSegmentsWellFormed(prefix: string, entries: seq<(string, string)>)
    requires '&' !in prefix
    requires forall i :: 0 <= i < |entries| ==> '&' !in entries[i].0
    ensures forall i :: 0 <= i < |MappedSegments(prefix, entries)| ==>
      MappedSegments(prefix, entries)[i] != "" && '&' !in MappedSegments(prefix, entries)[i]
  {
    if entries != [] {
      MappedSegmentsWellFormed(prefix, entries[1..]);
      ParamIsSegment(entries[0].0, entries[0].1);
    }
  }

  // ---------------------------------------------------------------------------
  // AddDatabaseParam and AddTransactionParam (util/util.go:76-100)
  // ---------------------------------------------------------------------------

  /** One more parameter, after "?" when nothing is there yet and after "&" otherwise. */
  function AddParam(params: string, key: string, value: string): (r: string)
    requires '&' !in key
    ensures |r| > |params| && r[..|params|] == params
    ensures params == "" ==> r[0] == '?'
    ensures QuerySegments(r) == QuerySegments(params) + [Param(key, value)]
  {
    ParamIsSegment(key, value);
    if params == "" then
      QuerySegmentsQuestion(Param(key, value));
      "?" + Param(key, value)
    else
      QuerySegmentsAmp(params, Param(key, value));
      params + "&" + Param(key, value)
  }

  /** The client's database, when it has one, is sent as `database=`. */
  function AddDatabaseParam(params: string, database: string): (r: string)
    ensures database == "" ==> r == params
    ensures database != "" ==> QuerySegments(r) == QuerySegments(params) + [Param("database", database)]
    ensures database != "" ==> |r| > |params| && r[..|params|] == params
  {
    if database != "" then AddParam(params, "database", database) else params
  }

  /** The database parameter depends only on whether anything precedes it, not on what. */
  lemma DatabaseShift(head: string, core: string, database: string)
    requires core != ""
    ensures AddDatabaseParam(head + core, database) == head + AddDatabaseParam(core, database)
  {
    if database != "" {
      assert head + core != "";
      assert head + core + "&" + Param("database", database) == head + (core + "&" + Param("database", database));
    }
  }

  /** The database parameter keeps the query's first character. */
  lemma DatabaseKeepsHead(core: string, database: string)
    requires core != ""
    ensures AddDatabaseParam(core, database) != "" && AddDatabaseParam(core, database)[0] == core[0]
  {
    if database != "" {
      assert AddDatabaseParam(core, database)[..|core|] == core;
    }
  }

  /** The `txid=` parameter of the transaction whose ID is `txid`; nothing without a transaction. */
  function AddTxid(params: string, txid: Option<string>): (r: string)
    ensures txid.None? ==> r == params
    ensures txid.Some? ==> QuerySegments(r) == QuerySegments(params) + [Param("txid", txid.value)]
    ensures txid.Some? ==> |r| > |params| && r[..|params|] == params
  {
    if txid.Some? then AddParam(params, "txid", txid.value) else params
  }

  /** One parameter when `present`, none otherwise. */
  function Optional(key: string, value: string, present: bool): seq<string>
  {
    if present then [Param(key, value)] else []
  }

  /** What `AddDatabaseParam` and then `AddTransactionParam` add to a query. */
  function ExtraSegments(database: string, txid: Option<string>): seq<string>
  {
    Optional("database", database, database != "")
    + (if txid.Some? then [Param("txid", txid.value)] else [])
  }

  lemma QuerySegmentsOfQuestion()
    ensures QuerySegments("?") == [] && QuerySegments("") == []
  {
    assert QueryBody("?") == "";
    assert QueryBody("") == "";
  }

  /** The database and transaction parameters come last, in that order. */
  lemma ExtraReadBack(q: string, base: seq<string>, database: string, txid: Option<string>)
    requires QuerySegments(q) == base
    ensures QuerySegments(AddTxid(AddDatabaseParam(q, database), txid)) == base + ExtraSegments(database, txid)
  {
    var q2 := AddDatabaseParam(q, database);
    var d := Optional("database", database, database != "");
    assert QuerySegments(q2) == base + d;
    var t := if txid.Some? then [Param("txid", txid.value)] else [];
    assert QuerySegments(AddTxid(q2, txid)) == base + d + t;
    assert base + d + t == base + (d + t);
  }

  /** A `util.Transaction`; `Begin` assigns its ID. */
  class Transaction {
    var id: string

    constructor (id: string)
      ensures this.id == id
    {
      this.id := id;
    }
  }

  /**
   * The `Begin` step of `AddTransactionParam`: a transaction without an ID is
   * begun on the server, and `begunId` is the ID that `Begin` leaves behind
   * ("" if it failed). The result is the ID the txid parameter then carries,
   * None for a nil transaction.
   */
  method BeginIfUnset(transaction: Transaction?, begunId: string) returns (txid: Option<string>)
    modifies transaction
    ensures transaction == null ==> txid == None
    ensures transaction != null ==>
      transaction.id == (if old(transaction.id) == "" then begunId else old(transaction.id))
      && txid == Some(transaction.id)
  {
    txid := None;
    if transaction != null {
      if transaction.id == "" {
        transaction.id := begunId;
      }
      txid := Some(transaction.id);
    }
  }

  /**
   * A nil transaction leaves params alone. A transaction without an ID is first
   * begun on the server; `begunId` is the ID that `Begin` leaves behind ("" if it failed).
   */
  method AddTransactionParam(params: string, transaction: Transaction?, begunId: string) returns (r: string)
    modifies transaction
    ensures transaction == null ==> r == params
    ensures transaction != null ==>
      transaction.id == (if old(transaction.id) == "" then begunId else old(transaction.id))
    ensures r == AddTxid(params, if transaction == null then None else Some(transaction.id))
  {
    r := params;
    var txid := BeginIfUnset(transaction, begunId);
    if txid.Some? {
      var separator := "&";
      if r == "" {
        separator := "?";
      }
      AddParamText(r, "txid", txid.value);
      r := r + separator + Param("txid", txid.value);
    }
  }

  /**
   * The transaction's ID after `n` calls of `AddTransactionParam` that share
   * it: call k begins it, leaving `begin(k)`, while it still has no ID.
   */
  function IdAfter(id: string, begin: nat -> string, n: nat): string
    decreases n
  {
    if n == 0 then id
    else
      var before := IdAfter(id, begin, n - 1);
      if before == "" then begin(n - 1) else before
  }

  /**
   * `Begin` is called only while the transaction has no ID: once a call has
   * left an ID, every later call keeps it and sends it, and a transaction
   * that came with an ID is never begun.
   */
  lemma {:induction false} IdAfterSticks(id: string, begin: nat -> string, j: nat, k: nat)
    requires j <= k && IdAfter(id, begin, j) != ""
    ensures IdAfter(id, begin, k) == IdAfter(id, begin, j)
    decreases k - j
  {
    if j < k {
      IdAfterSticks(id, begin, j, k - 1);
    }
  }

  /** The first call that begins the transaction successfully fixes its ID for good. */
  lemma FirstBeginWins(begin: nat -> string, k: nat, n: nat)
    requires k < n && IdAfter("", begin, k) == "" && begin(k) != ""
    ensures IdAfter("", begin, n) == begin(k)
  {
    assert IdAfter("", begin, k + 1) == begin(k);
    IdAfterSticks("", begin, k + 1, n);
  }

  /** `AddParam` as text: the separator "?" or "&", then the parameter. */
  lemma AddParamText(params: string, key: string, value: string)
    requires '&' !in key
    ensures AddParam(params, key, value) == params + (if params == "" then "?" else "&") + Param(key, value)
  {
    if params == "" {
      AppendToNothing("?" + Param(key, value));
      Assoc(params, "?", Param(key, value));
    }
  }

  // ---------------------------------------------------------------------------
  // Transform.ToParameters (util/transform.go:12-18)
  // ---------------------------------------------------------------------------

  datatype Transform = Transform(name: string, parameters: seq<(string, string)>)

  function TransformSegments(t: Transform): seq<string>
  {
    [Param("transform", t.name)]
      + seq(|t.parameters|, i requires 0 <= i < |t.parameters| => Param("trans:" + t.parameters[i].0, t.parameters[i].1))
  }

  method ToParameters(t: Transform) returns (r: string)
    ensures r == "&" + Join(TransformSegments(t), "&")
  {
    ghost var segs := TransformSegments(t);
    r := "&" + Param("transform", t.name);
    var i := 0;
    while i < |t.parameters|
      invariant 0 <= i <= |t.parameters|
      invariant r == "&" + Join(segs[..i + 1], "&")
    {
      var (key, val) := t.parameters[i];
      JoinSnoc(segs, i);
      assert segs[i + 1] == Param("trans:" + key, val);
      r := r + "&" + Param("trans:" + key, val);
      i := i + 1;
    }
    assert segs[..i + 1] == segs;
  }

  /** One more part of a "&"-joined text is "&" and that part. */
  lemma JoinSnoc(segs: seq<string>, k: nat)
    requires k + 1 < |segs|
    ensures "&" + Join(segs[..k + 2], "&") == "&" + Join(segs[..k + 1], "&") + "&" + segs[k + 1]
  {
    JoinAppend(segs[..k + 1], [segs[k + 1]], "&");
    assert segs[..k + 1] + [segs[k + 1]] == segs[..k + 2];
    assert Join([segs[k + 1]], "&") == segs[k + 1];
  }

  /** The transform text is read back as the transform parameter followed by one `trans:key=value` per parameter. */
  lemma TransformReadBack(params: string, t: Transform)
    requires forall i :: 0 <= i < |t.parameters| ==> '&' !in t.parameters[i].0
    ensures |TransformSegments(t)| == 1 + |t.parameters|
    ensures QuerySegments(params + "&" + Join(TransformSegments(t), "&"))
         == QuerySegments(params) + TransformSegments(t)
  {
    var segs := TransformSegments(t);
    forall i | 0 <= i < |segs| ensures segs[i] != "" && '&' !in segs[i] {
      if i == 0 {
        ParamIsSegment("transform", t.name);
      } else {
        ParamIsSegment("trans:" + t.parameters[i - 1].0, t.parameters[i - 1].1);
      }
    }
    AmpJoinReadBack(params, segs);
  }

  /** The transform text always starts with "&transform=", whatever the parameters. */
  lemma TransformPrefix(t: Transform)
    ensures ("&" + Join(TransformSegments(t), "&"))[..11] == "&transform="
  {
    AmpJoinStartsWithKey(TransformSegments(t), "transform", t.name);
    assert "&" + "transform" + "=" == "&transform=";
  }

  /** An "&"-join whose first part is a parameter starts with "&", its key and "=". */
  lemma AmpJoinStartsWithKey(segs: seq<string>, key: string, value: string)
    requires |segs| >= 1 && segs[0] == Param(key, value)
    ensures ("&" + Join(segs, "&"))[..|key| + 2] == "&" + key + "="
  {
    var j := Join(segs, "&");
    JoinStartsWithFirst(segs, "&");
    ConsPrefix(key + "=", QueryEscape.Escape(value), 0);
    PrefixOfPrefix(j, segs[0], |key| + 1);
    ConsPrefix("&", j, |key| + 1);
    Assoc("&", key, "=");
  }

  lemma {:induction false} AmpJoinReadBack(params: string, segs: seq<string>)
    requires |segs| >= 1
    requires forall i :: 0 <= i < |segs| ==> segs[i] != "" && '&' !in segs[i]
    ensures QuerySegments(params + "&" + Join(segs, "&")) == QuerySegments(params) + segs
    decreases |segs|
  {
    QuerySegmentsAmp(params, segs[0]);
    if |segs| > 1 {
      var next := params + "&" + segs[0];
      AmpJoinUnfold(params, segs);
      AmpJoinReadBack(next, segs[1..]);
      ReadBackStep(QuerySegments(next + "&" + Join(segs[1..], "&")), QuerySegments(next), QuerySegments(params), segs);
    }
  }

  lemma AmpJoinUnfold(params: string, segs: seq<string>)
    requires |segs| > 1
    ensures params + "&" + Join(segs, "&") == params + "&" + segs[0] + "&" + Join(segs[1..], "&")
  {
    assert Join(segs, "&") == segs[0] + "&" + Join(segs[1..], "&");
  }

  lemma JoinStartsWithFirst(segs: seq<string>, sep: string)
    requires |segs| >= 1
    ensures |Join(segs, sep)| >= |segs[0]| && Join(segs, sep)[..|segs[0]|] == segs[0]
  {
    if |segs| > 1 {
      assert Join(segs, sep) == segs[0] + (sep + Join(segs[1..], sep));
    }
  }

  // ---------------------------------------------------------------------------
  // SerializableStringMap.MarshalXML (util/util.go:23-44)
  // ---------------------------------------------------------------------------

  /** One start / character data / end triple per entry, named by its key. */
  function EntryTokens(entries: seq<(string, string)>): seq<Token>
  {
    if entries == [] then []
    else
      [StartElement(Name("", entries[0].0), []), CharData(entries[0].1), EndElement(Name("", entries[0].0))]
        + EntryTokens(entries[1..])
  }

  /** The start token, the entries' triples and the matching end token. */
  function MarshalledTokens(start: Name, attrs: seq<Attr>, entries: seq<(string, string)>): seq<Token>
  {
    [StartElement(start, attrs)] + EntryTokens(entries) + [EndElement(start)]
  }

  lemma {:induction false} EntryTokensAppend(a: seq<(string, string)>, b: seq<(string, string)>)
    ensures EntryTokens(a + b) == EntryTokens(a) + EntryTokens(b)
  {
    if a == [] {
      assert a + b == b;
    } else {
      assert (a + b)[0] == a[0] && (a + b)[1..] == a[1..] + b;
      EntryTokensAppend(a[1..], b);
    }
  }

  /**
   * Builds the token list and hands the tokens to the encoder one by one.
   * `encoderFailsAt` is the index of the first token the encoder rejects (at or
   * past the end: none); `flushFails` says whether the final flush fails.
   */
  method MarshalXML(start: Name, attrs: seq<Attr>, entries: seq<(string, string)>, encoderFailsAt: nat, flushFails: bool)
    returns (written: seq<Token>, ok: bool)
    ensures var all := MarshalledTokens(start, attrs, entries);
      written == all[..if encoderFailsAt < |all| then encoderFailsAt else |all|]
    ensures ok <==> encoderFailsAt >= 3 * |entries| + 2 && !flushFails
  {
    var tokens := [StartElement(start, attrs)];
    var i := 0;
    while i < |entries|
      invariant 0 <= i <= |entries|
      invariant tokens == [StartElement(start, attrs)] + EntryTokens(entries[..i])
    {
      var (key, value) := entries[i];
      var t := StartElement(Name("", key), []);
      EntryTokensAppend(entries[..i], [entries[i]]);
      assert entries[..i] + [entries[i]] == entries[..i + 1];
      tokens := tokens + [t, CharData(value), EndElement(t.name)];
      i := i + 1;
    }
    assert entries[..i] == entries;
    tokens := tokens + [EndElement(start)];
    EntryTokensLength(entries);

    written := [];
    var j := 0;
    while j < |tokens|
      invariant 0 <= j <= |tokens|
      invariant j <= encoderFailsAt
      invariant written == tokens[..j]
    {
      if j == encoderFailsAt {
        return written, false;
      }
      written := written + [tokens[j]];
      j := j + 1;
    }
    ok := !flushFails;
  }

  lemma {:induction false} EntryTokensLength(entries: seq<(string, string)>)
    ensures |EntryTokens(entries)| == 3 * |entries|
  {
    if entries != [] {
      EntryTokensLength(entries[1..]);
    }
  }

  /** Reads entries back from start / character data / end triples. */
  function ReadEntries(tokens: seq<Token>): Option<seq<(string, string)>>
    decreases |tokens|
  {
    if tokens == [] then Some([])
    else if |tokens| >= 3 && tokens[0].StartElement? && tokens[1].CharData? && tokens[2] == EndElement(tokens[0].name) then
      match ReadEntries(tokens[3..])
      case Some(rest) => Some([(tokens[0].name.local, tokens[1].text)] + rest)
      case None => None
    else None
  }

  /** The marshalled map is 3n+2 tokens between which a reader finds every entry again, in order. */
  lemma {:induction false} MarshalledTokensReadBack(start: Name, attrs: seq<Attr>, entries: seq<(string, string)>)
    ensures |MarshalledTokens(start, attrs, entries)| == 3 * |entries| + 2
    ensures var all := MarshalledTokens(start, attrs, entries);
      all[0] == StartElement(start, attrs) && all[|all| - 1] == EndElement(start)
      && ReadEntries(all[1..|all| - 1]) == Some(entries)
  {
    EntryTokensLength(entries);
    var all := MarshalledTokens(start, attrs, entries);
    assert all[1..|all| - 1] == EntryTokens(entries);
    EntryTokensReadBack(entries);
  }

  lemma {:induction false} EntryTokensReadBack(entries: seq<(string, string)>)
    ensures ReadEntries(EntryTokens(entries)) == Some(entries)
  {
    if entries != [] {
      EntryTokensReadBack(entries[1..]);
      var ts := EntryTokens(entries);
      assert ts[3..] == EntryTokens(entries[1..]);
      assert [(entries[0].0, entries[0].1)] + entries[1..] == entries;
    }
  }

  // ---------------------------------------------------------------------------
  // PostForm (util/util.go:154-210): body kind and the data-service base URL
  // ---------------------------------------------------------------------------

  datatype BodyKind = UrlEncoded | Multipart

  /**
   * The form is url-encoded exactly when no parameter carries handles.
   * `unatomicKeys` are the keys of the handle-valued parameter map.
   */
  function PostFormBodyKind(unatomicKeys: set<string>): (r: BodyKind)
    ensures r == UrlEncoded <==> |unatomicKeys| == 0
  {
    if |unatomicKeys| == 0 then UrlEncoded else Multipart
  }

  /** `strings.Replace(s, old, "", -1)`: every non-overlapping occurrence, scanned left to right, removed. */
  function RemoveAll(s: string, pattern: string): string
    requires pattern != ""
    decreases |s|
  {
    if |s| < |pattern| then s
    else if s[..|pattern|] == pattern then RemoveAll(s[|pattern|..], pattern)
    else [s[0]] + RemoveAll(s[1..], pattern)
  }

  /** The base URL a data-service call posts to, as written: every "/LATEST" removed. */
  function DataServiceBase(base: string): string
  {
    RemoveAll(base, "/LATEST")
  }

  /** The evidently intended base: the client's trailing "/LATEST" path removed. */
  function DataServiceBaseTrailing(base: string): (r: string)
    ensures |base| >= 7 && base[|base| - 7..] == "/LATEST" ==> r + "/LATEST" == base
    ensures !(|base| >= 7 && base[|base| - 7..] == "/LATEST") ==> r == base
  {
    if |base| >= 7 && base[|base| - 7..] == "/LATEST" then base[..|base| - 7] else base
  }
}
