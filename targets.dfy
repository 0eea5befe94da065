// Request targets shared by the endpoint builders of the config, eval, values
// and metadata packages: the path before the first '?', the query from there
// on, and the two ways those builders write parameters that `util` does not
// (unescaped `key=value` pairs, and "&" before every segment).
module Targets {
  import opened Common
  import opened Util

  /** The path of a request target: everything before the first '?'. */
  function PathPart(target: string): string
    decreases |target|
  {
    if target == [] then ""
    else if target[0] == '?' then ""
    else [target[0]] + PathPart(target[1..])
  }

  /** The query of a request target: everything from the first '?' on, or "" without one. */
  function QueryPart(target: string): string
    decreases |target|
  {
    if target == [] then ""
    else if target[0] == '?' then target
    else QueryPart(target[1..])
  }

  /** A '?'-free path followed by a query is split back into exactly those two parts. */
  lemma {:induction false} SplitTarget(path: string, query: string)
    requires '?' !in path
    requires query == "" || query[0] == '?'
    ensures PathPart(path + query) == path && QueryPart(path + query) == query
    decreases |path|
  {
    if path == [] {
      assert path + query == query;
    } else {
      assert (path + query)[0] == path[0];
      assert (path + query)[1..] == path[1..] + query;
      SplitTarget(path[1..], query);
      assert [path[0]] + path[1..] == path;
    }
  }

  /** An unescaped `key=value` pair. */
  function RawParam(key: string, value: string): string
  {
    key + "=" + value
  }

  function RawSegments(entries: seq<(string, string)>): seq<string>
  {
    seq(|entries|, i requires 0 <= i < |entries| => RawParam(entries[i].0, entries[i].1))
  }

  /** Pairs whose keys and values hold no '&' are segments the server reads back whole. */
  lemma RawSegmentsWellFormed(entries: seq<(string, string)>)
    requires forall i :: 0 <= i < |entries| ==> '&' !in entries[i].0 && '&' !in entries[i].1
    ensures forall i :: 0 <= i < |RawSegments(entries)| ==>
      RawSegments(entries)[i] != "" && '&' !in RawSegments(entries)[i]
  {
    var segs := RawSegments(entries);
    forall i | 0 <= i < |segs| ensures segs[i] != "" && '&' !in segs[i] {
      assert segs[i] == entries[i].0 + "=" + entries[i].1;
      assert segs[i][|entries[i].0|] == '=';
    }
  }

  /** "&" written before every segment, the first one included. */
  function AmpEach(segs: seq<string>): string
    decreases |segs|
  {
    if segs == [] then "" else "&" + segs[0] + AmpEach(segs[1..])
  }

  /** Whatever came before, the server reads each "&"-led segment back, in order. */
  lemma {:induction false} AmpEachReadBack(params: string, segs: seq<string>)
    requires forall i :: 0 <= i < |segs| ==> segs[i] != "" && '&' !in segs[i]
    ensures QuerySegments(params + AmpEach(segs)) == QuerySegments(params) + segs
    decreases |segs|
  {
    if segs == [] {
      assert params + AmpEach(segs) == params;
    } else {
      var next := params + "&" + segs[0];
      AmpEachUnfold(params, segs);
      QuerySegmentsAmp(params, segs[0]);
      AmpEachReadBack(next, segs[1..]);
      ReadBackStep(QuerySegments(next + AmpEach(segs[1..])), QuerySegments(next), QuerySegments(params), segs);
    }
  }

  lemma AmpEachUnfold(params: string, segs: seq<string>)
    requires segs != []
    ensures params + AmpEach(segs) == params + "&" + segs[0] + AmpEach(segs[1..])
  {
  }

  /** A trailing "&" adds no parameter. */
  lemma QuerySegmentsTrailingAmp(params: string)
    ensures QuerySegments(params + "&") == QuerySegments(params)
  {
    var q := params + "&";
    assert QueryBody(q) == QueryBody(params) + "&" by {
      if params != "" {
        assert q[0] == params[0];
        if params[0] == '?' {
          assert q[1..] == params[1..] + "&";
        }
      }
    }
    SplitOnAround(QueryBody(params), "", '&');
    assert QueryBody(params) + ['&'] + "" == QueryBody(params) + "&";
    assert SplitOn("", '&') == [""];
    NonEmptyAppend(SplitOn(QueryBody(params), '&'), [""]);
    assert NonEmpty([""]) == [];
  }

  /** The fold only appends: what was there stays a prefix. */
  lemma {:induction false} AppendAllExtends(params: string, segs: seq<string>)
    ensures params <= AppendAll(params, segs)
    decreases |segs|
  {
    if segs != [] {
      var next := params + Separator(params) + segs[0];
      AppendAllExtends(next, segs[1..]);
      assert params <= next;
    }
  }

  /** Adding the database only appends. */
  lemma DatabaseExtends(params: string, database: string)
    ensures params <= AddDatabaseParam(params, database)
  {
    var r := AddDatabaseParam(params, database);
    if database != "" {
      assert r[..|params|] == params;
    }
  }
}
