// The query strings and targets of the lexicon-values endpoints (values/values.go).
// `listValues`, `queryValues` and `aggregateValues` go through the shared
// builders; the co-occurrence and tuple calls write their own unescaped
// `name=` list and never look at their options.
module Values {
  import opened Common
  import opened Util
  import opened Targets

  /** One unescaped `name=` parameter per lexicon name. */
  function NameSegments(names: seq<string>): seq<string>
  {
    seq(|names|, i requires 0 <= i < |names| => RawParam("name", names[i]))
  }

  /**
   * The names loop of `coOccurrenceValues` and `tupleValues`: "name=" after the
   * "?" for the first name and "&name=" for each later one, which is the
   * shared fold's separator rule.
   */
  method NamesParameters(names: seq<string>) returns (params: string)
    ensures params == AppendAll("?", NameSegments(names))
  {
    ghost var segs := NameSegments(names);
    params := "?";
    var i := 0;
    while i < |names|
      invariant 0 <= i <= |names|
      invariant i == 0 ==> params == "?"
      invariant i > 0 ==> |params| > 1
      invariant AppendAll(params, segs[i..]) == AppendAll("?", segs)
    {
      assert segs[i..][1..] == segs[i + 1..];
      assert segs[i] == "name" + "=" + names[i];
      if i == 0 {
        assert Separator(params) == "";
        params := params + ("name" + "=" + names[i]);
        assert params == "?" + "" + segs[i];
      } else {
        assert Separator(params) == "&";
        params := params + "&" + ("name" + "=" + names[i]);
      }
      i := i + 1;
    }
  }

  /** The names and then the client's database. */
  function NamesQuery(names: seq<string>, database: string): string
  {
    AddDatabaseParam(AppendAll("?", NameSegments(names)), database)
  }

  /** `coOccurrenceValues`: POST to "/values/cooccurrence"; `params` is not used. */
  method CoOccurrenceValues(names: seq<string>, params: seq<(string, string)>, database: string)
    returns (target: string)
    ensures target == "/values/cooccurrence" + NamesQuery(names, database)
  {
    var parameters := NamesParameters(names);
    parameters := AddDatabaseParam(parameters, database);
    target := "/values/cooccurrence" + parameters;
  }

  /** `tupleValues`: POST to "/values/tuples"; `params` is not used. */
  method TupleValues(names: seq<string>, params: seq<(string, string)>, database: string)
    returns (target: string)
    ensures target == "/values/tuples" + NamesQuery(names, database)
  {
    var parameters := NamesParameters(names);
    parameters := AddDatabaseParam(parameters, database);
    target := "/values/tuples" + parameters;
  }

  /**
   * The text: the first name follows "?" with no separator; with no names the
   * query is "?" alone, or "?&database=…" once a database is added.
   */
  lemma NamesQueryText(names: seq<string>, database: string)
    ensures names != [] ==> "?" + RawParam("name", names[0]) <= NamesQuery(names, database)
    ensures names == [] && database == "" ==> NamesQuery(names, database) == "?"
    ensures names == [] && database != "" ==> NamesQuery(names, database) == "?&" + Param("database", database)
  {
    if names != [] {
      NamesFirst(names, database);
    } else {
      NoNames(database);
    }
  }

  lemma NamesFirst(names: seq<string>, database: string)
    requires names != []
    ensures "?" + RawParam("name", names[0]) <= NamesQuery(names, database)
  {
    var segs := NameSegments(names);
    var first := "?" + "" + segs[0];
    assert first == "?" + RawParam("name", names[0]);
    assert AppendAll("?", segs) == AppendAll(first, segs[1..]);
    AppendAllExtends(first, segs[1..]);
    DatabaseExtends(AppendAll("?", segs), database);
  }

  lemma NoNames(database: string)
    ensures database == "" ==> NamesQuery([], database) == "?"
    ensures database != "" ==> NamesQuery([], database) == "?&" + Param("database", database)
  {
    assert NameSegments([]) == [];
    assert AppendAll("?", []) == "?";
    if database != "" {
      assert "?" + "&" == "?&";
      Assoc("?", "&", Param("database", database));
    }
  }

  /** The server reads one `name=` per name, in order, and then the database. */
  lemma NamesReadBack(names: seq<string>, database: string)
    requires forall i :: 0 <= i < |names| ==> '&' !in names[i]
    ensures QuerySegments(NamesQuery(names, database))
         == NameSegments(names) + Optional("database", database, database != "")
  {
    var segs := NameSegments(names);
    forall i | 0 <= i < |segs| ensures segs[i] != "" && '&' !in segs[i] {
      assert segs[i] == "name" + "=" + names[i];
    }
    AppendAllReadBack("?", segs);
    QuerySegmentsOfQuestion();
    ExtraReadBack(AppendAll("?", segs), segs, database, None);
  }

  /** `MappedParameters("?", "", params)` and then the client's database. */
  function LexiconQuery(params: seq<(string, string)>, database: string): string
  {
    AddDatabaseParam(AppendAll("?", MappedSegments("", params)), database)
  }

  method LexiconParameters(params: seq<(string, string)>, database: string) returns (parameters: string)
    ensures parameters == LexiconQuery(params, database)
  {
    parameters := MappedParameters("?", "", params);
    parameters := AddDatabaseParam(parameters, database);
  }

  /** `listValues`: GET "/values/<name>". */
  method ListValues(name: string, params: seq<(string, string)>, database: string) returns (target: string)
    ensures target == "/values/" + name + LexiconQuery(params, database)
  {
    var parameters := LexiconParameters(params, database);
    target := "/values/" + name + parameters;
  }

  /** `queryValues`: POST to "/values/<name>". */
  method QueryValues(name: string, params: seq<(string, string)>, database: string) returns (target: string)
    ensures target == "/values/" + name + LexiconQuery(params, database)
  {
    var parameters := LexiconParameters(params, database);
    target := "/values/" + name + parameters;
  }

  /** `aggregateValues`: POST to "/values/<name>/aggregate". */
  method AggregateValues(name: string, params: seq<(string, string)>, database: string) returns (target: string)
    ensures target == "/values/" + name + "/aggregate" + LexiconQuery(params, database)
  {
    var parameters := LexiconParameters(params, database);
    target := "/values/" + name + "/aggregate" + parameters;
  }

  /**
   * The server reads the non-empty options as `key=escaped value`, in the
   * map's visiting order, and then the database.
   */
  lemma LexiconReadBack(params: seq<(string, string)>, database: string)
    requires forall i :: 0 <= i < |params| ==> '&' !in params[i].0
    ensures QuerySegments(LexiconQuery(params, database))
         == MappedSegments("", params) + Optional("database", database, database != "")
  {
    MappedReadBack("?", "", params);
    QuerySegmentsOfQuestion();
    ExtraReadBack(AppendAll("?", MappedSegments("", params)), MappedSegments("", params), database, None);
  }

  /** Any two visiting orders of the same options give the same parameters. */
  lemma LexiconOrderFree(p1: seq<(string, string)>, p2: seq<(string, string)>, database: string)
    requires multiset(p1) == multiset(p2)
    requires forall i :: 0 <= i < |p1| ==> '&' !in p1[i].0
    requires forall i :: 0 <= i < |p2| ==> '&' !in p2[i].0
    ensures multiset(QuerySegments(LexiconQuery(p1, database))) == multiset(QuerySegments(LexiconQuery(p2, database)))
  {
    LexiconReadBack(p1, database);
    LexiconReadBack(p2, database);
    MappedSegmentsOrderFree("", p1, p2);
  }

  /** A lexicon query always starts with '?', so the path before it is read back whole. */
  lemma LexiconTarget(path: string, params: seq<(string, string)>, database: string)
    requires '?' !in path
    ensures PathPart(path + LexiconQuery(params, database)) == path
    ensures QueryPart(path + LexiconQuery(params, database)) == LexiconQuery(params, database)
  {
    var q := AppendAll("?", MappedSegments("", params));
    AppendAllExtends("?", MappedSegments("", params));
    DatabaseExtends(q, database);
    assert LexiconQuery(params, database)[0] == '?';
    SplitTarget(path, LexiconQuery(params, database));
  }
}
