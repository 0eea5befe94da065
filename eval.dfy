// The request `evalCode` sends for ad-hoc XQuery and JavaScript (eval/eval.go,
// eval/service.go): the path and query it builds, its body and its Content-Type.
module Eval {
  import opened Common
  import opened Util
  import opened Targets

  /** What follows "/eval": the language parameter and then "&", or a bare "?" without a language. */
  function LanguageText(language: string): string
  {
    if language != "" then "?rex:language=" + language + "&" else "?"
  }

  /** The parameter a server reads for the language, when there is one. */
  function LanguageSegments(language: string): seq<string>
  {
    if language != "" then ["rex:language=" + language] else []
  }

  /**
   * The path and query `evalCode` posts to, under the client's base: the
   * language text, "&key=value" per external variable (unescaped, in the
   * order the map is visited), then the client's database.
   */
  function EvalTarget(language: string, params: seq<(string, string)>, database: string): string
  {
    AddDatabaseParam("/eval" + LanguageText(language) + AmpEach(RawSegments(params)), database)
  }

  /** JavaScript is sent as such; every other language, "" included, as XQuery. */
  function EvalContentType(language: string): (r: string)
    ensures r == "application/javascript" <==> language == "javascript"
    ensures r != "application/javascript" ==> r == "text/xquery"
  {
    if language == "javascript" then "application/javascript" else "text/xquery"
  }

  /** `evalCode`: the target, the Content-Type and the body (the code itself) of the POST. */
  method EvalCode(language: string, code: string, params: seq<(string, string)>, database: string)
    returns (target: string, contentType: string, body: string)
    ensures target == EvalTarget(language, params, database)
    ensures contentType == EvalContentType(language)
    ensures body == code
  {
    var path := "/eval";
    if language != "" {
      path := path + "?rex:language=" + language;
    }
    var parameters := "?";
    if language != "" {
      parameters := "&";
    }
    ghost var segs := RawSegments(params);
    ghost var start := parameters;
    var i := 0;
    while i < |params|
      invariant 0 <= i <= |params|
      invariant parameters + AmpEach(segs[i..]) == start + AmpEach(segs)
    {
      assert segs[i..][1..] == segs[i + 1..];
      assert segs[i] == params[i].0 + "=" + params[i].1;
      AmpEachUnfold(parameters, segs[i..]);
      parameters := parameters + "&" + (params[i].0 + "=" + params[i].1);
      i := i + 1;
    }
    assert segs[i..] == [];
    AppendNothing(parameters);
    var fullPath := path + parameters;
    EvalPathText(language, path, start, AmpEach(segs));
    fullPath := AddDatabaseParam(fullPath, database);
    fullPath := AddTransactionParam(fullPath, null, "");
    target := fullPath;
    if language == "javascript" {
      contentType := "application/javascript";
    } else {
      contentType := "text/xquery";
    }
    body := code;
  }

  /** The path with the language, then the opening separator and the variables, is the target before the database. */
  lemma EvalPathText(language: string, path: string, start: string, rest: string)
    requires path == if language != "" then "/eval" + "?rex:language=" + language else "/eval"
    requires start == if language != "" then "&" else "?"
    ensures path + (start + rest) == "/eval" + LanguageText(language) + rest
  {
  }

  /** `EvalXQuery` evaluates as "xquery". */
  method EvalXQuery(code: string, params: seq<(string, string)>, database: string)
    returns (target: string, contentType: string, body: string)
    ensures target == EvalTarget("xquery", params, database)
    ensures contentType == "text/xquery" && body == code
  {
    target, contentType, body := EvalCode("xquery", code, params, database);
  }

  /** `EvalJavaScript` evaluates as "javascript". */
  method EvalJavaScript(code: string, params: seq<(string, string)>, database: string)
    returns (target: string, contentType: string, body: string)
    ensures target == EvalTarget("javascript", params, database)
    ensures contentType == "application/javascript" && body == code
  {
    target, contentType, body := EvalCode("javascript", code, params, database);
  }

  /** The server reads the language text back as the language parameter, or as nothing. */
  lemma LanguageReadBack(language: string)
    requires '&' !in language
    ensures QuerySegments(LanguageText(language)) == LanguageSegments(language)
  {
    if language != "" {
      var seg := "rex:language=" + language;
      LanguageTextShape(language);
      QuerySegmentsQuestion(seg);
      QuerySegmentsTrailingAmp("?" + seg);
    } else {
      QuerySegmentsOfQuestion();
    }
  }

  lemma LanguageTextShape(language: string)
    requires language != "" && '&' !in language
    ensures var seg := "rex:language=" + language;
      seg != "" && '&' !in seg && LanguageText(language) == "?" + seg + "&"
  {
    NoAmpInEither("rex:language=", language);
    LanguageLiterals();
    Assoc("?", "rex:language=", language);
  }

  lemma LanguageLiterals()
    ensures "?rex:language=" == "?" + "rex:language="
    ensures '&' !in "rex:language="
  {
  }

  lemma NoAmpInEither(a: string, b: string)
    requires '&' !in a && '&' !in b
    ensures '&' !in a + b
  {
  }

  /**
   * Read back, the target has path "/eval" and, in order, the language, each
   * external variable, and the database; the doubled "&" after the language
   * adds no parameter.
   */
  lemma EvalReadBack(language: string, params: seq<(string, string)>, database: string)
    requires '&' !in language
    requires forall i :: 0 <= i < |params| ==> '&' !in params[i].0 && '&' !in params[i].1
    ensures PathPart(EvalTarget(language, params, database)) == "/eval"
    ensures QuerySegments(QueryPart(EvalTarget(language, params, database)))
         == LanguageSegments(language) + RawSegments(params) + Optional("database", database, database != "")
  {
    EvalTargetParts(language, params, database);
    EvalQueryReadBack(language, params, database);
  }

  /** The target is "/eval" followed by the language text, the variables and the database. */
  lemma EvalTargetParts(language: string, params: seq<(string, string)>, database: string)
    ensures PathPart(EvalTarget(language, params, database)) == "/eval"
    ensures QueryPart(EvalTarget(language, params, database))
         == AddDatabaseParam(LanguageText(language) + AmpEach(RawSegments(params)), database)
  {
    var core := LanguageText(language) + AmpEach(RawSegments(params));
    var q := AddDatabaseParam(core, database);
    assert core[0] == LanguageText(language)[0] == '?';
    DatabaseKeepsHead(core, database);
    Assoc("/eval", LanguageText(language), AmpEach(RawSegments(params)));
    DatabaseShift("/eval", core, database);
    SplitTarget("/eval", q);
  }

  lemma EvalQueryReadBack(language: string, params: seq<(string, string)>, database: string)
    requires '&' !in language
    requires forall i :: 0 <= i < |params| ==> '&' !in params[i].0 && '&' !in params[i].1
    ensures QuerySegments(AddDatabaseParam(LanguageText(language) + AmpEach(RawSegments(params)), database))
         == LanguageSegments(language) + RawSegments(params) + Optional("database", database, database != "")
  {
    var segs := RawSegments(params);
    LanguageReadBack(language);
    RawSegmentsWellFormed(params);
    AmpEachReadBack(LanguageText(language), segs);
    if database == "" {
      AppendNothing(LanguageSegments(language) + segs);
    }
  }

  /** A target always starts with what was written before the database was added. */
  lemma HeadOfTarget(head: string, rest: string, database: string)
    ensures head <= AddDatabaseParam(head + rest, database)
  {
    var r := AddDatabaseParam(head + rest, database);
    assert r[..|head + rest|] == head + rest;
    assert r[..|head|] == (head + rest)[..|head|];
  }

  /** With a language, the first external variable follows "&&". */
  lemma EvalDoubleAmp(language: string, params: seq<(string, string)>, database: string)
    requires language != "" && params != []
    ensures "/eval?rex:language=" + language + "&&" + RawParam(params[0].0, params[0].1)
        <= EvalTarget(language, params, database)
  {
    var segs := RawSegments(params);
    assert "/eval?rex:language=" == "/eval" + "?rex:language=";
    DoubleAmpHead("/eval", "?rex:language=", language, segs);
    HeadOfTarget("/eval" + "?rex:language=" + language + "&&" + segs[0], AmpEach(segs[1..]), database);
  }

  lemma DoubleAmpHead(path: string, key: string, language: string, segs: seq<string>)
    requires segs != []
    ensures path + (key + language + "&") + AmpEach(segs) == path + key + language + "&&" + segs[0] + AmpEach(segs[1..])
  {
    assert AmpEach(segs) == "&" + segs[0] + AmpEach(segs[1..]);
    assert "&" + "&" == "&&";
  }

  /**
   * Without a language the query starts "/eval?", so a lone database gives
   * "/eval?&database=…", and nothing at all gives "/eval?".
   */
  lemma EvalWithoutLanguage(params: seq<(string, string)>, database: string)
    ensures "/eval?" <= EvalTarget("", params, database)
    ensures params == [] && database == "" ==> EvalTarget("", params, database) == "/eval?"
    ensures params == [] && database != "" ==>
      EvalTarget("", params, database) == "/eval?&" + Param("database", database)
  {
    var rest := AmpEach(RawSegments(params));
    EvalPathText("", "/eval", "?", rest);
    assert "/eval" + ("?" + rest) == "/eval?" + rest;
    HeadOfTarget("/eval?", rest, database);
    if params == [] {
      AppendNothing("/eval?");
    }
  }

  /** The database, when there is one, is always appended after "&": the path is never "". */
  lemma EvalDatabaseAmp(language: string, params: seq<(string, string)>, database: string)
    requires database != ""
    ensures EvalTarget(language, params, database)
         == "/eval" + LanguageText(language) + AmpEach(RawSegments(params)) + "&" + Param("database", database)
  {
    var core := "/eval" + LanguageText(language) + AmpEach(RawSegments(params));
    assert core != "";
  }
}
