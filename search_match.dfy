// Snippet-match decoding (search/search.go `Match.UnmarshalXML`, and the
// root-package copy in search.go, which differs only in appending `*Text`
// references): a match element becomes its path attribute and a list of text
// runs, each marked highlighted or not.
module SearchMatch {
  import opened Common
  import opened Xml
  import SearchQuery

  /** One run of match text. */
  datatype Text = Text(text: string, highlighted: bool)

  /** Child elements in the search namespace named "highlight" mark highlighted text. */
  predicate IsHighlight(name: Name)
  {
    name.space == SearchQuery.SearchNamespace && name.local == "highlight"
  }

  function MatchEnd(): Name
  {
    Name(SearchQuery.SearchNamespace, "match")
  }

  /** The value of the first attribute whose local name is "path", in any namespace. */
  function FirstPath(attrs: seq<Attr>): (r: Option<string>)
    ensures r.None? <==> forall i :: 0 <= i < |attrs| ==> attrs[i].name.local != "path"
    ensures r.Some? ==> exists i :: 0 <= i < |attrs| && attrs[i].name.local == "path" && attrs[i].value == r.value
                          && forall j :: 0 <= j < i ==> attrs[j].name.local != "path"
    decreases |attrs|
  {
    if attrs == [] then None
    else if attrs[0].name.local == "path" then Some(attrs[0].value)
    else
      var r := FirstPath(attrs[1..]);
      assert forall i :: 1 <= i < |attrs| ==> attrs[i] == attrs[1..][i - 1];
      if r.Some? then
        var k :| 0 <= k < |attrs[1..]| && attrs[1..][k].name.local == "path" && attrs[1..][k].value == r.value
                 && forall j :: 0 <= j < k ==> attrs[1..][j].name.local != "path";
        assert attrs[k + 1].name.local == "path" && attrs[k + 1].value == r.value;
        r
      else r
  }

  /** The texts a walk appends and the error it returns (None for nil). */
  datatype MatchWalked = MatchWalked(texts: seq<Text>, err: Option<StreamError>)

  /**
   * The walk over the tokens after the match's start tag. Character data adds
   * a plain text run; a child element adds one run holding its content
   * (decoded as a string), highlighted exactly for search:highlight; the
   * search:match end tag returns nil and other end tags are skipped. A child
   * cut off by the end of the tokens adds an empty run. When the tokens run
   * out, the walk returns what the decoder then reports.
   */
  function MatchWalk(ts: seq<Token>, terminal: StreamError): (r: MatchWalked)
    ensures r.err == None || r.err == Some(terminal)
    decreases |ts|
  {
    if ts == [] then MatchWalked([], Some(terminal))
    else match ts[0]
      case StartElement(name, _) =>
        var d := ReadElement(ts[1..], 0);
        if d.None? then MatchWalked([Text("", IsHighlight(name))], Some(terminal))
        else
          var w := MatchWalk(d.value.1, terminal);
          MatchWalked([Text(d.value.0, IsHighlight(name))] + w.texts, w.err)
      case EndElement(name) =>
        if name == MatchEnd() then MatchWalked([], None) else MatchWalk(ts[1..], terminal)
      case CharData(text) =>
        var w := MatchWalk(ts[1..], terminal);
        MatchWalked([Text(text, false)] + w.texts, w.err)
  }

  /** A search match, filled in place by `UnmarshalXML`. */
  class Match {
    var path: string
    var texts: seq<Text>

    constructor ()
      ensures path == "" && texts == []
    {
      path := "";
      texts := [];
    }

    /**
     * `UnmarshalXML`: the path from the first "path" attribute of the start
     * tag (left alone without one), and the walk's runs appended to the texts
     * already there.
     */
    method UnmarshalXML(startAttrs: seq<Attr>, tokens: seq<Token>, terminal: StreamError)
      returns (err: Option<StreamError>)
      modifies this
      ensures path == (if FirstPath(startAttrs).Some? then FirstPath(startAttrs).value else old(path))
      ensures texts == old(texts) + MatchWalk(tokens, terminal).texts
      ensures err == MatchWalk(tokens, terminal).err
    {
      var i := 0;
      while i < |startAttrs|
        invariant 0 <= i <= |startAttrs|
        invariant FirstPath(startAttrs) == FirstPath(startAttrs[i..])
        invariant path == old(path) && texts == old(texts)
      {
        if startAttrs[i].name.local == "path" {
          path := startAttrs[i].value;
          break;
        }
        assert startAttrs[i..][1..] == startAttrs[i + 1..];
        i := i + 1;
      }
      var run;
      run, err := DecodeTexts(tokens, terminal);
      texts := texts + run;
    }
  }

  /** The token loop of `UnmarshalXML`: one run per child element and per piece of character data. */
  method DecodeTexts(tokens: seq<Token>, terminal: StreamError) returns (run: seq<Text>, err: Option<StreamError>)
    ensures run == MatchWalk(tokens, terminal).texts
    ensures err == MatchWalk(tokens, terminal).err
  {
    run := [];
    var rest := tokens;
    while true
      invariant MatchWalk(tokens, terminal).texts == run + MatchWalk(rest, terminal).texts
      invariant MatchWalk(tokens, terminal).err == MatchWalk(rest, terminal).err
      decreases |rest|
    {
      if rest == [] {
        return run, Some(terminal);
      }
      var w := MatchWalk(rest, terminal);
      match rest[0]
      case StartElement(name, _) =>
        var decoded := ReadElement(rest[1..], 0);
        var content := if decoded.Some? then decoded.value.0 else "";
        var t := Text(content, IsHighlight(name));
        if decoded.None? {
          assert w.texts == [t];
          run := run + [t];
          return run, Some(terminal);
        }
        assert w.texts == [t] + MatchWalk(decoded.value.1, terminal).texts;
        Assoc(run, [t], MatchWalk(decoded.value.1, terminal).texts);
        run := run + [t];
        rest := decoded.value.1;
      case EndElement(name) =>
        if name == MatchEnd() {
          return run, None;
        }
        rest := rest[1..];
      case CharData(text) =>
        assert w.texts == [Text(text, false)] + MatchWalk(rest[1..], terminal).texts;
        Assoc(run, [Text(text, false)], MatchWalk(rest[1..], terminal).texts);
        run := run + [Text(text, false)];
        rest := rest[1..];
    }
  }

  /** Character data tokens, one per piece. */
  function CharRun(pieces: seq<string>): seq<Token>
  {
    seq(|pieces|, i requires 0 <= i < |pieces| => CharData(pieces[i]))
  }

  function Concat(pieces: seq<string>): string
    decreases |pieces|
  {
    if pieces == [] then "" else pieces[0] + Concat(pieces[1..])
  }

  /** Decoding a child that holds only text yields all of that text and the tokens after its end tag. */
  lemma {:induction false} ReadTextChild(pieces: seq<string>, close: Name, rest: seq<Token>)
    ensures ReadElement(CharRun(pieces) + [EndElement(close)] + rest, 0) == Some((Concat(pieces), rest))
    decreases |pieces|
  {
    var ts := CharRun(pieces) + [EndElement(close)] + rest;
    if pieces == [] {
      assert ts == [EndElement(close)] + rest;
    } else {
      assert ts[0] == CharData(pieces[0]);
      assert ts[1..] == CharRun(pieces[1..]) + [EndElement(close)] + rest;
      ReadTextChild(pieces[1..], close, rest);
    }
  }

  /**
   * A child element holding only text becomes one run with all of its text,
   * highlighted exactly when the child is search:highlight.
   */
  lemma TextChild(name: Name, attrs: seq<Attr>, pieces: seq<string>, close: Name, rest: seq<Token>, terminal: StreamError)
    ensures MatchWalk([StartElement(name, attrs)] + CharRun(pieces) + [EndElement(close)] + rest, terminal)
         == MatchWalked([Text(Concat(pieces), IsHighlight(name))] + MatchWalk(rest, terminal).texts,
                        MatchWalk(rest, terminal).err)
  {
    var ts := [StartElement(name, attrs)] + CharRun(pieces) + [EndElement(close)] + rest;
    assert ts[1..] == CharRun(pieces) + [EndElement(close)] + rest;
    ReadTextChild(pieces, close, rest);
  }

  function PlainTexts(pieces: seq<string>): seq<Text>
  {
    seq(|pieces|, i requires 0 <= i < |pieces| => Text(pieces[i], false))
  }

  /** Each piece of character data becomes one plain run carrying exactly its text. */
  lemma {:induction false} CharRunTexts(pieces: seq<string>, rest: seq<Token>, terminal: StreamError)
    ensures MatchWalk(CharRun(pieces) + rest, terminal)
         == MatchWalked(PlainTexts(pieces) + MatchWalk(rest, terminal).texts, MatchWalk(rest, terminal).err)
    decreases |pieces|
  {
    if pieces == [] {
      assert CharRun(pieces) + rest == rest;
    } else {
      CharRunShape(pieces, rest);
      CharRunTexts(pieces[1..], rest, terminal);
      var w := MatchWalk(rest, terminal);
      Assoc([Text(pieces[0], false)], PlainTexts(pieces[1..]), w.texts);
    }
  }

  lemma CharRunShape(pieces: seq<string>, rest: seq<Token>)
    requires pieces != []
    ensures var ts := CharRun(pieces) + rest;
      ts != [] && ts[0] == CharData(pieces[0]) && ts[1..] == CharRun(pieces[1..]) + rest
    ensures PlainTexts(pieces) == [Text(pieces[0], false)] + PlainTexts(pieces[1..])
  {
    var ts := CharRun(pieces) + rest;
    assert ts[1..] == CharRun(pieces[1..]) + rest;
  }

  /**
   * Plain text, a highlighted child and plain text again, closed by
   * search:match, give exactly three runs and nil.
   */
  lemma {:induction false} HighlightSplit(before: string, highlighted: string, after: string, rest: seq<Token>, terminal: StreamError)
    ensures MatchWalk([CharData(before), StartElement(Name(SearchQuery.SearchNamespace, "highlight"), []),
                       CharData(highlighted), EndElement(Name(SearchQuery.SearchNamespace, "highlight")),
                       CharData(after), EndElement(MatchEnd())] + rest, terminal)
         == MatchWalked([Text(before, false), Text(highlighted, true), Text(after, false)], None)
  {
    var hl := Name(SearchQuery.SearchNamespace, "highlight");
    assert IsHighlight(hl);
    var tail := [CharData(after), EndElement(MatchEnd())] + rest;
    assert tail[1..] == [EndElement(MatchEnd())] + rest;
    assert MatchWalk(tail, terminal) == MatchWalked([Text(after, false)], None);
    var ts := [CharData(before), StartElement(hl, []), CharData(highlighted), EndElement(hl)] + tail;
    assert ts == [CharData(before), StartElement(hl, []), CharData(highlighted), EndElement(hl),
                  CharData(after), EndElement(MatchEnd())] + rest;
    assert ts[1..] == [StartElement(hl, [])] + CharRun([highlighted]) + [EndElement(hl)] + tail;
    TextChild(hl, [], [highlighted], hl, tail, terminal);
    assert Concat([highlighted]) == highlighted;
  }

  /** The sample snippet of the search tests: "Data" highlighted between two plain runs. */
  lemma SampleMatch(rest: seq<Token>, terminal: StreamError)
    ensures MatchWalk([CharData("Lieutenant Commander "),
                       StartElement(Name(SearchQuery.SearchNamespace, "highlight"), []),
                       CharData("Data"), EndElement(Name(SearchQuery.SearchNamespace, "highlight")),
                       CharData(" is a character in the fictional Star Trek universe portrayed by actor Brent Spiner...."),
                       EndElement(MatchEnd())] + rest, terminal)
         == MatchWalked([Text("Lieutenant Commander ", false), Text("Data", true),
                         Text(" is a character in the fictional Star Trek universe portrayed by actor Brent Spiner....", false)], None)
  {
    HighlightSplit("Lieutenant Commander ", "Data",
      " is a character in the fictional Star Trek universe portrayed by actor Brent Spiner....", rest, terminal);
  }
}
