// The `text/uri-list` body the internal URIs endpoint exchanges: URIs
// separated by CRLF (section 5 of RFC 2483), split with `strings.Split` and
// written with `strings.Join`. Lines starting with '#' get no special treatment.
module UriList {
  import opened Common

  const CRLF: string := "\r\n"

  /** `strings.Split(s, "\r\n")`. */
  function SplitCRLF(s: string): (r: seq<string>)
    ensures |r| >= 1
  {
    if |s| < 2 then [s]
    else if s[..2] == CRLF then [""] + SplitCRLF(s[2..])
    else
      var rest := SplitCRLF(s[1..]);
      [[s[0]] + rest[0]] + rest[1..]
  }

  /** `strings.Join(uris, "\r\n")`. */
  function JoinCRLF(uris: seq<string>): string
  {
    Join(uris, CRLF)
  }

  predicate HasCRLF(s: string)
  {
    exists i :: 0 <= i < |s| - 1 && s[i] == '\r' && s[i + 1] == '\n'
  }

  /** What `Deserialize` keeps: the non-empty lines, in order. */
  function ParseUriList(body: string): seq<string>
  {
    NonEmpty(SplitCRLF(body))
  }

  lemma {:induction false} SplitWithoutCRLF(s: string)
    requires !HasCRLF(s)
    ensures SplitCRLF(s) == [s]
  {
    if |s| >= 2 {
      assert !(s[0] == '\r' && s[1] == '\n');
      assert s[..2][0] == s[0] && s[..2][1] == s[1];
      assert s[..2] != CRLF;
      forall i | 0 <= i < |s[1..]| - 1
        ensures !(s[1..][i] == '\r' && s[1..][i + 1] == '\n')
      {
        assert s[1..][i] == s[i + 1] && s[1..][i + 1] == s[i + 2];
      }
      SplitWithoutCRLF(s[1..]);
      assert [s[0]] + s[1..] == s;
    }
  }

  /** A CRLF between two texts always separates them, whatever they end or start with. */
  lemma {:induction false} SplitAroundCRLF(a: string, b: string)
    ensures SplitCRLF(a + CRLF + b) == SplitCRLF(a) + SplitCRLF(b)
    decreases |a|
  {
    if |a| == 0 {
      SplitAtCRLF(b);
      assert a + CRLF + b == CRLF + b;
    } else if |a| == 1 {
      SplitOneBeforeCRLF(a[0], b);
      assert a == [a[0]];
    } else {
      AroundShape(a, b);
      if a[..2] == CRLF {
        SplitAroundCRLF(a[2..], b);
        Assoc([""], SplitCRLF(a[2..]), SplitCRLF(b));
      } else {
        SplitAroundCRLF(a[1..], b);
        MergeFirst(a[0], SplitCRLF(a[1..]), SplitCRLF(b));
      }
    }
  }

  lemma AroundShape(a: string, b: string)
    requires |a| >= 2
    ensures var s := a + CRLF + b;
      s[0] == a[0] && s[..2] == a[..2] && s[1..] == a[1..] + CRLF + b && s[2..] == a[2..] + CRLF + b
  {
    var s := a + CRLF + b;
    assert s[1..] == a[1..] + CRLF + b;
    assert s[2..] == a[2..] + CRLF + b;
  }

  /** A character put in front of the first piece of a split followed by more pieces. */
  lemma MergeFirst(c: char, ra: seq<string>, rb: seq<string>)
    requires |ra| >= 1
    ensures [[c] + (ra + rb)[0]] + (ra + rb)[1..] == [[c] + ra[0]] + ra[1..] + rb
  {
    assert (ra + rb)[1..] == ra[1..] + rb;
  }

  lemma SplitAtCRLF(b: string)
    ensures SplitCRLF(CRLF + b) == [""] + SplitCRLF(b)
  {
    var s := CRLF + b;
    assert s[..2] == CRLF && s[2..] == b;
  }

  lemma SplitOneBeforeCRLF(c: char, b: string)
    ensures SplitCRLF([c] + CRLF + b) == [[c]] + SplitCRLF(b)
  {
    var s := [c] + CRLF + b;
    assert s[1] == '\r';
    assert s[..2] != CRLF;
    assert s[1..] == CRLF + b;
    SplitAtCRLF(b);
    var rest := SplitCRLF(s[1..]);
    assert rest[0] == "" && rest[1..] == SplitCRLF(b);
    assert [c] + rest[0] == [c];
  }

  /** Splitting the CRLF join of URIs that hold no CRLF gives the URIs back. */
  lemma {:induction false} SplitJoinCRLF(uris: seq<string>)
    requires |uris| >= 1
    requires forall i :: 0 <= i < |uris| ==> !HasCRLF(uris[i])
    ensures SplitCRLF(JoinCRLF(uris)) == uris
  {
    SplitWithoutCRLF(uris[0]);
    if |uris| > 1 {
      var rest := uris[1..];
      assert forall i :: 0 <= i < |rest| ==> !HasCRLF(rest[i]) by {
        assert forall i :: 0 <= i < |rest| ==> rest[i] == uris[i + 1];
      }
      SplitJoinCRLF(rest);
      JoinCRLFUnfold(uris);
      SplitAroundCRLF(uris[0], JoinCRLF(rest));
      assert [uris[0]] + rest == uris;
    }
  }

  lemma JoinCRLFUnfold(uris: seq<string>)
    requires |uris| > 1
    ensures JoinCRLF(uris) == uris[0] + CRLF + JoinCRLF(uris[1..])
  {
  }

  /** Round trip: reading back a written list of non-empty, CRLF-free URIs gives the same list. */
  lemma UriListRoundTrip(uris: seq<string>)
    requires forall i :: 0 <= i < |uris| ==> uris[i] != "" && !HasCRLF(uris[i])
    ensures ParseUriList(JoinCRLF(uris)) == uris
  {
    if uris == [] {
      assert SplitCRLF("") == [""];
    } else {
      SplitJoinCRLF(uris);
      NonEmptyOfNonEmpty(uris);
    }
  }

  /** A trailing CRLF adds no URI. */
  lemma TrailingCRLF(body: string)
    ensures ParseUriList(body + CRLF) == ParseUriList(body)
  {
    SplitAroundCRLF(body, "");
    assert body + CRLF + "" == body + CRLF;
    NonEmptyAppend(SplitCRLF(body), [""]);
  }

  /** Empty lines, including blank lines between URIs, are dropped. */
  lemma BlankLine(a: string, b: string)
    ensures ParseUriList(a + CRLF + CRLF + b) == ParseUriList(a) + ParseUriList(b)
  {
    SplitAroundCRLF(a, CRLF + b);
    assert a + CRLF + CRLF + b == a + CRLF + (CRLF + b);
    SplitAroundCRLF("", b);
    assert "" + CRLF + b == CRLF + b;
    NonEmptyAppend(SplitCRLF(a), SplitCRLF(CRLF + b));
    NonEmptyAppend([""], SplitCRLF(b));
  }

  /** The reply body of the query-batcher test: two URIs, each followed by CRLF. */
  lemma TwoUriReply()
    ensures ParseUriList("/doc1.json\r\n/doc2.json\r\n") == ["/doc1.json", "/doc2.json"]
  {
    var u1, u2 := "/doc1.json", "/doc2.json";
    NoCRLFInPlainText(u1);
    NoCRLFInPlainText(u2);
    TwoLinesEachEnded(u1, u2);
    assert u1 + CRLF + u2 + CRLF == "/doc1.json\r\n/doc2.json\r\n";
  }

  /** Two URIs, each followed by CRLF, read back as those two URIs. */
  lemma TwoLinesEachEnded(u1: string, u2: string)
    requires u1 != "" && u2 != "" && !HasCRLF(u1) && !HasCRLF(u2)
    ensures ParseUriList(u1 + CRLF + u2 + CRLF) == [u1, u2]
  {
    TrailingCRLF(u1 + CRLF + u2);
    JoinAppend([u1], [u2], CRLF);
    assert [u1] + [u2] == [u1, u2];
    assert JoinCRLF([u1, u2]) == u1 + CRLF + u2;
    UriListRoundTrip([u1, u2]);
  }

  lemma NoCRLFInPlainText(s: string)
    requires forall i :: 0 <= i < |s| ==> s[i] != '\r'
    ensures !HasCRLF(s)
  {
  }
}
