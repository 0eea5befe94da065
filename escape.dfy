// Go's `url.QueryEscape`, which every query-string builder of the client
// applies to parameter values, and its inverse `url.QueryUnescape`.
module QueryEscape {
  import opened Common

  /** Bytes that pass through unchanged: ASCII letters, digits and "-_.~". */
  predicate Unreserved(b: int)
  {
    ('A' as int <= b <= 'Z' as int) || ('a' as int <= b <= 'z' as int)
    || ('0' as int <= b <= '9' as int)
    || b == '-' as int || b == '_' as int || b == '.' as int || b == '~' as int
  }

  /** Characters an escaped value can contain. */
  predicate SafeChar(c: char)
  {
    Unreserved(c as int) || c == '+' || c == '%'
  }

  const HexDigits: string := "0123456789ABCDEF"

  /** The escaped form of one byte: itself, '+' for a space, or %XX with upper-case hex. */
  function EscapeByte(b: Byte): (r: string)
    ensures 1 <= |r| <= 3
    ensures forall i :: 0 <= i < |r| ==> SafeChar(r[i])
  {
    if Unreserved(b) then [b as char]
    else if b == ' ' as int then "+"
    else ['%', HexDigits[b / 16], HexDigits[b % 16]]
  }

  function EscapeBytes(bs: seq<Byte>): (r: string)
    ensures |r| >= |bs|
    ensures forall i :: 0 <= i < |r| ==> SafeChar(r[i])
  {
    if bs == [] then "" else EscapeByte(bs[0]) + EscapeBytes(bs[1..])
  }

  /** The UTF-8 encoding of one character (Go strings hold UTF-8 bytes). */
  function Utf8(c: char): (r: seq<Byte>)
    ensures 1 <= |r| <= 4
    ensures |r| == 1 <==> c as int < 0x80
    ensures |r| == 1 ==> r[0] == c as int
    ensures |r| > 1 ==> forall i :: 0 <= i < |r| ==> r[i] >= 0x80
  {
    var n := c as int;
    if n < 0x80 then [n]
    else if n < 0x800 then [0xC0 + n / 64, 0x80 + n % 64]
    else if n < 0x10000 then [0xE0 + n / 4096, 0x80 + (n / 64) % 64, 0x80 + n % 64]
    else [0xF0 + n / 0x40000, 0x80 + (n / 4096) % 64, 0x80 + (n / 64) % 64, 0x80 + n % 64]
  }

  function Utf8String(s: string): seq<Byte>
  {
    if s == [] then [] else Utf8(s[0]) + Utf8String(s[1..])
  }

  /** `url.QueryEscape(s)`. */
  function Escape(s: string): string
  {
    EscapeBytes(Utf8String(s))
  }

  function HexValue(c: char): Option<int>
  {
    if '0' <= c <= '9' then Some(c as int - '0' as int)
    else if 'a' <= c <= 'f' then Some(c as int - 'a' as int + 10)
    else if 'A' <= c <= 'F' then Some(c as int - 'A' as int + 10)
    else None
  }

  /** `url.QueryUnescape(s)`: None where Go reports a malformed escape. */
  function Unescape(s: string): Option<seq<Byte>>
  {
    if s == [] then Some([])
    else
      var rest := if s[0] == '%' then (if |s| < 3 then None else Unescape(s[3..])) else Unescape(s[1..]);
      if rest.None? then None
      else if s[0] == '%' then
        var hi := HexValue(s[1]);
        var lo := HexValue(s[2]);
        if hi.None? || lo.None? then None else Some([hi.value * 16 + lo.value] + rest.value)
      else if s[0] == '+' then Some([' ' as int] + rest.value)
      else Some(Utf8(s[0]) + rest.value)
  }

  lemma HexDigitValue(i: int)
    requires 0 <= i < 16
    ensures HexValue(HexDigits[i]) == Some(i)
  {
  }

  lemma {:induction false} EscapeBytesAppend(a: seq<Byte>, b: seq<Byte>)
    ensures EscapeBytes(a + b) == EscapeBytes(a) + EscapeBytes(b)
  {
    if a == [] {
      assert a + b == b;
    } else {
      assert (a + b)[0] == a[0] && (a + b)[1..] == a[1..] + b;
      EscapeBytesAppend(a[1..], b);
    }
  }

  lemma {:induction false} Utf8StringAppend(a: string, b: string)
    ensures Utf8String(a + b) == Utf8String(a) + Utf8String(b)
  {
    if a == [] {
      assert a + b == b;
    } else {
      assert (a + b)[0] == a[0] && (a + b)[1..] == a[1..] + b;
      Utf8StringAppend(a[1..], b);
    }
  }

  /** Escaping works character by character. */
  lemma EscapeAppend(a: string, b: string)
    ensures Escape(a + b) == Escape(a) + Escape(b)
  {
    Utf8StringAppend(a, b);
    EscapeBytesAppend(Utf8String(a), Utf8String(b));
  }

  /** Unescaping undoes escaping, byte for byte. */
  lemma {:induction false} UnescapeEscapeBytes(bs: seq<Byte>)
    ensures Unescape(EscapeBytes(bs)) == Some(bs)
  {
    if bs != [] {
      var b := bs[0];
      var e := EscapeByte(b);
      var t := EscapeBytes(bs[1..]);
      UnescapeEscapeBytes(bs[1..]);
      assert EscapeBytes(bs) == e + t;
      if Unreserved(b) {
        assert (e + t)[1..] == t;
      } else if b == ' ' as int {
        assert (e + t)[1..] == t;
      } else {
        assert (e + t)[3..] == t;
        HexDigitValue(b / 16);
        HexDigitValue(b % 16);
      }
      assert bs == [b] + bs[1..];
    }
  }

  /** The value a server decodes from `Escape(s)` is the UTF-8 text of `s`. */
  lemma EscapeRoundTrip(s: string)
    ensures Unescape(Escape(s)) == Some(Utf8String(s))
  {
    UnescapeEscapeBytes(Utf8String(s));
  }

  /** An escaped value never contains a query-string delimiter. */
  lemma EscapedHasNoDelimiters(s: string)
    ensures '&' !in Escape(s) && '=' !in Escape(s) && '?' !in Escape(s)
    ensures ' ' !in Escape(s) && ':' !in Escape(s) && '/' !in Escape(s)
    ensures '\r' !in Escape(s) && '\n' !in Escape(s)
  {
  }

  lemma EscapeOneChar(c: char)
    ensures |Escape([c])| >= 1
    ensures Escape([c]) == [c] <==> Unreserved(c as int)
  {
    assert Utf8String([c]) == Utf8(c) + Utf8String([]);
    var u := Utf8(c);
    if |u| == 1 {
      assert EscapeBytes(u) == EscapeByte(u[0]) + EscapeBytes([]);
    } else {
      assert EscapeBytes(u) == EscapeByte(u[0]) + EscapeBytes(u[1..]);
      assert |EscapeBytes(u)| >= 2;
    }
  }

  /** A value comes through unchanged exactly when every character is unreserved. */
  lemma {:induction false} EscapeIsIdentityIff(s: string)
    ensures Escape(s) == s <==> forall i :: 0 <= i < |s| ==> Unreserved(s[i] as int)
  {
    if s != [] {
      assert s == [s[0]] + s[1..];
      EscapeAppend([s[0]], s[1..]);
      EscapeOneChar(s[0]);
      EscapeIsIdentityIff(s[1..]);
      var h := Escape([s[0]]);
      var t := Escape(s[1..]);
      assert |t| >= |s[1..]| by {
        assert |t| >= |Utf8String(s[1..])|;
        Utf8StringLength(s[1..]);
      }
      if Escape(s) == s {
        assert |h| == 1;
        assert h == s[..1];
        assert t == s[1..];
      }
      if forall i :: 0 <= i < |s| ==> Unreserved(s[i] as int) {
        assert forall i :: 0 <= i < |s[1..]| ==> Unreserved(s[1..][i] as int) by {
          forall i | 0 <= i < |s[1..]| ensures Unreserved(s[1..][i] as int) {
            assert s[1..][i] == s[i + 1];
          }
        }
      }
    }
  }

  lemma {:induction false} Utf8StringLength(s: string)
    ensures |Utf8String(s)| >= |s|
  {
    if s != [] {
      Utf8StringLength(s[1..]);
    }
  }
}
