// The part of Go's `encoding/xml` token model that the client's custom
// marshalling and unmarshalling code works with.
module Xml {
  import opened Common

  /** `xml.Name`: a namespace URI and a local name. */
  datatype Name = Name(space: string, local: string)

  /** `xml.Attr`. */
  datatype Attr = Attr(name: Name, value: string)

  /** The tokens the code inspects: start tags, end tags and character data. */
  datatype Token =
    | StartElement(name: Name, attrs: seq<Attr>)
    | EndElement(name: Name)
    | CharData(text: string)

  /** What `Decoder.Token` reports once the tokens run out: `io.EOF` or another error. */
  datatype StreamError = EOF | SyntaxError(message: string)

  /**
   * What `Decoder.DecodeElement` into a string does once the start tag has
   * been read: it keeps the character data directly inside the element,
   * skips nested elements whole, and stops after the end tag that closes the
   * element (`depth` counts the nested elements still open). The result is
   * the text and the tokens left after that end tag, or None when the tokens
   * run out first.
   */
  function ReadElement(ts: seq<Token>, depth: nat): (r: Option<(string, seq<Token>)>)
    ensures r.Some? ==> |r.value.1| < |ts| && r.value.1 == ts[|ts| - |r.value.1|..]
    decreases |ts|
  {
    if ts == [] then None
    else match ts[0]
      case StartElement(_, _) => ReadElement(ts[1..], depth + 1)
      case EndElement(_) =>
        if depth == 0 then Some(("", ts[1..]))
        else ReadElement(ts[1..], depth - 1)
      case CharData(text) =>
        var inner := ReadElement(ts[1..], depth);
        if inner.None? then None
        else Some(((if depth == 0 then text else "") + inner.value.0, inner.value.1))
  }
}
