// The format codes and the two in-memory handles of handle/handles.go. The
// root package's handles.go declares the same RawHandle; it is modelled once,
// here.
module Handles {
  import opened Common

  /** Format codes. XML and JSON are the first two values of the `iota` list. */
  const XML: int := 0
  const JSON: int := 1
  /**
   * Plain text and `text/uri-list`. Their declarations are not part of this
   * model; only the fact that all four codes differ is used.
   */
  const TEXTPLAIN: int := 2
  const TEXT_URI_LIST: int := 3

  /** The REST API's name for a format: "json" for JSON and "xml" for every other code. */
  function FormatEnumToString(formatEnum: int): (r: string)
    ensures r == "json" <==> formatEnum == JSON
    ensures r == "xml" <==> formatEnum != JSON
  {
    if formatEnum == JSON then "json" else "xml"
  }

  /** A handle holding raw serialised bytes (a byte slice and its string are one value here). */
  class RawHandle {
    var format: int
    var bytes: string

    constructor (format: int)
      ensures this.format == format && bytes == ""
    {
      this.format := format;
      bytes := "";
    }

    function GetFormat(): (r: int)
      reads this
      ensures r == format
    {
      format
    }

    method Encode(b: string)
      modifies this
      ensures bytes == b && format == old(format)
    {
      bytes := b;
    }

    /** Decoding raw bytes is encoding them. */
    method Decode(b: string)
      modifies this
      ensures bytes == b && format == old(format)
    {
      Encode(b);
    }

    function Get(): (s: string)
      reads this
      ensures s == bytes
    {
      bytes
    }

    function Serialized(): (s: string)
      reads this
      ensures s == Get()
    {
      Get()
    }
  }

  /** A handle that keeps encoded bytes and, separately, a decoded map. */
  class MapHandle {
    var format: int
    var bytes: string
    var mapItem: Option<map<string, string>>

    constructor (format: int)
      ensures this.format == format && bytes == "" && mapItem == None
    {
      this.format := format;
      bytes := "";
      mapItem := None;
    }

    function GetFormat(): (r: int)
      reads this
      ensures r == format
    {
      format
    }

    method Encode(b: string)
      modifies this
      ensures bytes == b && format == old(format) && mapItem == old(mapItem)
    {
      bytes := b;
    }

    /** Decoding stores the map and leaves the bytes of the last `Encode` alone. */
    method Decode(item: map<string, string>)
      modifies this
      ensures mapItem == Some(item) && bytes == old(bytes) && format == old(format)
    {
      mapItem := Some(item);
    }

    function Get(): (r: Option<map<string, string>>)
      reads this
      ensures r == mapItem
    {
      mapItem
    }

    function Serialized(): (s: string)
      reads this
      ensures s == bytes
    {
      bytes
    }
  }
}
