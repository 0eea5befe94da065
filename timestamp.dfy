// The response handle of the Admin API's timestamp request
// (admin/timestamp.go): a byte buffer and the timestamp it holds as text.
module Admin {
  import opened Handles

  class TimestampResponseHandle {
    var format: int
    /** The embedded buffer's contents; a nil buffer reads as empty. */
    var buffer: string
    var timestamp: string

    constructor (format: int)
      ensures this.format == format && buffer == "" && timestamp == ""
    {
      this.format := format;
      buffer := "";
      timestamp := "";
    }

    function GetFormat(): (r: int)
      reads this
      ensures r == format
    {
      format
    }

    /** The buffer is replaced by the bytes; only a plain-text handle also takes them as its timestamp. */
    method Deserialize(bytes: string)
      modifies this
      ensures buffer == bytes && format == old(format)
      ensures timestamp == if old(format) == TEXTPLAIN then bytes else old(timestamp)
    {
      buffer := "";
      buffer := buffer + bytes;
      if format == TEXTPLAIN {
        timestamp := bytes;
      }
    }

    /** The timestamp, as the deserialized value. */
    function Deserialized(): (r: string)
      reads this
      ensures r == Timestamp()
    {
      timestamp
    }

    /**
     * The buffer is emptied; a plain-text handle stores the response as its
     * timestamp and writes it, any other handle keeps its timestamp and an
     * empty buffer.
     */
    method Serialize(response: string)
      modifies this
      ensures format == old(format)
      ensures old(format) == TEXTPLAIN ==> timestamp == response && buffer == response
      ensures old(format) != TEXTPLAIN ==> timestamp == old(timestamp) && buffer == ""
    {
      buffer := "";
      if format == TEXTPLAIN {
        timestamp := response;
        buffer := buffer + timestamp;
      }
    }

    function Get(): (r: string)
      reads this
      ensures r == Timestamp()
    {
      timestamp
    }

    /**
     * The current timestamp serialized again: the timestamp itself for a
     * plain-text handle, "" for any other; the buffer then holds what is
     * returned and the timestamp is unchanged.
     */
    method Serialized() returns (s: string)
      modifies this
      ensures s == if old(format) == TEXTPLAIN then old(timestamp) else ""
      ensures buffer == s && timestamp == old(timestamp) && format == old(format)
    {
      Serialize(timestamp);
      s := buffer;
    }

    method SetTimestamp(t: string)
      modifies this
      ensures timestamp == t && buffer == old(buffer) && format == old(format)
    {
      timestamp := t;
    }

    function Timestamp(): (r: string)
      reads this
      ensures r == timestamp
    {
      timestamp
    }
  }

  /**
   * The serialization round trip: serialize `want`, read the serialization
   * back, deserialize it. A plain-text handle gives `want` both ways; any
   * other handle serializes to "" and keeps its old timestamp.
   */
  method RoundTrip(h: TimestampResponseHandle, want: string) returns (serialized: string, deserialized: string)
    modifies h
    ensures h.format == old(h.format)
    ensures old(h.format) == TEXTPLAIN ==> serialized == want && deserialized == want
    ensures old(h.format) != TEXTPLAIN ==> serialized == "" && deserialized == old(h.timestamp)
  {
    h.Serialize(want);
    serialized := h.Serialized();
    h.Deserialize(serialized);
    deserialized := h.Deserialized();
  }
}
