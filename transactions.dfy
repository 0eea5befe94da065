// The response handle of the multi-statement transaction requests
// (transactions/transactions.go): the raw reply bytes and the transaction
// information decoded from them.
module Transactions {
  import opened Handles

  /** The transaction information the server reports; all "" when absent. */
  datatype TransactionInfo = TransactionInfo(txid: string, status: string, startTime: string)

  const NoInfo := TransactionInfo("", "", "")

  class TransactionHandle {
    var format: int
    var info: TransactionInfo
    var buffer: string

    constructor (format: int)
      ensures this.format == format && info == NoInfo && buffer == ""
    {
      this.format := format;
      info := NoInfo;
      buffer := "";
    }

    function GetFormat(): (r: int)
      reads this
      ensures r == format
    {
      format
    }

    /** The information is replaced; the buffer is left as it is. */
    method Serialize(v: TransactionInfo)
      modifies this
      ensures info == v && buffer == old(buffer) && format == old(format)
    {
      info := v;
    }

    /**
     * The buffer becomes the bytes and the information is reset; only a JSON
     * handle then takes what decoding the bytes fills in, `decoded` (decoding
     * itself is not part of this model).
     */
    method Deserialize(b: string, decoded: TransactionInfo)
      modifies this
      ensures buffer == b && format == old(format)
      ensures info == if old(format) == JSON then decoded else NoInfo
    {
      buffer := b;
      info := NoInfo;
      if format == JSON {
        info := decoded;
      }
    }

    function Deserialized(): (r: TransactionInfo)
      reads this
      ensures r == info
    {
      info
    }

    /** The buffer as text: the bytes last deserialized, with everything written since appended. */
    function Serialized(): (s: string)
      reads this
      ensures s == buffer
    {
      buffer
    }

    /** A transaction handle carries no timestamp: setting one changes nothing. */
    method SetTimestamp(ts: string)
      modifies this
      ensures buffer == old(buffer) && info == old(info) && format == old(format)
    {
    }

    function Timestamp(): (r: string)
      ensures r == ""
    {
      ""
    }

    /**
     * As many bytes as fit are copied into `p` from the start of the buffer,
     * the rest of `p` is untouched, and the whole buffer length is reported;
     * the buffer is not consumed, so every read sees the same bytes.
     */
    method Read(p: array<char>) returns (n: nat)
      modifies p
      ensures n == |buffer|
      ensures var m := if p.Length < |buffer| then p.Length else |buffer|;
        p[..m] == buffer[..m] && p[m..] == old(p[m..])
    {
      var m := if p.Length < |buffer| then p.Length else |buffer|;
      var i := 0;
      while i < m
        invariant 0 <= i <= m
        invariant p[..i] == buffer[..i]
        invariant p[i..] == old(p[i..])
      {
        p[i] := buffer[i];
        assert p[i + 1..] == old(p[i + 1..]) by {
          assert forall j :: i + 1 <= j < p.Length ==> p[j] == old(p[j]) by {
            assert forall j :: i <= j < p.Length ==> old(p[..])[j] == old(p[j]);
          }
        }
        i := i + 1;
      }
      n := |buffer|;
    }

    /** The bytes are appended to the buffer and all of them are reported written. */
    method Write(p: string) returns (n: nat)
      modifies this
      ensures buffer == old(buffer) + p && n == |p|
      ensures info == old(info) && format == old(format)
    {
      buffer := buffer + p;
      n := |p|;
    }
  }

  /**
   * Reading after deserializing and writing: the serialization is the
   * deserialized bytes followed by the written ones, and a read into a large
   * enough slice copies exactly them.
   */
  method DeserializeWriteRead(h: TransactionHandle, b: string, decoded: TransactionInfo, more: string, p: array<char>)
    returns (written: nat, read: nat)
    requires p.Length >= |b| + |more|
    modifies h, p
    ensures h.Serialized() == b + more && written == |more| && read == |b + more|
    ensures p[..read] == b + more
  {
    h.Deserialize(b, decoded);
    written := h.Write(more);
    read := h.Read(p);
  }
}
