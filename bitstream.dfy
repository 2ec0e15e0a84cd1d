/** The two bitstream objects the box layer works on: a writer that appends
    big-endian fields to a growing buffer, and a reader with a cursor. */
module BitStream {
  import opened Bytes

  /** A write bitstream: everything written so far, in order. */
  class BitWriter {
    var data: seq<byte>

    constructor ()
      ensures data == []
    {
      data := [];
    }

    /** Writes the low `n` bytes of `v`, most significant first (`gf_bs_write_u8/u16/u24/u32`). */
    method WriteUInt(v: int, n: nat)
      modifies this
      ensures data == old(data) + BigEndian(Truncate(v, n), n)
    {
      data := data + BigEndian(Truncate(v, n), n);
    }

    /** Copies a run of bytes into the stream (`gf_bs_write_data`). */
    method WriteData(bytes: seq<byte>)
      modifies this
      ensures data == old(data) + bytes
    {
      data := data + bytes;
    }
  }

  /** A read bitstream over a fixed buffer. */
  class BitReader {
    const data: seq<byte>
    var pos: nat

    ghost predicate Valid()
      reads this
    {
      pos <= |data|
    }

    constructor (buffer: seq<byte>)
      ensures Valid() && data == buffer && pos == 0
    {
      data := buffer;
      pos := 0;
    }

    /** Whether any byte is left to read (`gf_bs_available` is non-zero). */
    method Available() returns (b: bool)
      requires Valid()
      ensures b <==> pos < |data|
    {
      b := pos < |data|;
    }

    /** Moves the cursor back or forth (`gf_bs_seek`). */
    method Seek(p: nat)
      requires p <= |data|
      modifies this
      ensures Valid() && pos == p
    {
      pos := p;
    }

    /** Reads `n` bytes (`gf_bs_read_data`). */
    method ReadData(n: nat) returns (bytes: seq<byte>)
      requires Valid() && pos + n <= |data|
      modifies this
      ensures Valid() && pos == old(pos) + n
      ensures bytes == data[old(pos)..pos]
    {
      bytes := data[pos..pos + n];
      pos := pos + n;
    }
  }
}
