/**
 * The payload of an export poll response: a 4-byte block length, then rows, each a
 * 4-byte length followed by that many bytes. All integers are little-endian signed 32-bit.
 */
module ExportRows {
  import opened Wrappers

  newtype Byte = x: int | 0 <= x < 256

  const TWO_31: int := 0x8000_0000
  const TWO_32: int := 0x1_0000_0000

  /** The values of a Java int. */
  predicate IsInt32(v: int)
  {
    -TWO_31 <= v < TWO_31
  }

  /** ByteBuffer.getInt in little-endian order. */
  function LeInt32(b: seq<Byte>): (v: int)
    requires |b| == 4
    ensures IsInt32(v)
  {
    var u := b[0] as int + 0x100 * b[1] as int + 0x1_0000 * b[2] as int + 0x100_0000 * b[3] as int;
    if u >= TWO_31 then u - TWO_32 else u
  }

  /** The four little-endian bytes of a Java int. */
  function LeBytes(v: int): (b: seq<Byte>)
    requires IsInt32(v)
    ensures |b| == 4
  {
    var u := if v < 0 then v + TWO_32 else v;
    [(u % 0x100) as Byte, (u / 0x100 % 0x100) as Byte, (u / 0x1_0000 % 0x100) as Byte, (u / 0x100_0000) as Byte]
  }

  /** Decoding the encoding of an int gives the int back. */
  lemma LeInt32OfLeBytes(v: int)
    requires IsInt32(v)
    ensures LeInt32(LeBytes(v)) == v
  {
    var u := if v < 0 then v + TWO_32 else v;
    var q1, q2 := u / 0x100, u / 0x1_0000;
    assert u == u % 0x100 + 0x100 * q1;
    assert q1 == q1 % 0x100 + 0x100 * (q1 / 0x100);
    assert q1 / 0x100 == q2;
    assert q2 == q2 % 0x100 + 0x100 * (q2 / 0x100);
    assert q2 / 0x100 == u / 0x100_0000;
    var b := LeBytes(v);
    assert b[0] as int + 0x100 * b[1] as int + 0x1_0000 * b[2] as int + 0x100_0000 * b[3] as int == u;
  }

  /** What stops the payload walk: ByteBuffer's BufferUnderflowException, or NegativeArraySizeException. */
  datatype ParseFailure = BufferUnderflow | NegativeArraySize

  /** The rows read before the walk stopped, and why it stopped early, if it did. */
  datatype ParseOutcome = ParseOutcome(rows: seq<seq<Byte>>, failure: Option<ParseFailure>)

  /**
   * The rows loop: while bytes remain, read a length and then that many bytes. Fewer than
   * four bytes for a length, or fewer bytes than the length says, is an underflow; a
   * negative length cannot size the row buffer.
   */
  function ReadRows(data: seq<Byte>): (r: ParseOutcome)
    decreases |data|
  {
    if |data| == 0 then ParseOutcome([], None)
    else if |data| < 4 then ParseOutcome([], Some(BufferUnderflow))
    else
      var length := LeInt32(data[..4]);
      if length < 0 then ParseOutcome([], Some(NegativeArraySize))
      else if |data| - 4 < length then ParseOutcome([], Some(BufferUnderflow))
      else
        var rest := ReadRows(data[4 + length..]);
        ParseOutcome([data[4..4 + length]] + rest.rows, rest.failure)
  }

  /** The rows that a Java int length can describe. */
  predicate Encodable(rows: seq<seq<Byte>>)
  {
    forall i :: 0 <= i < |rows| ==> |rows[i]| < TWO_31
  }

  /** The total number of row bytes. */
  function RowBytes(rows: seq<seq<Byte>>): nat
  {
    if rows == [] then 0 else |rows[0]| + RowBytes(rows[1..])
  }

  /** The rows as the export stream lays them out: each preceded by its length. */
  function EncodeRows(rows: seq<seq<Byte>>): (data: seq<Byte>)
    requires Encodable(rows)
    ensures |data| >= 4 * |rows|
  {
    if rows == [] then [] else LeBytes(|rows[0]|) + rows[0] + EncodeRows(rows[1..])
  }

  /** Encoding one more row in front puts its length and its bytes in front. */
  lemma EncodeRowsCons(row: seq<Byte>, tail: seq<seq<Byte>>)
    requires |row| < TWO_31 && Encodable(tail)
    ensures Encodable([row] + tail)
    ensures EncodeRows([row] + tail) == LeBytes(|row|) + (row + EncodeRows(tail))
  {
    assert ([row] + tail)[0] == row && ([row] + tail)[1..] == tail;
    assert LeBytes(|row|) + row + EncodeRows(tail) == LeBytes(|row|) + (row + EncodeRows(tail));
  }

  /** The encoding is exactly four length bytes per row plus the rows' bytes. */
  lemma {:induction false} EncodeRowsLength(rows: seq<seq<Byte>>)
    requires Encodable(rows)
    ensures |EncodeRows(rows)| == 4 * |rows| + RowBytes(rows)
  {
    if rows != [] {
      EncodeRowsLength(rows[1..]);
    }
  }

  /** Reading the rows back from their encoding gives exactly those rows, with no failure. */
  lemma {:induction false} ReadRowsOfEncodeRows(rows: seq<seq<Byte>>)
    requires Encodable(rows)
    ensures ReadRows(EncodeRows(rows)) == ParseOutcome(rows, None)
  {
    if rows != [] {
      var data := EncodeRows(rows);
      var row := rows[0];
      LeInt32OfLeBytes(|row|);
      assert data[..4] == LeBytes(|row|);
      assert data[4..4 + |row|] == row;
      assert data[4 + |row|..] == EncodeRows(rows[1..]);
      ReadRowsOfEncodeRows(rows[1..]);
      assert [row] + rows[1..] == rows;
    }
  }

  /**
   * One step of the walk re-encodes: when the data opens with a usable length and the rest
   * is the encoding of the rows read from it, the whole is the encoding of all the rows read.
   */
  lemma ReadRowsConsEncodes(data: seq<Byte>, length: int)
    requires |data| >= 4 && length == LeInt32(data[..4]) && 0 <= length <= |data| - 4
    requires Encodable(ReadRows(data[4 + length..]).rows)
    requires EncodeRows(ReadRows(data[4 + length..]).rows) == data[4 + length..]
    ensures Encodable(ReadRows(data).rows) && EncodeRows(ReadRows(data).rows) == data
  {
    var row := data[4..4 + length];
    var rest := data[4 + length..];
    assert data[4..] == row + rest;
    assert data == data[..4] + data[4..];
    var tail := ReadRows(rest).rows;
    assert ReadRows(data).rows == [row] + tail;
    LeBytesOfLeInt32(data[..4]);
    EncodeRowsCons(row, tail);
  }

  /** A read stops early exactly when the data is not the encoding of some rows. */
  lemma {:induction false} ReadRowsSucceedsOnlyOnEncodings(data: seq<Byte>)
    ensures ReadRows(data).failure.None? ==>
      Encodable(ReadRows(data).rows) && EncodeRows(ReadRows(data).rows) == data
    decreases |data|
  {
    if |data| >= 4 {
      var length := LeInt32(data[..4]);
      if 0 <= length <= |data| - 4 {
        var rest := data[4 + length..];
        ReadRowsSucceedsOnlyOnEncodings(rest);
        if ReadRows(data).failure.None? {
          ReadRowsConsEncodes(data, length);
        }
      }
    }
  }

  /** Peeling one base-256 digit off a non-negative number. */
  lemma Digit(lo: int, hi: int)
    requires 0 <= lo < 0x100 && 0 <= hi
    ensures (lo + 0x100 * hi) % 0x100 == lo && (lo + 0x100 * hi) / 0x100 == hi
  {
  }

  /** Encoding the decoded int gives the four bytes back. */
  lemma LeBytesOfLeInt32(b: seq<Byte>)
    requires |b| == 4
    ensures LeBytes(LeInt32(b)) == b
  {
    var b0, b1, b2, b3 := b[0] as int, b[1] as int, b[2] as int, b[3] as int;
    var u := b0 + 0x100 * (b1 + 0x100 * (b2 + 0x100 * b3));
    assert u == b0 + 0x100 * b1 + 0x1_0000 * b2 + 0x100_0000 * b3;
    Digit(b0, b1 + 0x100 * (b2 + 0x100 * b3));
    Digit(b1, b2 + 0x100 * b3);
    Digit(b2, b3);
    assert u / 0x1_0000 == (u / 0x100) / 0x100;
    assert u / 0x100_0000 == (u / 0x1_0000) / 0x100;
    var v := LeInt32(b);
    assert (if v < 0 then v + TWO_32 else v) == u;
  }
}
