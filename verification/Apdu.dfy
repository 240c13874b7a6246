/** Short command APDUs (section 5.1 of ISO/IEC 7816-4) and messages cut into fragments. */
module Apdu {
  import opened Messages
  import opened Utf8

  const CLA: Byte := 0x80
  const PUT_REQUEST: Byte := 0x10
  const GET_STATUS: Byte := 0x20
  const GET_RECEIPT: Byte := 0x30
  const PUT_ACK: Byte := 0x40
  const GET_AUTHORIZATION: Byte := 0x50
  const CHUNK_BYTES: nat := 160
  const MAX_LOGICAL_BYTES: nat := 4096

  datatype Command = Command(instruction: Byte, sequence: Byte, last: bool, data: Bytes)

  predicate Known(instruction: int) {
    instruction == 0x10 || instruction == 0x20 || instruction == 0x30 || instruction == 0x40 || instruction == 0x50
  }

  function BuildApdu(instruction: int, sequence: int, last: bool, data: Bytes): Option<Bytes> {
    if !Known(instruction) || !(0 <= sequence <= 255) || |data| > 255 then None
    else Some([CLA, instruction, sequence, if last then 1 else 0, |data|] + data)
  }

  function ParseApdu(apdu: Bytes): Option<Command> {
    if |apdu| < 5 || apdu[0] != CLA || !Known(apdu[1]) then None
    else if !(apdu[3] == 0 || apdu[3] == 1) || |apdu| != 5 + apdu[4] as int then None
    else Some(Command(apdu[1], apdu[2], apdu[3] == 1, apdu[5..]))
  }

  /** Parsing and building are inverse: a frame is accepted exactly when it was built, from what is parsed. */
  lemma ParseIffBuilt(apdu: Bytes, c: Command)
    ensures ParseApdu(apdu) == Some(c) <==> BuildApdu(c.instruction, c.sequence, c.last, c.data) == Some(apdu)
  {
    if ParseApdu(apdu) == Some(c) {
      assert apdu == apdu[..5] + apdu[5..];
      assert apdu[..5] == [apdu[0], apdu[1], apdu[2], apdu[3], apdu[4]];
    }
    if BuildApdu(c.instruction, c.sequence, c.last, c.data) == Some(apdu) {
      assert apdu[5..] == c.data;
    }
  }

  // ---------------------------------------------------------------------------------------------
  // Fragments

  function Cut(data: Bytes, size: nat): (chunks: seq<Bytes>)
    requires size >= 1
  {
    if |data| == 0 then [] else if |data| <= size then [data] else [data[..size]] + Cut(data[size..], size)
  }

  /** Cut a message of 1 to 4096 bytes into fragments of at most `size`. */
  function ChunkMessage(data: Bytes, size: int): Option<seq<Bytes>> {
    if |data| == 0 || |data| > MAX_LOGICAL_BYTES || !(1 <= size <= 255) then None else Some(Cut(data, size))
  }

  function Concat(chunks: seq<Bytes>): Bytes {
    if |chunks| == 0 then [] else chunks[0] + Concat(chunks[1..])
  }

  function AssembleChunks(chunks: seq<Bytes>): Option<Bytes> {
    var data := Concat(chunks);
    if |data| == 0 || |data| > MAX_LOGICAL_BYTES then None else Some(data)
  }

  /** The fragments put together are the message; they are as many and as long as arithmetic says. */
  lemma {:induction false} CutFacts(data: Bytes, size: nat)
    requires size >= 1
    ensures Concat(Cut(data, size)) == data
    ensures forall c | c in Cut(data, size) :: 1 <= |c| <= size
    ensures |Cut(data, size)| == (|data| + size - 1) / size
    decreases |data|
  {
    if |data| > size {
      CutFacts(data[size..], size);
      assert data == data[..size] + data[size..];
      var rest := |data| - size;
      assert (|data| + size - 1) / size == 1 + (rest + size - 1) / size by {
        assert |data| + size - 1 == size + (rest + size - 1);
        DivStep(rest + size - 1, size);
      }
    } else if |data| > 0 {
      assert (|data| + size - 1) / size == 1 by {
        DivStep(|data| - 1, size);
        SmallDiv(|data| - 1, size);
      }
    } else {
      SmallDiv(size - 1, size);
    }
  }

  lemma DivStep(x: int, d: int)
    requires x >= 0 && d >= 1
    ensures (d + x) / d == 1 + x / d
  {
    assert d + x == d * (1 + x / d) + x % d;
    DivUnique(d + x, d, 1 + x / d, x % d);
  }

  lemma SmallDiv(x: int, d: int)
    requires 0 <= x < d
    ensures x / d == 0
  {
  }

  lemma DivUnique(x: int, d: int, q: int, r: int)
    requires d >= 1 && x == d * q + r && 0 <= r < d
    ensures x / d == q
  {
    assert x == d * (x / d) + x % d;
    var e := q - x / d;
    assert d * e == x % d - r;
    MulBound(d, e);
  }

  lemma MulBound(d: int, e: int)
    requires d >= 1
    ensures e >= 1 ==> d * e >= d
    ensures e <= -1 ==> d * e <= -d
  {
    if e >= 1 {
      assert d * e == d + d * (e - 1);
    } else if e <= -1 {
      assert d * e == -d + d * (e + 1);
    }
  }

  /** Cutting and assembling is the identity, in at most 26 fragments of 160 bytes. */
  lemma AssembleChunked(data: Bytes)
    requires 1 <= |data| <= MAX_LOGICAL_BYTES
    ensures ChunkMessage(data, CHUNK_BYTES).Some?
    ensures AssembleChunks(ChunkMessage(data, CHUNK_BYTES).value) == Some(data)
    ensures 1 <= |ChunkMessage(data, CHUNK_BYTES).value| <= 26
    ensures forall c | c in ChunkMessage(data, CHUNK_BYTES).value :: 1 <= |c| <= CHUNK_BYTES
  {
    CutFacts(data, CHUNK_BYTES);
  }

  lemma {:induction false} ConcatAppend(chunks: seq<Bytes>, c: Bytes)
    ensures Concat(chunks + [c]) == Concat(chunks) + c
  {
    if |chunks| == 0 {
      assert chunks + [c] == [c];
      assert [c][1..] == [];
    } else {
      assert (chunks + [c])[1..] == chunks[1..] + [c];
      ConcatAppend(chunks[1..], c);
    }
  }

  lemma {:induction false} PrefixLength(chunks: seq<Bytes>, n: nat)
    requires n <= |chunks|
    ensures |Concat(chunks[..n])| <= |Concat(chunks)|
  {
    if n > 0 {
      assert chunks[..n][1..] == chunks[1..][..n - 1];
      PrefixLength(chunks[1..], n - 1);
    }
  }
}
