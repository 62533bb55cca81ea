/** Decoding the subsample table of an encrypted buffer: `count` records of a 16-bit number of
    clear bytes and a 32-bit number of encrypted bytes, both big-endian, as laid out in the
    'senc' box of section 7.2 of ISO/IEC 23001-7. */
module SubSamples {

  type Byte = bv8

  import opened Wrappers

  datatype SubSample = SubSample(clear: bv16, encrypted: bv32)

  const RECORD_SIZE := 6

  function Decode16(b0: Byte, b1: Byte): bv16 {
    ((b0 as bv16) << 8) | (b1 as bv16)
  }

  function Decode32(b0: Byte, b1: Byte, b2: Byte, b3: Byte): bv32 {
    ((b0 as bv32) << 24) | ((b1 as bv32) << 16) | ((b2 as bv32) << 8) | (b3 as bv32)
  }

  function DecodeRecord(b: seq<Byte>): SubSample
    requires |b| == RECORD_SIZE
  {
    SubSample(Decode16(b[0], b[1]), Decode32(b[2], b[3], b[4], b[5]))
  }

  /** The record as it is written, independently of the decoder. */
  function EncodeRecord(s: SubSample): (b: seq<Byte>)
    ensures |b| == RECORD_SIZE
  {
    [((s.clear >> 8) & 0xFF) as Byte, (s.clear & 0xFF) as Byte,
     ((s.encrypted >> 24) & 0xFF) as Byte, ((s.encrypted >> 16) & 0xFF) as Byte,
     ((s.encrypted >> 8) & 0xFF) as Byte, (s.encrypted & 0xFF) as Byte]
  }

  function Encode(subsamples: seq<SubSample>): (b: seq<Byte>)
    ensures |b| == RECORD_SIZE * |subsamples|
  {
    if subsamples == [] then [] else EncodeRecord(subsamples[0]) + Encode(subsamples[1..])
  }

  lemma RecordRoundTrip(s: SubSample)
    ensures DecodeRecord(EncodeRecord(s)) == s
  {
    RoundTrip16(s.clear);
    RoundTrip32(s.encrypted);
  }

  lemma RoundTrip16(x: bv16)
    ensures Decode16(((x >> 8) & 0xFF) as Byte, (x & 0xFF) as Byte) == x
  {
  }

  lemma RoundTrip32(x: bv32)
    ensures Decode32(((x >> 24) & 0xFF) as Byte, ((x >> 16) & 0xFF) as Byte,
                     ((x >> 8) & 0xFF) as Byte, (x & 0xFF) as Byte) == x
  {
  }

  lemma BytesRoundTrip(b: seq<Byte>)
    requires |b| == RECORD_SIZE
    ensures EncodeRecord(DecodeRecord(b)) == b
  {
    Bytes16(b[0], b[1]);
    Bytes32(b[2], b[3], b[4], b[5]);
  }

  lemma Bytes16(b0: Byte, b1: Byte)
    ensures ((Decode16(b0, b1) >> 8) & 0xFF) as Byte == b0 && (Decode16(b0, b1) & 0xFF) as Byte == b1
  {
  }

  lemma Bytes32(b0: Byte, b1: Byte, b2: Byte, b3: Byte)
    ensures var x := Decode32(b0, b1, b2, b3);
            && ((x >> 24) & 0xFF) as Byte == b0 && ((x >> 16) & 0xFF) as Byte == b1
            && ((x >> 8) & 0xFF) as Byte == b2 && (x & 0xFF) as Byte == b3
  {
  }

  lemma {:induction false} EncodeGrows(subsamples: seq<SubSample>, s: SubSample)
    ensures Encode(subsamples + [s]) == Encode(subsamples) + EncodeRecord(s)
  {
    if subsamples == [] {
      assert subsamples + [s] == [s];
      assert [s][1..] == [];
    } else {
      assert (subsamples + [s])[1..] == subsamples[1..] + [s];
      EncodeGrows(subsamples[1..], s);
    }
  }

  /** The first `count` records of a buffer. */
  function Decode(bytes: seq<Byte>, count: nat): (subsamples: seq<SubSample>)
    requires RECORD_SIZE * count <= |bytes|
    ensures |subsamples| == count
  {
    if count == 0 then []
    else
      var offset := RECORD_SIZE * (count - 1);
      Decode(bytes, count - 1) + [DecodeRecord(bytes[offset..offset + RECORD_SIZE])]
  }

  /** Encoding what was decoded gives back the records' bytes, and nothing of what follows them. */
  lemma {:induction false} EncodeOfDecode(bytes: seq<Byte>, count: nat)
    requires RECORD_SIZE * count <= |bytes|
    ensures Encode(Decode(bytes, count)) == bytes[..RECORD_SIZE * count]
  {
    if count > 0 {
      var offset := RECORD_SIZE * (count - 1);
      var record := bytes[offset..offset + RECORD_SIZE];
      EncodeOfDecode(bytes, count - 1);
      BytesRoundTrip(record);
      EncodeGrows(Decode(bytes, count - 1), DecodeRecord(record));
      assert bytes[..offset + RECORD_SIZE] == bytes[..offset] + record;
    }
  }

  /** Round trip: decoding the encoding of any list returns the list, whatever follows it. */
  lemma {:induction false} DecodeOfEncode(subsamples: seq<SubSample>, trailing: seq<Byte>)
    ensures Decode(Encode(subsamples) + trailing, |subsamples|) == subsamples
  {
    if subsamples != [] {
      var n := |subsamples| - 1;
      var init, last := subsamples[..n], subsamples[n];
      assert subsamples == init + [last];
      EncodeGrows(init, last);
      var bytes := Encode(subsamples) + trailing;
      assert bytes == Encode(init) + (EncodeRecord(last) + trailing);
      DecodeOfEncode(init, EncodeRecord(last) + trailing);
      assert bytes[RECORD_SIZE * n..RECORD_SIZE * n + RECORD_SIZE] == EncodeRecord(last);
      RecordRoundTrip(last);
    }
  }

  /** The metadata gains subsamples when a count is given and a mapped buffer holds that many
      records, with up to five bytes after them; otherwise it stays as it is. */
  predicate IsAccepted(count: nat, table: Option<seq<Byte>>) {
    count != 0 && table.Some? && |table.value| / RECORD_SIZE == count
  }

  /** Appends the decoded subsamples to those already there; every read is inside the buffer. */
  method GetSubSamples(count: nat, table: Option<seq<Byte>>, before: seq<SubSample>) returns (after: seq<SubSample>)
    ensures IsAccepted(count, table) ==> RECORD_SIZE * count <= |table.value| < RECORD_SIZE * count + RECORD_SIZE
    ensures after == before + if IsAccepted(count, table) then Decode(table.value, count) else []
  {
    after := before;
    if count != 0 && table.Some? {
      var bytes := table.value;
      if |bytes| / RECORD_SIZE == count {
        var offset := 0;
        for i := 0 to count
          invariant offset == RECORD_SIZE * i
          invariant after == before + Decode(bytes, i)
        {
          var clear := Decode16(bytes[offset], bytes[offset + 1]);
          var encrypted := Decode32(bytes[offset + 2], bytes[offset + 3], bytes[offset + 4], bytes[offset + 5]);
          after := after + [SubSample(clear, encrypted)];
          offset := offset + RECORD_SIZE;
          assert Decode(bytes, i + 1) == Decode(bytes, i) + [SubSample(clear, encrypted)];
        }
      }
    }
  }
}
