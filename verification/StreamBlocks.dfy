/**
 Packed stream blocks: the binary codec.

 A block is the concatenation of its entries; an entry is the length of its id (two
 bytes), the length of its data (four), the id and the data. The codec is proved to be a
 bijection between the rows it accepts and the chunk lists it packs.
 */
module StreamBlocks {
  import opened Options

  newtype byte = x: int | 0 <= x < 256
  type Bytes = seq<byte>

  datatype Chunk = Chunk(id: Bytes, data: Bytes)

  datatype Row = Row(
    chunkId: Bytes,
    lastChunkId: Option<Bytes>,
    chunkCount: Option<int>,
    codec: Option<int>,
    data: Bytes,
    eof: bool)

  const PACKED_CODEC: int := 2
  const ENTRY_HEADER_BYTES: nat := 6
  const MAX_ID_BYTES: nat := 0xffff
  const MAX_DATA_BYTES: nat := 0xffff_ffff

  // The bytes of "chnk_".
  const ID_PREFIX: Bytes := [0x63, 0x68, 0x6e, 0x6b, 0x5f]

  // -------------------------------------------------------------------------
  // Entries

  predicate Fits(c: Chunk) {
    |c.id| <= MAX_ID_BYTES && |c.data| <= MAX_DATA_BYTES
  }

  predicate Packable(c: Chunk) {
    Fits(c) && ID_PREFIX <= c.id
  }

  predicate AllFit(cs: seq<Chunk>) {
    forall i | 0 <= i < |cs| :: Fits(cs[i])
  }

  predicate AllPackable(cs: seq<Chunk>) {
    forall i | 0 <= i < |cs| :: Packable(cs[i])
  }

  function Size(c: Chunk): nat {
    ENTRY_HEADER_BYTES + |c.id| + |c.data|
  }

  function Be16(n: nat): (bs: Bytes)
    requires n < 0x1_0000
    ensures |bs| == 2
  {
    [(n / 0x100) as byte, (n % 0x100) as byte]
  }

  function Be32(n: nat): (bs: Bytes)
    requires n < 0x1_0000_0000
    ensures |bs| == 4
  {
    Be16(n / 0x1_0000) + Be16(n % 0x1_0000)
  }

  function Read16(b: Bytes, at: nat): (n: nat)
    requires at + 2 <= |b|
    ensures n < 0x1_0000
  {
    b[at] as nat * 0x100 + b[at + 1] as nat
  }

  function Read32(b: Bytes, at: nat): (n: nat)
    requires at + 4 <= |b|
    ensures n < 0x1_0000_0000
  {
    Read16(b, at) * 0x1_0000 + Read16(b, at + 2)
  }

  function Encode(c: Chunk): (bs: Bytes)
    requires Fits(c)
    ensures |bs| == Size(c)
  {
    Be16(|c.id|) + Be32(|c.data|) + c.id + c.data
  }

  function EncodeAll(cs: seq<Chunk>): Bytes
    requires AllFit(cs)
  {
    if cs == [] then [] else Encode(cs[0]) + EncodeAll(cs[1..])
  }

  function Bytesize(cs: seq<Chunk>): nat {
    if cs == [] then 0 else Size(cs[0]) + Bytesize(cs[1..])
  }

  // What the unpacking loop accepts: whole entries whose ids are chunk ids.
  function Decode(b: Bytes): Option<seq<Chunk>>
    decreases |b|
  {
    if b == [] then Some([])
    else if |b| < ENTRY_HEADER_BYTES then None
    else
      var idEnd := ENTRY_HEADER_BYTES + Read16(b, 0);
      var end := idEnd + Read32(b, 2);
      if end > |b| || !(ID_PREFIX <= b[ENTRY_HEADER_BYTES..idEnd]) then None
      else match Decode(b[end..])
        case None => None
        case Some(rest) => Some([Chunk(b[ENTRY_HEADER_BYTES..idEnd], b[idEnd..end])] + rest)
  }

  lemma Be16RoundTrip(n: nat, b: Bytes, at: nat)
    requires n < 0x1_0000 && at + 2 <= |b| && b[at..at + 2] == Be16(n)
    ensures Read16(b, at) == n
  {
    assert b[at] == b[at..at + 2][0] && b[at + 1] == b[at..at + 2][1];
  }

  lemma Read16RoundTrip(b: Bytes, at: nat)
    requires at + 2 <= |b|
    ensures Be16(Read16(b, at)) == b[at..at + 2]
  {
  }

  lemma Be32RoundTrip(n: nat, b: Bytes, at: nat)
    requires n < 0x1_0000_0000 && at + 4 <= |b| && b[at..at + 4] == Be32(n)
    ensures Read32(b, at) == n
  {
    hide Be16, Read16;
    assert b[at..at + 2] == Be32(n)[..2] == Be16(n / 0x1_0000);
    assert b[at + 2..at + 4] == Be32(n)[2..] == Be16(n % 0x1_0000);
    Be16RoundTrip(n / 0x1_0000, b, at);
    Be16RoundTrip(n % 0x1_0000, b, at + 2);
  }

  lemma Read32RoundTrip(b: Bytes, at: nat)
    requires at + 4 <= |b|
    ensures Be32(Read32(b, at)) == b[at..at + 4]
  {
    hide Be16, Read16;
    Read16RoundTrip(b, at);
    Read16RoundTrip(b, at + 2);
    assert b[at..at + 4] == b[at..at + 2] + b[at + 2..at + 4];
  }

  // The head of the bytes is an entry exactly when it is that entry's encoding.
  lemma EntryRead(c: Chunk, rest: Bytes)
    requires Fits(c)
    ensures var b := Encode(c) + rest;
            && |b| >= ENTRY_HEADER_BYTES && Read16(b, 0) == |c.id| && Read32(b, 2) == |c.data|
            && b[ENTRY_HEADER_BYTES..ENTRY_HEADER_BYTES + |c.id|] == c.id
            && b[ENTRY_HEADER_BYTES + |c.id|..Size(c)] == c.data
            && b[Size(c)..] == rest
  {
    hide Be16, Be32, Read16, Read32;
    var b := Encode(c) + rest;
    assert b[0..2] == Be16(|c.id|);
    assert b[2..6] == Be32(|c.data|);
    Be16RoundTrip(|c.id|, b, 0);
    Be32RoundTrip(|c.data|, b, 2);
  }

  lemma EntryWritten(b: Bytes, c: Chunk, end: nat)
    requires |b| >= ENTRY_HEADER_BYTES && end == ENTRY_HEADER_BYTES + Read16(b, 0) + Read32(b, 2) <= |b|
    requires c == Chunk(b[ENTRY_HEADER_BYTES..ENTRY_HEADER_BYTES + Read16(b, 0)],
                        b[ENTRY_HEADER_BYTES + Read16(b, 0)..end])
    ensures Fits(c) && b == Encode(c) + b[end..]
  {
    hide Be16, Be32, Read16, Read32;
    Read16RoundTrip(b, 0);
    Read32RoundTrip(b, 2);
    assert b == b[0..2] + b[2..6] + c.id + c.data + b[end..];
  }

  // One turn of the loop.
  lemma DecodeHead(b: Bytes, c: Chunk, end: nat, rest: Option<seq<Chunk>>)
    requires ENTRY_HEADER_BYTES <= |b| && end == ENTRY_HEADER_BYTES + Read16(b, 0) + Read32(b, 2) <= |b|
    requires c == Chunk(b[ENTRY_HEADER_BYTES..ENTRY_HEADER_BYTES + Read16(b, 0)],
                        b[ENTRY_HEADER_BYTES + Read16(b, 0)..end])
    requires rest == Decode(b[end..])
    ensures Decode(b) == if ID_PREFIX <= c.id && rest.Some? then Some([c] + rest.value) else None
  {
    hide Read16, Read32;
  }

  lemma AcceptsOne(c: Chunk, b: Bytes, cs: seq<Chunk>)
    requires Packable(c) && Decode(b) == Some(cs)
    ensures Decode(Encode(c) + b) == Some([c] + cs)
  {
    hide Read16, Read32, Encode, Decode;
    EntryRead(c, b);
    DecodeHead(Encode(c) + b, c, Size(c), Some(cs));
  }

  lemma {:induction false} DecodeAccepts(cs: seq<Chunk>)
    requires AllPackable(cs)
    ensures Decode(EncodeAll(cs)) == Some(cs)
  {
    if cs == [] {
      assert EncodeAll(cs) == [];
    } else {
      hide Encode, Decode;
      DecodeAccepts(cs[1..]);
      AcceptsOne(cs[0], EncodeAll(cs[1..]), cs[1..]);
      assert cs == [cs[0]] + cs[1..];
    }
  }

  lemma {:induction false} DecodeExact(b: Bytes, cs: seq<Chunk>)
    requires Decode(b) == Some(cs)
    ensures AllPackable(cs) && b == EncodeAll(cs)
    decreases |b|
  {
    if b != [] {
      hide Read16, Read32, Encode;
      var end := ENTRY_HEADER_BYTES + Read16(b, 0) + Read32(b, 2);
      assert Decode(b[end..]) == Some(cs[1..]);
      EntryWritten(b, cs[0], end);
      assert ID_PREFIX <= cs[0].id;
      hide Decode;
      DecodeExact(b[end..], cs[1..]);
      assert cs == [cs[0]] + cs[1..];
    }
  }

  // -------------------------------------------------------------------------
  // Rows

  // The row a block is stored as.
  function BlockRow(cs: seq<Chunk>): Row
    requires cs != [] && AllFit(cs)
  {
    Row(cs[0].id, Some(cs[|cs| - 1].id), Some(|cs|), Some(PACKED_CODEC), EncodeAll(cs), false)
  }

  // The logical chunks of a row, or an error.
  function Unpacked(row: Row): Result<seq<Chunk>> {
    if row.eof then Ok([])
    else if row.codec == None || row.codec == Some(1) then Ok([Chunk(row.chunkId, row.data)])
    else if row.codec != Some(PACKED_CODEC) then Err("Unsupported packed stream codec version")
    else if row.chunkCount == None || row.chunkCount.value <= 0 then Err("Malformed packed stream block")
    else match Decode(row.data)
      case None => Err("Malformed packed stream block")
      case Some(cs) =>
        if |cs| != row.chunkCount.value || cs == [] || cs[0].id != row.chunkId
           || Some(cs[|cs| - 1].id) != row.lastChunkId
        then Err("Malformed packed stream block")
        else Ok(cs)
  }

  // A version-2 row is accepted exactly when it is the encoding of the chunks it yields.
  lemma RowIsItsEncoding(row: Row, cs: seq<Chunk>)
    requires !row.eof && row.codec == Some(PACKED_CODEC)
    ensures Unpacked(row) == Ok(cs) <==>
            cs != [] && AllPackable(cs) && row == BlockRow(cs)
  {
    hide Decode, EncodeAll;
    if Unpacked(row) == Ok(cs) {
      DecodeExact(row.data, cs);
    }
    if cs != [] && AllPackable(cs) && row == BlockRow(cs) {
      DecodeAccepts(cs);
    }
  }

  // `whole` decodes to `done` and then whatever the rest decodes to.
  ghost predicate Continues(whole: Bytes, done: seq<Chunk>, offset: nat)
    requires offset <= |whole|
  {
    Decode(whole) ==
    match Decode(whole[offset..])
    case None => None
    case Some(rest) => Some(done + rest)
  }

  lemma ReadsSame(whole: Bytes, offset: nat)
    requires offset + ENTRY_HEADER_BYTES <= |whole|
    ensures Read16(whole[offset..], 0) == Read16(whole, offset)
    ensures Read32(whole[offset..], 2) == Read32(whole, offset + 2)
  {
    var b := whole[offset..];
    assert forall i | 0 <= i < ENTRY_HEADER_BYTES :: b[i] == whole[offset + i];
  }

  // An entry that runs past the end, or whose id is no chunk id, fails the whole.
  lemma DecodeFails(whole: Bytes, done: seq<Chunk>, offset: nat, idEnd: nat, end: nat)
    requires offset + ENTRY_HEADER_BYTES <= |whole| && Continues(whole, done, offset)
    requires idEnd == offset + ENTRY_HEADER_BYTES + Read16(whole, offset)
    requires end == idEnd + Read32(whole, offset + 2)
    requires end > |whole| || !(ID_PREFIX <= whole[offset + ENTRY_HEADER_BYTES..idEnd])
    ensures Decode(whole) == None
  {
    hide Read16, Read32, Decode;
    ReadsSame(whole, offset);
    var b := whole[offset..];
    if end <= |whole| {
      assert b[ENTRY_HEADER_BYTES..idEnd - offset] == whole[offset + ENTRY_HEADER_BYTES..idEnd];
    }
    HeadFails(b, idEnd - offset, end - offset);
  }

  lemma HeadFails(b: Bytes, idEnd: nat, end: nat)
    requires |b| >= ENTRY_HEADER_BYTES && idEnd == ENTRY_HEADER_BYTES + Read16(b, 0) && end == idEnd + Read32(b, 2)
    requires end > |b| || !(ID_PREFIX <= b[ENTRY_HEADER_BYTES..idEnd])
    ensures Decode(b) == None
  {
    hide Read16, Read32;
  }

  lemma DecodesOne(whole: Bytes, done: seq<Chunk>, offset: nat, idEnd: nat, end: nat, c: Chunk)
    requires offset + ENTRY_HEADER_BYTES <= |whole| && Continues(whole, done, offset)
    requires idEnd == offset + ENTRY_HEADER_BYTES + Read16(whole, offset)
    requires end == idEnd + Read32(whole, offset + 2) <= |whole|
    requires c == Chunk(whole[offset + ENTRY_HEADER_BYTES..idEnd], whole[idEnd..end]) && ID_PREFIX <= c.id
    ensures Continues(whole, done + [c], end)
  {
    hide Read16, Read32, Decode;
    ReadsSame(whole, offset);
    var b := whole[offset..];
    assert b[ENTRY_HEADER_BYTES..idEnd - offset] == c.id;
    assert b[idEnd - offset..end - offset] == c.data;
    assert b[end - offset..] == whole[end..];
    var rest := Decode(whole[end..]);
    DecodeHead(b, c, end - offset, rest);
    if rest.Some? {
      assert done + ([c] + rest.value) == (done + [c]) + rest.value;
    }
  }

  lemma DecodeBegins(whole: Bytes)
    ensures Continues(whole, [], 0)
  {
    assert whole[0..] == whole;
    if Decode(whole).Some? {
      assert [] + Decode(whole).value == Decode(whole).value;
    }
  }

  lemma DecodeEnds(whole: Bytes, done: seq<Chunk>)
    requires Continues(whole, done, |whole|)
    ensures Decode(whole) == Some(done)
  {
    assert whole[|whole|..] == [];
    assert done + [] == done;
  }

  // The unpacking loop.
  method UnpackStreamRow(row: Row) returns (r: Result<seq<Chunk>>)
    ensures r == Unpacked(row)
  {
    if row.eof { return Ok([]); }
    if row.codec == None || row.codec == Some(1) { return Ok([Chunk(row.chunkId, row.data)]); }
    if row.codec != Some(PACKED_CODEC) { return Err("Unsupported packed stream codec version"); }
    if row.chunkCount == None || row.chunkCount.value <= 0 { return Err("Malformed packed stream block"); }
    var chunks: seq<Chunk> := [];
    var offset: nat := 0;
    DecodeBegins(row.data);
    while offset < |row.data|
      invariant offset <= |row.data|
      invariant Continues(row.data, chunks, offset)
    {
      if |row.data| - offset < ENTRY_HEADER_BYTES {
        assert Decode(row.data) == None;
        return Err("Malformed packed stream block");
      }
      var idLength, dataLength := Read16(row.data, offset), Read32(row.data, offset + 2);
      var idEnd := offset + ENTRY_HEADER_BYTES + idLength;
      var end := idEnd + dataLength;
      if end > |row.data| {
        DecodeFails(row.data, chunks, offset, idEnd, end);
        return Err("Malformed packed stream block");
      }
      var id := row.data[offset + ENTRY_HEADER_BYTES..idEnd];
      if !(ID_PREFIX <= id) {
        DecodeFails(row.data, chunks, offset, idEnd, end);
        return Err("Malformed packed stream block");
      }
      DecodesOne(row.data, chunks, offset, idEnd, end, Chunk(id, row.data[idEnd..end]));
      chunks := chunks + [Chunk(id, row.data[idEnd..end])];
      offset := end;
    }
    DecodeEnds(row.data, chunks);
    if |chunks| != row.chunkCount.value || chunks == [] || chunks[0].id != row.chunkId
       || Some(chunks[|chunks| - 1].id) != row.lastChunkId {
      return Err("Malformed packed stream block");
    }
    return Ok(chunks);
  }

  lemma {:induction false} EncodeAllPush(cs: seq<Chunk>, c: Chunk)
    requires Fits(c) && AllFit(cs)
    ensures EncodeAll(cs + [c]) == EncodeAll(cs) + Encode(c)
  {
    if cs == [] {
      assert cs + [c] == [c];
      assert EncodeAll([c]) == Encode(c) + EncodeAll([c][1..]);
    } else {
      EncodeAllPush(cs[1..], c);
      assert (cs + [c])[1..] == cs[1..] + [c];
      assert EncodeAll(cs + [c]) == Encode(cs[0]) + (EncodeAll(cs[1..]) + Encode(c));
    }
  }

  lemma {:induction false} BytesizePush(cs: seq<Chunk>, c: Chunk)
    ensures Bytesize(cs + [c]) == Bytesize(cs) + Size(c)
  {
    if cs == [] {
      assert cs + [c] == [c];
      assert Bytesize([c][1..]) == 0;
    } else {
      BytesizePush(cs[1..], c);
      assert (cs + [c])[1..] == cs[1..] + [c];
    }
  }

  // Writes `bs` into the buffer at `at`.
  method Copy(buffer: array<byte>, at: nat, bs: Bytes)
    requires at + |bs| <= buffer.Length
    modifies buffer
    ensures buffer[..] == old(buffer[..at]) + bs + old(buffer[at + |bs|..])
  {
    var i := 0;
    while i < |bs|
      invariant 0 <= i <= |bs|
      invariant buffer[..at] == old(buffer[..at])
      invariant buffer[at..at + i] == bs[..i]
      invariant buffer[at + i..] == old(buffer[at + i..])
    {
      buffer[at + i] := bs[i];
      i := i + 1;
    }
    assert buffer[..] == buffer[..at] + buffer[at..at + |bs|] + buffer[at + |bs|..];
  }

  method WriteHeader(buffer: array<byte>, at: nat, c: Chunk)
    requires Fits(c) && at + ENTRY_HEADER_BYTES <= buffer.Length
    modifies buffer
    ensures buffer[..at] == old(buffer[..at])
    ensures buffer[at..at + ENTRY_HEADER_BYTES] == Be16(|c.id|) + Be32(|c.data|)
  {
    hide Be16, Be32;
    Copy(buffer, at, Be16(|c.id|));
    Copy(buffer, at + 2, Be32(|c.data|));
  }

  method WriteEntry(buffer: array<byte>, at: nat, c: Chunk)
    requires Fits(c) && at + Size(c) <= buffer.Length
    modifies buffer
    ensures buffer[..at] == old(buffer[..at])
    ensures buffer[at..at + Size(c)] == Encode(c)
  {
    hide Be16, Be32;
    WriteHeader(buffer, at, c);
    ghost var header := buffer[at..at + ENTRY_HEADER_BYTES];
    Copy(buffer, at + ENTRY_HEADER_BYTES, c.id);
    assert buffer[at..at + ENTRY_HEADER_BYTES + |c.id|] == header + c.id;
    Copy(buffer, at + ENTRY_HEADER_BYTES + |c.id|, c.data);
    assert buffer[at..at + Size(c)] == header + c.id + c.data;
  }

  // Writes the entries into a buffer of the size the packer counted.
  method EncodeBlock(chunks: seq<Chunk>, byteLength: nat) returns (row: Row)
    requires chunks != [] && byteLength == Bytesize(chunks) && AllFit(chunks)
    ensures row == BlockRow(chunks)
  {
    var buffer := new byte[byteLength];
    var offset, n := 0, 0;
    while n < |chunks|
      invariant 0 <= n <= |chunks| && offset == Bytesize(chunks[..n]) && offset <= byteLength
      invariant buffer[..offset] == EncodeAll(chunks[..n])
    {
      hide Encode, EncodeAll, Bytesize;
      var c := chunks[n];
      assert chunks[..n + 1] == chunks[..n] + [c];
      BytesizePush(chunks[..n], c);
      EncodeAllPush(chunks[..n], c);
      PrefixSize(chunks, n + 1);
      WriteEntry(buffer, offset, c);
      assert buffer[..offset + Size(c)] == buffer[..offset] + buffer[offset..offset + Size(c)];
      offset := offset + Size(c);
      n := n + 1;
    }
    assert chunks[..|chunks|] == chunks;
    assert buffer[..] == buffer[..offset];
    row := Row(chunks[0].id, Some(chunks[|chunks| - 1].id), Some(|chunks|), Some(PACKED_CODEC), buffer[..], false);
  }

  lemma {:induction false} PrefixSize(cs: seq<Chunk>, n: nat)
    requires n <= |cs|
    ensures Bytesize(cs[..n]) <= Bytesize(cs)
  {
    if n > 0 {
      PrefixSize(cs[1..], n - 1);
      assert cs[..n][1..] == cs[1..][..n - 1];
    }
  }
}
