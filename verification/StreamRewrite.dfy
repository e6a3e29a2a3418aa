/**
 The rewrite of a closed stream into packed blocks. It deletes every data row, packs their
 chunks anew and marks the EOF rows. Reads are the same afterwards, with the compaction of
 each chunk mapped over them, exactly when a block boundary falls at the first EOF; it
 always does when no data follows the first EOF.
 */
module StreamRewrite {
  import opened Options
  import opened StreamBlocks
  import opened StreamPacking
  import opened StreamReading

  function DataRows(rows: seq<Row>): seq<Row> {
    if rows == [] then [] else (if rows[0].eof then [] else [rows[0]]) + DataRows(rows[1..])
  }

  function EofRows(rows: seq<Row>): seq<Row> {
    if rows == [] then [] else (if rows[0].eof then [rows[0]] else []) + EofRows(rows[1..])
  }

  function Mapped(cs: seq<Chunk>, f: Bytes -> Bytes): (ms: seq<Chunk>)
    ensures |ms| == |cs| && forall i | 0 <= i < |cs| :: ms[i] == Chunk(cs[i].id, f(cs[i].data))
  {
    seq(|cs|, i requires 0 <= i < |cs| => Chunk(cs[i].id, f(cs[i].data)))
  }

  function MarkedEof(rows: seq<Row>, last: Option<Bytes>): (ms: seq<Row>)
    ensures |ms| == |rows|
    ensures forall i | 0 <= i < |rows| ::
              ms[i] == rows[i].(codec := Some(PACKED_CODEC), chunkCount := Some(0), lastChunkId := last)
  {
    seq(|rows|, i requires 0 <= i < |rows| =>
      rows[i].(codec := Some(PACKED_CODEC), chunkCount := Some(0), lastChunkId := last))
  }

  ghost predicate Sorted(rows: seq<Row>) {
    forall i, j | 0 <= i < j < |rows| :: Less(rows[i].chunkId, rows[j].chunkId)
  }

  // Insert in id order.
  function Place(rows: seq<Row>, row: Row): seq<Row> {
    if rows == [] then [row]
    else if Less(row.chunkId, rows[0].chunkId) then [row] + rows
    else [rows[0]] + Place(rows[1..], row)
  }

  function PlaceAll(rows: seq<Row>, blocks: seq<Row>): seq<Row> {
    if blocks == [] then rows
    else Place(PlaceAll(rows, blocks[..|blocks| - 1]), blocks[|blocks| - 1])
  }

  function LastChunk(cs: seq<Chunk>): Option<Bytes> {
    if cs == [] then None else Some(cs[|cs| - 1].id)
  }

  function Rewritten(rows: seq<Row>, f: Bytes -> Bytes, maxChunks: nat, maxBytes: nat): seq<Row>
    requires AllFit(Mapped(Chunks(DataRows(rows)), f))
  {
    var all := Mapped(Chunks(DataRows(rows)), f);
    GroupsFit(all, maxChunks, maxBytes);
    PlaceAll(MarkedEof(EofRows(rows), LastChunk(all)), BlockRows(Groups(all, maxChunks, maxBytes)))
  }

  // -------------------------------------------------------------------------
  // The transaction

  class StreamTable {
    var rows: seq<Row>

    constructor (rows: seq<Row>)
      ensures this.rows == rows
    {
      this.rows := rows;
    }

    // One stream's rewrite; an error rolls everything back.
    method CompactOneStream(maxChunks: nat, maxBytes: nat, f: Bytes -> Bytes) returns (r: Result<nat>)
      requires maxChunks > 0 && maxBytes > 0 && Writable(Mapped(Chunks(DataRows(rows)), f))
      modifies this
      ensures r.Ok? <==> UnpackAll(DataRows(old(rows))).Ok? && AllFit(Mapped(Chunks(DataRows(old(rows))), f))
      ensures r.Err? ==> rows == old(rows)
      ensures r.Ok? ==>
                && rows == Rewritten(old(rows), f, maxChunks, maxBytes)
                && r.value == |Chunks(DataRows(old(rows)))|
    {
      hide Chunks, UnpackAll, Groups, BlockRows;
      var before := rows;
      rows := EofRows(before);
      var logical := UnpackRows(DataRows(before));
      if logical.Err? {
        rows := before;
        return Err(logical.message);
      }
      var all := Mapped(logical.value, f);
      var blocks := PackStreamChunks(all, maxChunks, maxBytes);
      if blocks.Err? {
        rows := before;
        return Err(blocks.message);
      }
      rows := MarkedEof(rows, LastChunk(all));
      ghost var eofs := rows;
      var i := 0;
      while i < |blocks.value|
        invariant 0 <= i <= |blocks.value| && rows == PlaceAll(eofs, blocks.value[..i])
      {
        assert blocks.value[..i + 1][..i] == blocks.value[..i];
        rows := Place(rows, blocks.value[i]);
        i := i + 1;
      }
      assert blocks.value[..i] == blocks.value;
      return Ok(|all|);
    }
  }

  method UnpackRows(data: seq<Row>) returns (r: Result<seq<Chunk>>)
    ensures r.Ok? <==> UnpackAll(data).Ok?
    ensures r.Ok? ==> r.value == Chunks(data) == UnpackAll(data).value
  {
    hide Unpacked;
    var all: seq<Chunk> := [];
    var i := 0;
    while i < |data|
      invariant 0 <= i <= |data|
      invariant UnpackAll(data[..i]) == Ok(all) && Chunks(data[..i]) == all
    {
      UnpacksOne(data, i);
      var cs := UnpackStreamRow(data[i]);
      if cs.Err? {
        SomeFails(data, i);
        return Err(cs.message);
      }
      all := all + cs.value;
      i := i + 1;
    }
    assert data[..i] == data;
    return Ok(all);
  }

  lemma {:induction false} UnpackAllConcat(a: seq<Row>, b: seq<Row>)
    ensures UnpackAll(a + b) ==
            match UnpackAll(a)
            case Err(e) => Err(e)
            case Ok(cs) => (match UnpackAll(b) case Err(e) => Err(e) case Ok(rest) => Ok(cs + rest))
  {
    hide Unpacked;
    if a == [] {
      assert a + b == b;
      if UnpackAll(b).Ok? { assert [] + UnpackAll(b).value == UnpackAll(b).value; }
    } else {
      UnpackAllConcat(a[1..], b);
      assert (a + b)[1..] == a[1..] + b && (a + b)[0] == a[0];
      if UnpackAll(a).Ok? && UnpackAll(b).Ok? {
        assert Unpacked(a[0]).value + (UnpackAll(a[1..]).value + UnpackAll(b).value)
            == (Unpacked(a[0]).value + UnpackAll(a[1..]).value) + UnpackAll(b).value;
      }
    }
  }

  lemma UnpacksOne(data: seq<Row>, i: nat)
    requires i < |data| && UnpackAll(data[..i]).Ok?
    ensures UnpackAll(data[..i + 1]) == (match Unpacked(data[i])
                                         case Err(e) => Err(e)
                                         case Ok(cs) => Ok(UnpackAll(data[..i]).value + cs))
    ensures Unpacked(data[i]).Ok? ==> Chunks(data[..i + 1]) == Chunks(data[..i]) + Unpacked(data[i]).value
  {
    hide Unpacked;
    assert data[..i + 1] == data[..i] + [data[i]];
    UnpackAllConcat(data[..i], [data[i]]);
    assert UnpackAll([data[i]][1..]) == Ok([]);
    if Unpacked(data[i]).Ok? { assert Unpacked(data[i]).value + [] == Unpacked(data[i]).value; }
    ChunksConcat(data[..i], [data[i]]);
    assert Chunks([data[i]]) == ChunksOf(data[i]) + Chunks([data[i]][1..]);
    assert ChunksOf(data[i]) + [] == ChunksOf(data[i]);
  }

  lemma SomeFails(data: seq<Row>, i: nat)
    requires i < |data| && Unpacked(data[i]).Err?
    ensures UnpackAll(data).Err?
  {
    hide Unpacked;
    assert data == data[..i] + data[i..];
    UnpackAllConcat(data[..i], data[i..]);
    assert data[i..][0] == data[i];
  }

  // -------------------------------------------------------------------------
  // Where the blocks land

  lemma {:induction false} LessTotal(a: Bytes, b: Bytes)
    ensures Less(a, b) || Less(b, a) || a == b
  {
    if a != [] && b != [] && a[0] == b[0] {
      LessTotal(a[1..], b[1..]);
      assert a == [a[0]] + a[1..] && b == [b[0]] + b[1..];
    }
  }

  // Is the first EOF, if there is one, past this id?
  predicate Ahead(id: Bytes, eof: Option<Bytes>) {
    eof.Some? ==> Less(id, eof.value)
  }

  // A data row that is past every data row so far.
  ghost predicate Newest(rows: seq<Row>, row: Row) {
    && !row.eof
    && (forall i | 0 <= i < |rows| :: rows[i].chunkId != row.chunkId)
    && (forall i | 0 <= i < |rows| && !rows[i].eof :: Less(rows[i].chunkId, row.chunkId))
  }

  lemma {:induction false} PlacedLive(rows: seq<Row>, row: Row)
    requires Newest(rows, row)
    ensures FirstEof(Place(rows, row)) == FirstEof(rows)
    ensures Live(Place(rows, row)) == if Ahead(row.chunkId, FirstEof(rows)) then Live(rows) + [row] else Live(rows)
  {
    if rows != [] {
      if Less(row.chunkId, rows[0].chunkId) {
        assert rows[0].eof by { if !rows[0].eof { LessAsym(rows[0].chunkId, row.chunkId); } }
        assert ([row] + rows)[1..] == rows;
      } else {
        assert Place(rows, row)[1..] == Place(rows[1..], row);
        if !rows[0].eof {
          assert Newest(rows[1..], row);
          PlacedLive(rows[1..], row);
        }
      }
    }
  }

  lemma {:induction false} PlacedRows(rows: seq<Row>, row: Row, x: Row)
    ensures x in Place(rows, row) <==> x == row || x in rows
  {
    if rows != [] && !Less(row.chunkId, rows[0].chunkId) {
      PlacedRows(rows[1..], row, x);
    }
  }

  // Blocks in increasing order, all of other ids than the EOF rows.
  ghost predicate Fresh(eofs: seq<Row>, blocks: seq<Row>) {
    && (forall i | 0 <= i < |eofs| :: eofs[i].eof)
    && (forall i | 0 <= i < |blocks| :: !blocks[i].eof)
    && (forall i, j | 0 <= i < j < |blocks| :: Less(blocks[i].chunkId, blocks[j].chunkId))
    && (forall i, j | 0 <= i < |eofs| && 0 <= j < |blocks| :: eofs[i].chunkId != blocks[j].chunkId)
  }

  lemma {:induction false} AllPlaced(eofs: seq<Row>, blocks: seq<Row>, x: Row)
    ensures x in PlaceAll(eofs, blocks) <==> x in eofs || x in blocks
  {
    if blocks != [] {
      var init := blocks[..|blocks| - 1];
      AllPlaced(eofs, init, x);
      PlacedRows(PlaceAll(eofs, init), blocks[|blocks| - 1], x);
      assert blocks == init + [blocks[|blocks| - 1]];
    }
  }

  function AheadRows(blocks: seq<Row>, eof: Option<Bytes>): seq<Row> {
    if blocks == [] then []
    else AheadRows(blocks[..|blocks| - 1], eof)
         + (if Ahead(blocks[|blocks| - 1].chunkId, eof) then [blocks[|blocks| - 1]] else [])
  }

  lemma NewestBlock(eofs: seq<Row>, blocks: seq<Row>)
    requires Fresh(eofs, blocks) && blocks != []
    ensures Fresh(eofs, blocks[..|blocks| - 1])
    ensures Newest(PlaceAll(eofs, blocks[..|blocks| - 1]), blocks[|blocks| - 1])
  {
    var n := |blocks| - 1;
    var rows := PlaceAll(eofs, blocks[..n]);
    forall i | 0 <= i < |rows|
      ensures rows[i].chunkId != blocks[n].chunkId
      ensures !rows[i].eof ==> Less(rows[i].chunkId, blocks[n].chunkId)
    {
      AllPlaced(eofs, blocks[..n], rows[i]);
      if rows[i] in blocks[..n] {
        var k :| 0 <= k < n && blocks[k] == rows[i];
        LessAsym(blocks[k].chunkId, blocks[n].chunkId);
      }
    }
  }

  // After the rewrite the rows before the first EOF are the blocks that begin before it.
  lemma {:induction false} AllPlacedLive(eofs: seq<Row>, blocks: seq<Row>)
    requires Fresh(eofs, blocks)
    ensures FirstEof(PlaceAll(eofs, blocks)) == FirstEof(eofs)
    ensures Live(PlaceAll(eofs, blocks)) == AheadRows(blocks, FirstEof(eofs))
  {
    if blocks == [] {
      assert eofs != [] ==> eofs[0].eof;
    } else {
      var n := |blocks| - 1;
      NewestBlock(eofs, blocks);
      AllPlacedLive(eofs, blocks[..n]);
      PlacedLive(PlaceAll(eofs, blocks[..n]), blocks[n]);
    }
  }

  // -------------------------------------------------------------------------
  // Which chunks are before the first EOF

  // No block reaches over an EOF that follows it.
  ghost predicate Unstraddled(rows: seq<Row>) {
    forall i, j | 0 <= i < j < |rows| && !rows[i].eof && rows[j].eof :: Less(LastId(rows[i]), rows[j].chunkId)
  }

  lemma {:induction false} DataSplit(rows: seq<Row>)
    ensures |Live(rows)| <= |rows|
    ensures DataRows(rows) == Live(rows) + DataRows(rows[|Live(rows)|..])
  {
    if rows != [] && !rows[0].eof {
      DataSplit(rows[1..]);
      var live, n := Live(rows[1..]), |Live(rows[1..])|;
      assert Live(rows) == [rows[0]] + live && DataRows(rows) == [rows[0]] + DataRows(rows[1..]);
      hide Live, DataRows;
      assert rows[1..][n..] == rows[n + 1..];
      assert [rows[0]] + (live + DataRows(rows[n + 1..])) == ([rows[0]] + live) + DataRows(rows[n + 1..]);
    } else {
      assert rows[0..] == rows;
    }
  }

  lemma {:induction false} DataApart(rows: seq<Row>)
    requires Stored(rows)
    ensures Apart(DataRows(rows))
    ensures forall x | x in DataRows(rows) :: x in rows && !x.eof
  {
    if rows != [] {
      StoredTail(rows);
      DataApart(rows[1..]);
      if !rows[0].eof {
        DataHead(rows);
      }
    }
  }

  lemma DataHead(rows: seq<Row>)
    requires Stored(rows) && rows != [] && !rows[0].eof && Apart(DataRows(rows[1..]))
    requires forall x | x in DataRows(rows[1..]) :: x in rows[1..] && !x.eof
    ensures Apart([rows[0]] + DataRows(rows[1..]))
  {
    hide Data, Less;
    var rest := DataRows(rows[1..]);
    var all := [rows[0]] + rest;
    forall j | 0 <= j < |rest|
      ensures Less(LastId(rows[0]), rest[j].chunkId)
    {
      assert rest[j] in rest;
      var k :| 0 <= k < |rows[1..]| && rows[1..][k] == rest[j];
      assert rows[k + 1] == rest[j];
    }
    forall i, j | 0 <= i < j < |all|
      ensures Less(LastId(all[i]), all[j].chunkId)
    {
      assert i > 0 ==> all[i] == rest[i - 1];
      assert all[j] == rest[j - 1];
    }
  }

  lemma {:induction false} ChunksBelow(rows: seq<Row>, high: Bytes, k: nat)
    requires k < |Chunks(rows)| && forall i | 0 <= i < |rows| :: Data(rows[i]) && Less(LastId(rows[i]), high)
    ensures Less(Chunks(rows)[k].id, high)
  {
    hide Less, Unpacked;
    var cs := ChunksOf(rows[0]);
    if k < |cs| {
      assert Data(rows[0]);
      if k < |cs| - 1 { LessTrans(cs[k].id, cs[|cs| - 1].id, high); }
    } else {
      ChunksBelow(rows[1..], high, k - |cs|);
    }
  }

  lemma {:induction false} EofAfterLive(rows: seq<Row>)
    requires FirstEof(rows).Some?
    ensures |Live(rows)| < |rows| && rows[|Live(rows)|].eof && rows[|Live(rows)|].chunkId == FirstEof(rows).value
  {
    if !rows[0].eof {
      EofAfterLive(rows[1..]);
      assert |Live(rows)| == 1 + |Live(rows[1..])|;
    }
  }

  lemma {:induction false} NoEofAllLive(rows: seq<Row>)
    requires FirstEof(rows).None?
    ensures Live(rows) == rows == DataRows(rows)
  {
    if rows != [] {
      NoEofAllLive(rows[1..]);
    }
  }

  // Of all data chunks, the ones of the list are the ones before the first EOF.
  lemma LogicalIsAhead(rows: seq<Row>, k: nat)
    requires Stored(rows) && Unstraddled(rows) && k < |Chunks(DataRows(rows))|
    ensures Ahead(Chunks(DataRows(rows))[k].id, FirstEof(rows)) <==> k < |Logical(rows)|
  {
    if FirstEof(rows).None? {
      NoEofAllLive(rows);
    } else {
      var n := |Live(rows)|;
      DataSplit(rows);
      LiveIsPrefix(rows);
      EofAfterLive(rows);
      ChunksConcat(Live(rows), DataRows(rows[n..]));
      if k < |Logical(rows)| {
        LiveBelow(rows);
        ChunksBelow(Live(rows), FirstEof(rows).value, k);
      } else {
        RestPast(rows, k - |Logical(rows)|);
        LessAsym(FirstEof(rows).value, Chunks(DataRows(rows))[k].id);
      }
    }
  }

  lemma LiveBelow(rows: seq<Row>)
    requires Stored(rows) && Unstraddled(rows) && FirstEof(rows).Some?
    ensures forall i | 0 <= i < |Live(rows)| :: Data(Live(rows)[i]) && Less(LastId(Live(rows)[i]), FirstEof(rows).value)
  {
    hide Data, Less;
    LiveIsPrefix(rows);
    EofAfterLive(rows);
    forall i | 0 <= i < |Live(rows)|
      ensures Data(Live(rows)[i]) && Less(LastId(Live(rows)[i]), FirstEof(rows).value)
    {
      assert Live(rows)[i] == rows[i];
    }
  }

  lemma RestPast(rows: seq<Row>, k: nat)
    requires Stored(rows) && FirstEof(rows).Some? && |Live(rows)| <= |rows|
    requires k < |Chunks(DataRows(rows[|Live(rows)|..]))|
    ensures Less(FirstEof(rows).value, Chunks(DataRows(rows[|Live(rows)|..]))[k].id)
  {
    hide Data, Less, Apart, Live, DataRows, FirstEof, Chunks;
    var n := |Live(rows)|;
    var rest := rows[n..];
    EofAfterLive(rows);
    StoredRest(rows, n);
    DataApart(rest);
    var data := DataRows(rest);
    forall i | 0 <= i < |data|
      ensures Less(FirstEof(rows).value, data[i].chunkId)
    {
      assert data[i] in data;
      var x :| 0 <= x < |rest| && rest[x] == data[i];
      assert rows[n + x] == data[i] && !data[i].eof;
    }
    ChunksPast(data, FirstEof(rows).value, k);
  }

  lemma {:induction false} StoredRest(rows: seq<Row>, n: nat)
    requires Stored(rows) && n <= |rows|
    ensures Stored(rows[n..])
  {
    if n > 0 {
      StoredTail(rows);
      StoredRest(rows[1..], n - 1);
      assert rows[1..][n - 1..] == rows[n..];
    } else {
      assert rows[0..] == rows;
    }
  }

  // -------------------------------------------------------------------------
  // Block boundaries

  // The index of the first chunk of group `m`.
  function Start(gs: seq<seq<Chunk>>, m: nat): nat
    requires m <= |gs|
  {
    |Flat(gs[..m])|
  }

  // A block begins at chunk `k`, or the last block ends there.
  ghost predicate Boundary(gs: seq<seq<Chunk>>, k: nat) {
    exists m :: 0 <= m <= |gs| && Start(gs, m) == k
  }

  lemma {:induction false} FlatPrefix(gs: seq<seq<Chunk>>, m: nat)
    requires m <= |gs|
    ensures Start(gs, m) <= |Flat(gs)| && Flat(gs[..m]) == Flat(gs)[..Start(gs, m)]
    ensures m < |gs| && gs[m] != [] ==> Start(gs, m) < |Flat(gs)| && Flat(gs)[Start(gs, m)] == gs[m][0]
  {
    assert gs == gs[..m] + gs[m..];
    FlatConcat(gs[..m], gs[m..]);
    if m < |gs| {
      assert gs[m..][0] == gs[m];
    }
  }

  lemma {:induction false} StartsIncrease(gs: seq<seq<Chunk>>, a: nat, b: nat)
    requires a < b <= |gs| && forall i | 0 <= i < |gs| :: gs[i] != []
    ensures Start(gs, a) < Start(gs, b)
    decreases b
  {
    hide Flat;
    assert gs[..b] == gs[..b - 1] + [gs[b - 1]];
    FlatConcat(gs[..b - 1], [gs[b - 1]]);
    FlatOne(gs[b - 1]);
    if a < b - 1 { StartsIncrease(gs, a, b - 1); }
  }

  lemma {:induction false} AheadIsPrefix(blocks: seq<Row>, eof: Option<Bytes>) returns (m: nat)
    requires Sorted(blocks)
    ensures m <= |blocks| && AheadRows(blocks, eof) == blocks[..m]
    ensures forall i | 0 <= i < |blocks| :: Ahead(blocks[i].chunkId, eof) <==> i < m
  {
    if blocks == [] {
      m := 0;
    } else {
      var n := |blocks| - 1;
      if Ahead(blocks[n].chunkId, eof) {
        EarlierAhead(blocks, n, eof);
        AllAhead(blocks, eof);
        m := n + 1;
      } else {
        m := AheadIsPrefix(blocks[..n], eof);
        hide Ahead, Sorted;
        assert blocks[..n][..m] == blocks[..m];
        assert forall i | 0 <= i < n :: blocks[..n][i] == blocks[i];
      }
    }
  }

  lemma {:induction false} AllAhead(blocks: seq<Row>, eof: Option<Bytes>)
    requires forall i | 0 <= i < |blocks| :: Ahead(blocks[i].chunkId, eof)
    ensures AheadRows(blocks, eof) == blocks
  {
    hide Ahead;
    if blocks != [] {
      var n := |blocks| - 1;
      AllAhead(blocks[..n], eof);
      assert blocks == blocks[..n] + [blocks[n]];
    }
  }

  lemma EarlierAhead(blocks: seq<Row>, n: nat, eof: Option<Bytes>)
    requires Sorted(blocks) && n < |blocks| && Ahead(blocks[n].chunkId, eof)
    ensures forall i | 0 <= i < n :: Ahead(blocks[i].chunkId, eof)
  {
    hide Less;
    forall i | 0 <= i < n
      ensures Ahead(blocks[i].chunkId, eof)
    {
      if eof.Some? { LessTrans(blocks[i].chunkId, blocks[n].chunkId, eof.value); }
    }
  }

  // What the rewrite starts from.
  ghost predicate Ready(rows: seq<Row>, f: Bytes -> Bytes, maxChunks: nat) {
    && Stored(rows) && maxChunks >= 1
    && AllPackable(Mapped(Chunks(DataRows(rows)), f))
    && forall i, j | 0 <= i < |rows| && rows[i].eof && 0 <= j < |Chunks(DataRows(rows))| ::
         rows[i].chunkId != Chunks(DataRows(rows))[j].id
  }

  lemma BlockIds(all: seq<Chunk>, maxChunks: nat, maxBytes: nat, m: nat)
    requires AllFit(all) && maxChunks >= 1 && m < |Groups(all, maxChunks, maxBytes)|
    ensures var gs := Groups(all, maxChunks, maxBytes);
            && Blocks(gs) && Start(gs, m) < |all| && BlockRows(gs)[m].chunkId == all[Start(gs, m)].id
  {
    var gs := Groups(all, maxChunks, maxBytes);
    GroupsFit(all, maxChunks, maxBytes);
    GroupsSplit(all, maxChunks, maxBytes);
    FlatPrefix(gs, m);
  }

  lemma {:induction false} EofRowsAre(rows: seq<Row>)
    ensures FirstEof(EofRows(rows)) == FirstEof(rows)
    ensures forall x | x in EofRows(rows) :: x in rows && x.eof
  {
    if rows != [] {
      EofRowsAre(rows[1..]);
    }
  }

  lemma MarkedFirst(rows: seq<Row>, last: Option<Bytes>)
    ensures FirstEof(MarkedEof(EofRows(rows), last)) == FirstEof(rows)
  {
    EofRowsAre(rows);
    var eofs := EofRows(rows);
    if eofs != [] {
      assert eofs[0] in eofs;
    }
  }

  lemma BlocksIncrease(rows: seq<Row>, f: Bytes -> Bytes, maxChunks: nat, maxBytes: nat)
    requires Ready(rows, f, maxChunks)
    ensures var gs := Groups(Mapped(Chunks(DataRows(rows)), f), maxChunks, maxBytes);
            && Blocks(gs)
            && forall i, j | 0 <= i < j < |gs| :: Less(BlockRows(gs)[i].chunkId, BlockRows(gs)[j].chunkId)
  {
    var chunks := Chunks(DataRows(rows));
    var all := Mapped(chunks, f);
    var gs := Groups(all, maxChunks, maxBytes);
    GroupsFit(all, maxChunks, maxBytes);
    GroupsSplit(all, maxChunks, maxBytes);
    DataApart(rows);
    ChunksIncrease(DataRows(rows));
    hide Ready, Less, Groups, Chunks, DataRows, BlockRow, BlockRows, AllFit, Start, Apart;
    forall i, j | 0 <= i < j < |gs|
      ensures Less(BlockRows(gs)[i].chunkId, BlockRows(gs)[j].chunkId)
    {
      BlockIds(all, maxChunks, maxBytes, i);
      BlockIds(all, maxChunks, maxBytes, j);
      StartsIncrease(gs, i, j);
    }
  }

  lemma BlocksAreFresh(rows: seq<Row>, f: Bytes -> Bytes, maxChunks: nat, maxBytes: nat)
    requires Ready(rows, f, maxChunks)
    ensures var all := Mapped(Chunks(DataRows(rows)), f);
            var gs := Groups(all, maxChunks, maxBytes);
            Blocks(gs) && Fresh(MarkedEof(EofRows(rows), LastChunk(all)), BlockRows(gs))
  {
    var all := Mapped(Chunks(DataRows(rows)), f);
    var gs := Groups(all, maxChunks, maxBytes);
    BlocksIncrease(rows, f, maxChunks, maxBytes);
    NotEof(gs);
    EofRowsAre(rows);
    var eofs, blocks := MarkedEof(EofRows(rows), LastChunk(all)), BlockRows(gs);
    hide Less, Groups, Chunks, DataRows, EofRows, Stored, Packable, BlockRow, BlockRows, Start;
    assert AllFit(all);
    forall i | 0 <= i < |eofs|
      ensures eofs[i].eof && forall j | 0 <= j < |blocks| :: eofs[i].chunkId != blocks[j].chunkId
    {
      assert EofRows(rows)[i] in EofRows(rows);
      forall j | 0 <= j < |blocks|
        ensures eofs[i].chunkId != blocks[j].chunkId
      {
        BlockIds(all, maxChunks, maxBytes, j);
      }
    }
  }

  lemma NotEof(gs: seq<seq<Chunk>>)
    requires Blocks(gs)
    ensures forall i | 0 <= i < |gs| :: !BlockRows(gs)[i].eof
  {
  }

  lemma BlockChunks(gs: seq<seq<Chunk>>, m: nat)
    requires Blocks(gs) && m <= |gs| && forall i | 0 <= i < |gs| :: AllPackable(gs[i])
    ensures Chunks(BlockRows(gs)[..m]) == Flat(gs[..m])
  {
    assert BlockRows(gs)[..m] == BlockRows(gs[..m]);
    UnpackBlocks(gs[..m]);
    UnpackedChunks(BlockRows(gs[..m]));
  }

  lemma {:induction false} UnpackedChunks(rows: seq<Row>)
    requires UnpackAll(rows).Ok?
    ensures Chunks(rows) == UnpackAll(rows).value
  {
    hide Unpacked;
    if rows != [] {
      UnpackedChunks(rows[1..]);
    }
  }

  // After the rewrite a read gives the chunks of the blocks that begin before the EOF.
  lemma RewrittenLogical(rows: seq<Row>, f: Bytes -> Bytes, maxChunks: nat, maxBytes: nat) returns (m: nat)
    requires Ready(rows, f, maxChunks)
    ensures var all := Mapped(Chunks(DataRows(rows)), f);
            var gs := Groups(all, maxChunks, maxBytes);
            && m <= |gs| && Start(gs, m) <= |all|
            && Logical(Rewritten(rows, f, maxChunks, maxBytes)) == all[..Start(gs, m)]
            && forall i | 0 <= i < |gs| ::
                 Start(gs, i) < |all| && (Ahead(all[Start(gs, i)].id, FirstEof(rows)) <==> i < m)
  {
    var all := Mapped(Chunks(DataRows(rows)), f);
    var gs := Groups(all, maxChunks, maxBytes);
    var eofs := MarkedEof(EofRows(rows), LastChunk(all));
    BlocksAreFresh(rows, f, maxChunks, maxBytes);
    var blocks := BlockRows(gs);
    AllPlacedLive(eofs, blocks);
    MarkedFirst(rows, LastChunk(all));
    m := AheadIsPrefix(blocks, FirstEof(rows));
    GroupsArePackable(all, maxChunks, maxBytes);
    BlockChunks(gs, m);
    GroupsSplit(all, maxChunks, maxBytes);
    FlatPrefix(gs, m);
    forall i | 0 <= i < |gs|
      ensures Start(gs, i) < |all| && (Ahead(all[Start(gs, i)].id, FirstEof(rows)) <==> i < m)
    {
      BlockIds(all, maxChunks, maxBytes, i);
    }
  }

  lemma GroupsArePackable(s: seq<Chunk>, maxChunks: nat, maxBytes: nat)
    requires AllPackable(s)
    ensures var gs := Groups(s, maxChunks, maxBytes); forall i | 0 <= i < |gs| :: AllPackable(gs[i])
  {
    var gs := Groups(s, maxChunks, maxBytes);
    forall i | 0 <= i < |gs|
      ensures AllPackable(gs[i])
    {
      var a, b := GroupsAreSlices(s, i, maxChunks, maxBytes);
    }
  }

  lemma LogicalIsPrefix(rows: seq<Row>)
    ensures |Logical(rows)| <= |Chunks(DataRows(rows))|
    ensures Logical(rows) == Chunks(DataRows(rows))[..|Logical(rows)|]
  {
    DataSplit(rows);
    ChunksConcat(Live(rows), DataRows(rows[|Live(rows)|..]));
  }

  // Reads are preserved exactly when a block boundary falls at the first EOF.
  lemma RewriteExactly(rows: seq<Row>, f: Bytes -> Bytes, maxChunks: nat, maxBytes: nat)
    requires Ready(rows, f, maxChunks) && Unstraddled(rows)
    ensures Logical(Rewritten(rows, f, maxChunks, maxBytes)) == Mapped(Logical(rows), f) <==>
            Boundary(Groups(Mapped(Chunks(DataRows(rows)), f), maxChunks, maxBytes), |Logical(rows)|)
  {
    var chunks := Chunks(DataRows(rows));
    var all := Mapped(chunks, f);
    var gs := Groups(all, maxChunks, maxBytes);
    var k := |Logical(rows)|;
    LogicalIsPrefix(rows);
    assert Mapped(Logical(rows), f) == all[..k];
    var m := RewrittenLogical(rows, f, maxChunks, maxBytes);
    GroupsSplit(all, maxChunks, maxBytes);
    if b :| 0 <= b <= |gs| && Start(gs, b) == k {
      MeetsBoundary(rows, f, gs, m, b);
    }
  }

  lemma MeetsBoundary(rows: seq<Row>, f: Bytes -> Bytes, gs: seq<seq<Chunk>>, m: nat, b: nat)
    requires Stored(rows) && Unstraddled(rows) && m <= |gs| && b <= |gs| && Start(gs, b) == |Logical(rows)|
    requires forall i | 0 <= i < |gs| :: gs[i] != []
    requires var all := Mapped(Chunks(DataRows(rows)), f);
             forall i | 0 <= i < |gs| ::
               Start(gs, i) < |all| && (Ahead(all[Start(gs, i)].id, FirstEof(rows)) <==> i < m)
    ensures m == b
  {
    hide Stored, Unstraddled, Start, Ahead, Chunks, DataRows, Logical;
    if m < b {
      StartsIncrease(gs, m, b);
      LogicalIsAhead(rows, Start(gs, m));
    } else if b < m {
      LogicalIsAhead(rows, Start(gs, b));
    }
  }

  // When no data follows the first EOF, as for a stream closed once, there always is one.
  lemma RewritePreserves(rows: seq<Row>, f: Bytes -> Bytes, maxChunks: nat, maxBytes: nat)
    requires Ready(rows, f, maxChunks) && Unstraddled(rows) && DataRows(rows) == Live(rows)
    ensures Logical(Rewritten(rows, f, maxChunks, maxBytes)) == Mapped(Logical(rows), f)
  {
    var all := Mapped(Chunks(DataRows(rows)), f);
    var gs := Groups(all, maxChunks, maxBytes);
    GroupsSplit(all, maxChunks, maxBytes);
    assert gs[..|gs|] == gs;
    assert Start(gs, |gs|) == |Logical(rows)|;
    RewriteExactly(rows, f, maxChunks, maxBytes);
  }

  // -------------------------------------------------------------------------
  // The rewritten rows are a stored stream, and old cursors go on

  lemma {:induction false} PlaceSorted(rows: seq<Row>, row: Row)
    requires Sorted(rows) && forall i | 0 <= i < |rows| :: rows[i].chunkId != row.chunkId
    ensures Sorted(Place(rows, row))
  {
    var placed := Place(rows, row);
    if rows != [] {
      if Less(row.chunkId, rows[0].chunkId) {
        forall j | 0 <= j < |rows|
          ensures Less(row.chunkId, rows[j].chunkId)
        {
          if j > 0 { LessTrans(row.chunkId, rows[0].chunkId, rows[j].chunkId); }
        }
      } else {
        LessTotal(row.chunkId, rows[0].chunkId);
        var rest := Place(rows[1..], row);
        PlaceSorted(rows[1..], row);
        forall j | 0 <= j < |rest|
          ensures Less(rows[0].chunkId, rest[j].chunkId)
        {
          PlacedRows(rows[1..], row, rest[j]);
          if rest[j] in rows[1..] {
            var x :| 0 <= x < |rows[1..]| && rows[1..][x] == rest[j];
            assert rows[x + 1] == rest[j];
          }
        }
        hide Less, Place;
        assert forall j | 0 < j < |placed| :: placed[j] == rest[j - 1];
      }
    }
  }

  lemma {:induction false} AllPlacedSorted(eofs: seq<Row>, blocks: seq<Row>)
    requires Fresh(eofs, blocks) && Sorted(eofs)
    ensures Sorted(PlaceAll(eofs, blocks))
  {
    if blocks != [] {
      var n := |blocks| - 1;
      NewestBlock(eofs, blocks);
      AllPlacedSorted(eofs, blocks[..n]);
      PlaceSorted(PlaceAll(eofs, blocks[..n]), blocks[n]);
    }
  }

  lemma {:induction false} EofRowsSorted(rows: seq<Row>)
    requires Stored(rows)
    ensures Sorted(EofRows(rows))
  {
    if rows != [] {
      StoredTail(rows);
      EofRowsSorted(rows[1..]);
      EofRowsAre(rows[1..]);
      var eofs, rest := EofRows(rows), EofRows(rows[1..]);
      if rows[0].eof {
        hide Data, Less;
        forall j | 0 <= j < |rest|
          ensures Less(rows[0].chunkId, rest[j].chunkId)
        {
          assert rest[j] in rest;
          var x :| 0 <= x < |rows[1..]| && rows[1..][x] == rest[j];
          assert rows[x + 1] == rest[j];
        }
        assert forall j | 0 < j < |eofs| :: eofs[j] == rest[j - 1];
      }
    }
  }

  // A block of a list in id order is a data row, and ends before the next begins.
  lemma BlockData(all: seq<Chunk>, maxChunks: nat, maxBytes: nat, m: nat)
    requires AllPackable(all) && Increasing(all) && maxChunks >= 1 && m < |Groups(all, maxChunks, maxBytes)|
    ensures var gs := Groups(all, maxChunks, maxBytes);
            && Blocks(gs) && Data(BlockRows(gs)[m])
            && forall n | m < n < |gs| :: Less(LastId(BlockRows(gs)[m]), BlockRows(gs)[n].chunkId)
  {
    hide Groups, Less, EncodeAll, Start, Data, Increasing, BlockRow, LastId;
    var gs := Groups(all, maxChunks, maxBytes);
    GroupsFit(all, maxChunks, maxBytes);
    GroupsArePackable(all, maxChunks, maxBytes);
    GroupsSplit(all, maxChunks, maxBytes);
    GroupIsSlice(gs, all, m);
    SliceIncreases(all, Start(gs, m), Start(gs, m + 1));
    IsData(gs[m]);
    forall n | m < n < |gs|
      ensures Less(LastId(BlockRows(gs)[m]), BlockRows(gs)[n].chunkId)
    {
      EndsBefore(all, gs, maxChunks, maxBytes, m, n);
    }
  }

  lemma SliceIncreases(all: seq<Chunk>, a: nat, b: nat)
    requires Increasing(all) && a <= b <= |all|
    ensures Increasing(all[a..b])
  {
    hide Less;
  }

  lemma EndsBefore(all: seq<Chunk>, gs: seq<seq<Chunk>>, maxChunks: nat, maxBytes: nat, m: nat, n: nat)
    requires AllPackable(all) && Increasing(all) && maxChunks >= 1 && gs == Groups(all, maxChunks, maxBytes)
    requires m < n < |gs| && Blocks(gs)
    ensures Less(LastId(BlockRows(gs)[m]), BlockRows(gs)[n].chunkId)
  {
    hide Groups, Less, EncodeAll, Start;
    GroupsSplit(all, maxChunks, maxBytes);
    GroupIsSlice(gs, all, m);
    BlockIds(all, maxChunks, maxBytes, n);
    if m + 1 < n { StartsIncrease(gs, m + 1, n); }
    assert gs[m][|gs[m]| - 1] == all[Start(gs, m + 1) - 1];
  }

  lemma IsData(g: seq<Chunk>)
    requires g != [] && AllPackable(g) && Increasing(g)
    ensures AllFit(g) && Data(BlockRow(g)) && LastId(BlockRow(g)) == g[|g| - 1].id
  {
    RowIsItsEncoding(BlockRow(g), g);
  }

  lemma GroupIsSlice(gs: seq<seq<Chunk>>, all: seq<Chunk>, m: nat)
    requires m < |gs| && Flat(gs) == all
    ensures Start(gs, m) <= Start(gs, m + 1) <= |all| && gs[m] == all[Start(gs, m)..Start(gs, m + 1)]
  {
    hide Flat;
    FlatPrefix(gs, m + 1);
    assert gs[..m + 1] == gs[..m] + [gs[m]];
    FlatConcat(gs[..m], [gs[m]]);
    FlatOne(gs[m]);
    var a, e := Start(gs, m), Start(gs, m + 1);
    assert all[..e] == Flat(gs[..m]) + gs[m];
    assert all[..e][a..] == gs[m];
    assert all[..e][a..] == all[a..e];
  }

  lemma RewrittenIsStored(rows: seq<Row>, f: Bytes -> Bytes, maxChunks: nat, maxBytes: nat)
    requires Ready(rows, f, maxChunks)
    ensures Stored(Rewritten(rows, f, maxChunks, maxBytes))
  {
    var chunks := Chunks(DataRows(rows));
    var all := Mapped(chunks, f);
    var gs := Groups(all, maxChunks, maxBytes);
    var eofs := MarkedEof(EofRows(rows), LastChunk(all));
    BlocksAreFresh(rows, f, maxChunks, maxBytes);
    var blocks := BlockRows(gs);
    EofRowsSorted(rows);
    AllPlacedSorted(eofs, blocks);
    DataApart(rows);
    ChunksIncrease(DataRows(rows));
    assert Increasing(all);
    var placed := Rewritten(rows, f, maxChunks, maxBytes);
    hide Data, Less, Groups, Chunks, DataRows, EofRows, PlaceAll, MarkedEof;
    forall i | 0 <= i < |placed|
      ensures placed[i].eof || Data(placed[i])
    {
      AllPlaced(eofs, blocks, placed[i]);
      if placed[i] in blocks {
        var m :| 0 <= m < |blocks| && blocks[m] == placed[i];
        BlockData(all, maxChunks, maxBytes, m);
      }
    }
    forall i, j | 0 <= i < j < |placed| && !placed[i].eof && !placed[j].eof
      ensures Less(LastId(placed[i]), placed[j].chunkId)
    {
      PlacedApart(all, maxChunks, maxBytes, eofs, placed, i, j);
    }
  }

  lemma PlacedApart(all: seq<Chunk>, maxChunks: nat, maxBytes: nat, eofs: seq<Row>, placed: seq<Row>, i: nat, j: nat)
    requires AllPackable(all) && Increasing(all) && maxChunks >= 1 && Blocks(Groups(all, maxChunks, maxBytes))
    requires var blocks := BlockRows(Groups(all, maxChunks, maxBytes));
             Fresh(eofs, blocks) && placed == PlaceAll(eofs, blocks)
    requires i < |placed| && j < |placed| && Less(placed[i].chunkId, placed[j].chunkId)
    requires !placed[i].eof && !placed[j].eof
    ensures Less(LastId(placed[i]), placed[j].chunkId)
  {
    hide Less, Groups, PlaceAll, AllPackable, Increasing, BlockRow, Data;
    var blocks := BlockRows(Groups(all, maxChunks, maxBytes));
    AllPlaced(eofs, blocks, placed[i]);
    AllPlaced(eofs, blocks, placed[j]);
    var m :| 0 <= m < |blocks| && blocks[m] == placed[i];
    var n :| 0 <= n < |blocks| && blocks[n] == placed[j];
    LessAsym(placed[i].chunkId, placed[j].chunkId);
    assert m < n;
    BlockData(all, maxChunks, maxBytes, m);
  }

  // From the cursor after `j` chunks, the rewritten stream gives the page the stream gave, with
  // the compaction mapped over it.
  ghost predicate PageSurvives(rows: seq<Row>, rows': seq<Row>, f: Bytes -> Bytes, limit: nat, j: nat)
    requires limit >= 1 && j <= |Logical(rows)|
  {
    var cursor := CursorAt(Logical(rows), j);
    var was, now := GetChunks(rows, limit, cursor), GetChunks(rows', limit, cursor);
    && now.cursor == was.cursor && now.hasMore == was.hasMore && now.done == was.done
    && |now.items| == |was.items|
    && forall i | 0 <= i < |was.items| :: now.items[i] == Item(was.items[i].index, f(was.items[i].data))
  }

  // Old cursors go on at the same logical chunk, with any limit, exactly when a block boundary
  // falls at the first EOF.
  lemma CursorsSurvive(rows: seq<Row>, f: Bytes -> Bytes, maxChunks: nat, maxBytes: nat)
    requires Ready(rows, f, maxChunks) && Unstraddled(rows)
    ensures (forall limit: nat, j: nat | limit >= 1 && j <= |Logical(rows)| ::
               PageSurvives(rows, Rewritten(rows, f, maxChunks, maxBytes), f, limit, j)) <==>
            Boundary(Groups(Mapped(Chunks(DataRows(rows)), f), maxChunks, maxBytes), |Logical(rows)|)
  {
    var rows' := Rewritten(rows, f, maxChunks, maxBytes);
    assert Stored(rows);
    hide Logical, Rewritten, FirstEof, DataRows, Chunks, Unstraddled, AllPackable, Stored, PageSurvives, Boundary, Groups,
      Ready;
    RewriteExactly(rows, f, maxChunks, maxBytes);
    RewrittenIsStored(rows, f, maxChunks, maxBytes);
    SameEof(rows, f, maxChunks, maxBytes);
    if Logical(rows') == Mapped(Logical(rows), f) {
      forall limit: nat, j: nat | limit >= 1 && j <= |Logical(rows)|
        ensures PageSurvives(rows, rows', f, limit, j)
      {
        PagesCorrespond(rows, rows', f, limit, j);
      }
    } else {
      SameLengthSameList(rows, f, maxChunks, maxBytes);
      WholePages(rows, rows', f, |Logical(rows)| + |Logical(rows')| + 1);
    }
  }

  lemma PagesCorrespond(rows: seq<Row>, rows': seq<Row>, f: Bytes -> Bytes, limit: nat, j: nat)
    requires Stored(rows) && Stored(rows') && Logical(rows') == Mapped(Logical(rows), f)
    requires FirstEof(rows') == FirstEof(rows) && limit >= 1 && j <= |Logical(rows)|
    ensures PageSurvives(rows, rows', f, limit, j)
  {
    hide Logical, GetChunks, Stored, FirstEof;
    PageIsSlice(rows, limit, j);
    PageIsSlice(rows', limit, j);
  }

  // Both lists are prefixes of the compacted chunks.
  lemma SameLengthSameList(rows: seq<Row>, f: Bytes -> Bytes, maxChunks: nat, maxBytes: nat)
    requires Ready(rows, f, maxChunks)
    ensures var rows' := Rewritten(rows, f, maxChunks, maxBytes);
            |Logical(rows')| == |Logical(rows)| ==> Logical(rows') == Mapped(Logical(rows), f)
  {
    hide Rewritten, DataRows, Chunks, Groups, Logical, Ready;
    LogicalIsPrefix(rows);
    var m := RewrittenLogical(rows, f, maxChunks, maxBytes);
  }

  // A first page that holds everything tells the lists' lengths.
  lemma WholePages(rows: seq<Row>, rows': seq<Row>, f: Bytes -> Bytes, limit: nat)
    requires Stored(rows) && Stored(rows') && limit == |Logical(rows)| + |Logical(rows')| + 1
    ensures PageSurvives(rows, rows', f, limit, 0) ==> |Logical(rows')| == |Logical(rows)|
  {
    hide Logical, GetChunks, Stored;
    PageIsSlice(rows, limit, 0);
    PageIsSlice(rows', limit, 0);
  }

  lemma SameEof(rows: seq<Row>, f: Bytes -> Bytes, maxChunks: nat, maxBytes: nat)
    requires Ready(rows, f, maxChunks)
    ensures FirstEof(Rewritten(rows, f, maxChunks, maxBytes)) == FirstEof(rows)
  {
    var all := Mapped(Chunks(DataRows(rows)), f);
    BlocksAreFresh(rows, f, maxChunks, maxBytes);
    AllPlacedLive(MarkedEof(EofRows(rows), LastChunk(all)), BlockRows(Groups(all, maxChunks, maxBytes)));
    MarkedFirst(rows, LastChunk(all));
  }

  // -------------------------------------------------------------------------
  // Data behind the first EOF

  function Id(n: byte): Bytes {
    ID_PREFIX + [n]
  }

  function Legacy(n: byte, eof: bool): Row {
    Row(Id(n), None, None, None, [], eof)
  }

  // A retried terminal write left data behind the EOF: the rewrite puts both chunks into
  // one block, and a read that gave one chunk now gives two.
  lemma StraddleChangesReads()
    ensures var rows := [Legacy(1, false), Legacy(2, true), Legacy(3, false)];
            && Ready(rows, data => data, 64) && Unstraddled(rows)
            && |Logical(rows)| == 1
            && |Logical(Rewritten(rows, data => data, 64, 1024))| == 2
  {
    var f: Bytes -> Bytes := data => data;
    var rows := [Legacy(1, false), Legacy(2, true), Legacy(3, false)];
    ExampleIds();
    ExampleRows(rows);
    ExampleReady(rows, f);
    hide Groups, Logical, FirstEof, Less, Stored, Unstraddled, DataRows, Chunks, Ready, Rewritten, Id, Legacy;
    ExampleRewritten(rows, f);
  }

  lemma ExampleReady(rows: seq<Row>, f: Bytes -> Bytes)
    requires rows == [Legacy(1, false), Legacy(2, true), Legacy(3, false)] && Stored(rows)
    requires Chunks(DataRows(rows)) == [Chunk(Id(1), []), Chunk(Id(3), [])] && Id(1) != Id(2) && Id(2) != Id(3)
    requires f([]) == []
    ensures Ready(rows, f, 64)
  {
    hide Stored, Chunks, DataRows;
    var all := Mapped(Chunks(DataRows(rows)), f);
    assert AllPackable(all);
  }

  lemma ExampleRewritten(rows: seq<Row>, f: Bytes -> Bytes)
    requires Ready(rows, f, 64) && FirstEof(rows) == Some(Id(2)) && Less(Id(1), Id(2)) && f([]) == []
    requires Chunks(DataRows(rows)) == [Chunk(Id(1), []), Chunk(Id(3), [])]
    ensures |Logical(Rewritten(rows, f, 64, 1024))| == 2
  {
    hide Ready, Chunks, DataRows, Groups, Logical, FirstEof, Less, Rewritten, Id;
    var all := Mapped(Chunks(DataRows(rows)), f);
    assert all == [Chunk(Id(1), []), Chunk(Id(3), [])];
    ExampleGroups(all);
    var gs := Groups(all, 64, 1024);
    var m := RewrittenLogical(rows, f, 64, 1024);
    assert gs[..0] == [] && Start(gs, 0) == 0;
    assert gs[..1] == [all] && Flat([all]) == all + Flat([all][1..]) && Start(gs, 1) == 2;
    assert Ahead(all[0].id, FirstEof(rows));
  }

  lemma ExampleGroups(all: seq<Chunk>)
    requires all == [Chunk(Id(1), []), Chunk(Id(3), [])]
    ensures Groups(all, 64, 1024) == [all]
  {
    assert Size(all[0]) == 12 && Size(all[1]) == 12;
    assert Take(all, 2, 24, 64, 1024) == 2;
    assert all[..2] == all && all[2..] == [];
    assert Groups([], 64, 1024) == [];
  }

  lemma ExampleIds()
    ensures Less(Id(1), Id(2)) && Less(Id(2), Id(3)) && Less(Id(1), Id(3))
    ensures Id(1) != Id(2) && Id(2) != Id(3)
  {
    forall x: byte, y: byte | x < y
      ensures Less(Id(x), Id(y)) && Id(x) != Id(y)
    {
      assert Id(x)[|ID_PREFIX|] == x && Id(y)[|ID_PREFIX|] == y;
      SamePrefix(ID_PREFIX, [x], [y]);
    }
  }

  lemma {:induction false} SamePrefix(p: Bytes, a: Bytes, b: Bytes)
    ensures Less(p + a, p + b) <==> Less(a, b)
  {
    if p == [] {
      assert p + a == a && p + b == b;
    } else {
      SamePrefix(p[1..], a, b);
      assert (p + a)[1..] == p[1..] + a && (p + b)[1..] == p[1..] + b;
    }
  }

  lemma ExampleRows(rows: seq<Row>)
    requires rows == [Legacy(1, false), Legacy(2, true), Legacy(3, false)]
    requires Less(Id(1), Id(2)) && Less(Id(2), Id(3)) && Less(Id(1), Id(3))
    ensures Stored(rows) && Unstraddled(rows) && FirstEof(rows) == Some(Id(2))
    ensures Chunks(DataRows(rows)) == [Chunk(Id(1), []), Chunk(Id(3), [])]
    ensures Logical(rows) == [Chunk(Id(1), [])]
  {
    hide Less;
    var r1, r2, r3 := rows[0], rows[1], rows[2];
    assert rows[1..] == [r2, r3] && rows[1..][1..] == [r3] && rows[1..][1..][1..] == [];
    assert ChunksOf(r1) == [Chunk(Id(1), [])] && ChunksOf(r3) == [Chunk(Id(3), [])];
    assert DataRows([r3]) == [r3] + DataRows([r3][1..]) && DataRows([r3][1..]) == [];
    assert DataRows([r2, r3]) == [] + DataRows([r2, r3][1..]);
    assert DataRows(rows) == [r1] + DataRows(rows[1..]) == [r1, r3];
    assert [r1, r3][1..] == [r3] && [r3][1..] == [];
    assert Chunks([r3]) == ChunksOf(r3) + Chunks([r3][1..]) && Chunks([r1, r3]) == ChunksOf(r1) + Chunks([r3]);
    assert Live(rows) == [r1] && [r1][1..] == [];
  }
}
