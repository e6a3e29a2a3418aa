/**
 Reading a stream page by page. Whatever mix of legacy rows and packed blocks holds it,
 and whatever page limits the reader asks for, following the cursors of `getChunks` gives
 the flat list of logical chunks before the first EOF, each once and in order; `getInfo`
 counts the same list.
 */
module StreamReading {
  import opened Options
  import opened StreamBlocks

  // -------------------------------------------------------------------------
  // The order of chunk ids

  predicate Less(a: Bytes, b: Bytes) {
    b != [] && (a == [] || a[0] < b[0] || (a[0] == b[0] && Less(a[1..], b[1..])))
  }

  lemma {:induction false} LessTrans(a: Bytes, b: Bytes, c: Bytes)
    requires Less(a, b) && Less(b, c)
    ensures Less(a, c)
  {
    if a != [] && a[0] == b[0] && b[0] == c[0] {
      LessTrans(a[1..], b[1..], c[1..]);
    }
  }

  lemma {:induction false} LessIrreflexive(a: Bytes)
    ensures !Less(a, a)
  {
    if a != [] {
      LessIrreflexive(a[1..]);
    }
  }

  lemma LessAsym(a: Bytes, b: Bytes)
    requires Less(a, b)
    ensures !Less(b, a) && a != b
  {
    LessIrreflexive(a);
    if Less(b, a) {
      LessTrans(a, b, a);
    }
  }

  // -------------------------------------------------------------------------
  // A stored stream, and the list it stands for

  function ChunksOf(row: Row): seq<Chunk> {
    if Unpacked(row).Ok? then Unpacked(row).value else []
  }

  // coalesce(last_chunk_id, id)
  function LastId(row: Row): Bytes {
    if row.lastChunkId.Some? then row.lastChunkId.value else row.chunkId
  }

  function Count(row: Row): int {
    if row.chunkCount.Some? then row.chunkCount.value else 1
  }

  ghost predicate Increasing(cs: seq<Chunk>) {
    forall i, j | 0 <= i < j < |cs| :: Less(cs[i].id, cs[j].id)
  }

  // A data row: readable, its ids increase, its columns say what it holds.
  ghost predicate Data(row: Row) {
    && !row.eof && Unpacked(row).Ok?
    && var cs := ChunksOf(row);
       && cs != [] && Increasing(cs)
       && row.chunkId == cs[0].id && LastId(row) == cs[|cs| - 1].id && Count(row) == |cs|
  }

  // The rows in id order, the data rows with disjoint ranges of ids.
  ghost predicate Stored(rows: seq<Row>) {
    && (forall i | 0 <= i < |rows| :: rows[i].eof || Data(rows[i]))
    && (forall i, j | 0 <= i < j < |rows| :: Less(rows[i].chunkId, rows[j].chunkId))
    && (forall i, j | 0 <= i < j < |rows| && !rows[i].eof && !rows[j].eof :: Less(LastId(rows[i]), rows[j].chunkId))
  }

  // `findFirstEofChunkId`
  function FirstEof(rows: seq<Row>): Option<Bytes> {
    if rows == [] then None
    else if rows[0].eof then Some(rows[0].chunkId)
    else FirstEof(rows[1..])
  }

  // The rows before the first EOF, as the list was written.
  function Live(rows: seq<Row>): seq<Row> {
    if rows == [] || rows[0].eof then [] else [rows[0]] + Live(rows[1..])
  }

  function Chunks(rows: seq<Row>): seq<Chunk> {
    if rows == [] then [] else ChunksOf(rows[0]) + Chunks(rows[1..])
  }

  function Logical(rows: seq<Row>): seq<Chunk> {
    Chunks(Live(rows))
  }

  // -------------------------------------------------------------------------
  // The queries

  function Select(rows: seq<Row>, eof: Option<Bytes>, cursor: Option<Bytes>): seq<Row> {
    if rows == [] then []
    else (if Selected(rows[0], eof, cursor) then [rows[0]] else []) + Select(rows[1..], eof, cursor)
  }

  predicate Selected(row: Row, eof: Option<Bytes>, cursor: Option<Bytes>) {
    && !row.eof
    && (eof.Some? ==> Less(row.chunkId, eof.value))
    && Past(cursor, LastId(row))
  }

  predicate Past(cursor: Option<Bytes>, id: Bytes) {
    cursor.None? || Less(cursor.value, id)
  }

  function After(cs: seq<Chunk>, cursor: Option<Bytes>): seq<Chunk> {
    if cs == [] then []
    else (if Past(cursor, cs[0].id) then [cs[0]] else []) + After(cs[1..], cursor)
  }

  datatype Cursor = Cursor(chunk: Bytes, index: nat)
  datatype Item = Item(index: nat, data: Bytes)
  datatype Page = Page(items: seq<Item>, cursor: Option<Cursor>, hasMore: bool, done: bool)

  function Items(cs: seq<Chunk>, base: nat): (items: seq<Item>)
    ensures |items| == |cs| && forall i | 0 <= i < |cs| :: items[i] == Item(base + i, cs[i].data)
  {
    seq(|cs|, i requires 0 <= i < |cs| => Item(base + i, cs[i].data))
  }

  function UpTo<T>(s: seq<T>, n: nat): seq<T> {
    if n <= |s| then s[..n] else s
  }

  function GetChunks(rows: seq<Row>, limit: nat, cursor: Option<Cursor>): Page {
    var from := if cursor.Some? then Some(cursor.value.chunk) else None;
    var base := if cursor.Some? then cursor.value.index else 0;
    var eof := FirstEof(rows);
    var logical := After(Chunks(UpTo(Select(rows, eof, from), limit + 1)), from);
    var page := UpTo(logical, limit);
    var more := |logical| > limit;
    Page(Items(page, base),
         if more && page != [] then Some(Cursor(page[|page| - 1].id, base + |page|)) else None,
         more,
         eof.Some?)
  }

  function Sum(rows: seq<Row>, eof: Option<Bytes>): int {
    if rows == [] then 0
    else (if Selected(rows[0], eof, None) then Count(rows[0]) else 0) + Sum(rows[1..], eof)
  }

  datatype Info = Info(tailIndex: int, done: bool)

  function GetInfo(rows: seq<Row>): Info {
    Info(Sum(rows, FirstEof(rows)) - 1, FirstEof(rows).Some?)
  }

  // -------------------------------------------------------------------------
  // The rows before the first EOF are the ones the queries select

  lemma {:induction false} EofIsARow(rows: seq<Row>) returns (i: nat)
    requires FirstEof(rows).Some?
    ensures i < |rows| && rows[i].eof && FirstEof(rows) == Some(rows[i].chunkId)
  {
    if rows[0].eof {
      i := 0;
    } else {
      i := EofIsARow(rows[1..]);
      i := i + 1;
    }
  }

  lemma StoredTail(rows: seq<Row>)
    requires Stored(rows) && rows != []
    ensures Stored(rows[1..])
  {
    hide Data, Less;
    var tail := rows[1..];
    forall i, j | 0 <= i < j < |tail|
      ensures Less(tail[i].chunkId, tail[j].chunkId)
      ensures !tail[i].eof && !tail[j].eof ==> Less(LastId(tail[i]), tail[j].chunkId)
    {
      assert tail[i] == rows[i + 1] && tail[j] == rows[j + 1];
    }
  }

  // Past the first EOF nothing is selected.
  lemma {:induction false} NothingPast(rows: seq<Row>, eof: Bytes, cursor: Option<Bytes>)
    requires forall i | 0 <= i < |rows| :: rows[i].eof || Less(eof, rows[i].chunkId)
    ensures Select(rows, Some(eof), cursor) == [] && Sum(rows, Some(eof)) == 0
  {
    if rows != [] {
      NothingPast(rows[1..], eof, cursor);
      if !rows[0].eof { LessAsym(eof, rows[0].chunkId); }
    }
  }

  function Passing(rows: seq<Row>, cursor: Option<Bytes>): seq<Row> {
    if rows == [] then []
    else (if Past(cursor, LastId(rows[0])) then [rows[0]] else []) + Passing(rows[1..], cursor)
  }

  lemma {:induction false} SelectsLive(rows: seq<Row>, cursor: Option<Bytes>)
    requires Stored(rows)
    ensures Select(rows, FirstEof(rows), cursor) == Passing(Live(rows), cursor)
    ensures Sum(rows, FirstEof(rows)) == |Logical(rows)|
    ensures forall i | 0 <= i < |Live(rows)| :: Data(Live(rows)[i])
  {
    if rows != [] {
      StoredTail(rows);
      SelectsLive(rows[1..], cursor);
      if rows[0].eof {
        forall i | 0 <= i < |rows|
          ensures rows[i].eof || Less(rows[0].chunkId, rows[i].chunkId)
        {
        }
        NothingPast(rows, rows[0].chunkId, cursor);
      } else {
        HeadSelected(rows, cursor);
        hide Stored, Data, Less;
        assert Live(rows)[1..] == Live(rows[1..]);
      }
    }
  }

  lemma HeadSelected(rows: seq<Row>, cursor: Option<Bytes>)
    requires Stored(rows) && rows != [] && !rows[0].eof
    ensures FirstEof(rows).Some? ==> Less(rows[0].chunkId, FirstEof(rows).value)
    ensures Data(rows[0])
  {
    if FirstEof(rows).Some? {
      var i := EofIsARow(rows);
    }
  }

  // `getInfo` counts the list.
  lemma InfoCountsLogical(rows: seq<Row>)
    requires Stored(rows)
    ensures GetInfo(rows).tailIndex + 1 == |Logical(rows)|
    ensures GetInfo(rows).done <==> exists i :: 0 <= i < |rows| && rows[i].eof
  {
    SelectsLive(rows, None);
    EofSeen(rows);
  }

  lemma {:induction false} EofSeen(rows: seq<Row>)
    ensures FirstEof(rows).Some? <==> exists i :: 0 <= i < |rows| && rows[i].eof
  {
    if rows != [] && !rows[0].eof {
      EofSeen(rows[1..]);
      if i :| 0 <= i < |rows| && rows[i].eof {
        assert rows[1..][i - 1].eof;
      }
      if i :| 0 <= i < |rows[1..]| && rows[1..][i].eof {
        assert rows[i + 1].eof;
      }
    }
  }

  // -------------------------------------------------------------------------
  // The list is in id order

  ghost predicate Apart(rows: seq<Row>) {
    && (forall i | 0 <= i < |rows| :: Data(rows[i]))
    && (forall i, j | 0 <= i < j < |rows| :: Less(LastId(rows[i]), rows[j].chunkId))
  }

  lemma ApartTail(rows: seq<Row>)
    requires Apart(rows) && rows != []
    ensures Apart(rows[1..])
  {
    hide Data, Less;
    var tail := rows[1..];
    forall i, j | 0 <= i < j < |tail|
      ensures Less(LastId(tail[i]), tail[j].chunkId)
    {
      assert tail[i] == rows[i + 1] && tail[j] == rows[j + 1];
    }
  }

  lemma {:induction false} LiveIsPrefix(rows: seq<Row>)
    ensures |Live(rows)| <= |rows| && Live(rows) == rows[..|Live(rows)|]
    ensures forall i | 0 <= i < |Live(rows)| :: !rows[i].eof
  {
    if rows != [] && !rows[0].eof {
      LiveIsPrefix(rows[1..]);
      assert Live(rows)[1..] == Live(rows[1..]);
    }
  }

  lemma LiveApart(rows: seq<Row>)
    requires Stored(rows)
    ensures Apart(Live(rows))
  {
    hide Data, Less;
    LiveIsPrefix(rows);
    var live := Live(rows);
    forall i, j | 0 <= i < j < |live|
      ensures Less(LastId(live[i]), live[j].chunkId)
    {
      assert Less(LastId(rows[i]), rows[j].chunkId);
    }
  }

  // Every chunk of the rows after one with last id `low` is past `low`.
  lemma {:induction false} ChunksPast(rows: seq<Row>, low: Bytes, k: nat)
    requires Apart(rows) && k < |Chunks(rows)| && forall i | 0 <= i < |rows| :: Less(low, rows[i].chunkId)
    ensures Less(low, Chunks(rows)[k].id)
  {
    var cs := ChunksOf(rows[0]);
    if k < |cs| {
      assert Less(low, cs[0].id);
      if k > 0 { LessTrans(low, cs[0].id, cs[k].id); }
    } else {
      ApartTail(rows);
      ChunksPast(rows[1..], low, k - |cs|);
    }
  }

  lemma {:induction false} ChunksIncrease(rows: seq<Row>)
    requires Apart(rows)
    ensures Increasing(Chunks(rows))
  {
    if rows != [] {
      ApartTail(rows);
      ChunksIncrease(rows[1..]);
      var cs, rest := ChunksOf(rows[0]), Chunks(rows[1..]);
      forall i, j | 0 <= i < |cs| && 0 <= j < |rest|
        ensures Less(cs[i].id, rest[j].id)
      {
        RestIsPast(rows, i, j);
      }
      assert Data(rows[0]);
      hide Apart, ChunksOf, Less;
      JoinIncreasing(cs, rest);
    }
  }

  lemma RestIsPast(rows: seq<Row>, i: nat, j: nat)
    requires Apart(rows) && rows != [] && i < |ChunksOf(rows[0])| && j < |Chunks(rows[1..])|
    ensures Less(ChunksOf(rows[0])[i].id, Chunks(rows[1..])[j].id) && Increasing(ChunksOf(rows[0]))
  {
    var cs, rest := ChunksOf(rows[0]), Chunks(rows[1..]);
    ApartTail(rows);
    assert Data(rows[0]);
    forall x | 0 <= x < |rows[1..]|
      ensures Less(LastId(rows[0]), rows[1..][x].chunkId)
    {
      assert rows[1..][x] == rows[x + 1];
    }
    ChunksPast(rows[1..], LastId(rows[0]), j);
    if i < |cs| - 1 { LessTrans(cs[i].id, cs[|cs| - 1].id, rest[j].id); }
  }

  lemma JoinIncreasing(a: seq<Chunk>, b: seq<Chunk>)
    requires Increasing(a) && Increasing(b)
    requires forall i, j | 0 <= i < |a| && 0 <= j < |b| :: Less(a[i].id, b[j].id)
    ensures Increasing(a + b)
  {
    hide Less;
    var all := a + b;
    forall i, j | 0 <= i < j < |all|
      ensures Less(all[i].id, all[j].id)
    {
      if i >= |a| { assert all[i] == b[i - |a|] && all[j] == b[j - |a|]; }
    }
  }

  // -------------------------------------------------------------------------
  // A page is a slice of the list

  lemma {:induction false} AfterConcat(a: seq<Chunk>, b: seq<Chunk>, cursor: Option<Bytes>)
    ensures After(a + b, cursor) == After(a, cursor) + After(b, cursor)
  {
    hide Past;
    if a == [] {
      assert a + b == b;
    } else {
      AfterConcat(a[1..], b, cursor);
      var head := if Past(cursor, a[0].id) then [a[0]] else [];
      assert (a + b)[1..] == a[1..] + b && (a + b)[0] == a[0];
      assert head + (After(a[1..], cursor) + After(b, cursor)) == (head + After(a[1..], cursor)) + After(b, cursor);
    }
  }

  lemma {:induction false} AfterNone(cs: seq<Chunk>, cursor: Option<Bytes>)
    requires forall i | 0 <= i < |cs| :: !Past(cursor, cs[i].id)
    ensures After(cs, cursor) == []
  {
    if cs != [] {
      AfterNone(cs[1..], cursor);
    }
  }

  lemma {:induction false} AfterAll(cs: seq<Chunk>, cursor: Option<Bytes>)
    requires forall i | 0 <= i < |cs| :: Past(cursor, cs[i].id)
    ensures After(cs, cursor) == cs
  {
    if cs != [] {
      AfterAll(cs[1..], cursor);
    }
  }

  // Rows whose last id is not past the cursor hold nothing past it.
  lemma {:induction false} PassingIsEnough(rows: seq<Row>, cursor: Option<Bytes>)
    requires forall i | 0 <= i < |rows| :: Data(rows[i])
    ensures After(Chunks(Passing(rows, cursor)), cursor) == After(Chunks(rows), cursor)
  {
    if rows != [] {
      var cs := ChunksOf(rows[0]);
      PassingIsEnough(rows[1..], cursor);
      if !Past(cursor, LastId(rows[0])) { NonePast(rows[0], cursor); }
      hide Data, ChunksOf, After, Past, LastId;
      AfterConcat(cs, Chunks(rows[1..]), cursor);
      if Past(cursor, LastId(rows[0])) {
        assert Passing(rows, cursor)[1..] == Passing(rows[1..], cursor);
        AfterConcat(cs, Chunks(Passing(rows[1..], cursor)), cursor);
      } else {
        assert Passing(rows, cursor) == Passing(rows[1..], cursor);
      }
    }
  }

  lemma NonePast(row: Row, cursor: Option<Bytes>)
    requires Data(row) && !Past(cursor, LastId(row))
    ensures After(ChunksOf(row), cursor) == []
  {
    var cs := ChunksOf(row);
    forall i | 0 <= i < |cs|
      ensures !Past(cursor, cs[i].id)
    {
      if Past(cursor, cs[i].id) && i < |cs| - 1 {
        LessTrans(cursor.value, cs[i].id, cs[|cs| - 1].id);
      }
    }
    AfterNone(cs, cursor);
  }

  // The cursor of the j-th chunk leaves the chunks from there on.
  lemma CursorCuts(cs: seq<Chunk>, j: nat)
    requires Increasing(cs) && 0 < j <= |cs|
    ensures After(cs, Some(cs[j - 1].id)) == cs[j..]
  {
    hide Past, After, Less, Increasing;
    var c := Some(cs[j - 1].id);
    forall i | 0 <= i < |cs|
      ensures Past(c, cs[i].id) <==> j <= i
    {
      PastCursor(cs, j - 1, i);
    }
    assert cs == cs[..j] + cs[j..];
    AfterConcat(cs[..j], cs[j..], c);
    AfterNone(cs[..j], c);
    AfterAll(cs[j..], c);
  }

  lemma PastCursor(cs: seq<Chunk>, at: nat, i: nat)
    requires Increasing(cs) && at < |cs| && i < |cs|
    ensures Past(Some(cs[at].id), cs[i].id) <==> at < i
  {
    hide Less;
    LessIrreflexive(cs[at].id);
    if i < at {
      assert Less(cs[i].id, cs[at].id);
      LessAsym(cs[i].id, cs[at].id);
    }
  }

  // Each of the rows adds at least one chunk past the cursor.
  lemma {:induction false} OneEach(rows: seq<Row>, cursor: Option<Bytes>)
    requires AllPass(rows, cursor)
    ensures |After(Chunks(rows), cursor)| >= |rows|
  {
    if rows != [] {
      var cs := ChunksOf(rows[0]);
      OneEach(rows[1..], cursor);
      AfterConcat(cs, Chunks(rows[1..]), cursor);
      var n := |cs| - 1;
      assert cs == cs[..n] + [cs[n]];
      AfterConcat(cs[..n], [cs[n]], cursor);
    }
  }

  lemma {:induction false} ChunksConcat(a: seq<Row>, b: seq<Row>)
    ensures Chunks(a + b) == Chunks(a) + Chunks(b)
  {
    hide ChunksOf;
    if a == [] {
      assert a + b == b;
    } else {
      ChunksConcat(a[1..], b);
      assert (a + b)[1..] == a[1..] + b && (a + b)[0] == a[0];
      assert ChunksOf(a[0]) + (Chunks(a[1..]) + Chunks(b)) == (ChunksOf(a[0]) + Chunks(a[1..])) + Chunks(b);
    }
  }

  ghost predicate AllPass(rows: seq<Row>, cursor: Option<Bytes>) {
    forall i | 0 <= i < |rows| :: Data(rows[i]) && Past(cursor, LastId(rows[i]))
  }

  lemma {:induction false} PassingAll(rows: seq<Row>, cursor: Option<Bytes>)
    requires forall i | 0 <= i < |rows| :: Data(rows[i])
    ensures AllPass(Passing(rows, cursor), cursor)
  {
    hide Data;
    if rows != [] {
      PassingAll(rows[1..], cursor);
    }
  }

  // One row more than the limit is enough rows.
  lemma LimitIsEnough(rows: seq<Row>, cursor: Option<Bytes>, limit: nat)
    requires AllPass(rows, cursor)
    ensures var some, all := After(Chunks(UpTo(rows, limit + 1)), cursor), After(Chunks(rows), cursor);
            UpTo(some, limit) == UpTo(all, limit) && (|some| > limit <==> |all| > limit)
  {
    hide Data, After, Chunks, Past;
    if limit + 1 < |rows| {
      var a, b := rows[..limit + 1], rows[limit + 1..];
      assert rows == a + b;
      ChunksConcat(a, b);
      AfterConcat(Chunks(a), Chunks(b), cursor);
      OneEach(a, cursor);
    } else {
      assert UpTo(rows, limit + 1) == rows;
    }
  }

  // The cursor a reader holds after `j` chunks.
  function CursorAt(list: seq<Chunk>, j: nat): Option<Cursor>
    requires j <= |list|
  {
    if j == 0 then None else Some(Cursor(list[j - 1].id, j))
  }

  // From the cursor after `j` chunks, a page holds the next ones of the list with their
  // indices, and says whether any follow.
  lemma PageIsSlice(rows: seq<Row>, limit: nat, j: nat)
    requires Stored(rows) && limit >= 1 && j <= |Logical(rows)|
    ensures var list := Logical(rows);
            var end := if j + limit < |list| then j + limit else |list|;
            GetChunks(rows, limit, CursorAt(list, j))
            == Page(Items(list[j..end], j), if end < |list| then CursorAt(list, end) else None,
                    end < |list|, FirstEof(rows).Some?)
  {
    hide Stored, Data, Less, Live, Passing, After, Chunks, Select, FirstEof, Items;
    var list := Logical(rows);
    var from := if j == 0 then None else Some(list[j - 1].id);
    RestOfList(rows, j, from);
    SelectsLive(rows, from);
    PassingAll(Live(rows), from);
    LimitIsEnough(Passing(Live(rows), from), from, limit);
    PageOf(rows, limit, j, from);
  }

  lemma PageOf(rows: seq<Row>, limit: nat, j: nat, from: Option<Bytes>)
    requires limit >= 1 && j <= |Logical(rows)|
    requires from == if j == 0 then None else Some(Logical(rows)[j - 1].id)
    requires var some := After(Chunks(UpTo(Select(rows, FirstEof(rows), from), limit + 1)), from);
             && UpTo(some, limit) == UpTo(Logical(rows)[j..], limit)
             && (|some| > limit <==> |Logical(rows)[j..]| > limit)
    ensures var list := Logical(rows);
            var end := if j + limit < |list| then j + limit else |list|;
            GetChunks(rows, limit, CursorAt(list, j))
            == Page(Items(list[j..end], j), if end < |list| then CursorAt(list, end) else None,
                    end < |list|, FirstEof(rows).Some?)
  {
    hide Logical, After, Chunks, Select, FirstEof, Items;
    var list := Logical(rows);
    var end := if j + limit < |list| then j + limit else |list|;
    assert UpTo(list[j..], limit) == list[j..end];
    if end < |list| {
      assert list[j..end][end - j - 1] == list[end - 1];
    }
  }

  lemma RestOfList(rows: seq<Row>, j: nat, from: Option<Bytes>)
    requires Stored(rows) && j <= |Logical(rows)|
    requires from == if j == 0 then None else Some(Logical(rows)[j - 1].id)
    ensures After(Chunks(Passing(Live(rows), from)), from) == Logical(rows)[j..]
  {
    LiveApart(rows);
    ChunksIncrease(Live(rows));
    PassingIsEnough(Live(rows), from);
    if j == 0 {
      AfterAll(Logical(rows), None);
    } else {
      CursorCuts(Logical(rows), j);
    }
  }

  // A reader that follows the cursors with any limits of at least one.
  method ReadAll(rows: seq<Row>, limits: nat -> nat) returns (all: seq<Item>)
    requires Stored(rows) && forall k :: limits(k) >= 1
    ensures all == Items(Logical(rows), 0)
  {
    hide Stored, GetChunks, Logical, Items;
    all := [];
    var cursor: Option<Cursor> := None;
    var more, pages := true, 0;
    ghost var list := Logical(rows);
    assert all == Items(list[..0], 0);
    while more
      invariant |all| <= |list| && all == Items(list[..|all|], 0)
      invariant more ==> cursor == CursorAt(list, |all|)
      invariant !more ==> |all| == |list|
      decreases |list| - |all|, if more then 1 else 0
    {
      var limit := limits(pages);
      PageIsSlice(rows, limit, |all|);
      ghost var end := if |all| + limit < |list| then |all| + limit else |list|;
      ItemsJoin(list, |all|, end);
      var page := GetChunks(rows, limit, cursor);
      all, cursor, more, pages := all + page.items, page.cursor, page.hasMore, pages + 1;
    }
    assert list[..|list|] == list;
  }

  lemma ItemsJoin(list: seq<Chunk>, j: nat, end: nat)
    requires j <= end <= |list|
    ensures Items(list[..j], 0) + Items(list[j..end], j) == Items(list[..end], 0)
  {
  }
}
