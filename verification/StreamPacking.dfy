/**
 The greedy packer: what it produces, that nothing is lost, and that no split of the same
 chunks in the same order under the same limits needs fewer blocks.
 */
module StreamPacking {
  import opened Options
  import opened StreamBlocks

  function Flat<T>(ss: seq<seq<T>>): seq<T> {
    if ss == [] then [] else ss[0] + Flat(ss[1..])
  }

  lemma FlatCons<T>(x: seq<T>, rest: seq<seq<T>>)
    ensures Flat([x] + rest) == x + Flat(rest)
  {
    assert ([x] + rest)[1..] == rest;
  }

  lemma FlatOne<T>(x: seq<T>)
    ensures Flat([x]) == x
  {
    assert [x][1..] == [];
  }

  lemma {:induction false} FlatConcat<T>(a: seq<seq<T>>, b: seq<seq<T>>)
    ensures Flat(a + b) == Flat(a) + Flat(b)
  {
    if a == [] {
      assert a + b == b;
    } else {
      FlatConcat(a[1..], b);
      FlatCons(a[0], a[1..] + b);
      assert a + b == [a[0]] + (a[1..] + b);
      hide Flat;
      assert a[0] + (Flat(a[1..]) + Flat(b)) == (a[0] + Flat(a[1..])) + Flat(b);
    }
  }

  // What a block may hold: a chunk too big for any block gets one of its own.
  predicate Allowed(g: seq<Chunk>, maxChunks: nat, maxBytes: nat) {
    |g| <= maxChunks && (|g| >= 2 ==> Bytesize(g) <= maxBytes)
  }

  // How many chunks the block that begins with `s[..k]`, of `bytes` bytes, will hold.
  function Take(s: seq<Chunk>, k: nat, bytes: nat, maxChunks: nat, maxBytes: nat): (n: nat)
    requires k <= |s|
    ensures k <= n <= |s|
    decreases |s| - k
  {
    if k < |s| && k < maxChunks && bytes + Size(s[k]) <= maxBytes
    then Take(s, k + 1, bytes + Size(s[k]), maxChunks, maxBytes)
    else k
  }

  function Groups(s: seq<Chunk>, maxChunks: nat, maxBytes: nat): seq<seq<Chunk>> {
    if s == [] then []
    else
      var n := Take(s, 1, Size(s[0]), maxChunks, maxBytes);
      [s[..n]] + Groups(s[n..], maxChunks, maxBytes)
  }

  lemma GroupsHead(s: seq<Chunk>, maxChunks: nat, maxBytes: nat) returns (n: nat)
    requires s != []
    ensures 1 <= n <= |s| && n == Take(s, 1, Size(s[0]), maxChunks, maxBytes)
    ensures Groups(s, maxChunks, maxBytes) == [s[..n]] + Groups(s[n..], maxChunks, maxBytes)
  {
    n := Take(s, 1, Size(s[0]), maxChunks, maxBytes);
  }

  lemma PrefixPush(s: seq<Chunk>, k: nat)
    requires k < |s|
    ensures Bytesize(s[..k + 1]) == Bytesize(s[..k]) + Size(s[k])
  {
    assert s[..k + 1] == s[..k] + [s[k]];
    BytesizePush(s[..k], s[k]);
  }

  lemma {:induction false} TakeAllowed(s: seq<Chunk>, k: nat, maxChunks: nat, maxBytes: nat)
    requires 1 <= k <= |s| && Allowed(s[..k], maxChunks, maxBytes)
    ensures Allowed(s[..Take(s, k, Bytesize(s[..k]), maxChunks, maxBytes)], maxChunks, maxBytes)
    decreases |s| - k
  {
    if k < |s| && k < maxChunks && Bytesize(s[..k]) + Size(s[k]) <= maxBytes {
      PrefixPush(s, k);
      TakeAllowed(s, k + 1, maxChunks, maxBytes);
    }
  }

  // The block is as long as it can be.
  lemma {:induction false} TakeLongest(s: seq<Chunk>, k: nat, m: nat, maxChunks: nat, maxBytes: nat)
    requires 1 <= k <= |s| && m <= |s| && Allowed(s[..m], maxChunks, maxBytes)
    ensures m <= Take(s, k, Bytesize(s[..k]), maxChunks, maxBytes)
    decreases |s| - k
  {
    if k < m {
      PrefixPush(s, k);
      PrefixSize(s[..m], k + 1);
      assert s[..m][..k + 1] == s[..k + 1];
      TakeLongest(s, k + 1, m, maxChunks, maxBytes);
    }
  }

  lemma FirstBytes(s: seq<Chunk>)
    requires s != []
    ensures Bytesize(s[..1]) == Size(s[0])
  {
    assert s[..1][1..] == [];
  }

  lemma {:induction false} GroupsFlat(s: seq<Chunk>, maxChunks: nat, maxBytes: nat)
    ensures Flat(Groups(s, maxChunks, maxBytes)) == s
  {
    if s != [] {
      hide Groups, Flat, Take;
      var n := GroupsHead(s, maxChunks, maxBytes);
      GroupsFlat(s[n..], maxChunks, maxBytes);
      FlatCons(s[..n], Groups(s[n..], maxChunks, maxBytes));
      assert s == s[..n] + s[n..];
    }
  }

  ghost predicate Within(gs: seq<seq<Chunk>>, maxChunks: nat, maxBytes: nat) {
    forall i | 0 <= i < |gs| :: gs[i] != [] && Allowed(gs[i], maxChunks, maxBytes)
  }

  lemma {:induction false} GroupsWithin(s: seq<Chunk>, maxChunks: nat, maxBytes: nat)
    requires maxChunks >= 1
    ensures Within(Groups(s, maxChunks, maxBytes), maxChunks, maxBytes)
  {
    if s != [] {
      hide Groups, Take;
      var n := GroupsHead(s, maxChunks, maxBytes);
      FirstBytes(s);
      TakeAllowed(s, 1, maxChunks, maxBytes);
      GroupsWithin(s[n..], maxChunks, maxBytes);
    }
  }

  // The groups are the chunks, each within the limits and none empty.
  lemma GroupsSplit(s: seq<Chunk>, maxChunks: nat, maxBytes: nat)
    requires maxChunks >= 1
    ensures var gs := Groups(s, maxChunks, maxBytes);
            && Flat(gs) == s
            && forall i | 0 <= i < |gs| :: gs[i] != [] && Allowed(gs[i], maxChunks, maxBytes)
  {
    hide Groups, Flat, Allowed;
    GroupsFlat(s, maxChunks, maxBytes);
    GroupsWithin(s, maxChunks, maxBytes);
  }

  // -------------------------------------------------------------------------
  // Fewest blocks

  // Part of a block that is within the limits is too.
  lemma {:induction false} AllowedTail(g: seq<Chunk>, j: nat, maxChunks: nat, maxBytes: nat)
    requires j <= |g| && Allowed(g, maxChunks, maxBytes)
    ensures Allowed(g[j..], maxChunks, maxBytes)
  {
    if j > 0 {
      AllowedTail(g[1..], j - 1, maxChunks, maxBytes);
      assert g[j..] == g[1..][j - 1..];
    } else {
      assert g[0..] == g;
    }
  }

  // Where a cut of two lists put together falls.
  lemma Cut<T>(a: seq<T>, b: seq<T>, j: nat)
    requires j <= |a| + |b|
    ensures (a + b)[j..] == if j <= |a| then a[j..] + b else b[j - |a|..]
  {
  }

  // Any split of chunks that `s` is the end of has at least as many blocks as `s` gets.
  lemma {:induction false} NoSplitIsShorter(s: seq<Chunk>, j: nat, parts: seq<seq<Chunk>>, maxChunks: nat, maxBytes: nat)
    requires maxChunks >= 1 && j <= |Flat(parts)| && s == Flat(parts)[j..]
    requires forall i | 0 <= i < |parts| :: Allowed(parts[i], maxChunks, maxBytes)
    ensures |Groups(s, maxChunks, maxBytes)| <= |parts|
    decreases |parts|
  {
    if s != [] {
      var p, rest := parts[0], parts[1..];
      assert Flat(parts) == p + Flat(rest);
      hide Groups, Take, Flat, Allowed;
      Cut(p, Flat(rest), j);
      if |p| < j {
        NoSplitIsShorter(s, j - |p|, rest, maxChunks, maxBytes);
      } else {
        assert Allowed(p, maxChunks, maxBytes);
        var n := FirstCovers(s, p[j..], Flat(rest), p, j, maxChunks, maxBytes);
        NoSplitIsShorter(s[n..], n - |p[j..]|, rest, maxChunks, maxBytes);
      }
    }
  }

  // The first block holds at least what any allowed one holds of the same beginning.
  lemma FirstCovers(s: seq<Chunk>, a: seq<Chunk>, b: seq<Chunk>, p: seq<Chunk>, j: nat, maxChunks: nat, maxBytes: nat)
    returns (n: nat)
    requires s != [] && s == a + b && j <= |p| && a == p[j..] && Allowed(p, maxChunks, maxBytes)
    ensures |a| <= n <= |s| && s[n..] == b[n - |a|..]
    ensures |Groups(s, maxChunks, maxBytes)| == 1 + |Groups(s[n..], maxChunks, maxBytes)|
  {
    hide Groups, Take;
    n := GroupsHead(s, maxChunks, maxBytes);
    AllowedTail(p, j, maxChunks, maxBytes);
    assert s[..|a|] == a;
    FirstBytes(s);
    TakeLongest(s, 1, |a|, maxChunks, maxBytes);
    Cut(a, b, n);
  }

  lemma GreedyIsMinimal(s: seq<Chunk>, parts: seq<seq<Chunk>>, maxChunks: nat, maxBytes: nat)
    requires maxChunks >= 1 && Flat(parts) == s
    requires forall i | 0 <= i < |parts| :: Allowed(parts[i], maxChunks, maxBytes)
    ensures |Groups(s, maxChunks, maxBytes)| <= |parts|
  {
    NoSplitIsShorter(s, 0, parts, maxChunks, maxBytes);
  }

  // -------------------------------------------------------------------------
  // The packing loop

  predicate Blocks(gs: seq<seq<Chunk>>) {
    forall i | 0 <= i < |gs| :: gs[i] != [] && AllFit(gs[i])
  }

  function BlockRows(gs: seq<seq<Chunk>>): (rows: seq<Row>)
    requires Blocks(gs)
    ensures |rows| == |gs| && forall i | 0 <= i < |gs| :: rows[i] == BlockRow(gs[i])
  {
    seq(|gs|, i requires 0 <= i < |gs| => BlockRow(gs[i]))
  }

  lemma BlockRowsPush(gs: seq<seq<Chunk>>, g: seq<Chunk>)
    requires Blocks(gs) && g != [] && AllFit(g)
    ensures Blocks(gs + [g]) && BlockRows(gs + [g]) == BlockRows(gs) + [BlockRow(g)]
  {
    hide BlockRow, AllFit;
  }

  // Every group is a stretch of the chunks.
  lemma {:induction false} GroupsAreSlices(s: seq<Chunk>, i: nat, maxChunks: nat, maxBytes: nat) returns (a: nat, b: nat)
    requires i < |Groups(s, maxChunks, maxBytes)|
    ensures a < b <= |s| && Groups(s, maxChunks, maxBytes)[i] == s[a..b]
    decreases |s|
  {
    assert s != [];
    hide Groups, Take;
    var n := GroupsHead(s, maxChunks, maxBytes);
    if i == 0 {
      a, b := 0, n;
    } else {
      a, b := GroupsAreSlices(s[n..], i - 1, maxChunks, maxBytes);
      assert s[n..][a..b] == s[a + n..b + n];
      a, b := a + n, b + n;
    }
  }

  lemma GroupsFit(s: seq<Chunk>, maxChunks: nat, maxBytes: nat)
    requires AllFit(s)
    ensures Blocks(Groups(s, maxChunks, maxBytes))
  {
    var gs := Groups(s, maxChunks, maxBytes);
    forall i | 0 <= i < |gs|
      ensures gs[i] != [] && AllFit(gs[i])
    {
      var a, b := GroupsAreSlices(s, i, maxChunks, maxBytes);
    }
  }

  // Where the loop stands: `done` blocks are flushed, and the one that begins at `from` is
  // open and holds the chunks up to `n`.
  ghost predicate Packing(chunks: seq<Chunk>, done: seq<seq<Chunk>>, from: nat, n: nat, maxChunks: nat, maxBytes: nat) {
    && from <= n <= |chunks|
    && Groups(chunks, maxChunks, maxBytes) == done + Groups(chunks[from..], maxChunks, maxBytes)
    && (from < n ==> Reaches(chunks[from..], n - from, maxChunks, maxBytes))
  }

  // The block that begins `s` holds at least `k` chunks.
  ghost predicate Reaches(s: seq<Chunk>, k: nat, maxChunks: nat, maxBytes: nat) {
    0 < k <= |s| && Take(s, 1, Size(s[0]), maxChunks, maxBytes) == Take(s, k, Bytesize(s[..k]), maxChunks, maxBytes)
  }

  lemma Flushes(chunks: seq<Chunk>, done: seq<seq<Chunk>>, from: nat, n: nat, maxChunks: nat, maxBytes: nat)
    requires Packing(chunks, done, from, n, maxChunks, maxBytes) && from < n
    requires n == |chunks| || n - from >= maxChunks || Bytesize(chunks[from..n]) + Size(chunks[n]) > maxBytes
    ensures Packing(chunks, done + [chunks[from..n]], n, n, maxChunks, maxBytes)
  {
    hide Bytesize, Size;
    var s, k := chunks[from..], n - from;
    assert s[..k] == chunks[from..n] && s[k..] == chunks[n..];
    assert n < |chunks| ==> s[k] == chunks[n];
    assert Take(s, k, Bytesize(s[..k]), maxChunks, maxBytes) == k;
    assert Groups(s, maxChunks, maxBytes) == [s[..k]] + Groups(s[k..], maxChunks, maxBytes);
    assert done + ([s[..k]] + Groups(s[k..], maxChunks, maxBytes))
        == (done + [s[..k]]) + Groups(s[k..], maxChunks, maxBytes);
  }

  lemma Opens(chunks: seq<Chunk>, done: seq<seq<Chunk>>, n: nat, maxChunks: nat, maxBytes: nat)
    requires Packing(chunks, done, n, n, maxChunks, maxBytes) && n < |chunks|
    ensures Packing(chunks, done, n, n + 1, maxChunks, maxBytes)
  {
    hide Groups, Take;
    FirstBytes(chunks[n..]);
  }

  lemma Extends(chunks: seq<Chunk>, done: seq<seq<Chunk>>, from: nat, n: nat, maxChunks: nat, maxBytes: nat)
    requires Packing(chunks, done, from, n, maxChunks, maxBytes) && from < n < |chunks|
    requires n - from < maxChunks && Bytesize(chunks[from..n]) + Size(chunks[n]) <= maxBytes
    ensures Packing(chunks, done, from, n + 1, maxChunks, maxBytes)
  {
    hide Groups, Bytesize, Size;
    var s, k := chunks[from..], n - from;
    assert s[..k] == chunks[from..n] && s[k] == chunks[n];
    PrefixPush(s, k);
  }

  // Puts the chunk at `n` into the open block, after flushing that if it is full.
  method Add(chunks: seq<Chunk>, n: nat, blocks: seq<Row>, pending: seq<Chunk>, pendingBytes: nat,
             maxChunks: nat, maxBytes: nat, ghost done: seq<seq<Chunk>>, ghost from: nat)
    returns (blocks': seq<Row>, pending': seq<Chunk>, pendingBytes': nat, ghost done': seq<seq<Chunk>>, ghost from': nat)
    requires n < |chunks| && AllFit(chunks[..n]) && Fits(chunks[n])
    requires Packing(chunks, done, from, n, maxChunks, maxBytes)
    requires pending == chunks[from..n] && pendingBytes == Bytesize(pending)
    requires Blocks(done) && blocks == BlockRows(done)
    ensures Packing(chunks, done', from', n + 1, maxChunks, maxBytes) && from' <= n
    ensures pending' == chunks[from'..n + 1] && pendingBytes' == Bytesize(pending')
    ensures Blocks(done') && blocks' == BlockRows(done')
  {
    assert from <= n;
    hide Packing, Groups, Take, Bytesize, BlockRows, BlockRow, Blocks;
    var chunk := chunks[n];
    BytesizePush(pending, chunk);
    blocks', done', from' := blocks, done, from;
    if |pending| > 0 && (|pending| >= maxChunks || pendingBytes + Size(chunk) > maxBytes) {
      Flushes(chunks, done, from, n, maxChunks, maxBytes);
      BlockRowsPush(done, pending);
      var block := EncodeBlock(pending, pendingBytes);
      blocks', done', from' := blocks + [block], done + [pending], n;
      Opens(chunks, done', n, maxChunks, maxBytes);
      pending', pendingBytes' := [chunk], Size(chunk);
      FirstBytes([chunk]);
      assert [chunk][..1] == [chunk];
    } else {
      if |pending| > 0 {
        Extends(chunks, done, from, n, maxChunks, maxBytes);
      } else {
        Opens(chunks, done, n, maxChunks, maxBytes);
      }
      pending', pendingBytes' := pending + [chunk], pendingBytes + Size(chunk);
    }
  }

  // The lengths `writeUInt32BE` can write.
  predicate Writable(cs: seq<Chunk>) {
    forall i | 0 <= i < |cs| :: |cs[i].data| <= MAX_DATA_BYTES
  }

  // The whole loop: it fails exactly on limits or ids it cannot use, and otherwise writes
  // the greedy blocks.
  method PackStreamChunks(chunks: seq<Chunk>, maxChunks: int, maxBytes: int) returns (r: Result<seq<Row>>)
    requires Writable(chunks)
    ensures r.Ok? <==> maxChunks > 0 && maxBytes > 0 && AllFit(chunks)
    ensures r.Ok? ==>
              var gs := Groups(chunks, maxChunks, maxBytes);
              Blocks(gs) && r.value == BlockRows(gs)
  {
    hide Packing, Groups, Take, Bytesize, BlockRows, BlockRow;
    if maxChunks <= 0 { return Err("maxChunks must be a positive safe integer"); }
    if maxBytes <= 0 { return Err("maxBytes must be a positive safe integer"); }
    var blocks: seq<Row> := [];
    var pending: seq<Chunk> := [];
    var pendingBytes := 0;
    ghost var done: seq<seq<Chunk>> := [];
    ghost var from: nat := 0;
    var n := 0;
    Starts(chunks, maxChunks, maxBytes);
    while n < |chunks|
      invariant from <= n <= |chunks| && AllFit(chunks[..n]) && (n > 0 ==> from < n)
      invariant Packing(chunks, done, from, n, maxChunks, maxBytes)
      invariant pending == chunks[from..n] && pendingBytes == Bytesize(pending)
      invariant Blocks(done) && blocks == BlockRows(done)
    {
      if |chunks[n].id| > MAX_ID_BYTES {
        assert !Fits(chunks[n]);
        return Err("stream chunk id is too long to pack");
      }
      blocks, pending, pendingBytes, done, from :=
        Add(chunks, n, blocks, pending, pendingBytes, maxChunks, maxBytes, done, from);
      n := n + 1;
    }
    assert chunks[..n] == chunks;
    if |pending| > 0 {
      Flushes(chunks, done, from, n, maxChunks, maxBytes);
      BlockRowsPush(done, pending);
      var block := EncodeBlock(pending, pendingBytes);
      blocks, done := blocks + [block], done + [pending];
    }
    Ends(chunks, done, maxChunks, maxBytes);
    return Ok(blocks);
  }

  lemma Starts(chunks: seq<Chunk>, maxChunks: nat, maxBytes: nat)
    ensures Packing(chunks, [], 0, 0, maxChunks, maxBytes) && BlockRows([]) == [] && Bytesize([]) == 0
  {
    assert chunks[0..] == chunks;
    assert [] + Groups(chunks, maxChunks, maxBytes) == Groups(chunks, maxChunks, maxBytes);
  }

  lemma Ends(chunks: seq<Chunk>, done: seq<seq<Chunk>>, maxChunks: nat, maxBytes: nat)
    requires Packing(chunks, done, |chunks|, |chunks|, maxChunks, maxBytes)
    ensures Groups(chunks, maxChunks, maxBytes) == done
  {
    assert chunks[|chunks|..] == [];
  }

  // -------------------------------------------------------------------------
  // Nothing is lost

  function UnpackAll(rows: seq<Row>): Result<seq<Chunk>> {
    if rows == [] then Ok([])
    else match Unpacked(rows[0])
      case Err(e) => Err(e)
      case Ok(cs) => (match UnpackAll(rows[1..])
                      case Err(e) => Err(e)
                      case Ok(rest) => Ok(cs + rest))
  }

  lemma {:induction false} UnpackBlocks(gs: seq<seq<Chunk>>)
    requires Blocks(gs) && forall i | 0 <= i < |gs| :: AllPackable(gs[i])
    ensures UnpackAll(BlockRows(gs)) == Ok(Flat(gs))
  {
    if gs != [] {
      RowIsItsEncoding(BlockRow(gs[0]), gs[0]);
      UnpackBlocks(gs[1..]);
      assert BlockRows(gs)[1..] == BlockRows(gs[1..]);
    }
  }

  // Unpacking every packed block gives back the chunks, in order.
  lemma PackingRoundTrip(chunks: seq<Chunk>, maxChunks: nat, maxBytes: nat)
    requires AllPackable(chunks) && maxChunks > 0
    ensures var gs := Groups(chunks, maxChunks, maxBytes); Blocks(gs) && UnpackAll(BlockRows(gs)) == Ok(chunks)
  {
    var gs := Groups(chunks, maxChunks, maxBytes);
    GroupsFit(chunks, maxChunks, maxBytes);
    forall i | 0 <= i < |gs|
      ensures AllPackable(gs[i])
    {
      var a, b := GroupsAreSlices(chunks, i, maxChunks, maxBytes);
    }
    GroupsSplit(chunks, maxChunks, maxBytes);
    UnpackBlocks(gs);
  }
}
