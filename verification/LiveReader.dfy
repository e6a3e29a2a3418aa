/**
 The live reader: one snapshot of the stored rows, merged with the notifications that
 arrive before it was read (they wait in a buffer) and after it. Wherever the snapshot
 falls among the notifications, each chunk from the start offset on is delivered once and
 in id order, and nothing after the first EOF.
 */
module LiveReader {
  import opened Options
  import opened StreamBlocks
  import opened StreamReading

  datatype Msg = Msg(id: Bytes, data: Bytes, eof: bool)

  // What the closures of `get` share: the last id taken, how many chunks are still to be
  // skipped, whether the EOF was seen, and what the consumer was given.
  datatype Reading = Reading(last: Bytes, offset: int, closed: bool, out: seq<Bytes>)

  function Enqueued(r: Reading, m: Msg): Reading {
    if r.closed || !Less(r.last, m.id) then r
    else if m.eof then r.(last := m.id, closed := true)
    else if r.offset > 0 then r.(last := m.id, offset := r.offset - 1)
    else if m.data != [] then r.(last := m.id, out := r.out + [m.data])
    else r.(last := m.id)
  }

  function EnqueuedAll(r: Reading, ms: seq<Msg>): Reading {
    if ms == [] then r else Enqueued(EnqueuedAll(r, ms[..|ms| - 1]), ms[|ms| - 1])
  }

  // The snapshot, row by row.
  function Messages(row: Row): seq<Msg> {
    if row.eof then [Msg(row.chunkId, row.data, true)]
    else
      var cs := ChunksOf(row);
      seq(|cs|, i requires 0 <= i < |cs| => Msg(cs[i].id, cs[i].data, false))
  }

  function Snapshot(rows: seq<Row>): seq<Msg> {
    if rows == [] then [] else Messages(rows[0]) + Snapshot(rows[1..])
  }

  // The data chunks before the first EOF.
  function Open(ms: seq<Msg>): seq<Bytes> {
    if ms == [] || ms[0].eof then [] else [ms[0].data] + Open(ms[1..])
  }

  function StartAt(start: int, count: nat): nat {
    if start >= 0 then start else if count + start > 0 then count + start else 0
  }

  class Reader {
    var last: Bytes
    var offset: int
    var closed: bool
    var out: seq<Bytes>
    var buffer: Option<seq<Msg>>

    ghost function View(): Reading
      reads this
    {
      Reading(last, offset, closed, out)
    }

    constructor (startIndex: int)
      ensures View() == Reading([], startIndex, false, []) && buffer == Some([])
    {
      last, offset, closed, out, buffer := [], startIndex, false, [], Some([]);
    }

    method Enqueue(msg: Msg)
      modifies this
      ensures View() == Enqueued(old(View()), msg) && buffer == old(buffer)
    {
      if closed || !Less(last, msg.id) { return; }
      last := msg.id;
      if msg.eof {
        closed := true;
        return;
      }
      if offset > 0 {
        offset := offset - 1;
        return;
      }
      if |msg.data| > 0 { out := out + [msg.data]; }
    }

    method OnData(msg: Msg)
      modifies this
      ensures old(buffer).Some? ==> buffer == Some(old(buffer).value + [msg]) && View() == old(View())
      ensures old(buffer).None? ==> buffer == None && View() == Enqueued(old(View()), msg)
    {
      if buffer.Some? {
        buffer := Some(buffer.value + [msg]);
      } else {
        Enqueue(msg);
      }
    }

    method EnqueueAll(ms: seq<Msg>)
      modifies this
      ensures View() == EnqueuedAll(old(View()), ms) && buffer == old(buffer)
    {
      hide Enqueued;
      var i := 0;
      while i < |ms|
        invariant 0 <= i <= |ms| && buffer == old(buffer)
        invariant View() == EnqueuedAll(old(View()), ms[..i])
      {
        Enqueue(ms[i]);
        assert ms[..i + 1][..i] == ms[..i];
        i := i + 1;
      }
      assert ms[..i] == ms;
    }

    // The rows have arrived: they go first, then whatever was buffered meanwhile.
    method Take(rows: seq<Row>)
      requires buffer.Some?
      modifies this
      ensures buffer == None
      ensures View() == EnqueuedAll(old(View()).(offset := StartAt(old(offset), |Open(Snapshot(rows))|)),
                                    Snapshot(rows) + old(buffer).value)
    {
      hide EnqueuedAll, Snapshot, Open;
      var chunks := Snapshot(rows);
      if offset < 0 {
        var dataCount := CountOpen(chunks);
        offset := if dataCount + offset > 0 then dataCount + offset else 0;
      }
      EnqueueAll(chunks + buffer.value);
      buffer := None;
    }
  }

  // The chunks before the first EOF, counted.
  method CountOpen(ms: seq<Msg>) returns (n: nat)
    ensures n == |Open(ms)|
  {
    n := 0;
    assert ms[0..] == ms;
    while n < |ms| && !ms[n].eof
      invariant n <= |ms| && |Open(ms)| == n + |Open(ms[n..])|
    {
      assert ms[n..][1..] == ms[n + 1..];
      n := n + 1;
    }
  }

  // -------------------------------------------------------------------------
  // The snapshot and the list

  lemma {:induction false} OpenConcat(a: seq<Msg>, b: seq<Msg>)
    requires forall i | 0 <= i < |a| :: !a[i].eof
    ensures |Open(a + b)| == |a| + |Open(b)|
    ensures forall i | 0 <= i < |a| :: Open(a + b)[i] == a[i].data
    ensures Open(a + b)[|a|..] == Open(b)
  {
    if a == [] {
      assert a + b == b;
    } else {
      OpenConcat(a[1..], b);
      assert (a + b)[1..] == a[1..] + b && (a + b)[0] == a[0];
      assert Open(a + b)[1..] == Open(a[1..] + b);
    }
  }

  lemma LogicalCons(rows: seq<Row>)
    requires rows != [] && !rows[0].eof
    ensures Logical(rows) == ChunksOf(rows[0]) + Logical(rows[1..])
  {
    hide ChunksOf;
    assert Live(rows)[1..] == Live(rows[1..]);
  }

  // What a snapshot has before its first EOF is the logical list, so that a negative start
  // index counts from the same end `getInfo` reports.
  lemma {:induction false} SnapshotIsLogical(rows: seq<Row>)
    ensures |Open(Snapshot(rows))| == |Logical(rows)|
    ensures forall i | 0 <= i < |Logical(rows)| :: Open(Snapshot(rows))[i] == Logical(rows)[i].data
  {
    if rows != [] {
      if rows[0].eof {
        assert Snapshot(rows)[0].eof;
      } else {
        SnapshotIsLogical(rows[1..]);
        assert Logical(rows) == ChunksOf(rows[0]) + Logical(rows[1..]) by { LogicalCons(rows); }
        hide ChunksOf, Logical, Open;
        OpenConcat(Messages(rows[0]), Snapshot(rows[1..]));
      }
    }
  }

  // -------------------------------------------------------------------------
  // In order

  // Messages in id order, each past the empty id.
  ghost predicate Ordered(ms: seq<Msg>) {
    && (forall i | 0 <= i < |ms| :: ms[i].id != [])
    && (forall i, j | 0 <= i < j < |ms| :: Less(ms[i].id, ms[j].id))
  }

  function NonEmpty(ds: seq<Bytes>): seq<Bytes> {
    if ds == [] then []
    else NonEmpty(ds[..|ds| - 1]) + (if ds[|ds| - 1] != [] then [ds[|ds| - 1]] else [])
  }

  function Drop<T>(s: seq<T>, n: nat): seq<T> {
    if n <= |s| then s[n..] else []
  }

  predicate Closes(ms: seq<Msg>) {
    exists i :: 0 <= i < |ms| && ms[i].eof
  }

  // The state after every message of the stream, in order.
  function Read(ms: seq<Msg>, offset: nat): Reading {
    EnqueuedAll(Reading([], offset, false, []), ms)
  }

  ghost predicate Good(ms: seq<Msg>, offset: nat, r: Reading) {
    && (r.closed <==> Closes(ms))
    && (!r.closed ==> r.last == (if ms == [] then [] else ms[|ms| - 1].id))
    && (!r.closed ==> r.offset == (if |Open(ms)| < offset then offset - |Open(ms)| else 0))
    && (!r.closed ==> |Open(ms)| == |ms|)
    && r.out == NonEmpty(Drop(Open(ms), offset))
  }

  lemma {:induction false} OpenPush(ms: seq<Msg>, m: Msg)
    ensures Open(ms + [m]) == if Closes(ms) || m.eof then Open(ms) else Open(ms) + [m.data]
  {
    if ms == [] {
      assert ms + [m] == [m] && [m][1..] == [];
    } else {
      assert (ms + [m])[1..] == ms[1..] + [m] && (ms + [m])[0] == ms[0];
      OpenPush(ms[1..], m);
      assert Closes(ms) <==> ms[0].eof || Closes(ms[1..]) by { ClosesCons(ms); }
    }
  }

  lemma ClosesCons(ms: seq<Msg>)
    requires ms != []
    ensures Closes(ms) <==> ms[0].eof || Closes(ms[1..])
  {
    if i :| 0 <= i < |ms| && ms[i].eof {
      assert i > 0 ==> ms[1..][i - 1].eof;
    }
    if i :| 0 <= i < |ms[1..]| && ms[1..][i].eof {
      assert ms[i + 1].eof;
    }
  }

  lemma ClosesPush(ms: seq<Msg>, m: Msg)
    ensures Closes(ms + [m]) <==> Closes(ms) || m.eof
  {
    if i :| 0 <= i < |ms| && ms[i].eof {
      assert (ms + [m])[i].eof;
    }
    if m.eof {
      assert (ms + [m])[|ms|].eof;
    }
  }

  lemma {:induction false} ReadsInOrder(ms: seq<Msg>, offset: nat)
    requires Ordered(ms)
    ensures Good(ms, offset, Read(ms, offset))
  {
    if ms == [] {
      assert !Closes(ms);
    } else {
      var n := |ms| - 1;
      var init, m := ms[..n], ms[n];
      ReadsInOrder(init, offset);
      assert ms == init + [m];
      OpenPush(init, m);
      ClosesPush(init, m);
      assert n > 0 ==> Less(ms[n - 1].id, m.id);
      Advances(init, m, offset, Read(init, offset));
    }
  }

  lemma NonEmptyPush(ds: seq<Bytes>, d: Bytes)
    ensures NonEmpty(ds + [d]) == NonEmpty(ds) + (if d != [] then [d] else [])
  {
    assert (ds + [d])[..|ds|] == ds;
  }

  lemma Advances(init: seq<Msg>, m: Msg, offset: nat, r: Reading)
    requires Good(init, offset, r)
    requires Open(init + [m]) == if Closes(init) || m.eof then Open(init) else Open(init) + [m.data]
    requires Closes(init + [m]) <==> Closes(init) || m.eof
    requires m.id != [] && (init != [] ==> Less(init[|init| - 1].id, m.id))
    ensures Good(init + [m], offset, Enqueued(r, m))
  {
    hide Closes, Open, NonEmpty;
    if !r.closed {
      assert Less(r.last, m.id) by { if init == [] { FirstPast(m.id); } }
      hide Less;
      if !m.eof && |Open(init)| >= offset {
        assert Drop(Open(init) + [m.data], offset) == Drop(Open(init), offset) + [m.data];
        NonEmptyPush(Drop(Open(init), offset), m.data);
      } else if !m.eof {
        assert Drop(Open(init) + [m.data], offset) == [] == Drop(Open(init), offset);
      }
    }
  }

  lemma FirstPast(id: Bytes)
    requires id != []
    ensures Less([], id)
  {
  }

  // -------------------------------------------------------------------------
  // Any placement of the snapshot

  // Which messages were notified while the reader listened: in order, perhaps some twice,
  // and each that the snapshot of the first `s` did not contain.
  ghost predicate Notified(at: seq<nat>, total: nat, s: nat) {
    && InRange(at, total)
    && (forall i, j | 0 <= i < j < |at| :: at[i] <= at[j])
    && (forall k | s <= k < total :: k in at)
  }

  predicate InRange(at: seq<nat>, total: nat) {
    forall i | 0 <= i < |at| :: at[i] < total
  }

  function Picked(ms: seq<Msg>, at: seq<nat>): (ps: seq<Msg>)
    requires InRange(at, |ms|)
    ensures |ps| == |at| && forall i | 0 <= i < |at| :: ps[i] == ms[at[i]]
  {
    seq(|at|, i requires 0 <= i < |at| => ms[at[i]])
  }

  // A message that was already taken changes nothing.
  lemma Again(ms: seq<Msg>, k: nat, i: nat, offset: nat)
    requires Ordered(ms) && i < k <= |ms|
    ensures Enqueued(Read(ms[..k], offset), ms[i]) == Read(ms[..k], offset)
  {
    assert Ordered(ms[..k]);
    ReadsInOrder(ms[..k], offset);
    var r := Read(ms[..k], offset);
    if !r.closed {
      assert r.last == ms[k - 1].id;
      if i < k - 1 { LessAsym(ms[i].id, ms[k - 1].id); }
      LessIrreflexive(ms[i].id);
    }
  }

  // How much of the stream has been taken after the first `n` notifications.
  function Reached(at: seq<nat>, n: nat, s: nat): nat
    requires n <= |at|
  {
    if n == 0 then s
    else if at[n - 1] >= Reached(at, n - 1, s) then at[n - 1] + 1
    else Reached(at, n - 1, s)
  }

  lemma {:induction false} NoGap(at: seq<nat>, total: nat, s: nat, n: nat)
    requires Notified(at, total, s) && s <= total && n <= |at|
    ensures s <= Reached(at, n, s) <= total
    ensures n < |at| ==> at[n] <= Reached(at, n, s)
    ensures forall i | 0 <= i < n :: at[i] < Reached(at, n, s)
  {
    if n > 0 {
      NoGap(at, total, s, n - 1);
    }
    var k := Reached(at, n, s);
    if n < |at| && k < total {
      assert k in at;
      var x :| 0 <= x < |at| && at[x] == k;
      assert x >= n;
    }
  }

  lemma EnqueuedPush(r: Reading, ms: seq<Msg>, n: nat)
    requires 0 < n <= |ms|
    ensures EnqueuedAll(r, ms[..n]) == Enqueued(EnqueuedAll(r, ms[..n - 1]), ms[n - 1])
  {
    hide Enqueued;
    assert ms[..n][..n - 1] == ms[..n - 1];
  }

  // One more notification: again, or the next message.
  lemma TakesOne(ms: seq<Msg>, k: nat, i: nat, offset: nat)
    requires Ordered(ms) && i <= k <= |ms| && i < |ms|
    ensures Enqueued(Read(ms[..k], offset), ms[i]) == Read(ms[..if i < k then k else k + 1], offset)
  {
    hide Enqueued, Read, Ordered;
    if i < k {
      Again(ms, k, i, offset);
    } else {
      ReadOne(ms, k, offset);
    }
  }

  lemma {:induction false} TakenSoFar(ms: seq<Msg>, at: seq<nat>, s: nat, n: nat, offset: nat)
    requires Ordered(ms) && Notified(at, |ms|, s) && InRange(at, |ms|) && s <= |ms| && n <= |at|
    ensures Reached(at, n, s) <= |ms|
    ensures EnqueuedAll(Read(ms[..s], offset), Picked(ms, at)[..n]) == Read(ms[..Reached(at, n, s)], offset)
  {
    hide Enqueued, Read, Ordered, Notified;
    NoGap(at, |ms|, s, n);
    if n > 0 {
      hide EnqueuedAll, Picked;
      TakenSoFar(ms, at, s, n - 1, offset);
      NoGap(at, |ms|, s, n - 1);
      EnqueuedPush(Read(ms[..s], offset), Picked(ms, at), n);
      TakesOne(ms, Reached(at, n - 1, s), at[n - 1], offset);
    }
  }

  lemma ReadOne(ms: seq<Msg>, k: nat, offset: nat)
    requires k < |ms|
    ensures Read(ms[..k + 1], offset) == Enqueued(Read(ms[..k], offset), ms[k])
  {
    hide Enqueued;
    assert ms[..k + 1][..k] == ms[..k];
  }

  lemma {:induction false} EnqueuedConcat(r: Reading, a: seq<Msg>, b: seq<Msg>)
    ensures EnqueuedAll(r, a + b) == EnqueuedAll(EnqueuedAll(r, a), b)
  {
    hide Enqueued;
    if b == [] {
      assert a + b == a;
    } else {
      var n := |b| - 1;
      assert (a + b)[..|a| + n] == a + b[..n] && (a + b)[|a| + n] == b[n];
      EnqueuedConcat(r, a, b[..n]);
    }
  }

  // Snapshot and notifications together give what reading the whole stream once gives.
  lemma SnapshotPlacement(ms: seq<Msg>, at: seq<nat>, s: nat, offset: nat)
    requires Ordered(ms) && Notified(at, |ms|, s) && s <= |ms|
    ensures EnqueuedAll(Reading([], offset, false, []), ms[..s] + Picked(ms, at)) == Read(ms, offset)
  {
    var n := |at|;
    TakenSoFar(ms, at, s, n, offset);
    NoGap(at, |ms|, s, n);
    var k := Reached(at, n, s);
    if s < |ms| {
      assert |ms| - 1 in at;
    }
    assert ms[..k] == ms && Picked(ms, at)[..n] == Picked(ms, at);
    EnqueuedConcat(Reading([], offset, false, []), ms[..s], Picked(ms, at));
  }

  // Notifications, as they come.
  method Listen(reader: Reader, notes: seq<Msg>)
    modifies reader
    ensures old(reader.buffer).Some? ==>
              reader.buffer == Some(old(reader.buffer).value + notes) && reader.View() == old(reader.View())
    ensures old(reader.buffer).None? ==>
              reader.buffer == None && reader.View() == EnqueuedAll(old(reader.View()), notes)
  {
    hide Enqueued;
    var i := 0;
    assert old(reader.buffer).Some? ==> old(reader.buffer).value + notes[..0] == old(reader.buffer).value;
    while i < |notes|
      invariant 0 <= i <= |notes|
      invariant old(reader.buffer).Some? ==>
                  reader.buffer == Some(old(reader.buffer).value + notes[..i]) && reader.View() == old(reader.View())
      invariant old(reader.buffer).None? ==>
                  reader.buffer == None && reader.View() == EnqueuedAll(old(reader.View()), notes[..i])
    {
      reader.OnData(notes[i]);
      assert notes[..i + 1] == notes[..i] + [notes[i]] && notes[..i + 1][..i] == notes[..i];
      assert old(reader.buffer).Some? ==>
          (old(reader.buffer).value + notes[..i]) + [notes[i]] == old(reader.buffer).value + notes[..i + 1];
      i := i + 1;
    }
    assert notes[..i] == notes;
  }

  // A whole session: `early` notifications come while the rows are being read, the rest
  // afterwards. `ms` is everything ever written, of which the rows are the first `s`.
  method Session(rows: seq<Row>, notes: seq<Msg>, early: nat, start: int,
                 ghost ms: seq<Msg>, ghost at: seq<nat>, ghost s: nat)
    returns (out: seq<Bytes>, closed: bool)
    requires Ordered(ms) && s <= |ms| && Snapshot(rows) == ms[..s]
    requires Notified(at, |ms|, s) && notes == Picked(ms, at) && early <= |notes|
    ensures out == NonEmpty(Drop(Open(ms), StartAt(start, |Logical(rows)|)))
    ensures closed <==> Closes(ms)
  {
    hide EnqueuedAll, Snapshot, Open, Ordered, Notified, Logical, Picked, Closes;
    var reader := new Reader(start);
    Listen(reader, notes[..early]);
    assert reader.buffer == Some(notes[..early]) by { assert [] + notes[..early] == notes[..early]; }
    reader.Take(rows);
    Listen(reader, notes[early..]);
    SnapshotIsLogical(rows);
    ghost var offset := StartAt(start, |Logical(rows)|);
    ghost var begun := Reading([], offset, false, []);
    EnqueuedConcat(begun, ms[..s] + notes[..early], notes[early..]);
    assert (ms[..s] + notes[..early]) + notes[early..] == ms[..s] + notes;
    SnapshotPlacement(ms, at, s, offset);
    ReadsInOrder(ms, offset);
    out, closed := reader.out, reader.closed;
  }
}
