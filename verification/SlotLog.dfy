/**
 Why a run's log is a log: the slots under it.

 A writer does not lock the run. Each insert computes the slot after the highest one it
 can see and then tries to occupy it; by then the slot may be another writer's. If that
 writer committed, the insert does nothing and is tried again with a fresh read; if it is
 still open, the insert waits for its end; a transaction may take several slots, and may
 roll back at any point. The committed slots nevertheless are always 1..n, only one open
 transaction ever holds slots, and what a commit does is append to the end. Everything
 above this module (`Database.Append`, the `Tail` key) relies on exactly that.
 */
module SlotLog {
  import opened Options

  // Slots 1..n in order are `log[0..n]`.
  type Slots<E> = map<nat, E>

  // `wanted` is the slot the current attempt computed, possibly long ago.
  datatype Writer<E> = Writer(mine: map<nat, E>, wanted: Option<nat>, attempts: nat)

  // `marked` is the run's row in workflow_event_slots; `opener` is the open transaction
  // that holds the run's primary key and is creating the run.
  datatype Store<E> = Store(rows: Slots<E>, marked: bool, opener: Option<nat>, writers: map<nat, Writer<E>>)

  const MAX_ATTEMPTS: nat := 40

  datatype Action<E> =
    | Begin(t: nat)
    | Open(t: nat, first: E)             // insertRunWithCreatedEvent
    | Compute(t: nat)                    // the subselect of the insert
    | TryInsert(t: nat, event: E)        // its insert, on conflict do nothing
    | Commit(t: nat)
    | Rollback(t: nat)

  // `select ... order by id desc limit 1` over the rows the statement sees.
  ghost predicate IsHighest<E>(rows: Slots<E>, n: nat) {
    && (n == 0 || n in rows)
    && forall k | k in rows :: k <= n
  }

  function Sees<E>(s: Store<E>, t: nat): Slots<E>
    requires t in s.writers
  {
    s.rows + s.writers[t].mine
  }

  ghost predicate HeldByOther<E>(s: Store<E>, t: nat, k: nat) {
    exists u :: u in s.writers && u != t && k in s.writers[u].mine
  }

  ghost predicate Next<E>(s: Store<E>, s': Store<E>, a: Action<E>) {
    match a
    case Begin(t) =>
      t !in s.writers && s' == s.(writers := s.writers[t := Writer(map[], None, 0)])
    // The run's key is free and no row holds it; slot 1 has a fixed id, and the insert
    // of a row that is there would raise.
    case Open(t, first) =>
      && t in s.writers && !s.marked && s.opener.None? && s.writers[t].mine == map[]
      && 1 !in s.rows && !HeldByOther(s, t, 1)
      && s' == s.(opener := Some(t), writers := s.writers[t := s.writers[t].(mine := map[1 := first], wanted := None)])
    // A writer that finds no marker gives the event a legacy id: it takes no slot.
    case Compute(t) =>
      && t in s.writers && (s.marked || s.opener == Some(t)) && s.writers[t].wanted.None?
      && s.writers[t].attempts <= MAX_ATTEMPTS
      && exists n: nat :: (IsHighest(Sees(s, t), n)
                           && s' == s.(writers := s.writers[t := s.writers[t].(wanted := Some(n + 1))]))
    case TryInsert(t, event) =>
      && t in s.writers && s.writers[t].wanted.Some?
      && var w, k := s.writers[t], s.writers[t].wanted.value;
         && !HeldByOther(s, t, k)
         && s' == s.(writers := s.writers[t :=
                       if k in Sees(s, t) then w.(wanted := None, attempts := w.attempts + 1)
                       else Writer(w.mine[k := event], None, 0)])
    case Commit(t) =>
      && t in s.writers
      && s' == Store(s.rows + s.writers[t].mine, s.marked || s.opener == Some(t),
                     if s.opener == Some(t) then None else s.opener, s.writers - {t})
    case Rollback(t) =>
      && t in s.writers
      && s' == s.(opener := if s.opener == Some(t) then None else s.opener, writers := s.writers - {t})
  }

  // -------------------------------------------------------------------------
  // The invariant

  // The rows are slots 1..n, and `k` more follow them.
  ghost predicate Dense<E>(rows: Slots<E>, from: nat, n: nat) {
    forall k: nat :: k in rows <==> from < k <= from + n
  }

  ghost predicate Holder<E>(s: Store<E>, t: nat) {
    t in s.writers && s.writers[t].mine != map[]
  }

  // `may`: the writer has seen the run's marker, or is creating the run.
  ghost predicate WriterOk<E>(w: Writer<E>, n: nat, may: bool) {
    && Dense(w.mine, n, |w.mine|)
    && (w.wanted.Some? ==>
          && 1 <= w.wanted.value <= n + |w.mine| + 1
          && (w.mine != map[] ==> w.wanted.value == n + |w.mine| + 1))
    && (w.wanted.Some? || w.mine != map[] ==> may)
  }

  predicate May<E>(s: Store<E>, t: nat) {
    s.marked || s.opener == Some(t)
  }

  ghost predicate Inv<E>(s: Store<E>) {
    exists n: nat :: InvAt(s, n)
  }

  ghost predicate InvAt<E>(s: Store<E>, n: nat) {
    && Dense(s.rows, 0, n)
    && (s.marked <==> n > 0)
    && (forall t | t in s.writers :: WriterOk(s.writers[t], n, May(s, t)))
    && (forall t, u | Holder(s, t) && Holder(s, u) :: t == u)
    && (s.opener.Some? ==> !s.marked && Holder(s, s.opener.value))
  }

  lemma DenseSize<E>(rows: Slots<E>, from: nat, n: nat)
    requires Dense(rows, from, n)
    ensures |rows| == n
    decreases n
  {
    if n == 0 {
      assert rows.Keys == {};
      assert rows == map[];
    } else {
      var k := from + n;
      var rest := rows - {k};
      assert Dense(rest, from, n - 1);
      DenseSize(rest, from, n - 1);
      assert rows.Keys == rest.Keys + {k};
      assert |rows.Keys| == |rest.Keys| + 1;
      assert |rows| == |rows.Keys| && |rest| == |rest.Keys|;
    }
  }

  lemma DenseHighest<E>(rows: Slots<E>, n: nat, h: nat)
    requires Dense(rows, 0, n) && IsHighest(rows, h)
    ensures h == n
  {
    if n > 0 {
      assert n in rows;
    }
  }

  lemma DenseJoin<E>(a: Slots<E>, b: Slots<E>, n: nat, k: nat)
    requires Dense(a, 0, n) && Dense(b, n, k)
    ensures Dense(a + b, 0, n + k)
  {
  }

  lemma ComputeInv<E>(s: Store<E>, s': Store<E>, n: nat, t: nat)
    requires InvAt(s, n) && Next(s, s', Compute(t))
    ensures InvAt(s', n)
  {
    hide Dense, IsHighest;
    var w := s.writers[t];
    var h: nat :| IsHighest(Sees(s, t), h) && s' == s.(writers := s.writers[t := w.(wanted := Some(h + 1))]);
    DenseJoin(s.rows, w.mine, n, |w.mine|);
    DenseHighest(Sees(s, t), n + |w.mine|, h);
    assert WriterOk(s'.writers[t], n, May(s', t));
    assert forall u :: Holder(s', u) <==> Holder(s, u);
  }

  lemma TookSlot<E>(w: Writer<E>, n: nat, event: E)
    requires WriterOk(w, n, true) && w.wanted == Some(n + |w.mine| + 1)
    ensures WriterOk(Writer(w.mine[w.wanted.value := event], None, 0), n, true)
  {
    var mine := w.mine[w.wanted.value := event];
    assert Dense(mine, n, |w.mine| + 1);
    DenseSize(mine, n, |w.mine| + 1);
  }

  lemma InsertInv<E>(s: Store<E>, s': Store<E>, n: nat, t: nat, event: E)
    requires InvAt(s, n) && Next(s, s', TryInsert(t, event))
    ensures InvAt(s', n)
  {
    hide Dense, Sees;
    var w := s.writers[t];
    var k := w.wanted.value;
    assert WriterOk(w, n, May(s, t));
    if k !in Sees(s, t) {
      TakesNext(s, n, t);
      NobodyHolds(s, n, t);
      TookSlot(w, n, event);
    }
    assert WriterOk(s'.writers[t], n, May(s', t));
    assert forall u :: u != t ==> (Holder(s', u) <==> Holder(s, u));
    assert k in Sees(s, t) ==> (Holder(s', t) <==> Holder(s, t));
    if s.opener.Some? {
      assert Holder(s, s.opener.value);
      assert k !in Sees(s, t) ==> s.opener.value == t && k in s'.writers[t].mine;
    }
  }

  // A free wanted slot is the one after everything committed and everything of one's own.
  lemma TakesNext<E>(s: Store<E>, n: nat, t: nat)
    requires InvAt(s, n) && t in s.writers && s.writers[t].wanted.Some?
    requires s.writers[t].wanted.value !in Sees(s, t)
    ensures s.writers[t].wanted.value == n + |s.writers[t].mine| + 1
  {
    assert WriterOk(s.writers[t], n, May(s, t));
    assert s.writers[t].wanted.value !in s.rows;
  }

  // ... and while another transaction holds slots it is not free.
  lemma NobodyHolds<E>(s: Store<E>, n: nat, t: nat)
    requires InvAt(s, n) && t in s.writers && s.writers[t].wanted.Some?
    requires s.writers[t].wanted.value !in Sees(s, t) && !HeldByOther(s, t, s.writers[t].wanted.value)
    ensures forall u | Holder(s, u) :: u == t
  {
    hide Sees;
    TakesNext(s, n, t);
    forall u | Holder(s, u)
      ensures u == t
    {
      NonEmptyDense(s.writers[u].mine, n);
      if !Holder(s, t) {
        assert |s.writers[t].mine| == 0;
      }
    }
  }

  lemma NonEmptyDense<E>(rows: Slots<E>, n: nat)
    requires Dense(rows, n, |rows|) && rows != map[]
    ensures n + 1 in rows
  {
    var k :| k in rows;
  }

  // Before there is a row or an opener nobody holds a slot.
  lemma Untaken<E>(s: Store<E>, n: nat, u: nat)
    requires InvAt(s, n) && !s.marked && s.opener.None?
    ensures !Holder(s, u)
  {
    hide Dense;
  }

  lemma OpenInv<E>(s: Store<E>, s': Store<E>, n: nat, t: nat, first: E)
    requires InvAt(s, n) && Next(s, s', Open(t, first))
    ensures InvAt(s', n)
  {
    hide Dense;
    forall u
      ensures !Holder(s, u)
    {
      Untaken(s, n, u);
    }
    assert s'.writers[t].mine.Keys == {1};
    OneIsDense(s'.writers[t].mine);
    assert WriterOk(s'.writers[t], n, May(s', t));
    assert forall u :: u != t ==> (Holder(s', u) <==> Holder(s, u));
  }

  lemma OneIsDense<E>(rows: Slots<E>)
    requires rows.Keys == {1}
    ensures Dense(rows, 0, |rows|) && rows != map[] && |rows| == 1
  {
    assert 1 in rows;
    assert |rows| == |rows.Keys|;
  }

  lemma CommitWriter<E>(s: Store<E>, n: nat, t: nat, u: nat, may: bool)
    requires InvAt(s, n) && t in s.writers && u in s.writers && u != t && (May(s, u) ==> may)
    ensures WriterOk(s.writers[u], n + |s.writers[t].mine|, may)
  {
    hide Dense;
    var mine := s.writers[t].mine;
    assert WriterOk(s.writers[u], n, May(s, u));
    if mine == map[] {
      assert |mine| == 0;
    } else {
      assert Holder(s, t) && !Holder(s, u);
      MovesOn(s.writers[u], n, |mine|, May(s, u), may);
    }
  }

  lemma CommitInv<E>(s: Store<E>, s': Store<E>, n: nat, t: nat)
    requires InvAt(s, n) && Next(s, s', Commit(t))
    ensures InvAt(s', n + |s.writers[t].mine|)
  {
    var mine := s.writers[t].mine;
    CommitRows(s, s', n, t);
    CommitHolders(s, s', n, t);
    hide Dense, WriterOk, Holder;
    forall u | u in s'.writers
      ensures WriterOk(s'.writers[u], n + |mine|, May(s', u))
    {
      CommitWriter(s, n, t, u, May(s', u));
    }
  }

  lemma CommitRows<E>(s: Store<E>, s': Store<E>, n: nat, t: nat)
    requires InvAt(s, n) && Next(s, s', Commit(t))
    ensures Dense(s'.rows, 0, n + |s.writers[t].mine|) && (s'.marked <==> n + |s.writers[t].mine| > 0)
  {
    var mine := s.writers[t].mine;
    Own(s, n, t);
    DenseJoin(s.rows, mine, n, |mine|);
    OpenerHolds(s, n, t);
    hide InvAt, Dense, May;
    assert s'.rows == s.rows + mine;
  }

  lemma OpenerHolds<E>(s: Store<E>, n: nat, t: nat)
    requires InvAt(s, n) && t in s.writers
    ensures May(s, t) <==> n + |s.writers[t].mine| > 0
  {
    hide Dense, WriterOk;
    Own(s, n, t);
    if s.opener == Some(t) { assert Holder(s, t); }
  }

  lemma CommitHolders<E>(s: Store<E>, s': Store<E>, n: nat, t: nat)
    requires InvAt(s, n) && Next(s, s', Commit(t))
    ensures forall u, v | Holder(s', u) && Holder(s', v) :: u == v
    ensures s'.opener.Some? ==> !s'.marked && Holder(s', s'.opener.value)
  {
    hide Dense, WriterOk, HeldByOther;
    assert forall u | Holder(s', u) :: Holder(s, u);
    if s'.opener.Some? {
      assert Holder(s, s'.opener.value) && Holder(s', s'.opener.value);
    }
  }

  lemma Own<E>(s: Store<E>, n: nat, t: nat)
    requires InvAt(s, n) && t in s.writers
    ensures Dense(s.writers[t].mine, n, |s.writers[t].mine|)
    ensures |s.writers[t].mine| > 0 ==> May(s, t)
  {
    hide Dense;
    assert WriterOk(s.writers[t], n, May(s, t));
  }

  // A writer that holds nothing has at most computed a slot that is now taken.
  lemma MovesOn<E>(w: Writer<E>, n: nat, m: nat, may: bool, may': bool)
    requires WriterOk(w, n, may) && w.mine == map[] && (may ==> may')
    ensures WriterOk(w, n + m, may')
  {
  }

  lemma RollbackInv<E>(s: Store<E>, s': Store<E>, n: nat, t: nat)
    requires InvAt(s, n) && Next(s, s', Rollback(t))
    ensures InvAt(s', n)
  {
    hide Dense;
    assert forall u :: Holder(s', u) ==> Holder(s, u) && u != t;
    assert forall u | u in s'.writers :: s.opener == Some(u) ==> s'.opener == Some(u);
  }

  lemma BeginInv<E>(s: Store<E>, s': Store<E>, n: nat, t: nat)
    requires InvAt(s, n) && Next(s, s', Begin(t))
    ensures InvAt(s', n)
  {
    assert forall u :: Holder(s', u) <==> Holder(s, u);
  }

  // Every step keeps the slots dense and the end of the log with one transaction.
  lemma NextInv<E>(s: Store<E>, s': Store<E>, a: Action<E>)
    requires Inv(s) && Next(s, s', a)
    ensures Inv(s')
  {
    hide InvAt, Next;
    var n :| InvAt(s, n);
    match a {
      case Begin(t) =>
        BeginInv(s, s', n, t);
      case Open(t, first) => OpenInv(s, s', n, t, first);
      case Compute(t) => ComputeInv(s, s', n, t);
      case TryInsert(t, event) => InsertInv(s, s', n, t, event);
      case Commit(t) => CommitInv(s, s', n, t);
      case Rollback(t) => RollbackInv(s, s', n, t);
    }
  }

  // -------------------------------------------------------------------------
  // Whole histories

  ghost predicate History<E>(ss: seq<Store<E>>, actions: seq<Action<E>>) {
    && |ss| == |actions| + 1
    && ss[0] == Store(map[], false, None, map[])
    && forall i | 0 <= i < |actions| :: Next(ss[i], ss[i + 1], actions[i])
  }

  lemma {:induction false} AlwaysInv<E>(ss: seq<Store<E>>, actions: seq<Action<E>>, k: nat)
    requires History(ss, actions) && k < |ss|
    ensures Inv(ss[k])
  {
    if k == 0 {
      assert InvAt(ss[0], 0);
    } else {
      hide Inv, Next;
      AlwaysInv(ss, actions, k - 1);
      assert Next(ss[k - 1], ss[k - 1 + 1], actions[k - 1]);
      NextInv(ss[k - 1], ss[k], actions[k - 1]);
    }
  }

  // In every state of every history the committed slots are exactly 1..n.
  lemma SlotsAreDense<E>(ss: seq<Store<E>>, actions: seq<Action<E>>, k: nat)
    requires History(ss, actions) && k < |ss|
    ensures forall i: nat :: i in ss[k].rows <==> 1 <= i <= |ss[k].rows|
  {
    AlwaysInv(ss, actions, k);
    var n :| InvAt(ss[k], n);
    DenseSize(ss[k].rows, 0, n);
  }

  // Only one open transaction holds slots, and they are the next ones.
  lemma OneHoldsTheTail<E>(ss: seq<Store<E>>, actions: seq<Action<E>>, k: nat, t: nat)
    requires History(ss, actions) && k < |ss| && Holder(ss[k], t)
    ensures forall u | Holder(ss[k], u) :: u == t
    ensures var n, m := |ss[k].rows|, |ss[k].writers[t].mine|;
            forall i: nat :: i in ss[k].writers[t].mine <==> n < i <= n + m
  {
    AlwaysInv(ss, actions, k);
    var n :| InvAt(ss[k], n);
    DenseSize(ss[k].rows, 0, n);
    assert WriterOk(ss[k].writers[t], n, May(ss[k], t));
  }

  // -------------------------------------------------------------------------
  // The log the slots stand for

  function Values<E>(rows: Slots<E>, from: nat, n: nat): (vs: seq<E>)
    requires forall k | from < k <= from + n :: k in rows
    ensures |vs| == n && forall i | 0 <= i < n :: vs[i] == rows[from + 1 + i]
  {
    seq(n, i requires 0 <= i < n => assert from + 1 + i in rows; rows[from + 1 + i])
  }

  ghost function LogOf<E>(s: Store<E>): seq<E>
    requires Inv(s)
  {
    InvDense(s);
    Values(s.rows, 0, |s.rows|)
  }

  lemma InvDense<E>(s: Store<E>)
    requires Inv(s)
    ensures Dense(s.rows, 0, |s.rows|) && InvAt(s, |s.rows|)
  {
    var n :| InvAt(s, n);
    DenseSize(s.rows, 0, n);
  }

  // The slots refine an append-only log: a commit appends what its transaction holds, in
  // the order it was inserted, and no other step changes it.
  lemma CommitAppends<E>(s: Store<E>, s': Store<E>, a: Action<E>)
    requires Inv(s) && Next(s, s', a)
    ensures Inv(s')
    ensures !a.Commit? ==> LogOf(s') == LogOf(s)
    ensures a.Commit? ==>
              var mine, n := s.writers[a.t].mine, |s.rows|;
              && (forall k: nat :: k in mine <==> n < k <= n + |mine|)
              && LogOf(s') == LogOf(s) + Values(mine, n, |mine|)
  {
    NextInv(s, s', a);
    InvDense(s);
    InvDense(s');
    if a.Commit? {
      CommitValues(s, s', a.t);
    }
  }

  lemma CommitValues<E>(s: Store<E>, s': Store<E>, t: nat)
    requires Inv(s) && Inv(s') && Next(s, s', Commit(t))
    ensures var mine, n := s.writers[t].mine, |s.rows|;
            && (forall k: nat :: k in mine <==> n < k <= n + |mine|)
            && LogOf(s') == LogOf(s) + Values(mine, n, |mine|)
  {
    var mine, n := s.writers[t].mine, |s.rows|;
    InvDense(s);
    InvDense(s');
    Own(s, n, t);
    hide InvAt, Inv, HeldByOther;
    JoinedValues(s.rows, mine, n);
    DenseJoin(s.rows, mine, n, |mine|);
    DenseSize(s'.rows, 0, n + |mine|);
  }

  lemma JoinedValues<E>(rows: Slots<E>, mine: Slots<E>, n: nat)
    requires Dense(rows, 0, n) && Dense(mine, n, |mine|)
    ensures Dense(rows + mine, 0, n + |mine|)
    ensures Values(rows + mine, 0, n + |mine|) == Values(rows, 0, n) + Values(mine, n, |mine|)
  {
    DenseJoin(rows, mine, n, |mine|);
    hide Values;
    var all, a, b := Values(rows + mine, 0, n + |mine|), Values(rows, 0, n), Values(mine, n, |mine|);
    forall i | 0 <= i < n + |mine|
      ensures all[i] == (a + b)[i]
    {
      assert all[i] == (rows + mine)[1 + i];
      if i >= n { assert b[i - n] == mine[n + 1 + (i - n)]; }
    }
  }

  // Slot 1 is the creation of the run, and no other slot is: the marker a writer needs
  // is only visible with it.
  ghost predicate Opened<E>(s: Store<E>, first: E -> bool) {
    && (1 in s.rows ==> first(s.rows[1]))
    && (forall k | k in s.rows && k != 1 :: !first(s.rows[k]))
    && (forall t, k | t in s.writers && k in s.writers[t].mine :: first(s.writers[t].mine[k]) <==> k == 1)
  }

  // What a writer may insert: the creating request its creation, everyone else the rest.
  predicate Honest<E>(a: Action<E>, first: E -> bool) {
    match a
    case Open(_, e) => first(e)
    case TryInsert(_, e) => !first(e)
    case _ => true
  }

  lemma NotSlotOne<E>(s: Store<E>, t: nat)
    requires Inv(s) && t in s.writers && s.writers[t].wanted.Some?
    requires s.writers[t].wanted.value !in Sees(s, t)
    ensures s.writers[t].wanted.value != 1
  {
    hide Sees, Dense;
    var n :| InvAt(s, n);
    TakesNext(s, n, t);
    var w := s.writers[t];
    assert w.mine != map[] ==> |w.mine| > 0;
    if s.opener == Some(t) { assert Holder(s, t); }
  }

  lemma NextOpened<E>(s: Store<E>, s': Store<E>, a: Action<E>, first: E -> bool)
    requires Inv(s) && Next(s, s', a) && Opened(s, first) && Honest(a, first)
    ensures Opened(s', first)
  {
    hide Inv;
    match a {
      case TryInsert(t, _) =>
        if s.writers[t].wanted.value !in Sees(s, t) { NotSlotOne(s, t); }
        hide Sees;
      case _ =>
    }
  }

  lemma {:induction false} CreationIsSlotOne<E>(ss: seq<Store<E>>, actions: seq<Action<E>>, k: nat, first: E -> bool)
    requires History(ss, actions) && k < |ss|
    requires forall i | 0 <= i < |actions| :: Honest(actions[i], first)
    ensures Opened(ss[k], first)
  {
    if k > 0 {
      hide Inv, Next;
      CreationIsSlotOne(ss, actions, k - 1, first);
      AlwaysInv(ss, actions, k - 1);
      assert Next(ss[k - 1], ss[k - 1 + 1], actions[k - 1]);
      NextOpened(ss[k - 1], ss[k], actions[k - 1], first);
    }
  }
}
