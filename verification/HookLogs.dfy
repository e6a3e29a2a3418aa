/**
 Hooks over whole histories: the order of every Hook's log, and what a Hook row stands for.

 One commit can bring a row back behind its Hook's disposal. Both copies of a candidate look
 before they claim. When the second copy claims only after the first was accepted and that
 run's start Hook was disposed again, the unique claim is free: its insert succeeds, its
 decision loses to the recorded acceptance, and because that is an acceptance too the
 transaction commits, start Hook row included. Everything here holds in every history, and
 what that commit spoils is said exactly: the start Hook of the one run, from then on.
 */
module HookLogs {
  import opened EventLog
  import opened Database
  import opened Protocol
  import opened Invariant
  import opened Shapes
  import opened World
  import opened Safety
  import opened Journals
  import opened Histories

  // -------------------------------------------------------------------------
  // The commit of an overtaken copy

  // The commit of a copy that inserted the row of its start Hook `h`, whose disposal is in
  // the log.
  ghost predicate Overtakes(s: State, m: Move, h: HookId) {
    && m.Save? && m.t in s.txs
    && var tx := s.txs[m.t];
       && tx.job.Create? && h == StartHook(tx.job.run)
       && h in tx.w.put && WasDisposed(LogOf(s.db, h.run), h)
  }

  ghost predicate OvertakenBefore(ss: seq<State>, ms: seq<Move>, k: nat, h: HookId)
    requires k <= |ms| && k <= |ss|
  {
    exists i :: 0 <= i < k && Overtakes(ss[i], ms[i], h)
  }

  lemma OnlyTwoPut(db: Db, tx: Tx, h: HookId)
    requires TxInv(db, tx) && Committing(tx) && h in tx.w.put
    ensures tx.job.Create? || (tx.job.HookNew? && tx.pc.Done?)
  {
    hide Guarded, CreateShape, Logged, Says, StepFits, Inserted, EndRow, TakenShape, Holding, Journaled;
  }

  lemma HookNewPuts(db: Db, tx: Tx, h: HookId)
    requires TxInv(db, tx) && tx.pc.Done? && tx.job.HookNew? && h in tx.w.put
    ensures h == tx.job.hook && tx.w.births == [h]
  {
    hide Guarded, Logged, Holding, Says;
  }

  lemma CreatePuts(db: Db, tx: Tx, h: HookId)
    requires TxInv(db, tx) && Committing(tx) && tx.job.Create? && h in tx.w.put
    ensures h == StartHook(tx.job.run)
  {
    hide Guarded, Logged, Says;
  }

  // Hooks that are created are new to the log.
  lemma BornIsNew(db: Db, w: Writes, h: HookId)
    requires HooksOk(db, w) && w.births == [h]
    ensures !WasDisposed(LogOf(db, h.run), h)
  {
    hide LedgerOk, PutsOk;
    var e :| Has(db, w, e);
    hide Untouched, After;
    if WasDisposed(LogOf(db, h.run), h) {
      var i :| 0 <= i < |LogOf(db, h.run)| && Disposes(LogOf(db, h.run)[i].ev, h);
      AbsentMeans(LogOf(db, h.run), h, i);
    }
  }

  lemma Readied(db: Db, tx: Tx)
    requires Ready(db, tx)
    ensures HooksOk(db, tx.w) && RunsOk(db, tx.w)
  {
  }

  lemma SaveRevives(s: State, t: nat, h: HookId)
    requires Inv(s) && Enabled(s, Save(t))
    ensures h in s.txs[t].w.put && WasDisposed(LogOf(s.db, h.run), h) <==> Overtakes(s, Save(t), h)
  {
    hide DbInv, TxInv, Exclusive, Committing, Ready, HooksOk, WasDisposed;
    var db, tx := s.db, s.txs[t];
    AllReady(db, tx);
    Readied(db, tx);
    if h in tx.w.put && WasDisposed(LogOf(db, h.run), h) {
      OnlyTwoPut(db, tx, h);
      if tx.job.HookNew? {
        HookNewPuts(db, tx, h);
        BornIsNew(db, tx.w, h);
      } else {
        CreatePuts(db, tx, h);
      }
    }
  }

  lemma MoveRevives(s: State, m: Move, h: HookId)
    requires Inv(s) && Enabled(s, m)
    ensures h in Moved(s, m).db.revived <==> h in s.db.revived || Overtakes(s, m, h)
  {
    hide Inv, Exec, Committing, WasDisposed, LogOf;
    if m.Save? {
      SaveRevives(s, m.t, h);
    }
  }

  // The Hooks that were revived are those of the overtaken copies that committed.
  lemma {:induction false} RevivedExactly(ss: seq<State>, ms: seq<Move>, k: nat, h: HookId)
    requires History(ss, ms) && k < |ss|
    ensures h in ss[k].db.revived <==> OvertakenBefore(ss, ms, k, h)
  {
    hide Inv, Enabled, Moved, Overtakes;
    if k > 0 {
      RevivedExactly(ss, ms, k - 1, h);
      AlwaysInv(ss, ms, k - 1);
      assert ss[k - 1 + 1] == Moved(ss[k - 1], ms[k - 1]);
      MoveRevives(ss[k - 1], ms[k - 1], h);
    }
  }

  // -------------------------------------------------------------------------
  // The order of a Hook's log

  lemma NotHome(log: Log, r: RunId, h: HookId)
    requires AllHome(log, r) && h.run != r
    ensures HookOrder(log, h)
  {
    forall i | 0 <= i < |log|
      ensures !Creates(log[i].ev, h) && !Disposes(log[i].ev, h) && !Receives(log[i].ev, h)
    {
      assert Home(log[i].ev, r);
    }
  }

  // In every log: created before anything else, disposed at most once, nothing delivered
  // behind the disposal. For a start Hook this takes that no overtaken copy of its run has
  // committed; every other Hook has it in every history.
  lemma HookLogOrder(ss: seq<State>, ms: seq<Move>, k: nat, r: RunId, h: HookId)
    requires History(ss, ms) && k < |ss| && (h.n != 0 || !OvertakenBefore(ss, ms, k, h))
    ensures HookOrder(LogOf(ss[k].db, r), h)
  {
    AlwaysInv(ss, ms, k);
    AlwaysTidy(ss, ms, k);
    RevivedExactly(ss, ms, k, h);
    var log := LogOf(ss[k].db, r);
    if h.run == r {
      assert Hook(ss[k].db, h) != Corrupt;
      HookOrderHolds(log, h);
    } else {
      NotHome(log, r, h);
    }
  }

  // A commit that journals a delivery or a disposal of `h`.
  ghost predicate Touches(s: State, m: Move, h: HookId) {
    && m.Save? && m.t in s.txs
    && exists i :: 0 <= i < |Unsaved(s.txs[m.t].w, h.run)|
                   && (Receives(Unsaved(s.txs[m.t].w, h.run)[i].ev, h) || Disposes(Unsaved(s.txs[m.t].w, h.run)[i].ev, h))
  }

  // A start Hook moves by deliveries and disposals only, once its run exists.
  lemma StartHookMoves(s: State, m: Move, h: HookId)
    requires Inv(s) && Enabled(s, m) && h.n == 0 && h.run in s.db.log && !Touches(s, m, h)
    ensures Hook(Moved(s, m).db, h) == Hook(s.db, h)
  {
    hide DbInv, TxInv, Exec, Committing, Apply, Ready, HookOf;
    if m.Save? {
      var w := s.txs[m.t].w;
      AllReady(s.db, s.txs[m.t]);
      Readied(s.db, s.txs[m.t]);
      HookAfter(s.db, w, h);
      assert Untouched(w, h);
    }
  }

  lemma StartHookIsGone(s: State, h: HookId)
    requires Inv(s) && h !in s.db.revived && WasDisposed(LogOf(s.db, h.run), h)
    ensures Hook(s.db, h).Gone? && h.run in s.db.log
  {
    assert Hook(s.db, h) != Corrupt;
    GoneMeans(LogOf(s.db, h.run), h);
  }

  // The first overtaken copy of a run that commits.
  lemma {:induction false} FirstOvertaken(ss: seq<State>, ms: seq<Move>, k: nat, h: HookId) returns (i: nat)
    requires History(ss, ms) && k < |ss| && h in ss[k].db.revived
    ensures i < k && h !in ss[i].db.revived && Overtakes(ss[i], ms[i], h)
  {
    hide Inv, Enabled, Moved, Overtakes;
    if h in ss[k - 1].db.revived {
      i := FirstOvertaken(ss, ms, k - 1, h);
    } else {
      i := k - 1;
      AlwaysInv(ss, ms, i);
      assert ss[i + 1] == Moved(ss[i], ms[i]);
      MoveRevives(ss[i], ms[i], h);
    }
  }

  lemma {:induction false} StaysGone(ss: seq<State>, ms: seq<Move>, i: nat, k: nat, h: HookId)
    requires History(ss, ms) && i < k < |ss| && h !in ss[i].db.revived && Overtakes(ss[i], ms[i], h)
    requires forall j | i < j < k :: !Touches(ss[j], ms[j], h)
    ensures Hook(ss[k].db, h).Gone? && h.run in ss[k].db.log
    decreases k
  {
    hide Inv, Enabled, Moved, Touches, HookOf;
    assert ss[k - 1 + 1] == Moved(ss[k - 1], ms[k - 1]);
    AlwaysInv(ss, ms, k - 1);
    if i == k - 1 {
      StartHookIsGone(ss[i], h);
      OvertakesQuietly(ss[i], ms[i], h);
    } else {
      StaysGone(ss, ms, i, k - 1, h);
    }
    MoveGrows(ss[k - 1], ms[k - 1]);
    StartHookMoves(ss[k - 1], ms[k - 1], h);
  }

  // The overtaken commit itself journals nothing about the Hook.
  lemma OvertakesQuietly(s: State, m: Move, h: HookId)
    requires Inv(s) && Enabled(s, m) && Overtakes(s, m, h)
    ensures !Touches(s, m, h)
  {
    hide DbInv, TxInv, Committing, Ready, WasDisposed;
    var w := s.txs[m.t].w;
    AllReady(s.db, s.txs[m.t]);
    Readied(s.db, s.txs[m.t]);
    if w.births == [h] {
      BornIsNew(s.db, w, h);
    }
    assert Untouched(w, h);
  }

  lemma BehindDisposal(log: Log, p: nat, q: nat, h: HookId)
    requires p < q < |log| && Disposes(log[p].ev, h) && (Receives(log[q].ev, h) || Disposes(log[q].ev, h))
    ensures !HookOrder(log, h)
  {
  }

  lemma TouchedBreaks(ss: seq<State>, ms: seq<Move>, i: nat, j: nat, k: nat, h: HookId)
    requires History(ss, ms) && i < j < k < |ss| && Overtakes(ss[i], ms[i], h) && Touches(ss[j], ms[j], h)
    ensures !HookOrder(LogOf(ss[k].db, h.run), h)
  {
    hide Enabled, Exec, Apply, HookOrder;
    var r, w := h.run, ss[j].txs[ms[j].t].w;
    LaterGrown(ss, ms, i, j);
    LaterGrown(ss, ms, j + 1, k);
    assert ss[j + 1] == Moved(ss[j], ms[j]);
    LogAfter(ss[j].db, w, r);
    hide History, Moved, Grown;
    GrownLog(ss[i].db, ss[j].db, r);
    GrownLog(ss[j + 1].db, ss[k].db, r);
    DisposedThenTouched(LogOf(ss[i].db, r), LogOf(ss[j].db, r), Unsaved(w, r), LogOf(ss[k].db, r), h);
  }

  lemma GrownLog(db: Db, db': Db, r: RunId)
    requires Grown(db, db')
    ensures LogOf(db, r) <= LogOf(db', r)
  {
  }

  lemma DisposedThenTouched(a: Log, b: Log, more: Log, c: Log, h: HookId)
    requires a <= b && b + more <= c && WasDisposed(a, h)
    requires exists i :: 0 <= i < |more| && (Receives(more[i].ev, h) || Disposes(more[i].ev, h))
    ensures !HookOrder(c, h)
  {
    hide HookOrder;
    var p :| 0 <= p < |a| && Disposes(a[p].ev, h);
    var q :| 0 <= q < |more| && (Receives(more[q].ev, h) || Disposes(more[q].ev, h));
    assert c[p] == a[p] && c[|b| + q] == (b + more)[|b| + q] == more[q];
    BehindDisposal(c, p, |b| + q, h);
  }

  // Exactly when it fails: a delivery or a disposal of the Hook is journaled after the
  // commit of an overtaken copy.
  lemma HookOrderExactly(ss: seq<State>, ms: seq<Move>, k: nat, h: HookId)
    requires History(ss, ms) && k < |ss|
    ensures HookOrder(LogOf(ss[k].db, h.run), h)
            <==> !exists i, j :: 0 <= i < j < k && Overtakes(ss[i], ms[i], h) && Touches(ss[j], ms[j], h)
  {
    hide History, HookOrder, Overtakes, Touches, HookOf;
    assert |ss| == |ms| + 1 by { Lengths(ss, ms); }
    if i, j :| 0 <= i < j < k && Overtakes(ss[i], ms[i], h) && Touches(ss[j], ms[j], h) {
      TouchedBreaks(ss, ms, i, j, k, h);
    } else if h in ss[k].db.revived {
      var i := FirstOvertaken(ss, ms, k, h);
      StaysGone(ss, ms, i, k, h);
      HookOrderHolds(LogOf(ss[k].db, h.run), h);
    } else {
      RevivedExactly(ss, ms, k, h);
      HookLogOrder(ss, ms, k, h.run, h);
    }
  }

  lemma Lengths(ss: seq<State>, ms: seq<Move>)
    requires History(ss, ms)
    ensures |ss| == |ms| + 1
  {
  }

  // -------------------------------------------------------------------------
  // What a row stands for

  // A Hook row is of a Hook its log shows as created, and one row at most holds a token. The
  // log shows it as not disposed exactly when no overtaken copy of it has committed.
  lemma HookRowsAreLive(ss: seq<State>, ms: seq<Move>, k: nat, h: HookId)
    requires History(ss, ms) && k < |ss| && h in ss[k].db.hooks
    ensures exists i :: 0 <= i < |LogOf(ss[k].db, h.run)| && Creates(LogOf(ss[k].db, h.run)[i].ev, h)
    ensures WasDisposed(LogOf(ss[k].db, h.run), h) <==> OvertakenBefore(ss, ms, k, h)
    ensures forall g | g in ss[k].db.hooks && ss[k].db.hooks[g] == ss[k].db.hooks[h] :: g == h
  {
    AlwaysInv(ss, ms, k);
    RevivedExactly(ss, ms, k, h);
    hide History, Creates, WasDisposed, OvertakenBefore, TxInv, Exclusive;
    RowIsLive(ss[k].db, h);
  }

  lemma RowIsLive(db: Db, h: HookId)
    requires RunsInv(db) && OrderInv(db) && RowsInv(db) && RevivedInv(db) && h in db.hooks
    ensures exists i :: 0 <= i < |LogOf(db, h.run)| && Creates(LogOf(db, h.run)[i].ev, h)
    ensures WasDisposed(LogOf(db, h.run), h) <==> h in db.revived
  {
    var log := LogOf(db, h.run);
    if h in db.revived {
      hide WasDisposed, OrderInv, RowsInv;
      RevivedWasCreated(db, h);
    } else {
      hide WasDisposed, RunsInv, RevivedInv;
      GoneMeans(log, h);
      var at := HookWasCreated(log, h);
    }
  }

  lemma RevivedWasCreated(db: Db, h: HookId)
    requires RunsInv(db) && RevivedInv(db) && h in db.revived
    ensures exists i :: 0 <= i < |LogOf(db, h.run)| && Creates(LogOf(db, h.run)[i].ev, h)
  {
    assert h.run in db.log && WellBegun(h.run, db.log[h.run]);
    assert Creates(LogOf(db, h.run)[0].ev, h);
  }

  ghost predicate AllLive(db: Db) {
    forall h | h in db.hooks :: Hook(db, h).Live?
  }

  // One move: rows stay those of live Hooks unless it is the commit of an overtaken copy.
  lemma RowsStayLiveExactly(s: State, m: Move)
    requires Inv(s) && Enabled(s, m) && AllLive(s.db)
    ensures AllLive(Moved(s, m).db) <==> forall h :: !Overtakes(s, m, h)
  {
    hide Inv, Enabled, Moved, Overtakes, AllLive;
    MoveInv(s, m);
    if h :| Overtakes(s, m, h) {
      OvertakenRow(s, m, h);
    } else {
      forall h
        ensures h in Moved(s, m).db.revived <==> h in s.db.revived
      {
        MoveRevives(s, m, h);
      }
      NoneRevived(s, m);
    }
  }

  lemma OvertakenRow(s: State, m: Move, h: HookId)
    requires Inv(s) && Enabled(s, m) && Overtakes(s, m, h)
    ensures !AllLive(Moved(s, m).db)
  {
    var db' := Moved(s, m).db;
    assert h in db'.hooks;
    LogAfter(s.db, s.txs[m.t].w, h.run);
    StillDisposed(LogOf(s.db, h.run), Unsaved(s.txs[m.t].w, h.run), h);
    hide Inv, Enabled, Moved, Apply, WasDisposed;
    if Hook(db', h).Live? {
      GoneMeans(LogOf(db', h.run), h);
    }
  }

  lemma NewRow(s: State, m: Move, h: HookId)
    requires Enabled(s, m) && h in Moved(s, m).db.hooks && h !in s.db.hooks
    ensures m.Save? && h in s.txs[m.t].w.put
  {
    hide Exec, Committing;
  }

  lemma LiveIsNotDisposed(db: Db, h: HookId)
    requires Hook(db, h).Live?
    ensures !WasDisposed(LogOf(db, h.run), h)
  {
    GoneMeans(LogOf(db, h.run), h);
  }

  lemma NoneRevived(s: State, m: Move)
    requires Inv(s) && Enabled(s, m) && AllLive(s.db) && Inv(Moved(s, m))
    requires Moved(s, m).db.revived == s.db.revived && forall h :: !Overtakes(s, m, h)
    ensures AllLive(Moved(s, m).db)
  {
    hide Enabled, Moved, TxInv, Exclusive, Hook, WasDisposed, Overtakes;
    var db' := Moved(s, m).db;
    forall h | h in db'.hooks
      ensures Hook(db', h).Live?
    {
      if h in s.db.revived {
        if h in s.db.hooks {
          LiveIsNotDisposed(s.db, h);
        } else {
          NewRow(s, m, h);
          SaveRevives(s, m.t, h);
        }
      }
    }
  }
}
