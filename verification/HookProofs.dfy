/**
 `hook_created`: the ordinary creation, the lost claim, and the forced takeover that
 writes the victim's disposal and its own creation in one transaction.
 */
module HookProofs {
  import opened Options
  import opened EventLog
  import opened Database
  import opened Protocol
  import opened Invariant
  import opened Shapes
  import opened Statements
  import opened RunProofs

  // Only the run's creation creates a start Hook, so any other Hook has its own event.
  lemma OnlyStartHooks(db: Db, h: HookId, i: nat)
    requires RunsInv(db) && h.n != 0 && i < |LogOf(db, h.run)|
    requires Creates(LogOf(db, h.run)[i].ev, h)
    ensures LogOf(db, h.run)[i].ev.HookCreated?
  {
    assert WellBegun(h.run, db.log[h.run]);
  }

  lemma RowJournaled(db: Db, h: HookId)
    requires RunsInv(db) && RowsInv(db) && RevivedInv(db) && h in db.hooks && h.n != 0
    ensures Journaled(LogOf(db, h.run), HookCreated(h, None))
  {
    assert h !in db.revived;
    var at := HookWasCreated(LogOf(db, h.run), h);
    OnlyStartHooks(db, h, at);
  }

  lemma NotJournaled(db: Db, h: HookId, ev: Event)
    requires RunsInv(db) && OrderInv(db) && RevivedInv(db) && h.n != 0 && ev.HookCreated? && ev.hook == h
    requires !Journaled(LogOf(db, h.run), ev)
    ensures Hook(db, h).Absent?
  {
    var log := LogOf(db, h.run);
    forall i | 0 <= i < |log|
      ensures !Creates(log[i].ev, h)
    {
      if Creates(log[i].ev, h) {
        OnlyStartHooks(db, h, i);
      }
    }
    assert Hook(db, h) != Corrupt;
    HookWasNotCreated(log, h);
  }

  // -------------------------------------------------------------------------
  // Statements

  lemma Reads(db: Db, held: set<Key>, tx: Tx, c: Choice, tx': Tx)
    requires RunsInv(db) && RowsInv(db) && RevivedInv(db)
    requires tx.job.HookNew? && Guarded(db, tx) && HookNewShape(db, tx)
    requires tx.pc.First? || tx.pc.ReadToken? || tx.pc.LostClaim?
    requires ExecHookNew(db, held, tx, c) == Go(tx')
    ensures tx'.job == tx.job && Guarded(db, tx') && (tx'.pc.Aborted? || HookNewShape(db, tx'))
  {
    hide Guarded, Journaled, RunsInv, RowsInv, RevivedInv, ExecTakeover;
    Stepped(db, tx, tx'.pc);
    if tx.pc.ReadToken? && c.row == Some(tx.job.hook) {
      RowJournaled(db, tx.job.hook);
    }
  }

  lemma Inserts(db: Db, held: set<Key>, tx: Tx, c: Choice, tx': Tx)
    requires RunsInv(db) && RowsInv(db) && RevivedInv(db)
    requires tx.job.HookNew? && Guarded(db, tx) && HookNewShape(db, tx)
    requires tx.pc.Release? || tx.pc.Insert?
    requires ExecHookNew(db, held, tx, c) == Go(tx')
    ensures tx'.job == tx.job && Guarded(db, tx') && (tx'.pc.Aborted? || HookNewShape(db, tx'))
  {
    hide Guarded, Journaled, RunsInv, RowsInv, RevivedInv, TokenHeld, ExecTakeover;
    var h, t := tx.job.hook, tx.job.token;
    Stepped(db, tx, tx'.pc);
    if tx.pc.Release? {
      if c.row.Some? {
        Removed(db, held, tx, c.row.value, Insert);
      }
    } else if h in Visible(db, tx.w) {
      RowJournaled(db, h);
    } else if TokenHeld(Visible(db, tx.w), t) {
      ResetGuarded(db, tx, LostClaim);
    } else {
      Put(db, tx, h, t, tx'.pc);
    }
  }

  lemma Resolves(db: Db, held: set<Key>, tx: Tx, c: Choice, tx': Tx)
    requires tx.job.HookNew? && Guarded(db, tx) && HookNewShape(db, tx)
    requires tx.pc.Resolve? || tx.pc.LockRun? || tx.pc.LockHook?
    requires ExecTakeover(db, held, tx, c) == Go(tx')
    ensures tx'.job == tx.job && Guarded(db, tx') && (tx'.pc.Aborted? || HookNewShape(db, tx'))
  {
    hide Guarded, Journaled, TokenHeld;
    Stepped(db, tx, tx'.pc);
    ResetGuarded(db, tx, tx'.pc);
    if tx.pc.LockRun? {
      Locked(db, tx, tx'.pc, {Row(tx.pc.victim.run)});
    } else if tx.pc.LockHook? {
      Locked(db, tx, tx'.pc, {HookRow(tx.pc.victim)});
    }
  }

  lemma DisposesVictim(db: Db, held: set<Key>, tx: Tx, c: Choice, tx': Tx)
    requires RunsInv(db)
    requires tx.job.HookNew? && Guarded(db, tx) && HookNewShape(db, tx)
    requires tx.pc.DisposeVictim?
    requires ExecTakeover(db, held, tx, c) == Go(tx')
    ensures tx'.job == tx.job && Guarded(db, tx') && (tx'.pc.Aborted? || HookNewShape(db, tx'))
  {
    hide Guarded, Journaled, Append, RunsInv, TakenShape, Logged, Slotted;
    SlotKeys(db);
    var v := tx.pc.victim;
    var ev := HookDisposed(v, Some(Taking(tx.job.hook, tx.job.token)));
    AppendGuarded(db, held, tx, v.run, ev, DeleteVictim(v, true));
    if tx' != tx.(pc := Aborted) {
      LoggedOnce(db, tx, v.run, ev, DeleteVictim(v, true));
      var m := SlottedWrites(tx, v.run, ev, DeleteVictim(v, true));
    }
  }

  // With the victim's row deleted, nothing visible holds the token.
  lemma TokenFree(db: Db, w: Writes, v: HookId, t: Token)
    requires TokensInv(db) && v in db.hooks && db.hooks[v] == t && w.del == {v} && w.put == map[]
    ensures !TokenHeld(Visible(db, w), t)
  {
  }

  lemma DeletesVictim(db: Db, held: set<Key>, tx: Tx, c: Choice, tx': Tx)
    requires tx.job.HookNew? && Guarded(db, tx) && HookNewShape(db, tx) && tx.pc.DeleteVictim?
    requires ExecTakeover(db, held, tx, c) == Go(tx')
    ensures tx'.job == tx.job && Guarded(db, tx') && HookNewShape(db, tx')
  {
    hide Guarded, Journaled;
    Removed(db, held, tx, tx.pc.victim, tx'.pc);
  }

  lemma InsertsTaken(db: Db, held: set<Key>, tx: Tx, c: Choice, tx': Tx)
    requires TokensInv(db)
    requires tx.job.HookNew? && Guarded(db, tx) && HookNewShape(db, tx) && tx.pc.InsertTaken?
    requires ExecTakeover(db, held, tx, c) == Go(tx')
    ensures tx'.job == tx.job && Guarded(db, tx') && (tx'.pc.Aborted? || HookNewShape(db, tx'))
  {
    hide Guarded, Journaled, TokensInv, TokenHeld;
    var h, t := tx.job.hook, tx.job.token;
    TokenFree(db, tx.w, tx.pc.victim, t);
    if tx'.pc.Aborted? {
      Stepped(db, tx, Aborted);
    } else {
      Put(db, tx, h, t, tx'.pc);
    }
  }

  lemma CreatedJournal(db: Db, held: set<Key>, tx: Tx, tx': Tx)
    requires RunsInv(db) && OrderInv(db) && RevivedInv(db)
    requires tx.job.HookNew? && Guarded(db, tx) && HookNewShape(db, tx) && tx.pc.Journal?
    requires tx.pc.ev == HookConflict(tx.job.hook) || tx.pc.ev == HookCreated(tx.job.hook, None)
    requires Append(db, held, tx, RunOf(tx.job), tx.pc.ev, Done) == Go(tx')
    ensures tx'.job == tx.job && Guarded(db, tx') && (tx'.pc.Aborted? || HookNewShape(db, tx'))
  {
    hide Guarded, Append, Journaled, RunsInv, OrderInv, RevivedInv;
    assert db.seqs.Keys == db.log.Keys by { SlotKeys(db); }
    Journals(db, held, tx, tx.pc.ev, tx');
    if tx'.pc.Done? && tx.pc.ev.HookCreated? {
      NotJournaled(db, tx.job.hook, tx.pc.ev);
    }
  }

  lemma SlotKeys(db: Db)
    requires RunsInv(db)
    ensures db.seqs.Keys == db.log.Keys == db.runs.Keys
  {
  }

  lemma TakenDone(db: Db, tx: Tx, v: HookId, running: bool)
    requires tx.job.HookNew? && tx.pc.Done? && tx.job.hook.n != 0 && TakenShape(db, tx, v, running)
    ensures HookNewShape(db, tx)
  {
    hide TakenShape;
  }

  lemma TakenJournal(db: Db, held: set<Key>, tx: Tx, tx': Tx)
    requires RunsInv(db) && OrderInv(db) && RevivedInv(db)
    requires tx.job.HookNew? && Guarded(db, tx) && HookNewShape(db, tx) && tx.pc.Journal?
    requires tx.pc.ev.HookCreated? && tx.pc.ev.from.Some?
    requires Append(db, held, tx, RunOf(tx.job), tx.pc.ev, Done) == Go(tx')
    ensures tx'.job == tx.job && Guarded(db, tx') && (tx'.pc.Aborted? || HookNewShape(db, tx'))
  {
    hide Guarded, Append, Journaled, OrderInv, RevivedInv, TakenShape, RunsInv, Push, Unseated, Holding;
    var h, ev := tx.job.hook, tx.pc.ev;
    var Claim(v, running) := ev.from.value;
    AppendGuarded(db, held, tx, h.run, ev, Done);
    if tx' != tx.(pc := Aborted) {
      StillUnjournaled(LogOf(db, h.run), Unsaved(tx.w, h.run), ev);
      NotJournaled(db, h, ev);
      TakenSlot(db, tx, v, running);
      TakenDone(db, tx', v, running);
    }
  }

  lemma StillUnjournaled(a: Log, b: Log, ev: Event)
    requires !Journaled(a + b, ev)
    ensures !Journaled(a, ev)
  {
    forall i | 0 <= i < |a|
      ensures !(ev.HookCreated? && a[i].ev.HookCreated? && a[i].ev.hook == ev.hook)
      ensures !(ev.StepCreated? && a[i].ev == ev)
    {
      assert (a + b)[i] == a[i];
    }
  }

  lemma TakenSlot(db: Db, tx: Tx, v: HookId, running: bool)
    requires RunsInv(db)
    requires tx.job.HookNew? && Hook(db, tx.job.hook).Absent?
    requires Upon(tx.w, NOTHING.(del := {v}, put := map[tx.job.hook := tx.job.token]))
    requires Holding(db, tx, v) && Unseated(db, tx, v, running)
    requires tx.job.hook.run in db.seqs || tx.job.hook.run in tx.w.seqs
    ensures TakenShape(db, Slotted(tx, tx.job.hook.run, HookCreated(tx.job.hook, Some(Claim(v, running))), Done),
                       v, running)
  {
    hide Hook, Slotted, Existing, Logged, TakenLog, RunsInv;
    var h := tx.job.hook;
    var made := HookCreated(h, Some(Claim(v, running)));
    var tx' := Slotted(tx, h.run, made, Done);
    var m := SlottedWrites(tx, h.run, made, Done);
    LoggedExists(db, tx.w, v.run, if running then [HookDisposed(v, Some(Taking(h, tx.job.token)))] else []);
    SlotExists(db, tx.w, tx'.w, h.run, Entry(made, m));
    TakenLogs(db, tx.w, tx'.w, h, tx.job.token, v, running, Entry(made, m));
  }

  lemma LoggedExists(db: Db, w: Writes, r: RunId, evs: seq<Event>)
    requires Logged(db, w, r, evs)
    ensures Existing(db, w)
  {
  }

  lemma TakenLogs(db: Db, w: Writes, w': Writes, h: HookId, t: Token, v: HookId, running: bool, e: Entry)
    requires Logged(db, w, v.run, if running then [HookDisposed(v, Some(Taking(h, t)))] else [])
    requires w'.log == w.log[h.run := Unsaved(w, h.run) + [e]] && e.ev == HookCreated(h, Some(Claim(v, running)))
    ensures TakenLog(w', h, t, v, running)
  {
    hide Existing;
    if v.run != h.run || !running {
      assert Unsaved(w, h.run) == [];
    }
  }

  // -------------------------------------------------------------------------
  // Commit

  lemma HookNewReady(db: Db, tx: Tx)
    requires RunsInv(db)
    requires tx.job.HookNew? && Guarded(db, tx) && HookNewShape(db, tx) && Committing(tx)
    ensures Ready(db, tx)
  {
    hide Guarded, Ready, RunsInv, Journaled;
    var h := tx.job.hook;
    if tx.pc.Journal? || (Upon(tx.w, NOTHING) && Logged(db, tx.w, h.run, [HookConflict(h)])) {
      QuietReady(db, tx, h.run, if tx.pc.Done? then [HookConflict(h)] else []);
    } else if Logged(db, tx.w, h.run, [HookCreated(h, None)]) {
      MadeReady(db, tx, h, HookCreated(h, None));
    } else {
      var v, running :| TakenShape(db, tx, v, running);
      if running {
        HandedReady(db, tx, v);
      } else {
        assert Logged(db, tx.w, h.run, [HookCreated(h, Some(Claim(v, false)))]);
        MadeReady(db, tx, h, HookCreated(h, Some(Claim(v, false))));
      }
    }
  }

  lemma MadeReady(db: Db, tx: Tx, h: HookId, ev: Event)
    requires RunsInv(db) && Guarded(db, tx) && h.n != 0
    requires ev.HookCreated? && ev.hook == h && (ev.from.Some? ==> !ev.from.value.running)
    requires Logged(db, tx.w, h.run, [ev]) && Hook(db, h).Absent?
    requires tx.w.births == [h] && tx.w.steps == map[] && tx.w.decide == map[] && tx.w.forget == {}
    requires tx.w.put.Keys == {h}
    ensures Ready(db, tx)
  {
    hide Covered, FenceOk, RunsOk, StepsOk, DecideOk, LedgerOk;
    HookOnlyOk(db, tx.w, h.run, ev);
    OneHookEvent(db, tx.w, h, ev);
    assert Has(db, tx.w, Made(h));
  }

  // The events a takeover leaves pending: the creation, and the disposal of its victim.
  lemma TakenEvents(db: Db, tx: Tx, v: HookId, q: RunId, i: nat)
    requires tx.job.HookNew? && TakenShape(db, tx, v, true) && i < |Unsaved(tx.w, q)|
    ensures var ev := Unsaved(tx.w, q)[i].ev;
            || ev == HookCreated(tx.job.hook, Some(Claim(v, true)))
            || ev == HookDisposed(v, Some(Taking(tx.job.hook, tx.job.token)))
  {
    hide Hook, Existing;
  }

  // Both are there.
  lemma TakenBoth(db: Db, tx: Tx, v: HookId)
    requires tx.job.HookNew? && TakenShape(db, tx, v, true)
    ensures TookIn(Unsaved(tx.w, tx.job.hook.run), tx.job.hook, v)
    ensures LostIn(Unsaved(tx.w, v.run), v, tx.job.hook)
  {
    hide Hook, Existing;
    var h := tx.job.hook;
    assert TakesFrom(tx.w.log[h.run][|tx.w.log[h.run]| - 1].ev, h, v);
    assert LosesTo(tx.w.log[v.run][0].ev, v, h);
  }

  lemma HandedLedger(db: Db, tx: Tx, v: HookId)
    requires tx.job.HookNew? && TakenShape(db, tx, v, true)
    ensures LedgerOk(db, tx.w)
  {
    var x := tx.job.hook;
    assert v in db.hooks && tx.w.births == [x] by { hide Existing, TakenLog, Hook; }
    TakenBoth(db, tx, v);
    forall q: RunId, i | 0 <= i < |Unsaved(tx.w, q)|
      ensures forall g: HookId, h: HookId | TakesFrom(Unsaved(tx.w, q)[i].ev, h, g) :: h == x && g == v
      ensures forall g: HookId, h: HookId | LosesTo(Unsaved(tx.w, q)[i].ev, g, h) :: h == x && g == v
    {
      TakenEvents(db, tx, v, q, i);
    }
    hide TakenShape, Unsaved;
  }

  lemma HandedOk(db: Db, tx: Tx, v: HookId)
    requires RunsInv(db) && tx.job.HookNew? && TakenShape(db, tx, v, true) && tx.job.hook.n != 0
    ensures RunsOk(db, tx.w) && StepsOk(db, tx.w) && DecideOk(db, tx.w)
    ensures forall g: HookId :: g != v && g != tx.job.hook ==> Untouched(tx.w, g)
  {
    hide TakenShape, DecideOk, Existing, RunsOk;
    forall q: RunId, i | 0 <= i < |Unsaved(tx.w, q)|
      ensures var ev := Unsaved(tx.w, q)[i].ev;
              || ev == HookCreated(tx.job.hook, Some(Claim(v, true)))
              || ev == HookDisposed(v, Some(Taking(tx.job.hook, tx.job.token)))
    {
      TakenEvents(db, tx, v, q, i);
    }
    assert forall s: StepId :: StepUntouched(tx.w, s);
    TakenExisting(db, tx, v);
    NoDecision(db, tx.w);
    ExistingRunsOk(db, tx.w);
  }

  lemma TakenExisting(db: Db, tx: Tx, v: HookId)
    requires tx.job.HookNew? && TakenShape(db, tx, v, true)
    ensures Existing(db, tx.w) && tx.w.decide == map[] && tx.w.forget == {} && tx.w.steps == map[]
    ensures tx.w.births == [tx.job.hook] && tx.w.del == {v} && tx.w.put.Keys == {tx.job.hook}
  {
  }

  // One run's log takes both events, the disposal and then the creation, or each its own.
  lemma TakenSays(db: Db, tx: Tx, v: HookId)
    requires tx.job.HookNew? && TakenShape(db, tx, v, true)
    ensures v != tx.job.hook
    ensures var h := tx.job.hook;
            var disposed, made := HookDisposed(v, Some(Taking(h, tx.job.token))), HookCreated(h, Some(Claim(v, true)));
            if v.run == h.run then Says(Unsaved(tx.w, h.run), [disposed, made])
            else Says(Unsaved(tx.w, v.run), [disposed]) && Says(Unsaved(tx.w, h.run), [made])
  {
    hide Existing, Hook;
    var h := tx.job.hook;
    var disposed, made := HookDisposed(v, Some(Taking(h, tx.job.token))), HookCreated(h, Some(Claim(v, true)));
    assert [disposed] + [made] == [disposed, made];
  }

  lemma HandedAfter(db: Db, tx: Tx, v: HookId)
    requires tx.job.HookNew? && TakenShape(db, tx, v, true) && Hook(db, tx.job.hook).Absent?
    ensures After(db, tx.w, v) == HookStep(Hook(db, v), v, HookDisposed(v, Some(Taking(tx.job.hook, tx.job.token))))
    ensures After(db, tx.w, tx.job.hook) == Live(Some(Claim(v, true)))
  {
    hide TakenShape, HookOf, LogOf, Unsaved;
    var h := tx.job.hook;
    TakenSays(db, tx, v);
    HookPushes(LogOf(db, v.run), Unsaved(tx.w, v.run), v);
    HookPushes(LogOf(db, h.run), Unsaved(tx.w, h.run), h);
  }

  lemma TakenVictim(db: Db, tx: Tx, v: HookId)
    requires tx.job.HookNew? && TakenShape(db, tx, v, true)
    ensures v != tx.job.hook && v in db.hooks && Hook(db, tx.job.hook).Absent?
  {
    hide Existing, Says, Upon, Hook;
  }

  lemma HandedReady(db: Db, tx: Tx, v: HookId)
    requires RunsInv(db) && Guarded(db, tx)
    requires tx.job.HookNew? && TakenShape(db, tx, v, true) && tx.job.hook.n != 0
    ensures Ready(db, tx)
  {
    hide Covered, FenceOk, RunsOk, StepsOk, DecideOk, RunsInv, TakenShape, TicketOk, Timely, Untouched, Hook, After,
      Existing, LedgerOk;
    var h := tx.job.hook;
    TakenVictim(db, tx, v);
    HandedOk(db, tx, v);
    HandedLedger(db, tx, v);
    TakenExisting(db, tx, v);
    HandedAfter(db, tx, v);
    assert Has(db, tx.w, Handed(v, h));
  }

  // -------------------------------------------------------------------------
  // What the others do meanwhile

  lemma JournaledFrame(db: Db, db': Db, locks: set<Key>, r: RunId, ev: Event)
    requires Rely(db, db', locks) && Journaled(LogOf(db, r), ev)
    ensures Journaled(LogOf(db', r), ev)
  {
    assert LogOf(db, r) <= LogOf(db', r);
  }

  lemma HoldingFrame(db: Db, db': Db, tx: Tx, v: HookId)
    requires tx.job.HookNew? && Rely(db, db', tx.locks) && Holding(db, tx, v)
    ensures Holding(db', tx, v)
  {
    assert SameOn(db, db', HookRow(v));
  }

  lemma AbsentFrame(db: Db, db': Db, tx: Tx, h: HookId)
    requires Rely(db, db', tx.locks) && Covered(db, tx.w, tx.locks) && h.run in tx.w.log
    ensures Hook(db', h) == Hook(db, h)
  {
    TailFrame(db, db', tx.locks, h.run);
  }

  lemma HookNewFrame(db: Db, db': Db, tx: Tx)
    requires tx.job.HookNew? && HookNewShape(db, tx) && Rely(db, db', tx.locks)
    requires Covered(db, tx.w, tx.locks)
    ensures HookNewShape(db', tx)
  {
    hide Rely, Existing, Covered, Journaled, Holding, Hook, TakenShape;
    var h := tx.job.hook;
    if Existing(db, tx.w) { ExistingFrame(db, db', tx.locks, tx.w); }
    match tx.pc {
      case DisposeVictim(v) => HoldingFrame(db, db', tx, v);
      case DeleteVictim(v, _) => HoldingFrame(db, db', tx, v);
      case InsertTaken(v, _) => HoldingFrame(db, db', tx, v);
      case Journal(ev) =>
        if Journaled(LogOf(db, h.run), ev) { JournaledFrame(db, db', tx.locks, h.run, ev); }
        if ev.HookCreated? && ev.from.Some? { HoldingFrame(db, db', tx, ev.from.value.victim); }
      case Done =>
        if v, running :| TakenShape(db, tx, v, running) {
          TakenFrame(db, db', tx, v, running);
        } else if Logged(db, tx.w, h.run, [HookCreated(h, None)]) {
          AbsentFrame(db, db', tx, h);
        }
      case _ =>
    }
  }

  lemma TakenFrame(db: Db, db': Db, tx: Tx, v: HookId, running: bool)
    requires tx.job.HookNew? && TakenShape(db, tx, v, running) && Rely(db, db', tx.locks)
    requires Covered(db, tx.w, tx.locks)
    ensures TakenShape(db', tx, v, running)
  {
    hide Rely, Existing, Covered, Holding, Hook, Says;
    ExistingFrame(db, db', tx.locks, tx.w);
    AbsentFrame(db, db', tx, tx.job.hook);
    HoldingFrame(db, db', tx, v);
  }
}
