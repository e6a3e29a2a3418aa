/**
 `step_created`, `step_started`, `step_completed`, `step_failed` and `step_retrying`.
 */
module StepProofs {
  import opened Options
  import opened EventLog
  import opened Database
  import opened Protocol
  import opened Invariant
  import opened Shapes
  import opened Statements
  import opened RunProofs

  predicate StepOnly(ev: Event) {
    ev.StepCreated? || ev.StepStarted? || ev.StepEnded? || ev.StepRetrying?
  }

  // Everything about a commit but its step, when it is about nothing else.
  lemma StepRunsOk(db: Db, w: Writes, s: StepId, evs: seq<Event>)
    requires RunsInv(db) && Logged(db, w, s.run, evs)
    requires forall i | 0 <= i < |evs| :: StepOnly(evs[i]) && evs[i].step == s
    ensures RunsOk(db, w)
  {
    forall q: RunId, i | 0 <= i < |Unsaved(w, q)|
      ensures !Begins(Unsaved(w, q)[i].ev)
    {
      assert q == s.run;
    }
    hide RunsInv, RunsOk, Existing;
    ExistingRunsOk(db, w);
  }

  lemma StepOnlyOk(db: Db, w: Writes, s: StepId, evs: seq<Event>)
    requires RunsInv(db) && Logged(db, w, s.run, evs)
    requires forall i | 0 <= i < |evs| :: StepOnly(evs[i]) && evs[i].step == s
    requires w.births == [] && w.decide == map[] && w.forget == {} && w.put == map[]
    ensures RunsOk(db, w) && Has(db, w, NoHook) && LedgerOk(db, w) && DecideOk(db, w)
    ensures forall x: StepId :: x != s ==> StepUntouched(w, x)
  {
    hide DecideOk, RunsOk, LedgerOk;
    forall q: RunId, i | 0 <= i < |Unsaved(w, q)|
      ensures StepOnly(Unsaved(w, q)[i].ev) && Unsaved(w, q)[i].ev.step == s
    {
      assert q == s.run;
    }
    StepRunsOk(db, w, s, evs);
    NoTakeovers(db, w);
    NoDecision(db, w);
  }

  // The step's own log and row fit once it commits.
  lemma StepReady(db: Db, tx: Tx, s: StepId, evs: seq<Event>)
    requires RunsInv(db) && Guarded(db, tx) && Logged(db, tx.w, s.run, evs)
    requires forall i | 0 <= i < |evs| :: StepOnly(evs[i]) && evs[i].step == s
    requires Upon(tx.w, NOTHING.(steps := tx.w.steps)) && tx.w.steps.Keys <= {s}
    requires StepFits(StepAfter(db, tx.w, s), StepSeen(db, tx.w, s))
    ensures Ready(db, tx)
  {
    hide Covered, FenceOk, StepFits, StepAfter, LedgerOk, RunsOk, Has, DecideOk;
    StepOnlyOk(db, tx.w, s, evs);
    assert Has(db, tx.w, NoHook);
    forall x: StepId
      ensures if x in tx.w.steps then StepFits(StepAfter(db, tx.w, x), Some(tx.w.steps[x]))
              else StepUntouched(tx.w, x) || StepFits(StepAfter(db, tx.w, x), RowOf(db, x))
    {
    }
  }

  lemma NoEvents(db: Db, w: Writes, s: StepId)
    requires w.log == map[]
    ensures StepAfter(db, w, s) == Step(db, s)
  {
    assert LogOf(db, s.run) + Unsaved(w, s.run) == LogOf(db, s.run);
  }

  lemma {:induction false} StepWasCreated(log: Log, s: StepId)
    requires StepOf(log, s).created
    ensures Journaled(log, StepCreated(s))
  {
    var init, last := log[..|log| - 1], |log| - 1;
    if log[last].ev != StepCreated(s) {
      StepWasCreated(init, s);
      var i :| 0 <= i < |init| && init[i].ev == StepCreated(s);
      assert log[i].ev == StepCreated(s);
    }
  }

  // -------------------------------------------------------------------------
  // step_created

  lemma StepNewJob(db: Db, held: set<Key>, tx: Tx, tx': Tx)
    requires tx.job.StepNew? && Guarded(db, tx) && StepNewShape(db, tx)
    requires ExecStepNew(db, held, tx) == Go(tx')
    ensures tx'.job == tx.job && Guarded(db, tx') && (tx'.pc.Aborted? || StepNewShape(db, tx'))
  {
    hide Guarded;
    var s := tx.job.step;
    Stepped(db, tx, tx'.pc);
    if s !in db.steps {
      WroteStep(db, tx, s, StepRow(StepPending, 0), {}, tx'.pc);
      if tx.pc.InsertStep? {
        assert tx'.w.steps == map[s := StepRow(StepPending, 0)];
        assert s in tx'.w.steps;
      }
    }
  }

  lemma StepNewJournal(db: Db, held: set<Key>, tx: Tx, tx': Tx)
    requires db.seqs.Keys == db.log.Keys
    requires tx.job.StepNew? && Guarded(db, tx) && StepNewShape(db, tx) && tx.pc.Journal?
    requires Append(db, held, tx, RunOf(tx.job), tx.pc.ev, Done) == Go(tx')
    ensures tx'.job == tx.job && Guarded(db, tx') && (tx'.pc.Aborted? || StepNewShape(db, tx'))
  {
    hide Guarded, Append, Journaled;
    Journals(db, held, tx, tx.pc.ev, tx');
    if tx'.pc.Done? && Step(db, tx.job.step).created {
      StepWasCreated(LogOf(db, tx.job.step.run), tx.job.step);
    }
  }

  lemma StepNewReady(db: Db, tx: Tx)
    requires RunsInv(db) && StepInv(db)
    requires tx.job.StepNew? && Guarded(db, tx) && StepNewShape(db, tx) && Committing(tx)
    ensures Ready(db, tx)
  {
    hide Guarded, Ready, RunsInv;
    var s := tx.job.step;
    assert StepFits(Step(db, s), RowOf(db, s));
    if tx.pc.Done? {
      OneStepEvent(db, tx.w, s, StepCreated(s));
      StepReady(db, tx, s, [StepCreated(s)]);
    } else {
      NoEvents(db, tx.w, s);
      StepReady(db, tx, s, []);
    }
  }

  // A step's row under the frame: it stays if it is there, and unchanged if it is written.
  lemma StepRowFrame(db: Db, db': Db, w: Writes, locks: set<Key>, s: StepId)
    requires Rely(db, db', locks) && Covered(db, w, locks)
    ensures s in db.steps ==> s in db'.steps && (db.steps[s].status.Terminal() ==> db'.steps[s].status.Terminal())
    ensures s in w.steps ==> RowOf(db', s) == RowOf(db, s)
    ensures Ticket(s) in locks ==> Step(db', s).ended == Step(db, s).ended
    ensures s.run in w.log ==> Tail(s.run) in locks
  {
    if s in w.steps { assert SameOn(db, db', Steps(s)); }
    if Ticket(s) in locks { assert SameOn(db, db', Ticket(s)); }
  }

  lemma StepNewFrame(db: Db, db': Db, tx: Tx)
    requires tx.job.StepNew? && StepNewShape(db, tx) && Rely(db, db', tx.locks)
    requires Covered(db, tx.w, tx.locks)
    ensures StepNewShape(db', tx)
  {
    hide Existing, Rely, Covered, Says, SameOn, StepOf;
    var s := tx.job.step;
    if Existing(db, tx.w) { ExistingFrame(db, db', tx.locks, tx.w); }
    StepRowFrame(db, db', tx.w, tx.locks, s);
    if s.run in tx.w.log { TailFrame(db, db', tx.locks, s.run); }
  }

  // -------------------------------------------------------------------------
  // step_started

  lemma StepStartReads(db: Db, held: set<Key>, tx: Tx, tx': Tx)
    requires tx.job.StepStart? && Guarded(db, tx) && StepStartShape(db, tx)
    requires tx.pc.First? || tx.pc.ReadStep? || tx.pc.RecheckStep?
    requires ExecStepStart(db, held, tx) == Go(tx')
    ensures tx'.job == tx.job && Guarded(db, tx') && (tx'.pc.Aborted? || StepStartShape(db, tx'))
  {
    hide Guarded, Append, StepFits;
    Stepped(db, tx, tx'.pc);
  }

  lemma InsertsRow(db: Db, tx: Tx)
    requires tx.job.StepStart? && tx.job.lazy && Guarded(db, tx)
    requires tx.job.step !in db.steps && Upon(tx.w, NOTHING)
    requires Logged(db, tx.w, tx.job.step.run, []) || Logged(db, tx.w, tx.job.step.run, [StepCreated(tx.job.step)])
    ensures var tx' := WriteStep(tx, tx.job.step, StepRow(StepPending, 0), {}, UpdateStep).tx;
            Guarded(db, tx') && StepStartShape(db, tx')
  {
    hide Guarded, StepFits;
    WroteStep(db, tx, tx.job.step, StepRow(StepPending, 0), {}, UpdateStep);
  }

  lemma JournalsCreation(db: Db, held: set<Key>, tx: Tx)
    requires db.seqs.Keys == db.log.Keys
    requires tx.job.StepStart? && Guarded(db, tx) && Idle(tx)
    ensures var s := tx.job.step;
            var o := Append(db, held, tx, s.run, StepCreated(s), UpdateStep);
            && (o.Go? && !o.tx.pc.Aborted? ==>
                  Guarded(db, o.tx) && Upon(o.tx.w, NOTHING) && Logged(db, o.tx.w, s.run, [StepCreated(s)])
                  && o.tx.job == tx.job)
  {
    hide Guarded, Append, Journaled;
    var s := tx.job.step;
    AppendGuarded(db, held, tx, s.run, StepCreated(s), UpdateStep);
    var o := Append(db, held, tx, s.run, StepCreated(s), UpdateStep);
    if o.Go? && !o.tx.pc.Aborted? {
      LoggedOnce(db, tx, s.run, StepCreated(s), UpdateStep);
      var m := SlottedWrites(tx, s.run, StepCreated(s), UpdateStep);
    }
  }

  lemma StepStartInserts(db: Db, held: set<Key>, tx: Tx, tx': Tx)
    requires db.seqs.Keys == db.log.Keys
    requires tx.job.StepStart? && Guarded(db, tx) && StepStartShape(db, tx) && tx.pc.InsertStep?
    requires ExecStepStart(db, held, tx) == Go(tx')
    ensures tx'.job == tx.job && Guarded(db, tx') && (tx'.pc.Aborted? || StepStartShape(db, tx'))
  {
    hide Guarded, Append, StepFits, Logged;
    var s := tx.job.step;
    Stepped(db, tx, Aborted);
    if !tx'.pc.Aborted? {
      if db.runs[s.run].spec >= SINGLE_ORCHESTRATOR_SPEC {
        assert Logged(db, tx.w, s.run, []) by { NothingLogged(db, s.run); }
        InsertsRow(db, tx);
      } else {
        JournalsCreation(db, held, tx);
        InsertsRow(db, Append(db, held, tx, s.run, StepCreated(s), UpdateStep).tx);
      }
    }
  }

  lemma NothingLogged(db: Db, r: RunId)
    ensures Logged(db, NOTHING, r, [])
  {
  }

  lemma StepStartUpdates(db: Db, held: set<Key>, tx: Tx, tx': Tx)
    requires tx.job.StepStart? && Guarded(db, tx) && StepStartShape(db, tx) && tx.pc.UpdateStep?
    requires ExecStepStart(db, held, tx) == Go(tx')
    ensures tx'.job == tx.job && Guarded(db, tx') && (tx'.pc.Aborted? || StepStartShape(db, tx'))
  {
    hide Guarded, Append, StepFits;
    var s := tx.job.step;
    Stepped(db, tx, tx'.pc);
    if tx'.pc.Journal? {
      WroteStep(db, tx, s, tx'.w.steps[s], {}, tx'.pc);
      assert tx'.w.steps == map[s := tx'.w.steps[s]];
    }
  }

  lemma StepStartJob(db: Db, held: set<Key>, tx: Tx, tx': Tx)
    requires db.seqs.Keys == db.log.Keys
    requires tx.job.StepStart? && Guarded(db, tx) && StepStartShape(db, tx) && !tx.pc.Journal?
    requires ExecStepStart(db, held, tx) == Go(tx')
    ensures tx'.job == tx.job && Guarded(db, tx') && (tx'.pc.Aborted? || StepStartShape(db, tx'))
  {
    hide Guarded, Append, StepFits;
    if tx.pc.InsertStep? {
      StepStartInserts(db, held, tx, tx');
    } else if tx.pc.UpdateStep? {
      StepStartUpdates(db, held, tx, tx');
    } else if tx.pc.First? || tx.pc.ReadStep? || tx.pc.RecheckStep? {
      StepStartReads(db, held, tx, tx');
    }
  }

  // The start of a step that was there: its attempt and its log advance together.
  lemma StepRestarts(db: Db, held: set<Key>, tx: Tx, tx': Tx)
    requires db.seqs.Keys == db.log.Keys && StepInv(db)
    requires tx.job.StepStart? && Guarded(db, tx) && StepStartShape(db, tx) && tx.pc.Journal? && !tx.job.lazy
    requires Append(db, held, tx, RunOf(tx.job), tx.pc.ev, Done) == Go(tx')
    ensures tx'.job == tx.job && Guarded(db, tx') && (tx'.pc.Aborted? || StepStartShape(db, tx'))
  {
    hide Guarded, Append, Journaled;
    var s := tx.job.step;
    Journals(db, held, tx, tx.pc.ev, tx');
    if tx'.pc.Done? {
      assert StepFits(Step(db, s), RowOf(db, s));
      OneStepEvent(db, tx'.w, s, tx.pc.ev);
      assert tx'.w.steps == map[s := tx'.w.steps[s]];
    }
  }

  lemma TwoStepEvents(db: Db, w: Writes, s: StepId, a: Event, b: Event)
    requires Logged(db, w, s.run, [a, b])
    ensures StepAfter(db, w, s) == StepStep(StepStep(Step(db, s), s, a), s, b)
  {
    var log, es := LogOf(db, s.run), w.log[s.run];
    assert es == [es[0], es[1]];
    assert log + es == (log + [es[0]]) + [es[1]];
    StepPush(log, es[0], s);
    StepPush(log + [es[0]], es[1], s);
  }

  // The start that creates its step.
  lemma LazyDone(db: Db, tx: Tx, tx': Tx)
    requires RunsInv(db) && StepInv(db) && tx.job.StepStart? && tx.job.lazy
    requires Inserted(db, tx, StepRow(StepRunning, 1))
    requires Appended(db, tx, tx', tx.job.step.run, StepStarted(tx.job.step, true), Done)
    ensures tx'.job == tx.job && StepStartShape(db, tx')
  {
    hide Journaled, StepInv, StepFits, Slotted, Existing, Says, RunsInv;
    var s := tx.job.step;
    var ev := StepStarted(s, true);
    var m := SlottedWrites(tx, s.run, ev, Done);
    SlotExists(db, tx.w, tx'.w, s.run, Entry(ev, m));
    var evs := if Logged(db, tx.w, s.run, []) then [] else [StepCreated(s)];
    SaysMore(db, tx.w, tx'.w, s.run, evs, Entry(ev, m));
    assert evs + [ev] == [ev] || evs + [ev] == [StepCreated(s), ev];
    LazyFits(db, tx'.w, s, evs + [ev]);
  }

  lemma SaysMore(db: Db, w: Writes, w': Writes, r: RunId, evs: seq<Event>, e: Entry)
    requires Logged(db, w, r, evs) && Existing(db, w') && w'.log == w.log[r := Unsaved(w, r) + [e]]
    ensures Logged(db, w', r, evs + [e.ev])
  {
    hide Existing;
    assert w.log == map[] ==> Unsaved(w, r) == [];
  }

  lemma LazyFits(db: Db, w: Writes, s: StepId, evs: seq<Event>)
    requires StepInv(db) && s !in db.steps && Logged(db, w, s.run, evs)
    requires evs == [StepStarted(s, true)] || evs == [StepCreated(s), StepStarted(s, true)]
    ensures StepFits(StepAfter(db, w, s), Some(StepRow(StepRunning, 1)))
  {
    assert StepFits(Step(db, s), RowOf(db, s));
    if |evs| == 1 {
      OneStepEvent(db, w, s, evs[0]);
    } else {
      TwoStepEvents(db, w, s, evs[0], evs[1]);
    }
  }

  lemma StepLazilyStarts(db: Db, held: set<Key>, tx: Tx, tx': Tx)
    requires RunsInv(db) && StepInv(db)
    requires tx.job.StepStart? && Guarded(db, tx) && StepStartShape(db, tx) && tx.pc.Journal? && tx.job.lazy
    requires Append(db, held, tx, RunOf(tx.job), tx.pc.ev, Done) == Go(tx')
    ensures tx'.job == tx.job && Guarded(db, tx') && (tx'.pc.Aborted? || StepStartShape(db, tx'))
  {
    hide Guarded, Append, Journaled;
    var s, ev := tx.job.step, tx.pc.ev;
    AppendGuarded(db, held, tx, s.run, ev, Done);
    if tx' != tx.(pc := Aborted) {
      LazyDone(db, tx, tx');
    }
  }

  lemma StepStartReady(db: Db, tx: Tx)
    requires RunsInv(db)
    requires tx.job.StepStart? && Guarded(db, tx) && StepStartShape(db, tx) && Committing(tx)
    ensures Ready(db, tx)
  {
    hide Guarded, Ready, RunsInv, StepFits, StepAfter;
    var StepStart(s, lazy) := tx.job;
    if Logged(db, tx.w, s.run, [StepStarted(s, lazy)]) {
      StepReady(db, tx, s, [StepStarted(s, lazy)]);
    } else {
      StepReady(db, tx, s, [StepCreated(s), StepStarted(s, lazy)]);
    }
  }

  lemma StepStartFrame(db: Db, db': Db, tx: Tx)
    requires tx.job.StepStart? && StepStartShape(db, tx) && Rely(db, db', tx.locks)
    requires Covered(db, tx.w, tx.locks)
    ensures StepStartShape(db', tx)
  {
    hide Existing, StepFits, StepAfter, Covered, Rely, Says;
    var s := tx.job.step;
    if Existing(db, tx.w) { ExistingFrame(db, db', tx.locks, tx.w); }
    StepRowFrame(db, db', tx.w, tx.locks, s);
    if s.run in tx.w.log { StepAfterFrame(db, db', tx, s); }
  }

  lemma StepAfterFrame(db: Db, db': Db, tx: Tx, s: StepId)
    requires Rely(db, db', tx.locks) && Covered(db, tx.w, tx.locks) && s.run in tx.w.log
    ensures StepAfter(db', tx.w, s) == StepAfter(db, tx.w, s)
  {
    TailFrame(db, db', tx.locks, s.run);
  }

  // -------------------------------------------------------------------------
  // step_completed, step_failed

  lemma StepEndJob(db: Db, held: set<Key>, tx: Tx, tx': Tx)
    requires StepInv(db)
    requires tx.job.StepEnd? && Guarded(db, tx) && StepEndShape(db, tx)
    requires ExecStepEnd(db, held, tx) == Go(tx')
    ensures tx'.job == tx.job && Guarded(db, tx') && (tx'.pc.Aborted? || StepEndShape(db, tx'))
  {
    hide Guarded;
    var s := tx.job.step;
    Stepped(db, tx, tx'.pc);
    if tx.pc.UpdateStep? && !db.steps[s].status.Terminal() {
      assert StepFits(Step(db, s), RowOf(db, s));
      WroteStep(db, tx, s, tx'.w.steps[s], {Ticket(s)}, tx'.pc);
      assert tx'.w.steps == map[s := tx'.w.steps[s]];
      assert s in tx'.w.steps;
    }
  }

  lemma StepEndJournal(db: Db, held: set<Key>, tx: Tx, tx': Tx)
    requires db.seqs.Keys == db.log.Keys
    requires tx.job.StepEnd? && Guarded(db, tx) && StepEndShape(db, tx) && tx.pc.Journal?
    requires Append(db, held, tx, RunOf(tx.job), tx.pc.ev, Done) == Go(tx')
    ensures tx'.job == tx.job && Guarded(db, tx') && (tx'.pc.Aborted? || StepEndShape(db, tx'))
  {
    hide Guarded, Append, Journaled, Step;
    Journals(db, held, tx, tx.pc.ev, tx');
  }

  lemma StepEndReady(db: Db, tx: Tx)
    requires RunsInv(db) && StepInv(db)
    requires tx.job.StepEnd? && Guarded(db, tx) && StepEndShape(db, tx) && Committing(tx)
    ensures Ready(db, tx)
  {
    hide Guarded, Ready, RunsInv;
    var s := tx.job.step;
    assert StepFits(Step(db, s), RowOf(db, s));
    if tx.pc.Done? {
      OneStepEvent(db, tx.w, s, StepEnded(s));
      StepReady(db, tx, s, [StepEnded(s)]);
    } else {
      NoEvents(db, tx.w, s);
      StepReady(db, tx, s, []);
    }
  }

  lemma StepEndFrame(db: Db, db': Db, tx: Tx)
    requires tx.job.StepEnd? && StepEndShape(db, tx) && Rely(db, db', tx.locks)
    requires Covered(db, tx.w, tx.locks)
    ensures StepEndShape(db', tx)
  {
    hide Existing, Step, Rely, Covered, Says, SameOn;
    var s := tx.job.step;
    if Existing(db, tx.w) { ExistingFrame(db, db', tx.locks, tx.w); }
    StepRowFrame(db, db', tx.w, tx.locks, s);
  }

  // -------------------------------------------------------------------------
  // step_retrying

  lemma StepRetryJob(db: Db, held: set<Key>, tx: Tx, tx': Tx)
    requires tx.job.StepRetry? && Guarded(db, tx) && StepRetryShape(db, tx)
    requires ExecStepRetry(db, held, tx) == Go(tx')
    ensures tx'.job == tx.job && Guarded(db, tx') && (tx'.pc.Aborted? || StepRetryShape(db, tx'))
  {
    hide Guarded;
    var s := tx.job.step;
    Stepped(db, tx, tx'.pc);
    if tx'.pc.Journal? {
      WroteStep(db, tx, s, tx'.w.steps[s], {}, tx'.pc);
      assert tx'.w.steps == map[s := tx'.w.steps[s]];
    }
  }

  lemma StepRetryJournal(db: Db, held: set<Key>, tx: Tx, tx': Tx)
    requires db.seqs.Keys == db.log.Keys
    requires tx.job.StepRetry? && Guarded(db, tx) && StepRetryShape(db, tx) && tx.pc.Journal?
    requires Append(db, held, tx, RunOf(tx.job), tx.pc.ev, Done) == Go(tx')
    ensures tx'.job == tx.job && Guarded(db, tx') && (tx'.pc.Aborted? || StepRetryShape(db, tx'))
  {
    hide Guarded, Append, Journaled;
    Journals(db, held, tx, tx.pc.ev, tx');
  }

  lemma StepRetryReady(db: Db, tx: Tx)
    requires RunsInv(db) && StepInv(db)
    requires tx.job.StepRetry? && Guarded(db, tx) && StepRetryShape(db, tx) && Committing(tx)
    ensures Ready(db, tx)
  {
    hide Ready, RunsInv, Guarded;
    var s := tx.job.step;
    assert StepFits(Step(db, s), RowOf(db, s));
    RetriedIsOpen(db, tx);
    hide StepInv, Covered;
    if tx.pc.Done? {
      OneStepEvent(db, tx.w, s, StepRetrying(s));
      StepReady(db, tx, s, [StepRetrying(s)]);
    } else {
      NoEvents(db, tx.w, s);
      StepReady(db, tx, s, []);
    }
  }

  // A row that is written is not a terminal one.
  lemma RetriedIsOpen(db: Db, tx: Tx)
    requires Guarded(db, tx)
    ensures forall s | s in tx.w.steps && s in db.steps :: !db.steps[s].status.Terminal()
  {
    hide FenceOk, TicketOk, Timely;
  }

  lemma StepRetryFrame(db: Db, db': Db, tx: Tx)
    requires tx.job.StepRetry? && StepRetryShape(db, tx) && Rely(db, db', tx.locks)
    requires Covered(db, tx.w, tx.locks)
    ensures StepRetryShape(db', tx)
  {
    hide Existing, Rely, Covered, Says;
    var s := tx.job.step;
    if Existing(db, tx.w) { ExistingFrame(db, db', tx.locks, tx.w); }
    StepRowFrame(db, db', tx.w, tx.locks, s);
  }
}
