/**
 The creation of a run, decided together with its start Hook's admission.
 */
module CreateProofs {
  import opened Options
  import opened EventLog
  import opened Database
  import opened Protocol
  import opened Invariant
  import opened Shapes
  import opened Statements
  import opened RunProofs

  // -------------------------------------------------------------------------
  // Statements

  lemma Looks(db: Db, held: set<Key>, tx: Tx, c: Choice, tx': Tx)
    requires AcceptedInv(db)
    requires tx.job.Create? && tx.job.run.start.Some? && Guarded(db, tx) && CreateShape(db, tx)
    requires tx.pc.Recorded? || tx.pc.CheckAge? || tx.pc.CheckRun?
    requires ExecAdmission(db, held, tx, c) == Go(tx')
    ensures tx'.job == tx.job && Guarded(db, tx') && (tx'.pc.Aborted? || CreateShape(db, tx'))
  {
    hide Guarded;
    Answered(db, tx, tx'.pc, tx'.answer);
  }

  lemma Forgets(db: Db, held: set<Key>, tx: Tx, c: Choice, tx': Tx)
    requires tx.job.Create? && tx.job.run.start.Some? && Guarded(db, tx) && CreateShape(db, tx)
    requires tx.pc.ForgetOld?
    requires ExecAdmission(db, held, tx, c) == Go(tx')
    ensures tx'.job == tx.job && Guarded(db, tx') && CreateShape(db, tx')
  {
    hide Guarded;
    Forgot(db, tx, c.batch, ReleaseToken);
  }

  lemma ClaimsToken(db: Db, held: set<Key>, tx: Tx, c: Choice, tx': Tx)
    requires tx.job.Create? && tx.job.run.start.Some? && Guarded(db, tx) && CreateShape(db, tx)
    requires tx.pc.ReleaseToken? || tx.pc.FindOwner? || tx.pc.ClaimToken?
    requires ExecAdmission(db, held, tx, c) == Go(tx')
    ensures tx'.job == tx.job && Guarded(db, tx') && (tx'.pc.Aborted? || CreateShape(db, tx'))
  {
    hide Guarded, TokenHeld, OwnerRead;
    var r, t := tx.job.run, tx.job.run.start.value;
    Stepped(db, tx, tx'.pc);
    if tx.pc.ReleaseToken? && c.row.Some? {
      Removed(db, held, tx, c.row.value, FindOwner);
    } else if tx'.pc.RecordAcceptance? {
      Put(db, tx, StartHook(r), t, RecordAcceptance);
    }
  }

  lemma LosesToken(db: Db, held: set<Key>, tx: Tx, c: Choice, tx': Tx)
    requires AcceptedInv(db)
    requires tx.job.Create? && tx.job.run.start.Some? && Guarded(db, tx) && CreateShape(db, tx)
    requires tx.pc.LostToken?
    requires ExecAdmission(db, held, tx, c) == Go(tx')
    ensures tx'.job == tx.job && Guarded(db, tx') && (tx'.pc.Aborted? || CreateShape(db, tx'))
  {
    hide Guarded, TokenHeld, OwnerRead, Expires, Visible, ExecRelease, PutHook;
    Answered(db, tx, tx'.pc, tx'.answer);
  }

  lemma RecordsDecision(db: Db, held: set<Key>, tx: Tx, c: Choice, tx': Tx)
    requires AcceptedInv(db)
    requires tx.job.Create? && tx.job.run.start.Some? && Guarded(db, tx) && CreateShape(db, tx)
    requires tx.pc.RecordRefusal? || tx.pc.RecordAcceptance?
    requires ExecAdmission(db, held, tx, c) == Go(tx')
    ensures tx'.job == tx.job && Guarded(db, tx') && (tx'.pc.Aborted? || CreateShape(db, tx'))
  {
    hide Guarded, CreateShape, ExecAdmission, AcceptedInv;
    if tx.job.run in db.adm && tx.job.run !in tx.w.forget {
      FindsDecision(db, held, tx, c, tx');
    } else {
      MakesDecision(db, held, tx, c, tx');
    }
  }

  lemma FindsDecision(db: Db, held: set<Key>, tx: Tx, c: Choice, tx': Tx)
    requires AcceptedInv(db) && tx.job.Create? && tx.job.run.start.Some?
    requires tx.job.run in db.adm && tx.job.run !in tx.w.forget
    requires Guarded(db, tx) && CreateShape(db, tx)
    requires tx.pc.RecordRefusal? || tx.pc.RecordAcceptance?
    requires ExecAdmission(db, held, tx, c) == Go(tx')
    ensures tx'.job == tx.job && Guarded(db, tx') && (tx'.pc.Aborted? || CreateShape(db, tx'))
  {
    hide Guarded, TokenHeld, OwnerRead, Expires, Visible, ExecRelease, PutHook;
    Answered(db, tx, tx'.pc, tx'.answer);
  }

  lemma MakesDecision(db: Db, held: set<Key>, tx: Tx, c: Choice, tx': Tx)
    requires tx.job.Create? && tx.job.run.start.Some?
    requires tx.job.run !in db.adm || tx.job.run in tx.w.forget
    requires Guarded(db, tx) && CreateShape(db, tx)
    requires tx.pc.RecordRefusal? || tx.pc.RecordAcceptance?
    requires ExecAdmission(db, held, tx, c) == Go(tx')
    ensures tx'.job == tx.job && Guarded(db, tx') && (tx'.pc.Aborted? || CreateShape(db, tx'))
  {
    hide Guarded, TokenHeld, OwnerRead, Expires, Visible, Resumed, CreatedShape, ExecRelease, PutHook;
    var r := tx.job.run;
    Decided(db, tx, r, tx'.w.decide[r], tx'.pc, tx'.answer);
    assert tx'.w.decide == map[r := tx'.w.decide[r]];
  }

  lemma FirstCreate(db: Db, held: set<Key>, tx: Tx, c: Choice, tx': Tx)
    requires tx.job.Create? && Guarded(db, tx) && CreateShape(db, tx) && tx.pc.First?
    requires ExecCreate(db, held, tx, c) == Go(tx')
    ensures tx'.job == tx.job && Guarded(db, tx') && CreateShape(db, tx')
  {
    hide Guarded, ExecAdmission;
    Stepped(db, tx, tx'.pc);
  }

  lemma InsertsRun(db: Db, held: set<Key>, tx: Tx, c: Choice, tx': Tx)
    requires tx.job.Create? && Guarded(db, tx) && CreateShape(db, tx) && tx.pc.InsertRun?
    requires ExecCreate(db, held, tx, c) == Go(tx')
    ensures tx'.job == tx.job && Guarded(db, tx') && CreateShape(db, tx')
  {
    hide Guarded, ExecAdmission;
    var r := tx.job.run;
    Stepped(db, tx, tx'.pc);
    if tx'.pc.OpenSlots? {
      WroteRun(db, tx, r, RunRow(Status.Pending, tx.job.spec), OpenSlots);
      assert tx'.w.runs == map[r := RunRow(Status.Pending, tx.job.spec)];
    }
  }

  // The slots row and slot 1, under their keys.
  lemma Opens(db: Db, tx: Tx, r: RunId, ev: Event, next: Pc)
    requires Guarded(db, tx) && r == RunOf(tx.job) && !tx.consumed && r !in db.seqs
    requires tx.w.log == map[] && ev.RunCreated?
    ensures Guarded(db, tx.(pc := next, locks := tx.locks + {Fence(r), Tail(r)},
                            w := Push(tx.w, r, Entry(ev, None)).(seqs := tx.w.seqs[r := 1])))
  {
    var tx' := tx.(pc := next, locks := tx.locks + {Fence(r), Tail(r)},
                   w := Push(tx.w, r, Entry(ev, None)).(seqs := tx.w.seqs[r := 1]));
    assert [] + [Entry(ev, None)] == [Entry(ev, None)];
    assert tx'.w.log == map[r := [Entry(ev, None)]];
    OpensFence(db, tx, tx', r, Entry(ev, None));
    OpensCovered(db, tx, tx', r, Entry(ev, None));
    hide FenceOk, Covered;
  }

  lemma OpensFence(db: Db, tx: Tx, tx': Tx, r: RunId, e: Entry)
    requires FenceOk(db, tx) && r == RunOf(tx.job) && !tx.consumed && r !in db.seqs && e.mark.None?
    requires tx'.w.log == map[r := [e]] && tx'.w.seqs == tx.w.seqs[r := 1] && tx.locks + {Fence(r)} <= tx'.locks
    requires tx'.job == tx.job && tx'.fence == tx.fence && !tx'.consumed
    ensures FenceOk(db, tx')
  {
    assert [] + [e] == [e];
    MarksPush([], e);
  }

  lemma OpensCovered(db: Db, tx: Tx, tx': Tx, r: RunId, e: Entry)
    requires Covered(db, tx.w, tx.locks) && e.ev.RunCreated?
    requires tx'.w == tx.w.(log := map[r := [e]], seqs := tx.w.seqs[r := 1], births := tx'.w.births)
    requires tx'.locks == tx.locks + {Fence(r), Tail(r)}
    ensures Covered(db, tx'.w, tx'.locks)
  {
  }

  lemma OpensSlots(db: Db, held: set<Key>, tx: Tx, c: Choice, tx': Tx)
    requires RunsInv(db)
    requires tx.job.Create? && Guarded(db, tx) && CreateShape(db, tx) && tx.pc.OpenSlots?
    requires ExecCreate(db, held, tx, c) == Go(tx')
    ensures tx'.job == tx.job && Guarded(db, tx') && (tx'.pc.Aborted? || CreateShape(db, tx'))
  {
    hide Guarded, ExecAdmission, ExecStart, CreatedShape, RunsInv;
    var r := tx.job.run;
    if tx'.pc.Aborted? {
      Stepped(db, tx, Aborted);
    } else {
      Opens(db, tx, r, RunCreated(StartOf(r)), AfterCreate);
      OpenedShape(db, tx, tx');
    }
  }

  lemma OpenedShape(db: Db, tx: Tx, tx': Tx)
    requires tx.job.Create? && CreateShape(db, tx) && tx.pc.OpenSlots?
    requires var r := tx.job.run;
             && tx'.w == Push(tx.w, r, Entry(RunCreated(StartOf(r)), None)).(seqs := tx.w.seqs[r := 1])
             && tx'.job == tx.job && tx'.began == tx.began
    ensures CreatedShape(db, tx', [])
  {
    var r := tx.job.run;
    assert Unsaved(tx.w, r) == [];
    assert tx'.w.log[r] == [Entry(RunCreated(StartOf(r)), None)];
  }

  // The start of a run its own request has just created, or found.
  lemma GoesOn(db: Db, held: set<Key>, tx: Tx, c: Choice, tx': Tx)
    requires RunsInv(db)
    requires tx.job.Create? && Guarded(db, tx) && CreateShape(db, tx) && tx.pc.AfterCreate?
    requires ExecCreate(db, held, tx, c) == Go(tx')
    ensures tx'.job == tx.job && Guarded(db, tx') && (tx'.pc.Aborted? || CreateShape(db, tx'))
  {
    hide Guarded, ExecAdmission, CreatedShape, RunsInv;
    var r := tx.job.run;
    if tx'.pc.Journal? {
      WroteRun(db, tx, r, tx'.w.runs[r], tx'.pc);
      RunSet(db, tx, tx', tx'.w.runs[r]);
    } else {
      Stepped(db, tx, tx'.pc);
      SameCreated(db, tx, tx');
    }
  }

  lemma SameCreated(db: Db, tx: Tx, tx': Tx)
    requires tx.job.Create? && CreatedShape(db, tx, [])
    requires tx'.w == tx.w && tx'.job == tx.job && tx'.began == tx.began
    ensures CreatedShape(db, tx', [])
  {
    hide Logged, Says;
  }

  lemma RunSet(db: Db, tx: Tx, tx': Tx, row: RunRow)
    requires RunsInv(db) && tx.job.Create? && CreatedShape(db, tx, [])
    requires var r := tx.job.run;
             tx'.w == tx.w.(runs := tx.w.runs[r := row]) && tx'.job == tx.job && tx'.began == tx.began
    ensures CreatedShape(db, tx', [])
  {
    hide Says;
    var r := tx.job.run;
    assert tx'.w.runs.Keys == {r};
    if Resumed(db, tx, r) {
      assert r in db.log.Keys;
    }
  }

  lemma CreateJournal(db: Db, held: set<Key>, tx: Tx, tx': Tx)
    requires RunsInv(db)
    requires tx.job.Create? && Guarded(db, tx) && CreateShape(db, tx) && tx.pc.Journal?
    requires Append(db, held, tx, RunOf(tx.job), tx.pc.ev, Done) == Go(tx')
    ensures tx'.job == tx.job && Guarded(db, tx') && (tx'.pc.Aborted? || CreateShape(db, tx'))
  {
    hide Guarded, Append, Journaled, CreatedShape, RunsInv, Slotted, Unsaved, LogOf;
    var r := tx.job.run;
    AppendGuarded(db, held, tx, r, RunStarted, Done);
    if tx' != tx.(pc := Aborted) {
      StartedShape(db, tx, tx');
    }
  }

  lemma StartedShape(db: Db, tx: Tx, tx': Tx)
    requires RunsInv(db) && tx.job.Create? && CreatedShape(db, tx, [])
    requires Appended(db, tx, tx', tx.job.run, RunStarted, Done)
    ensures tx'.job == tx.job && tx'.pc.Done? && CreatedShape(db, tx', [RunStarted])
  {
    hide Journaled, Existing, Slotted, RunsInv;
    var r := tx.job.run;
    var m := SlottedWrites(tx, r, RunStarted, Done);
    assert tx'.w.log[r] == Unsaved(tx.w, r) + [Entry(RunStarted, m)];
    assert tx'.began == tx.began;
    if Resumed(db, tx, r) && Logged(db, tx.w, r, []) {
      SlotExists(db, tx.w, tx'.w, r, Entry(RunStarted, m));
      assert Logged(db, tx'.w, r, [RunStarted]);
    } else {
      assert Says(tx'.w.log[r], [RunCreated(StartOf(r))] + [RunStarted]);
    }
  }

  lemma AdmissionJob(db: Db, held: set<Key>, tx: Tx, c: Choice, tx': Tx)
    requires AcceptedInv(db)
    requires tx.job.Create? && tx.job.run.start.Some? && Guarded(db, tx) && CreateShape(db, tx)
    requires ExecAdmission(db, held, tx, c) == Go(tx')
    ensures tx'.job == tx.job && Guarded(db, tx') && (tx'.pc.Aborted? || CreateShape(db, tx'))
  {
    hide Guarded, AcceptedInv, CreateShape, ExecRelease, TokenHeld, OwnerRead, Replay, Visible;
    if tx.pc.Recorded? || tx.pc.CheckAge? || tx.pc.CheckRun? {
      Looks(db, held, tx, c, tx');
    } else if tx.pc.ForgetOld? {
      Forgets(db, held, tx, c, tx');
    } else if tx.pc.ReleaseToken? || tx.pc.FindOwner? || tx.pc.ClaimToken? {
      ClaimsToken(db, held, tx, c, tx');
    } else if tx.pc.LostToken? {
      LosesToken(db, held, tx, c, tx');
    } else if tx.pc.RecordRefusal? || tx.pc.RecordAcceptance? {
      RecordsDecision(db, held, tx, c, tx');
    }
  }

  lemma OtherwiseAdmission(db: Db, held: set<Key>, tx: Tx, c: Choice)
    requires tx.job.Create? && !tx.pc.First? && !tx.pc.InsertRun? && !tx.pc.OpenSlots? && !tx.pc.AfterCreate?
    ensures ExecCreate(db, held, tx, c)
            == if tx.job.run.start.Some? then ExecAdmission(db, held, tx, c) else Blocked
  {
    hide ExecAdmission;
  }

  lemma CreateJob(db: Db, held: set<Key>, tx: Tx, c: Choice, tx': Tx)
    requires RunsInv(db) && AcceptedInv(db)
    requires tx.job.Create? && Guarded(db, tx) && CreateShape(db, tx)
    requires ExecCreate(db, held, tx, c) == Go(tx')
    ensures tx'.job == tx.job && Guarded(db, tx') && (tx'.pc.Aborted? || CreateShape(db, tx'))
  {
    hide Guarded, RunsInv, AcceptedInv, ExecCreate, ExecAdmission, CreateShape;
    if tx.pc.First? {
      FirstCreate(db, held, tx, c, tx');
    } else if tx.pc.InsertRun? {
      InsertsRun(db, held, tx, c, tx');
    } else if tx.pc.OpenSlots? {
      OpensSlots(db, held, tx, c, tx');
    } else if tx.pc.AfterCreate? {
      GoesOn(db, held, tx, c, tx');
    } else {
      OtherwiseAdmission(db, held, tx, c);
      AdmissionJob(db, held, tx, c, tx');
    }
  }

  // -------------------------------------------------------------------------
  // Commit

  lemma CreatedHook(db: Db, w: Writes, r: RunId, more: seq<Event>)
    requires r !in db.log && w.log.Keys == {r} && (more == [] || more == [RunStarted])
    requires Says(w.log[r], [RunCreated(StartOf(r))] + more)
    requires w.births == (if r.start.Some? then [StartHook(r)] else [])
    ensures Has(db, w, if r.start.Some? then Made(StartHook(r)) else NoHook) && LedgerOk(db, w)
    ensures forall s: StepId :: StepUntouched(w, s)
    ensures WellBegun(r, w.log[r])
  {
    forall q: RunId, i | 0 <= i < |Unsaved(w, q)|
      ensures q == r && Unsaved(w, q)[i].ev == if i == 0 then RunCreated(StartOf(r)) else RunStarted
    {
    }
    NoTakeovers(db, w);
    hide Says, HookOf, LedgerOk;
    assert forall g: HookId :: StartOf(r) != Some(g) ==> Untouched(w, g);
    if r.start.Some? {
      hide Untouched;
      CreatedStart(w.log[r], StartHook(r));
      assert [] + w.log[r] == w.log[r];
    }
  }

  lemma CreatedStart(es: Log, h: HookId)
    requires |es| > 0 && es[0].ev == RunCreated(Some(h)) && forall i | 0 < i < |es| :: es[i].ev == RunStarted
    ensures HookOf(es, h) == Live(None) && HookOf([], h).Absent?
  {
    assert [] + [es[0]] == [es[0]];
    HookPush([], es[0], h);
    assert es == [es[0]] + es[1..];
    HookUnconcerned([es[0]], es[1..], h);
  }

  lemma CreatedReady(db: Db, tx: Tx, more: seq<Event>)
    requires RunsInv(db)
    requires tx.job.Create? && Guarded(db, tx) && CreatedShape(db, tx, more)
    requires tx.job.run !in db.runs && (more == [] || more == [RunStarted])
    ensures Ready(db, tx)
  {
    hide Covered, TicketOk, StepUntouched, Has, WellBegun, FenceOk, RunsOk, LedgerOk;
    var r, w := tx.job.run, tx.w;
    assert r !in db.log.Keys;
    CreatedHook(db, w, r, more);
    CreatedRuns(db, tx, more);
    assert forall h | h in w.put :: w.births == [h];
  }

  lemma CreatedRuns(db: Db, tx: Tx, more: seq<Event>)
    requires RunsInv(db) && FenceOk(db, tx) && tx.job.Create? && CreatedShape(db, tx, more)
    requires tx.job.run !in db.runs && tx.job.run in tx.w.log && WellBegun(tx.job.run, tx.w.log[tx.job.run])
    ensures RunsOk(db, tx.w)
  {
    hide WellBegun, Says;
    assert tx.w.seqs.Keys <= {tx.job.run};
  }

  lemma ResumedReady(db: Db, tx: Tx, more: seq<Event>)
    requires tx.job.Create? && Guarded(db, tx) && CreatedShape(db, tx, more)
    requires tx.job.run in db.runs && (more == [] || more == [RunStarted])
    ensures Ready(db, tx)
  {
    hide Guarded, RunsOk, Logged, Covered, FenceOk, StepUntouched, LedgerOk, Untouched;
    NeutralOk(db, tx.w, tx.job.run, more);
    assert Has(db, tx.w, NoHook);
    assert PutsOk(db, tx.w);
    Unpack(db, tx);
  }

  lemma Unpack(db: Db, tx: Tx)
    requires Guarded(db, tx)
    ensures Covered(db, tx.w, tx.locks) && FenceOk(db, tx)
  {
  }

  lemma RefusedReady(db: Db, tx: Tx)
    requires tx.job.Create? && Guarded(db, tx)
    requires tx.w == NOTHING.(forget := tx.w.forget, del := tx.w.del, decide := tx.w.decide)
    requires forall r | r in tx.w.decide :: !tx.w.decide[r].accepted
    ensures Ready(db, tx)
  {
    hide Covered, FenceOk, TicketOk, RunsOk, Has, LedgerOk;
    NeutralOk(db, tx.w, tx.job.run, []);
    assert Has(db, tx.w, NoHook);
  }

  lemma CreateReady(db: Db, tx: Tx)
    requires RunsInv(db)
    requires tx.job.Create? && Guarded(db, tx) && CreateShape(db, tx) && Committing(tx)
    ensures Ready(db, tx)
  {
    hide Guarded, Ready, RunsInv, CreatedShape;
    var more := if tx.pc.Done? && CreatedShape(db, tx, [RunStarted]) then [RunStarted] else [];
    if CreatedShape(db, tx, more) {
      if tx.job.run in db.runs {
        ResumedReady(db, tx, more);
      } else {
        CreatedReady(db, tx, more);
      }
    } else {
      RefusedReady(db, tx);
    }
  }

  // -------------------------------------------------------------------------
  // What the others do meanwhile

  // The run still does not exist: its row is locked.
  lemma CreatingFrame(db: Db, db': Db, tx: Tx, r: RunId)
    requires Rely(db, db', tx.locks) && Covered(db, tx.w, tx.locks) && Creating(db, tx, r) && r in tx.w.runs
    ensures Creating(db', tx, r)
  {
    hide Accepting;
    assert SameOn(db, db', Row(r));
  }

  lemma CreatedFrame(db: Db, db': Db, tx: Tx, more: seq<Event>)
    requires Rely(db, db', tx.locks) && Covered(db, tx.w, tx.locks)
    requires tx.job.Create? && CreatedShape(db, tx, more)
    ensures CreatedShape(db', tx, more)
  {
    hide Covered, Existing, Accepting, Says;
    var r := tx.job.run;
    if Existing(db, tx.w) { ExistingFrame(db, db', tx.locks, tx.w); }
    if Creating(db, tx, r) && tx.w.runs.Keys == {r} { CreatingFrame(db, db', tx, r); }
  }

  lemma CreateFrame(db: Db, db': Db, tx: Tx)
    requires Rely(db, db', tx.locks)
    requires tx.job.Create? && CreateShape(db, tx) && Covered(db, tx.w, tx.locks)
    ensures CreateShape(db', tx)
  {
    hide Covered, Creating, CreatedShape, Accepting, Rely;
    var r := tx.job.run;
    if CreatedShape(db, tx, []) { CreatedFrame(db, db', tx, []); }
    if CreatedShape(db, tx, [RunStarted]) { CreatedFrame(db, db', tx, [RunStarted]); }
    if Creating(db, tx, r) && r in tx.w.runs { CreatingFrame(db, db', tx, r); }
  }
}
