/**
 The requests that write their own rows and one slot: any other event, the start and
 the end of a run, a Hook's disposal and its delivery.
 */
module RunProofs {
  import opened Options
  import opened EventLog
  import opened Database
  import opened Protocol
  import opened Invariant
  import opened Shapes
  import opened Statements

  // -------------------------------------------------------------------------
  // What commits with no Hook or step event

  predicate Neutral(ev: Event) {
    ev.RunStarted? || ev.RunEnded? || ev.HookConflict? || ev.StepRetrying? || ev.Other?
  }

  // Slots of runs that exist, none of them a creation.
  lemma ExistingRunsOk(db: Db, w: Writes)
    requires RunsInv(db) && Existing(db, w)
    requires forall q: RunId, i | 0 <= i < |Unsaved(w, q)| :: !Begins(Unsaved(w, q)[i].ev)
    ensures RunsOk(db, w)
  {
    assert forall r | r in w.log || r in w.seqs || r in w.runs :: r in db.log.Keys;
    assert forall r | r in w.log :: w.log[r] == Unsaved(w, r);
  }

  lemma NeutralOk(db: Db, w: Writes, r: RunId, evs: seq<Event>)
    requires Logged(db, w, r, evs) && forall i | 0 <= i < |evs| :: Neutral(evs[i])
    requires w.births == []
    ensures RunsOk(db, w) && Has(db, w, NoHook) && LedgerOk(db, w)
    ensures forall s: StepId :: StepUntouched(w, s)
  {
    forall q: RunId, i | 0 <= i < |Unsaved(w, q)|
      ensures Neutral(Unsaved(w, q)[i].ev)
    {
      assert q == r;
    }
    NoTakeovers(db, w);
  }

  predicate OfTakeover(ev: Event) {
    || (ev.HookCreated? && ev.from.Some? && ev.from.value.running)
    || (ev.HookDisposed? && ev.lostTo.Some?)
  }

  lemma NoTakeovers(db: Db, w: Writes)
    requires forall q: RunId, i | 0 <= i < |Unsaved(w, q)| :: !OfTakeover(Unsaved(w, q)[i].ev)
    ensures LedgerOk(db, w)
  {
    hide Unsaved;
    forall v: HookId, h: HookId
      ensures !TookIn(Unsaved(w, h.run), h, v) && !LostIn(Unsaved(w, v.run), v, h)
    {
    }
  }

  lemma NoDecision(db: Db, w: Writes)
    requires w.decide == map[]
    ensures DecideOk(db, w)
  {
  }

  lemma QuietReady(db: Db, tx: Tx, r: RunId, evs: seq<Event>)
    requires RunsInv(db) && Guarded(db, tx)
    requires Logged(db, tx.w, r, evs) && forall i | 0 <= i < |evs| :: Neutral(evs[i])
    requires tx.w.births == [] && tx.w.steps == map[] && tx.w.decide == map[] && tx.w.forget == {}
    requires tx.w.put == map[]
    ensures Ready(db, tx)
  {
    hide Covered, FenceOk, RunsOk, Has, LedgerOk;
    NeutralOk(db, tx.w, r, evs);
    NoDecision(db, tx.w);
  }

  // -------------------------------------------------------------------------
  // The slot every request ends with

  lemma Journals(db: Db, held: set<Key>, tx: Tx, ev: Event, tx': Tx)
    requires db.seqs.Keys == db.log.Keys && Guarded(db, tx)
    requires Append(db, held, tx, RunOf(tx.job), ev, Done) == Go(tx')
    requires ev.StepEnded? ==> Ticket(ev.step) in tx.locks
    requires tx.w.log == map[] && Existing(db, tx.w) && tx.w.births == []
    ensures tx'.job == tx.job && Guarded(db, tx') && tx.locks <= tx'.locks && tx'.job == tx.job
    ensures tx'.pc == Aborted || tx'.pc == Done
    ensures tx'.pc == Done ==>
              && Upon(tx'.w, tx.w.(births := Born(ev)))
              && Logged(db, tx'.w, RunOf(tx.job), [ev])
              && !Journaled(LogOf(db, RunOf(tx.job)), ev)
  {
    hide Guarded, Journaled;
    var r := RunOf(tx.job);
    AppendGuarded(db, held, tx, r, ev, Done);
    if tx' != tx.(pc := Aborted) {
      LoggedOnce(db, tx, r, ev, Done);
      var m := SlottedWrites(tx, r, ev, Done);
      assert LogOf(db, r) + Unsaved(tx.w, r) == LogOf(db, r);
    }
  }

  // -------------------------------------------------------------------------
  // Any other event

  lemma PlainJob(db: Db, held: set<Key>, tx: Tx, tx': Tx)
    requires tx.job.Plain? && Guarded(db, tx) && PlainShape(db, tx)
    requires ExecPlain(db, tx) == Go(tx')
    ensures tx'.job == tx.job && Guarded(db, tx') && PlainShape(db, tx')
  {
    hide Guarded;
    Stepped(db, tx, tx'.pc);
  }

  lemma PlainJournal(db: Db, held: set<Key>, tx: Tx, tx': Tx)
    requires db.seqs.Keys == db.log.Keys
    requires tx.job.Plain? && Guarded(db, tx) && PlainShape(db, tx) && tx.pc.Journal?
    requires Append(db, held, tx, RunOf(tx.job), tx.pc.ev, Done) == Go(tx')
    ensures tx'.job == tx.job && Guarded(db, tx') && (tx'.pc.Aborted? || PlainShape(db, tx'))
  {
    hide Guarded, Append;
    Journals(db, held, tx, tx.pc.ev, tx');
  }

  lemma PlainReady(db: Db, tx: Tx)
    requires RunsInv(db) && tx.job.Plain? && Guarded(db, tx) && PlainShape(db, tx) && Committing(tx)
    ensures Ready(db, tx)
  {
    hide Guarded, Ready;
    QuietReady(db, tx, tx.job.run, if tx.pc.Done? then [Other] else []);
  }

  // -------------------------------------------------------------------------
  // run_started

  lemma StartJob(db: Db, held: set<Key>, tx: Tx, tx': Tx)
    requires db.runs.Keys == db.log.Keys
    requires tx.job.Start? && Guarded(db, tx) && StartShape(db, tx) && tx.pc.First?
    requires ExecStart(db, held, tx) == Go(tx')
    ensures tx'.job == tx.job && Guarded(db, tx') && (tx'.pc.Aborted? || StartShape(db, tx'))
  {
    hide Guarded;
    var r := tx.job.run;
    if tx'.pc.Journal? {
      WroteRun(db, tx, r, tx'.w.runs[r], tx'.pc);
      assert tx'.w.runs == map[r := tx'.w.runs[r]];
      assert r in db.runs.Keys;
    } else {
      Stepped(db, tx, tx'.pc);
    }
  }

  lemma StartJournal(db: Db, held: set<Key>, tx: Tx, tx': Tx)
    requires db.seqs.Keys == db.log.Keys
    requires tx.job.Start? && Guarded(db, tx) && StartShape(db, tx) && tx.pc.Journal?
    requires Append(db, held, tx, RunOf(tx.job), tx.pc.ev, Done) == Go(tx')
    ensures tx'.job == tx.job && Guarded(db, tx') && (tx'.pc.Aborted? || StartShape(db, tx'))
  {
    hide Guarded, Append;
    Journals(db, held, tx, tx.pc.ev, tx');
  }

  lemma StartReady(db: Db, tx: Tx)
    requires RunsInv(db) && tx.job.Start? && Guarded(db, tx) && StartShape(db, tx) && Committing(tx)
    ensures Ready(db, tx)
  {
    hide Guarded, Ready, RunsInv;
    var r := tx.job.run;
    assert tx.pc.Done? || tx.w.log == map[];
    QuietReady(db, tx, r, if Logged(db, tx.w, r, [RunStarted]) then [RunStarted] else []);
  }

  // -------------------------------------------------------------------------
  // run_completed, run_failed, run_cancelled

  lemma EndJob(db: Db, held: set<Key>, tx: Tx, c: Choice, tx': Tx)
    requires db.runs.Keys == db.log.Keys
    requires tx.job.End? && Guarded(db, tx) && EndShape(db, tx)
    requires ExecEnd(db, held, tx, c) == Go(tx')
    ensures tx'.job == tx.job && Guarded(db, tx') && (tx'.pc.Aborted? || EndShape(db, tx'))
  {
    hide Guarded;
    var r := tx.job.run;
    if tx.pc.UpdateRun? && !tx'.pc.Aborted? {
      WroteRun(db, tx, r, tx'.w.runs[r], tx'.pc);
      assert tx'.w.runs == map[r := tx'.w.runs[r]];
      assert r in db.runs.Keys;
    } else if tx.pc.ReleaseHooks? && c.row.Some? {
      Removed(db, held, tx, c.row.value, ReleaseHooks);
    } else {
      Stepped(db, tx, tx'.pc);
    }
  }

  lemma EndJournal(db: Db, held: set<Key>, tx: Tx, tx': Tx)
    requires db.seqs.Keys == db.log.Keys
    requires tx.job.End? && Guarded(db, tx) && EndShape(db, tx) && tx.pc.Journal?
    requires Append(db, held, tx, RunOf(tx.job), tx.pc.ev, Done) == Go(tx')
    ensures tx'.job == tx.job && Guarded(db, tx') && (tx'.pc.Aborted? || EndShape(db, tx'))
  {
    hide Guarded, Append;
    Journals(db, held, tx, tx.pc.ev, tx');
  }

  lemma EndReady(db: Db, tx: Tx)
    requires RunsInv(db) && tx.job.End? && Guarded(db, tx) && EndShape(db, tx) && Committing(tx)
    ensures Ready(db, tx)
  {
    hide Guarded, Ready;
    QuietReady(db, tx, tx.job.run, if tx.pc.Done? then [RunEnded] else []);
  }

  // -------------------------------------------------------------------------
  // hook_disposed

  lemma DisposeJob(db: Db, held: set<Key>, tx: Tx, tx': Tx)
    requires tx.job.Dispose? && Guarded(db, tx) && DisposeShape(db, tx)
    requires ExecDispose(db, held, tx) == Go(tx')
    ensures tx'.job == tx.job && Guarded(db, tx') && (tx'.pc.Aborted? || DisposeShape(db, tx'))
  {
    hide Guarded;
    if tx.pc.DeleteRow? && !tx'.pc.Aborted? {
      Removed(db, held, tx, tx.job.hook, tx'.pc);
    } else {
      Stepped(db, tx, tx'.pc);
    }
  }

  lemma DisposeJournal(db: Db, held: set<Key>, tx: Tx, tx': Tx)
    requires db.seqs.Keys == db.log.Keys
    requires tx.job.Dispose? && Guarded(db, tx) && DisposeShape(db, tx) && tx.pc.Journal?
    requires Append(db, held, tx, RunOf(tx.job), tx.pc.ev, Done) == Go(tx')
    ensures tx'.job == tx.job && Guarded(db, tx') && (tx'.pc.Aborted? || DisposeShape(db, tx'))
  {
    hide Guarded, Append;
    Journals(db, held, tx, tx.pc.ev, tx');
  }

  // The one pending event, and what it does to Hooks and steps.
  lemma OneEvent(db: Db, w: Writes, r: RunId, ev: Event)
    requires Logged(db, w, r, [ev])
    ensures forall q: RunId :: q != r ==> Unsaved(w, q) == []
    ensures |Unsaved(w, r)| == 1 && Unsaved(w, r)[0].ev == ev
  {
  }

  lemma OneHookEvent(db: Db, w: Writes, h: HookId, ev: Event)
    requires Logged(db, w, h.run, [ev])
    ensures After(db, w, h) == HookStep(Hook(db, h), h, ev)
  {
    HookPush(LogOf(db, h.run), w.log[h.run][0], h);
    assert Unsaved(w, h.run) == [w.log[h.run][0]];
  }

  lemma OneStepEvent(db: Db, w: Writes, s: StepId, ev: Event)
    requires Logged(db, w, s.run, [ev])
    ensures StepAfter(db, w, s) == StepStep(Step(db, s), s, ev)
  {
    StepPush(LogOf(db, s.run), w.log[s.run][0], s);
    assert Unsaved(w, s.run) == [w.log[s.run][0]];
  }

  predicate HookOnly(ev: Event) {
    ev.HookDisposed? || ev.HookReceived? || ev.HookCreated?
  }

  // Everything about a commit but its Hooks, when it is about nothing else.
  lemma HookOnlyOk(db: Db, w: Writes, r: RunId, ev: Event)
    requires RunsInv(db) && Logged(db, w, r, [ev]) && HookOnly(ev) && !Begins(ev) && !OfTakeover(ev)
    requires w.steps == map[] && w.decide == map[] && w.forget == {}
    ensures RunsOk(db, w) && StepsOk(db, w) && DecideOk(db, w) && LedgerOk(db, w)
    ensures forall g: HookId :: g != ev.hook ==> Untouched(w, g)
  {
    hide DecideOk, LedgerOk;
    OneEvent(db, w, r, ev);
    assert forall s: StepId :: StepUntouched(w, s);
    NoDecision(db, w);
    NoTakeovers(db, w);
  }

  lemma DisposeReady(db: Db, tx: Tx)
    requires RunsInv(db)
    requires tx.job.Dispose? && Guarded(db, tx) && DisposeShape(db, tx) && Committing(tx)
    ensures Ready(db, tx)
  {
    hide FenceOk, RunsOk, StepsOk, DecideOk, TicketOk, Timely, Covered, Has, LedgerOk;
    var h := tx.job.hook;
    assert Logged(db, tx.w, h.run, [HookDisposed(h, None)]);
    assert Upon(tx.w, NOTHING.(del := {h}));
    HookOnlyOk(db, tx.w, h.run, HookDisposed(h, None));
    DropsHook(db, tx.w, tx.locks, h);
  }

  lemma DropsHook(db: Db, w: Writes, locks: set<Key>, h: HookId)
    requires Covered(db, w, locks) && Logged(db, w, h.run, [HookDisposed(h, None)])
    requires h in w.del && w.births == [] && forall g: HookId :: g != h ==> Untouched(w, g)
    ensures Has(db, w, Dropped(h))
  {
    hide Untouched;
    OneHookEvent(db, w, h, HookDisposed(h, None));
  }

  // -------------------------------------------------------------------------
  // hook_received

  lemma ReceiveJob(db: Db, held: set<Key>, tx: Tx, tx': Tx)
    requires tx.job.Receive? && Guarded(db, tx) && ReceiveShape(db, tx)
    requires ExecReceive(db, held, tx) == Go(tx')
    ensures tx'.job == tx.job && Guarded(db, tx') && (tx'.pc.Aborted? || ReceiveShape(db, tx'))
  {
    hide Guarded;
    var h := tx.job.hook;
    Stepped(db, tx, tx'.pc);
    Locked(db, tx, tx'.pc, {Row(h.run)});
    Locked(db, tx, tx'.pc, {HookRow(h)});
  }

  lemma ReceiveJournal(db: Db, held: set<Key>, tx: Tx, tx': Tx)
    requires db.seqs.Keys == db.log.Keys
    requires tx.job.Receive? && Guarded(db, tx) && ReceiveShape(db, tx) && tx.pc.Journal?
    requires Append(db, held, tx, RunOf(tx.job), tx.pc.ev, Done) == Go(tx')
    ensures tx'.job == tx.job && Guarded(db, tx') && (tx'.pc.Aborted? || ReceiveShape(db, tx'))
  {
    hide Guarded, Append;
    Journals(db, held, tx, tx.pc.ev, tx');
  }

  lemma ReceiveReady(db: Db, tx: Tx)
    requires RunsInv(db)
    requires tx.job.Receive? && Guarded(db, tx) && ReceiveShape(db, tx) && Committing(tx)
    ensures Ready(db, tx)
  {
    hide FenceOk, RunsOk, StepsOk, DecideOk, Covered, LedgerOk;
    var h := tx.job.hook;
    HookOnlyOk(db, tx.w, h.run, HookReceived(h));
    OneHookEvent(db, tx.w, h, HookReceived(h));
    assert Has(db, tx.w, Delivered(h));
  }

  // -------------------------------------------------------------------------
  // What the others do meanwhile

  lemma ExistingFrame(db: Db, db': Db, locks: set<Key>, w: Writes)
    requires Rely(db, db', locks) && Existing(db, w)
    ensures Existing(db', w)
  {
    assert db.log.Keys <= db'.log.Keys;
  }

  lemma PlainFrame(db: Db, db': Db, tx: Tx)
    requires tx.job.Plain? && PlainShape(db, tx) && Rely(db, db', tx.locks)
    ensures PlainShape(db', tx)
  {
    hide Rely, Existing;
    if Existing(db, tx.w) { ExistingFrame(db, db', tx.locks, tx.w); }
  }

  lemma StartFrame(db: Db, db': Db, tx: Tx)
    requires tx.job.Start? && StartShape(db, tx) && Rely(db, db', tx.locks)
    ensures StartShape(db', tx)
  {
    hide Rely, Existing;
    if Existing(db, tx.w) { ExistingFrame(db, db', tx.locks, tx.w); }
  }

  lemma EndFrame(db: Db, db': Db, tx: Tx)
    requires tx.job.End? && EndShape(db, tx) && Rely(db, db', tx.locks)
    ensures EndShape(db', tx)
  {
    hide Rely, Existing;
    if Existing(db, tx.w) { ExistingFrame(db, db', tx.locks, tx.w); }
  }

  lemma DisposeFrame(db: Db, db': Db, tx: Tx)
    requires tx.job.Dispose? && DisposeShape(db, tx) && Rely(db, db', tx.locks)
    ensures DisposeShape(db', tx)
  {
    hide Rely, Existing;
    if Existing(db, tx.w) { ExistingFrame(db, db', tx.locks, tx.w); }
  }

  lemma ReceiveFrame(db: Db, db': Db, tx: Tx)
    requires tx.job.Receive? && ReceiveShape(db, tx) && Rely(db, db', tx.locks)
    ensures ReceiveShape(db', tx)
  {
    hide Existing;
    if Existing(db, tx.w) { ExistingFrame(db, db', tx.locks, tx.w); }
    if HookRow(tx.job.hook) in tx.locks {
      assert SameOn(db, db', HookRow(tx.job.hook));
    }
  }
}
