/**
 Where an event may be journaled, and by whom: a Hook's or a step's events are in its
 own run's log, an in-band position carries its writer's mark, and an in-band write
 that took any slot of its run moved the run's count. This holds in every state,
 whatever the interleaving.
 */
module Journals {
  import opened Options
  import opened EventLog
  import opened Database
  import opened Protocol
  import opened Invariant
  import opened Shapes

  predicate Home(ev: Event, r: RunId) {
    match ev
    case RunCreated(start) => start == StartOf(r)
    case HookCreated(h, _) => h.run == r
    case HookReceived(h) => h.run == r
    case HookDisposed(h, _) => h.run == r
    case HookConflict(h) => h.run == r
    case StepCreated(s) => s.run == r
    case StepStarted(s, _) => s.run == r
    case StepEnded(s) => s.run == r
    case StepRetrying(s) => s.run == r
    case _ => true
  }

  predicate Signed(e: Entry, fence: Option<InBand>) {
    e.mark.Some? ==> fence.Some? && e.mark.value == fence.value.writer
  }

  ghost predicate AllHome(log: Log, r: RunId) {
    forall i | 0 <= i < |log| :: Home(log[i].ev, r)
  }

  ghost predicate AllSigned(log: Log, fence: Option<InBand>) {
    forall i | 0 <= i < |log| :: Signed(log[i], fence)
  }

  // An in-band write that took a slot of its own run has moved the count, unless it is
  // the write that opened the run.
  predicate Counts(tx: Tx) {
    var r := RunOf(tx.job);
    tx.fence.Some? && r in tx.w.log && tx.w.log[r] != [] ==> tx.consumed || tx.w.log[r][0].ev.RunCreated?
  }

  ghost predicate Kept(tx: Tx) {
    && (forall r | r in tx.w.log :: AllHome(tx.w.log[r], r) && AllSigned(tx.w.log[r], tx.fence))
    && (tx.pc.Journal? ==> Home(tx.pc.ev, RunOf(tx.job)))
    && Counts(tx)
  }

  ghost predicate Tidy(s: State) {
    && (forall r | r in s.db.log :: AllHome(s.db.log[r], r))
    && (forall t | t in s.txs :: Kept(s.txs[t]))
  }

  lemma EntryKept(tx: Tx, tx': Tx, r: RunId, e: Entry)
    requires Kept(tx) && Home(e.ev, r) && Signed(e, tx.fence)
    requires tx'.w.log == tx.w.log[r := Unsaved(tx.w, r) + [e]]
    requires tx'.job == tx.job && tx'.fence == tx.fence
    requires tx'.consumed == (tx.consumed || Advances(tx, r))
    requires tx'.pc.Journal? ==> Home(tx'.pc.ev, RunOf(tx.job))
    ensures Kept(tx')
  {
    hide Home, Signed;
    assert AllHome(Unsaved(tx.w, r), r) && AllSigned(Unsaved(tx.w, r), tx.fence);
  }

  lemma SlotKept(tx: Tx, r: RunId, ev: Event, next: Pc)
    requires Kept(tx) && Home(ev, r)
    requires !next.Journal?
    ensures Kept(Slotted(tx, r, ev, next))
  {
    hide Kept, Home;
    var m := if Advances(tx, r) then Some(tx.fence.value.writer) else None;
    EntryKept(tx, Slotted(tx, r, ev, next), r, Entry(ev, m));
  }

  lemma AppendKept(db: Db, held: set<Key>, tx: Tx, r: RunId, ev: Event, next: Pc)
    requires Kept(tx) && Home(ev, r) && !next.Journal? && !next.Aborted?
    ensures var o := Append(db, held, tx, r, ev, next); o.Go? ==> Kept(o.tx)
  {
    hide Append, Slotted, Journaled, Kept, Home, LogOf, Unsaved;
    var o := Append(db, held, tx, r, ev, next);
    AppendDoes(db, held, tx, r, ev, next);
    SlotKept(tx, r, ev, next);
    SameKept(tx, tx.(pc := Aborted));
  }

  // A statement that journals nothing.
  lemma SameKept(tx: Tx, tx': Tx)
    requires Kept(tx)
    requires tx'.w.log == tx.w.log || tx'.w.log == map[]
    requires tx'.job == tx.job && tx'.fence == tx.fence && tx'.consumed == tx.consumed
    requires tx'.pc.Journal? ==> Home(tx'.pc.ev, RunOf(tx.job))
    ensures Kept(tx')
  {
  }

  predicate Silent(tx: Tx, o: Outcome) {
    o.Go? ==>
      && (o.tx.w.log == tx.w.log || o.tx.w.log == map[])
      && o.tx.job == tx.job && o.tx.fence == tx.fence && o.tx.consumed == tx.consumed
      && (o.tx.pc.Journal? ==> Home(o.tx.pc.ev, RunOf(tx.job)))
  }

  lemma ReleaseSilent(db: Db, held: set<Key>, tx: Tx, t: Token, c: Choice, next: Pc)
    requires !next.Journal?
    ensures Silent(tx, ExecRelease(db, held, tx, t, c, next))
  {
    hide Home, OwnerTerminal;
  }

  lemma LookingSilent(db: Db, held: set<Key>, tx: Tx, c: Choice)
    requires tx.job.Create? && tx.job.run.start.Some?
    requires tx.pc.Recorded? || tx.pc.CheckAge? || tx.pc.CheckRun? || tx.pc.ForgetOld? || tx.pc.FindOwner?
    ensures Silent(tx, ExecAdmission(db, held, tx, c))
  {
    hide TokenHeld, OwnerRead, Expires, Home, ExecRelease, RunOf, Visible, PutHook;
  }

  lemma ClaimingSilent(db: Db, held: set<Key>, tx: Tx, c: Choice)
    requires tx.job.Create? && tx.job.run.start.Some?
    requires tx.pc.ClaimToken? || tx.pc.LostToken?
    ensures Silent(tx, ExecAdmission(db, held, tx, c))
  {
    hide TokenHeld, OwnerRead, Expires, Home, ExecRelease, RunOf, Visible;
  }

  lemma DecidingSilent(db: Db, held: set<Key>, tx: Tx, c: Choice)
    requires tx.job.Create? && tx.job.run.start.Some?
    requires tx.pc.RecordRefusal? || tx.pc.RecordAcceptance?
    ensures Silent(tx, ExecAdmission(db, held, tx, c))
  {
    hide TokenHeld, OwnerRead, Expires, Home, ExecRelease, RunOf, Visible, PutHook;
  }

  lemma AdmissionSilent(db: Db, held: set<Key>, tx: Tx, c: Choice)
    requires tx.job.Create? && tx.job.run.start.Some?
    ensures Silent(tx, ExecAdmission(db, held, tx, c))
  {
    hide TokenHeld, OwnerRead, Expires, Home, ExecRelease, RunOf, Visible, PutHook, Replay, Silent;
    BlockedSilent(tx);
    if tx.pc.ReleaseToken? {
      ReleaseSilent(db, held, tx, tx.job.run.start.value, c, FindOwner);
    } else if tx.pc.ClaimToken? || tx.pc.LostToken? {
      ClaimingSilent(db, held, tx, c);
    } else if tx.pc.RecordRefusal? || tx.pc.RecordAcceptance? {
      DecidingSilent(db, held, tx, c);
    } else if tx.pc.Recorded? || tx.pc.CheckAge? || tx.pc.CheckRun? || tx.pc.ForgetOld? || tx.pc.FindOwner? {
      LookingSilent(db, held, tx, c);
    }
  }

  lemma ResolvingSilent(db: Db, held: set<Key>, tx: Tx, c: Choice)
    requires tx.job.HookNew? && (tx.pc.Resolve? || tx.pc.LockRun? || tx.pc.LockHook?)
    ensures Silent(tx, ExecTakeover(db, held, tx, c))
  {
    hide TokenHeld, Append, Visible, PutHook, Remove;
  }

  lemma TakeoverSilent(db: Db, held: set<Key>, tx: Tx, c: Choice)
    requires tx.job.HookNew? && !tx.pc.DisposeVictim?
    ensures Silent(tx, ExecTakeover(db, held, tx, c))
  {
    if tx.pc.Resolve? || tx.pc.LockRun? || tx.pc.LockHook? {
      hide Silent, ExecTakeover;
      ResolvingSilent(db, held, tx, c);
    } else {
      hide TokenHeld, Append, Visible, Reset;
      if tx.pc.InsertTaken? { ResetSilent(tx, Resolve); }
    }
  }

  lemma ResetSilent(tx: Tx, pc: Pc)
    requires !pc.Journal?
    ensures Silent(tx, Reset(tx, pc))
  {
  }

  lemma InsertSilent(db: Db, held: set<Key>, tx: Tx, c: Choice)
    requires tx.job.HookNew? && tx.pc.Insert?
    ensures Silent(tx, ExecHookNew(db, held, tx, c))
  {
    hide TokenHeld, TokenRead, Journaled, ExecTakeover, ExecRelease, Visible, LogOf;
  }

  lemma HookNewSilent(db: Db, held: set<Key>, tx: Tx, c: Choice)
    requires tx.job.HookNew? && !tx.pc.DisposeVictim?
    ensures Silent(tx, ExecHookNew(db, held, tx, c))
  {
    hide TokenHeld, TokenRead, Journaled, ExecTakeover, ExecRelease, Visible, LogOf;
    if tx.pc.Release? {
      ReleaseSilent(db, held, tx, tx.job.token, c, Insert);
    } else if tx.pc.Insert? {
      InsertSilent(db, held, tx, c);
    } else if !(tx.pc.First? || tx.pc.ReadToken? || tx.pc.LostClaim?) {
      TakeoverSilent(db, held, tx, c);
    }
  }

  lemma CreateSilent(db: Db, held: set<Key>, tx: Tx, c: Choice)
    requires tx.job.Create? && !tx.pc.OpenSlots?
    ensures Silent(tx, ExecCreate(db, held, tx, c))
  {
    hide ExecAdmission, ExecStart, Home;
    if tx.pc.AfterCreate? {
      StartSilent(db, held, tx);
    } else if tx.job.run.start.Some? {
      AdmissionSilent(db, held, tx, c);
    }
  }

  lemma StartSilent(db: Db, held: set<Key>, tx: Tx)
    requires !tx.job.HookNew?
    ensures Silent(tx, ExecStart(db, held, tx))
  {
  }

  lemma ReleasingSilent(db: Db, held: set<Key>, tx: Tx, c: Choice)
    requires tx.job.End? && tx.pc.ReleaseHooks?
    ensures Silent(tx, ExecEnd(db, held, tx, c))
  {
  }

  lemma EndSilent(db: Db, held: set<Key>, tx: Tx, c: Choice)
    requires tx.job.End?
    ensures Silent(tx, ExecEnd(db, held, tx, c))
  {
    if tx.pc.ReleaseHooks? {
      hide Silent, ExecEnd;
      ReleasingSilent(db, held, tx, c);
    } else {
      hide Remove, Home;
    }
  }

  lemma DisposeSilent(db: Db, held: set<Key>, tx: Tx)
    requires tx.job.Dispose?
    ensures Silent(tx, ExecDispose(db, held, tx))
  {
  }

  lemma ReceiveSilent(db: Db, held: set<Key>, tx: Tx)
    requires tx.job.Receive?
    ensures Silent(tx, ExecReceive(db, held, tx))
  {
  }

  lemma PlainSilent(db: Db, tx: Tx)
    requires tx.job.Plain?
    ensures Silent(tx, ExecPlain(db, tx))
  {
  }

  lemma StepSilent(db: Db, held: set<Key>, tx: Tx)
    ensures tx.job.StepNew? ==> Silent(tx, ExecStepNew(db, held, tx))
    ensures tx.job.StepRetry? ==> Silent(tx, ExecStepRetry(db, held, tx))
  {
  }

  lemma StepEndSilent(db: Db, held: set<Key>, tx: Tx)
    requires tx.job.StepEnd?
    ensures Silent(tx, ExecStepEnd(db, held, tx))
  {
  }

  lemma OpenKept(db: Db, held: set<Key>, tx: Tx, c: Choice)
    requires Kept(tx) && tx.job.Create? && tx.pc.OpenSlots?
    ensures var o := ExecCreate(db, held, tx, c); o.Go? ==> Kept(o.tx)
  {
    var r := tx.job.run;
    var ev := RunCreated(if r.start.None? then None else Some(StartHook(r)));
    assert Home(ev, r);
  }

  lemma StepStartSilent(db: Db, held: set<Key>, tx: Tx)
    requires tx.job.StepStart? && !tx.pc.InsertStep?
    ensures Silent(tx, ExecStepStart(db, held, tx))
  {
    hide Append, StepSeen;
    if tx.pc.UpdateStep? {
      hide Home;
      assert Home(StepStarted(tx.job.step, tx.job.lazy), tx.job.step.run) by { StepHome(tx.job.step, tx.job.lazy); }
    }
  }

  lemma InsertStepKept(db: Db, held: set<Key>, tx: Tx)
    requires Kept(tx) && tx.job.StepStart? && tx.pc.InsertStep?
    ensures var o := ExecStepStart(db, held, tx); o.Go? ==> Kept(o.tx)
  {
    hide Append, Kept, Home;
    var s := tx.job.step;
    var a, o := Append(db, held, tx, s.run, StepCreated(s), UpdateStep), ExecStepStart(db, held, tx);
    assert Home(StepCreated(s), s.run) by { StepHome(s, true); }
    AppendKept(db, held, tx, s.run, StepCreated(s), UpdateStep);
    if o.Go? {
      if a.Go? && o == WriteStep(a.tx, s, StepRow(StepPending, 0), {}, UpdateStep) {
        SameKept(a.tx, o.tx);
      } else {
        SameKept(tx, o.tx);
      }
    }
  }

  lemma StepHome(s: StepId, lazy: bool)
    ensures Home(StepCreated(s), s.run) && Home(StepStarted(s, lazy), s.run)
  {
  }

  lemma DisposeVictimKept(db: Db, held: set<Key>, tx: Tx, c: Choice)
    requires Kept(tx) && tx.job.HookNew? && tx.pc.DisposeVictim?
    ensures var o := ExecHookNew(db, held, tx, c); o.Go? ==> Kept(o.tx)
  {
    hide Append, Kept;
    var v := tx.pc.victim;
    AppendKept(db, held, tx, v.run, HookDisposed(v, Some(Taking(tx.job.hook, tx.job.token))), DeleteVictim(v, true));
  }

  lemma JobSilent(db: Db, held: set<Key>, tx: Tx, c: Choice)
    requires !(tx.job.Create? && tx.pc.OpenSlots?) && !(tx.job.HookNew? && tx.pc.DisposeVictim?)
    requires !(tx.job.StepStart? && tx.pc.InsertStep?)
    ensures Silent(tx, ExecJob(db, held, tx, c))
  {
    hide Silent, ExecCreate, ExecHookNew, ExecStepStart, ExecPlain, ExecStart, ExecEnd, ExecDispose, ExecReceive,
      ExecStepNew, ExecStepEnd, ExecStepRetry;
    BlockedSilent(tx);
    match tx.job {
      case Create(_, _, _) => CreateSilent(db, held, tx, c);
      case HookNew(_, _, _) => HookNewSilent(db, held, tx, c);
      case StepStart(_, _) => StepStartSilent(db, held, tx);
      case Start(_) => StartSilent(db, held, tx);
      case End(_, _) => EndSilent(db, held, tx, c);
      case StepEnd(_, _) => StepEndSilent(db, held, tx);
      case Dispose(_) => DisposeSilent(db, held, tx);
      case Receive(_) => ReceiveSilent(db, held, tx);
      case Plain(_) => PlainSilent(db, tx);
      case _ => StepSilent(db, held, tx);
    }
  }

  lemma BlockedSilent(tx: Tx)
    ensures Silent(tx, Blocked)
  {
  }

  lemma JobKept(db: Db, held: set<Key>, tx: Tx, c: Choice)
    requires Kept(tx) && ExecJob(db, held, tx, c).Go?
    ensures Kept(ExecJob(db, held, tx, c).tx)
  {
    hide Kept, ExecCreate, ExecHookNew, ExecStepStart, ExecPlain, ExecStart, ExecEnd, ExecDispose, ExecReceive,
      ExecStepNew, ExecStepEnd, ExecStepRetry;
    var o := ExecJob(db, held, tx, c);
    if tx.job.Create? && tx.pc.OpenSlots? {
      OpenKept(db, held, tx, c);
    } else if tx.job.HookNew? && tx.pc.DisposeVictim? {
      DisposeVictimKept(db, held, tx, c);
    } else if tx.job.StepStart? && tx.pc.InsertStep? {
      InsertStepKept(db, held, tx);
    } else {
      JobSilent(db, held, tx, c);
      SameKept(tx, o.tx);
    }
  }

  lemma StatementKept(db: Db, held: set<Key>, tx: Tx, c: Choice)
    requires Kept(tx) && Exec(db, held, tx, c).Go?
    ensures Kept(Exec(db, held, tx, c).tx)
  {
    hide ExecJob, Append;
    if tx.pc.Begin? {
      SameKept(tx, Exec(db, held, tx, c).tx);
    } else if tx.pc.Journal? {
      AppendKept(db, held, tx, RunOf(tx.job), tx.pc.ev, Done);
    } else {
      JobKept(db, held, tx, c);
    }
  }

  lemma CommitHome(s: State, t: nat)
    requires Tidy(s) && t in s.txs
    ensures var db' := Apply(s.db, s.txs[t].w); forall r | r in db'.log :: AllHome(db'.log[r], r)
  {
    var db', w := Apply(s.db, s.txs[t].w), s.txs[t].w;
    forall r | r in db'.log
      ensures AllHome(db'.log[r], r)
    {
      LogAfter(s.db, w, r);
      assert AllHome(LogOf(s.db, r), r) && AllHome(Unsaved(w, r), r);
    }
  }

  lemma MoveTidy(s: State, m: Move)
    requires Tidy(s) && Enabled(s, m)
    ensures Tidy(Moved(s, m))
  {
    hide Exec, Apply, Committing;
    match m {
      case Statement(t, c) => StatementKept(s.db, Held(s, t), s.txs[t], c);
      case Save(t) => CommitHome(s, t);
      case _ =>
    }
  }
}
