/**
 The whole system: what is true in every state any interleaving can reach.
 */
module World {
  import opened Database
  import opened Protocol
  import opened Invariant
  import opened Shapes
  import opened RunProofs
  import opened HookProofs
  import opened StepProofs
  import opened CreateProofs

  // No two transactions hold one lock.
  ghost predicate Exclusive(s: State) {
    forall t, u | t in s.txs && u in s.txs && t != u :: s.txs[t].locks !! s.txs[u].locks
  }

  ghost predicate Inv(s: State) {
    && DbInv(s.db)
    && (forall t | t in s.txs :: TxInv(s.db, s.txs[t]))
    && Exclusive(s)
  }

  // -------------------------------------------------------------------------
  // A statement keeps its own transaction in shape

  lemma BeginStatement(db: Db, held: set<Key>, tx: Tx, tx': Tx)
    requires TxInv(db, tx) && tx.pc.Begin? && ExecBegin(db, held, tx) == Go(tx')
    ensures TxInv(db, tx') && tx'.job == tx.job
  {
    assert Guarded(db, tx') by { BeginGuarded(db, held, tx, tx'); }
    hide Guarded;
  }

  lemma BeginGuarded(db: Db, held: set<Key>, tx: Tx, tx': Tx)
    requires Guarded(db, tx) && Idle(tx) && tx.locks == {} && ExecBegin(db, held, tx) == Go(tx')
    ensures Guarded(db, tx')
  {
  }

  lemma JobStatement(db: Db, held: set<Key>, tx: Tx, c: Choice, tx': Tx)
    requires DbInv(db) && Guarded(db, tx) && JobShape(db, tx) && ExecJob(db, held, tx, c) == Go(tx')
    requires !tx.pc.Journal? && !tx.pc.Done? && !tx.pc.Aborted? && !tx.pc.Begin?
    ensures tx'.job == tx.job && Guarded(db, tx') && (tx'.pc.Aborted? || JobShape(db, tx'))
    ensures !tx'.pc.Begin?
  {
    hide Guarded, ExecPlain, ExecCreate, ExecStart, ExecEnd, ExecHookNew, ExecDispose, ExecReceive,
      ExecStepNew, ExecStepStart, ExecStepEnd, ExecStepRetry, RunsInv, RowsInv, OrderInv, StepInv, AcceptedInv,
      FenceInv, TokensInv, RevivedInv, LedgerInv, BirthInv, PlainShape, CreateShape, StartShape, EndShape, HookNewShape,
      DisposeShape, ReceiveShape, StepNewShape, StepStartShape, StepEndShape, StepRetryShape;
    SlotKeys(db);
    match tx.job {
      case Plain(_) => PlainJob(db, held, tx, tx'); NotBegin(db, tx');
      case Create(_, _, _) => CreateJob(db, held, tx, c, tx'); NotBegin(db, tx');
      case Start(_) => StartJob(db, held, tx, tx'); NotBegin(db, tx');
      case End(_, _) => EndJob(db, held, tx, c, tx'); NotBegin(db, tx');
      case HookNew(_, _, _) => HookNewJob(db, held, tx, c, tx'); NotBegin(db, tx');
      case Dispose(_) => DisposeJob(db, held, tx, tx'); NotBegin(db, tx');
      case Receive(_) => ReceiveJob(db, held, tx, tx'); NotBegin(db, tx');
      case StepNew(_) => StepNewJob(db, held, tx, tx'); NotBegin(db, tx');
      case StepStart(_, _) => StepStartJob(db, held, tx, tx'); NotBegin(db, tx');
      case StepEnd(_, _) => StepEndJob(db, held, tx, tx'); NotBegin(db, tx');
      case StepRetry(_) => StepRetryJob(db, held, tx, tx'); NotBegin(db, tx');
    }
  }

  lemma NotBegin(db: Db, tx: Tx)
    requires tx.pc.Aborted? || JobShape(db, tx)
    ensures !tx.pc.Begin?
  {
  }

  lemma HookNewJob(db: Db, held: set<Key>, tx: Tx, c: Choice, tx': Tx)
    requires RunsInv(db) && RowsInv(db) && TokensInv(db) && RevivedInv(db)
    requires tx.job.HookNew? && Guarded(db, tx) && HookNewShape(db, tx)
    requires ExecHookNew(db, held, tx, c) == Go(tx')
    ensures tx'.job == tx.job && Guarded(db, tx') && (tx'.pc.Aborted? || HookNewShape(db, tx'))
  {
    hide Guarded, RunsInv, RowsInv, TokensInv, RevivedInv, ExecHookNew, ExecTakeover, HookNewShape;
    if tx.pc.First? || tx.pc.ReadToken? || tx.pc.LostClaim? {
      Reads(db, held, tx, c, tx');
    } else if tx.pc.Release? || tx.pc.Insert? {
      Inserts(db, held, tx, c, tx');
    } else {
      OtherwiseTakeover(db, held, tx, c);
      if tx.pc.Resolve? || tx.pc.LockRun? || tx.pc.LockHook? {
        Resolves(db, held, tx, c, tx');
      } else if tx.pc.DisposeVictim? {
        DisposesVictim(db, held, tx, c, tx');
      } else if tx.pc.DeleteVictim? {
        DeletesVictim(db, held, tx, c, tx');
      } else if tx.pc.InsertTaken? {
        InsertsTaken(db, held, tx, c, tx');
      } else {
        NoTakeover(db, held, tx, c);
      }
    }
  }

  lemma OtherwiseTakeover(db: Db, held: set<Key>, tx: Tx, c: Choice)
    requires tx.job.HookNew? && !tx.pc.First? && !tx.pc.ReadToken? && !tx.pc.LostClaim?
    requires !tx.pc.Release? && !tx.pc.Insert?
    ensures ExecHookNew(db, held, tx, c) == ExecTakeover(db, held, tx, c)
  {
    hide ExecTakeover;
  }

  lemma NoTakeover(db: Db, held: set<Key>, tx: Tx, c: Choice)
    requires tx.job.HookNew? && !tx.pc.Resolve? && !tx.pc.LockRun? && !tx.pc.LockHook?
    requires !tx.pc.DisposeVictim? && !tx.pc.DeleteVictim? && !tx.pc.InsertTaken?
    ensures ExecTakeover(db, held, tx, c) == Blocked
  {
    hide Append;
  }

  lemma JournalStatement(db: Db, held: set<Key>, tx: Tx, tx': Tx)
    requires DbInv(db) && Guarded(db, tx) && JobShape(db, tx) && tx.pc.Journal?
    requires Append(db, held, tx, RunOf(tx.job), tx.pc.ev, Done) == Go(tx')
    ensures tx'.job == tx.job && Guarded(db, tx') && (tx'.pc.Aborted? || JobShape(db, tx'))
    ensures !tx'.pc.Begin?
  {
    hide Guarded, Append, RunsInv, RowsInv, OrderInv, StepInv, AcceptedInv,
      FenceInv, TokensInv, RevivedInv, LedgerInv, BirthInv, PlainShape, CreateShape, StartShape, EndShape, HookNewShape,
      DisposeShape, ReceiveShape, StepNewShape, StepStartShape, StepEndShape, StepRetryShape;
    SlotKeys(db);
    match tx.job {
      case Plain(_) => PlainJournal(db, held, tx, tx'); NotBegin(db, tx');
      case Create(_, _, _) => CreateJournal(db, held, tx, tx'); NotBegin(db, tx');
      case Start(_) => StartJournal(db, held, tx, tx'); NotBegin(db, tx');
      case End(_, _) => EndJournal(db, held, tx, tx'); NotBegin(db, tx');
      case HookNew(_, _, _) => HookNewJournal(db, held, tx, tx'); NotBegin(db, tx');
      case Dispose(_) => DisposeJournal(db, held, tx, tx'); NotBegin(db, tx');
      case Receive(_) => ReceiveJournal(db, held, tx, tx'); NotBegin(db, tx');
      case StepNew(_) => StepNewJournal(db, held, tx, tx'); NotBegin(db, tx');
      case StepStart(_, lazy) =>
        if lazy { StepLazilyStarts(db, held, tx, tx'); } else { StepRestarts(db, held, tx, tx'); }
        NotBegin(db, tx');
      case StepEnd(_, _) => StepEndJournal(db, held, tx, tx'); NotBegin(db, tx');
      case StepRetry(_) => StepRetryJournal(db, held, tx, tx'); NotBegin(db, tx');
    }
  }

  lemma HookNewJournal(db: Db, held: set<Key>, tx: Tx, tx': Tx)
    requires RunsInv(db) && OrderInv(db) && RevivedInv(db)
    requires tx.job.HookNew? && Guarded(db, tx) && HookNewShape(db, tx) && tx.pc.Journal?
    requires Append(db, held, tx, RunOf(tx.job), tx.pc.ev, Done) == Go(tx')
    ensures tx'.job == tx.job && Guarded(db, tx') && (tx'.pc.Aborted? || HookNewShape(db, tx'))
  {
    hide Guarded, Append, RunsInv, OrderInv, RevivedInv;
    if tx.pc.ev.HookCreated? && tx.pc.ev.from.Some? {
      TakenJournal(db, held, tx, tx');
    } else {
      CreatedJournal(db, held, tx, tx');
    }
  }

  lemma StatementKeeps(db: Db, held: set<Key>, tx: Tx, c: Choice, tx': Tx)
    requires DbInv(db) && TxInv(db, tx) && Exec(db, held, tx, c) == Go(tx')
    ensures TxInv(db, tx') && tx'.job == tx.job
  {
    hide DbInv, JobShape, ExecBegin, ExecJob, Append;
    if tx.pc.Begin? {
      BeginStatement(db, held, tx, tx');
    } else if tx.pc.Journal? {
      JournalStatement(db, held, tx, tx');
    } else {
      JobStatement(db, held, tx, c, tx');
    }
  }

  // -------------------------------------------------------------------------
  // The others cannot undo it

  lemma JobFrame(db: Db, db': Db, tx: Tx)
    requires Rely(db, db', tx.locks)
    requires Timely(db, tx) && Timely(db', tx) && Covered(db, tx.w, tx.locks) && JobShape(db, tx)
    ensures JobShape(db', tx)
  {
    hide Rely, Timely, Covered, AcceptedInv, PlainShape, CreateShape, StartShape, EndShape, HookNewShape,
      DisposeShape, ReceiveShape, StepNewShape, StepStartShape, StepEndShape, StepRetryShape;
    match tx.job {
      case Plain(_) => PlainFrame(db, db', tx);
      case Create(_, _, _) => CreateFrame(db, db', tx);
      case Start(_) => StartFrame(db, db', tx);
      case End(_, _) => EndFrame(db, db', tx);
      case HookNew(_, _, _) => HookNewFrame(db, db', tx);
      case Dispose(_) => DisposeFrame(db, db', tx);
      case Receive(_) => ReceiveFrame(db, db', tx);
      case StepNew(_) => StepNewFrame(db, db', tx);
      case StepStart(_, _) => StepStartFrame(db, db', tx);
      case StepEnd(_, _) => StepEndFrame(db, db', tx);
      case StepRetry(_) => StepRetryFrame(db, db', tx);
    }
  }

  lemma TxFrame(db: Db, db': Db, tx: Tx)
    requires Rely(db, db', tx.locks)
    requires TxInv(db, tx) && Timely(db', tx)
    ensures TxInv(db', tx)
  {
    hide Rely, Timely, Covered, AcceptedInv, JobShape, FenceOk, TicketOk;
    TicketFrame(db, db', tx);
    if !tx.pc.Aborted? {
      CoveredFrame(db, db', tx.w, tx.locks);
      FenceFrame(db, db', tx);
      if !tx.pc.Begin? {
        JobFrame(db, db', tx);
      }
    }
  }

  // -------------------------------------------------------------------------
  // Whatever commits is ready to

  lemma AllReady(db: Db, tx: Tx)
    requires DbInv(db) && TxInv(db, tx) && Committing(tx)
    ensures Ready(db, tx)
  {
    hide Guarded, Ready, RunsInv, RowsInv, OrderInv, StepInv, AcceptedInv,
      FenceInv, TokensInv, RevivedInv, LedgerInv, BirthInv, PlainShape, CreateShape, StartShape, EndShape, HookNewShape,
      DisposeShape, ReceiveShape, StepNewShape, StepStartShape, StepEndShape, StepRetryShape;
    match tx.job {
      case Plain(_) => PlainReady(db, tx);
      case Create(_, _, _) => CreateReady(db, tx);
      case Start(_) => StartReady(db, tx);
      case End(_, _) => EndReady(db, tx);
      case HookNew(_, _, _) => HookNewReady(db, tx);
      case Dispose(_) => DisposeReady(db, tx);
      case Receive(_) => ReceiveReady(db, tx);
      case StepNew(_) => StepNewReady(db, tx);
      case StepStart(_, _) => StepStartReady(db, tx);
      case StepEnd(_, _) => StepEndReady(db, tx);
      case StepRetry(_) => StepRetryReady(db, tx);
    }
  }

  // A request that goes on after committing half way holds nothing but its ticket.
  function Rest(tx: Tx): Tx {
    tx.(w := NOTHING, locks := Tickets(tx))
  }

  lemma RestCreate(db: Db, tx: Tx)
    requires tx.job.Create? && CreateShape(db, tx) && Boundary(tx)
    ensures CreateShape(Apply(db, tx.w), Rest(tx))
  {
    var db', r := Apply(db, tx.w), tx.job.run;
    assert r in db'.runs by { hide Existing, Accepting, Says; }
    hide Apply, CreatedShape;
    RestResumed(db', Rest(tx));
  }

  lemma RestResumed(db: Db, tx: Tx)
    requires tx.job.Create? && tx.w == NOTHING && tx.job.run in db.runs
    ensures CreatedShape(db, tx, [])
  {
  }

  lemma RestStepNew(db: Db, tx: Tx)
    requires tx.job.StepNew? && StepNewShape(db, tx) && Boundary(tx)
    ensures StepNewShape(Apply(db, tx.w), Rest(tx))
  {
  }

  lemma RestStepEnd(db: Db, tx: Tx)
    requires tx.job.StepEnd? && StepEndShape(db, tx) && Boundary(tx)
    ensures StepEndShape(Apply(db, tx.w), Rest(tx))
  {
    var s := tx.job.step;
    LogAfter(db, tx.w, s.run);
    assert LogOf(db, s.run) + Unsaved(tx.w, s.run) == LogOf(db, s.run);
  }

  lemma RestOther(db: Db, tx: Tx)
    requires !tx.job.Create? && !tx.job.StepNew? && !tx.job.StepEnd?
    requires JobShape(db, tx) && Boundary(tx) && !tx.consumed
    ensures JobShape(Apply(db, tx.w), Rest(tx))
  {
    hide CreateShape, StepNewShape, StepEndShape, Apply, Journaled, TakenShape, Holding;
  }

  lemma Unfenced(db: Db, tx: Tx)
    requires Guarded(db, tx) && tx.fence.None?
    ensures !tx.consumed
  {
  }

  lemma RestShape(db: Db, tx: Tx)
    requires Guarded(db, tx) && JobShape(db, tx) && Boundary(tx)
    ensures JobShape(Apply(db, tx.w), Rest(tx))
  {
    hide Guarded, Apply, PlainShape, CreateShape, StartShape, EndShape, HookNewShape,
      DisposeShape, ReceiveShape, StepNewShape, StepStartShape, StepEndShape, StepRetryShape;
    Unfenced(db, tx);
    match tx.job {
      case Create(_, _, _) => RestCreate(db, tx);
      case StepNew(_) => RestStepNew(db, tx);
      case StepEnd(_, _) => RestStepEnd(db, tx);
      case _ => RestOther(db, tx);
    }
  }

  lemma RestGuarded(db: Db, tx: Tx)
    requires Guarded(db, tx) && JobShape(db, tx) && Boundary(tx)
    ensures Guarded(Apply(db, tx.w), Rest(tx))
  {
    assert tx.fence.None? && TicketOk(db, tx) && Timely(db, tx) && Covered(db, tx.w, tx.locks);
    hide Guarded, JobShape, TicketOk, Boundary, Covered;
    Unfenced(db, tx);
    RestTickets(db, tx);
    StepsApply(db, tx.w);
    hide Apply;
    IdleGuarded(Apply(db, tx.w), Rest(tx));
  }

  lemma IdleGuarded(db: Db, tx: Tx)
    requires TicketOk(db, tx) && Timely(db, tx) && Idle(tx) && tx.fence.None?
    ensures Guarded(db, tx)
  {
    hide TicketOk, Timely;
  }

  // A ticket outlives the commit because its step has ended by then.
  lemma RestTickets(db: Db, tx: Tx)
    requires TicketOk(db, tx) && Covered(db, tx.w, tx.locks) && JobShape(db, tx) && Boundary(tx)
    ensures TicketOk(Apply(db, tx.w), Rest(tx))
  {
    hide Covered, PlainShape, CreateShape, StartShape, EndShape, HookNewShape, DisposeShape, ReceiveShape,
      StepNewShape, StepStartShape, StepRetryShape;
    if tx.job.StepEnd? {
      StepsApply(db, tx.w);
      hide Apply;
    }
  }

  lemma StepsApply(db: Db, w: Writes)
    ensures Apply(db, w).steps == db.steps + w.steps && Apply(db, w).now == db.now
  {
  }

  lemma RestKeeps(db: Db, tx: Tx)
    requires TxInv(db, tx) && Boundary(tx)
    ensures TxInv(Apply(db, tx.w), Rest(tx))
  {
    hide Guarded, JobShape;
    RestShape(db, tx);
    RestGuarded(db, tx);
  }
}
