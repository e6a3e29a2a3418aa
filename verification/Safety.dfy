/**
 Every interleaving of statements, commits and rollbacks keeps the invariant.
 */
module Safety {
  import opened Options
  import opened EventLog
  import opened Database
  import opened Protocol
  import opened Invariant
  import opened Shapes
  import opened World

  // -------------------------------------------------------------------------
  // A statement takes only free locks

  ghost predicate TakesFree(db: Db, held: set<Key>, tx: Tx, tx': Tx) {
    forall k | k in tx'.locks && k !in tx.locks ::
      if k.Ticket? then k.step in db.steps && !db.steps[k.step].status.Terminal() && Steps(k.step) !in held
      else k !in held
  }

  lemma AppendTakesFree(db: Db, held: set<Key>, tx: Tx, r: RunId, ev: Event, next: Pc)
    ensures var o := Append(db, held, tx, r, ev, next); o.Go? ==> TakesFree(db, held, tx, o.tx)
  {
    hide TakesFree, Journaled, SeqOf, TakeSlot, TakeInBandSlot, Push;
    var o := Append(db, held, tx, r, ev, next);
    if o.Go? {
      SlotLocks(tx, r, ev);
      FreeKeys(db, held, tx, o.tx, r);
    }
  }

  lemma SlotLocks(tx: Tx, r: RunId, ev: Event)
    ensures TakeSlot(tx, r, ev).locks == tx.locks + {Tail(r)}
    ensures tx.fence.Some? ==> TakeInBandSlot(tx, r, ev).locks == tx.locks + {Tail(r), Fence(r)}
  {
  }

  lemma FreeKeys(db: Db, held: set<Key>, tx: Tx, tx': Tx, r: RunId)
    requires (tx'.locks <= tx.locks + {Tail(r), Fence(r)} && Tail(r) !in held
              && (Fence(r) in tx'.locks ==> Fence(r) in tx.locks || Fence(r) !in held))
             || tx'.locks == tx.locks
    ensures TakesFree(db, held, tx, tx')
  {
  }

  lemma HookNewTakesFree(db: Db, held: set<Key>, tx: Tx, c: Choice)
    requires tx.job.HookNew?
    ensures var o := ExecHookNew(db, held, tx, c); o.Go? ==> TakesFree(db, held, tx, o.tx)
  {
    hide Append, Journaled, TokenHeld, TokenRead, ExecTakeover;
    if !(tx.pc.First? || tx.pc.ReadToken? || tx.pc.LostClaim? || tx.pc.Release? || tx.pc.Insert?) {
      OtherwiseTakeover(db, held, tx, c);
      TakeoverTakesFree(db, held, tx, c);
    }
  }

  lemma TakeoverTakesFree(db: Db, held: set<Key>, tx: Tx, c: Choice)
    requires tx.job.HookNew?
    ensures var o := ExecTakeover(db, held, tx, c); o.Go? ==> TakesFree(db, held, tx, o.tx)
  {
    hide Append, Journaled, TokenHeld;
    if tx.pc.DisposeVictim? {
      var v := tx.pc.victim;
      AppendTakesFree(db, held, tx, v.run, HookDisposed(v, Some(Taking(tx.job.hook, tx.job.token))), DeleteVictim(v, true));
    }
  }

  lemma AdmissionTakesFree(db: Db, held: set<Key>, tx: Tx, c: Choice)
    requires tx.job.Create? && tx.job.run.start.Some?
    ensures var o := ExecAdmission(db, held, tx, c); o.Go? ==> TakesFree(db, held, tx, o.tx)
  {
    hide TokenHeld, OwnerRead, Expires;
  }

  lemma CreateTakesFree(db: Db, held: set<Key>, tx: Tx, c: Choice)
    requires tx.job.Create?
    ensures var o := ExecCreate(db, held, tx, c); o.Go? ==> TakesFree(db, held, tx, o.tx)
  {
    hide ExecAdmission;
    if tx.job.run.start.Some? {
      AdmissionTakesFree(db, held, tx, c);
    }
  }

  lemma StepStartTakesFree(db: Db, held: set<Key>, tx: Tx)
    requires tx.job.StepStart?
    ensures var o := ExecStepStart(db, held, tx); o.Go? ==> TakesFree(db, held, tx, o.tx)
  {
    hide Append;
    AppendTakesFree(db, held, tx, tx.job.step.run, StepCreated(tx.job.step), UpdateStep);
  }

  lemma RunTakesFree(db: Db, held: set<Key>, tx: Tx, c: Choice)
    requires tx.job.Plain? || tx.job.Start? || tx.job.End? || tx.job.Dispose? || tx.job.Receive?
    ensures var o := ExecJob(db, held, tx, c); o.Go? ==> TakesFree(db, held, tx, o.tx)
  {
  }

  lemma StepTakesFree(db: Db, held: set<Key>, tx: Tx, c: Choice)
    requires tx.job.StepNew? || tx.job.StepEnd? || tx.job.StepRetry?
    ensures var o := ExecJob(db, held, tx, c); o.Go? ==> TakesFree(db, held, tx, o.tx)
  {
  }

  lemma StatementTakesFree(db: Db, held: set<Key>, tx: Tx, c: Choice)
    ensures var o := Exec(db, held, tx, c); o.Go? ==> TakesFree(db, held, tx, o.tx)
  {
    hide TakesFree, Append, ExecHookNew, ExecCreate, ExecStepStart, ExecStart, ExecEnd, ExecPlain, ExecDispose,
      ExecReceive, ExecStepNew, ExecStepEnd, ExecStepRetry, ExecBegin;
    if tx.pc.Journal? {
      AppendTakesFree(db, held, tx, RunOf(tx.job), tx.pc.ev, Done);
    } else if tx.pc.Begin? {
      BeginTakesFree(db, held, tx);
    } else {
      match tx.job {
        case Create(_, _, _) => CreateTakesFree(db, held, tx, c);
        case HookNew(_, _, _) => HookNewTakesFree(db, held, tx, c);
        case StepStart(_, _) => StepStartTakesFree(db, held, tx);
        case StepNew(_) => StepTakesFree(db, held, tx, c);
        case StepEnd(_, _) => StepTakesFree(db, held, tx, c);
        case StepRetry(_) => StepTakesFree(db, held, tx, c);
        case _ => RunTakesFree(db, held, tx, c);
      }
    }
  }

  lemma BeginTakesFree(db: Db, held: set<Key>, tx: Tx)
    ensures var o := ExecBegin(db, held, tx); o.Go? ==> TakesFree(db, held, tx, o.tx)
  {
  }

  lemma StatementExclusive(s: State, t: nat, c: Choice)
    requires Inv(s) && t in s.txs && Exec(s.db, Held(s, t), s.txs[t], c).Go?
    ensures Exclusive(s.(txs := s.txs[t := Exec(s.db, Held(s, t), s.txs[t], c).tx]))
  {
    hide Exec, DbInv;
    var tx, tx' := s.txs[t], Exec(s.db, Held(s, t), s.txs[t], c).tx;
    StatementTakesFree(s.db, Held(s, t), tx, c);
    forall u | u in s.txs && u != t
      ensures tx'.locks !! s.txs[u].locks
    {
      forall k | k in tx'.locks && k in s.txs[u].locks
        ensures false
      {
        assert tx.locks !! s.txs[u].locks;
        assert k in Held(s, t);
        if k.Ticket? {
          TicketsAreOwned(s.db, s.txs[u], k.step);
        }
      }
    }
  }

  lemma TicketsAreOwned(db: Db, tx: Tx, x: StepId)
    requires TxInv(db, tx) && Ticket(x) in tx.locks
    ensures Steps(x) in tx.locks || (x in db.steps && db.steps[x].status.Terminal())
  {
    hide JobShape, Covered, FenceOk;
  }

  // -------------------------------------------------------------------------
  // A commit changes nothing under another transaction's locks

  lemma {:induction false} EndedSame(log: Log, more: Log, s: StepId)
    requires forall i | 0 <= i < |more| :: more[i].ev != StepEnded(s)
    ensures StepOf(log + more, s).ended == StepOf(log, s).ended
  {
    if more == [] {
      assert log + more == log;
    } else {
      var init, e := more[..|more| - 1], more[|more| - 1];
      assert log + more == (log + init) + [e];
      StepPush(log + init, e, s);
      EndedSame(log, init, s);
    }
  }

  lemma CommitSame(db: Db, w: Writes, mine: set<Key>, k: Key)
    requires Covered(db, w, mine) && k !in mine && !k.Ticket?
    ensures SameOn(db, Apply(db, w), k)
  {
    match k {
      case Tail(r) => assert Unsaved(w, r) == []; assert r in db.log ==> db.log[r] + [] == db.log[r];
      case Claims(t) =>
        forall h: HookId
          ensures (h in db.hooks && db.hooks[h] == t) <==>
                  (h in Apply(db, w).hooks && Apply(db, w).hooks[h] == t)
        {
        }
      case _ =>
    }
  }

  lemma CommitTicket(db: Db, w: Writes, mine: set<Key>, s: StepId)
    requires Covered(db, w, mine) && Ticket(s) !in mine
    ensures SameOn(db, Apply(db, w), Ticket(s))
  {
    LogAfter(db, w, s.run);
    if s.run in w.log {
      forall i | 0 <= i < |w.log[s.run]|
        ensures w.log[s.run][i].ev != StepEnded(s)
      {
      }
      EndedSame(LogOf(db, s.run), Unsaved(w, s.run), s);
    } else {
      assert LogOf(db, s.run) + Unsaved(w, s.run) == LogOf(db, s.run);
    }
  }

  lemma CommitGrows(db: Db, w: Writes, mine: set<Key>)
    requires RunsInv(db) && Covered(db, w, mine) && RunsOk(db, w)
    ensures var db' := Apply(db, w);
            && db.runs.Keys <= db'.runs.Keys
            && (forall r | r in db.log :: r in db'.log && db.log[r] <= db'.log[r])
            && (forall s | s in db.steps ::
                  s in db'.steps && (db.steps[s].status.Terminal() ==> db'.steps[s].status.Terminal()))
  {
  }

  lemma CommitRely(db: Db, tx: Tx, other: set<Key>)
    requires RunsInv(db) && Ready(db, tx) && tx.locks !! other
    ensures Rely(db, Apply(db, tx.w), other)
  {
    hide SameOn, Covered, RunsOk, DecideOk, RunsInv, FenceOk, StepsOk, HooksOk;
    CommitGrows(db, tx.w, tx.locks);
    forall k | k in other
      ensures SameOn(db, Apply(db, tx.w), k)
    {
      if k.Ticket? {
        CommitTicket(db, tx.w, tx.locks, k.step);
      } else {
        CommitSame(db, tx.w, tx.locks, k);
      }
    }
  }

  // -------------------------------------------------------------------------
  // Every move

  lemma StatementInv(s: State, t: nat, c: Choice)
    requires Inv(s) && Enabled(s, Statement(t, c))
    ensures Inv(Moved(s, Statement(t, c)))
  {
    hide Exec, DbInv, TxInv, Exclusive;
    StatementExclusive(s, t, c);
    StatementKeeps(s.db, Held(s, t), s.txs[t], c, Exec(s.db, Held(s, t), s.txs[t], c).tx);
  }

  lemma OthersStay(db: Db, tx: Tx, u: Tx)
    requires DbInv(db) && DbInv(Apply(db, tx.w)) && Ready(db, tx) && tx.locks !! u.locks && TxInv(db, u)
    ensures TxInv(Apply(db, tx.w), u)
  {
    hide Ready, RunsInv, AcceptedInv, FenceInv, OrderInv, RowsInv, TokensInv, RevivedInv, LedgerInv, BirthInv, StepInv,
      TxInv, Rely;
    CommitRely(db, tx, u.locks);
    StaysTimely(db, tx, u);
    TxFrame(db, Apply(db, tx.w), u);
  }

  lemma StaysTimely(db: Db, tx: Tx, u: Tx)
    requires TxInv(db, u)
    ensures Timely(Apply(db, tx.w), u)
  {
    hide JobShape, Covered, FenceOk, TicketOk;
  }

  lemma SaveInv(s: State, t: nat)
    requires Inv(s) && Enabled(s, Save(t))
    ensures Inv(Commit(s, t))
  {
    hide DbInv, TxInv, Ready, Boundary, Apply;
    var tx, s' := s.txs[t], Commit(s, t);
    AllReady(s.db, tx);
    CommitKeeps(s.db, tx);
    forall u | u in s'.txs
      ensures TxInv(s'.db, s'.txs[u])
    {
      if u == t {
        RestKeeps(s.db, tx);
      } else {
        OthersStay(s.db, tx, s.txs[u]);
      }
    }
  }

  lemma TickDb(db: Db)
    requires DbInv(db)
    ensures DbInv(db.(now := db.now + 1))
  {
    TickLogs(db);
    TickHooks(db);
    hide RunsInv, FenceInv, OrderInv, RowsInv, RevivedInv, LedgerInv, BirthInv, StepInv;
  }

  lemma TickLogs(db: Db)
    requires RunsInv(db) && FenceInv(db) && StepInv(db)
    ensures var db' := db.(now := db.now + 1); RunsInv(db') && FenceInv(db') && StepInv(db')
  {
    hide StepFits, WellBegun;
    var db' := db.(now := db.now + 1);
    assert forall x: StepId :: Step(db', x) == Step(db, x) && RowOf(db', x) == RowOf(db, x);
    assert forall r: RunId :: LogOf(db', r) == LogOf(db, r);
  }

  lemma TickHooks(db: Db)
    requires OrderInv(db) && RowsInv(db) && RevivedInv(db) && LedgerInv(db) && BirthInv(db)
    ensures var db' := db.(now := db.now + 1);
            OrderInv(db') && RowsInv(db') && RevivedInv(db') && LedgerInv(db') && BirthInv(db')
  {
    hide TookIn, LostIn, HookOf, WasDisposed;
    var db' := db.(now := db.now + 1);
    assert forall r: RunId :: LogOf(db', r) == LogOf(db, r);
    assert forall h: HookId :: Hook(db', h) == Hook(db, h);
    assert forall v: HookId, h: HookId :: (Took(db', h, v) <==> Took(db, h, v)) && (Lost(db', v, h) <==> Lost(db, v, h));
  }

  lemma TickRely(db: Db, locks: set<Key>)
    ensures Rely(db, db.(now := db.now + 1), locks)
  {
    var db' := db.(now := db.now + 1);
    assert forall x: StepId :: Step(db', x) == Step(db, x) && RowOf(db', x) == RowOf(db, x);
  }

  lemma TickInv(s: State)
    requires Inv(s) && Enabled(s, Tick)
    ensures Inv(Moved(s, Tick))
  {
    hide DbInv, TxInv;
    TickDb(s.db);
    forall t | t in s.txs
      ensures TxInv(s.db.(now := s.db.now + 1), s.txs[t])
    {
      TickTx(s, t);
    }
  }

  lemma TickTx(s: State, t: nat)
    requires DbInv(s.db) && Enabled(s, Tick) && t in s.txs && TxInv(s.db, s.txs[t])
    ensures TxInv(s.db.(now := s.db.now + 1), s.txs[t])
  {
    hide DbInv, Rely, TxInv, AcceptedInv, Timely, Enabled;
    var db' := s.db.(now := s.db.now + 1);
    TickDb(s.db);
    TickRely(s.db, s.txs[t].locks);
    TickTimely(s, t);
    TxFrame(s.db, db', s.txs[t]);
  }

  lemma TickTimely(s: State, t: nat)
    requires t in s.txs && TxInv(s.db, s.txs[t])
    ensures Timely(s.db.(now := s.db.now + 1), s.txs[t])
  {
    hide JobShape, Covered, FenceOk, TicketOk;
  }

  lemma OpenInv(s: State, t: nat, job: Job, fence: Option<InBand>)
    requires Inv(s) && Enabled(s, Open(t, job, fence))
    ensures Inv(Moved(s, Open(t, job, fence)))
  {
    hide DbInv, JobShape;
    var tx := Opened(s.db, job, fence);
    assert TxInv(s.db, tx);
  }

  lemma RollbackInv(s: State, t: nat)
    requires Inv(s) && Enabled(s, Rollback(t))
    ensures Inv(Moved(s, Rollback(t)))
  {
    hide DbInv, TxInv;
  }

  lemma MoveInv(s: State, m: Move)
    requires Inv(s) && Enabled(s, m)
    ensures Inv(Moved(s, m))
  {
    hide Inv;
    match m {
      case Open(t, job, fence) => OpenInv(s, t, job, fence);
      case Statement(t, c) => StatementInv(s, t, c);
      case Save(t) => SaveInv(s, t);
      case Rollback(t) => RollbackInv(s, t);
      case Tick => TickInv(s);
    }
  }
}
