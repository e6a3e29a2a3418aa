/**
 The in-band writer fence: one orchestrator at a time writes a run's in-band events, and
 it has seen every earlier one.
 */
module InBandWrites {
  import opened Options
  import opened EventLog
  import opened Database
  import opened Protocol
  import opened Invariant
  import opened Shapes
  import opened World
  import opened HookProofs
  import opened Journals
  import opened Histories

  // In-band positions that `writer` wrote.
  function MarksBy(log: Log, writer: Writer): nat {
    if log == [] then 0
    else MarksBy(log[..|log| - 1], writer) + (if log[|log| - 1].mark == Some(writer) then 1 else 0)
  }

  lemma {:induction false} MarksByAtMost(log: Log, writer: Writer)
    ensures MarksBy(log, writer) <= Marks(log)
  {
    if log != [] {
      MarksByAtMost(log[..|log| - 1], writer);
    }
  }

  // When a writer's own positions account for all of them, all of them are its own.
  lemma {:induction false} AllMine(log: Log, writer: Writer, p: nat)
    requires MarksBy(log, writer) == Marks(log) && p < |log| && log[p].mark.Some?
    ensures log[p].mark == Some(writer)
  {
    var init := log[..|log| - 1];
    MarksByAtMost(init, writer);
    if p < |init| {
      AllMine(init, writer, p);
    }
  }

  // The count is one more than the in-band positions committed to the run's log.
  lemma CountIsInBandWrites(ss: seq<State>, ms: seq<Move>, k: nat, r: RunId)
    requires History(ss, ms) && k < |ss|
    ensures r in ss[k].db.seqs <==> r in ss[k].db.runs
    ensures r in ss[k].db.seqs ==> ss[k].db.seqs[r] == 1 + Marks(LogOf(ss[k].db, r))
  {
    AlwaysInv(ss, ms, k);
  }

  // -------------------------------------------------------------------------
  // What a fenced create commits

  // A request that is done has journaled in its own run, or has written nothing.
  lemma HasJournaled(db: Db, tx: Tx)
    requires JobShape(db, tx) && !tx.job.Create? && tx.pc.Done?
    ensures tx.w == NOTHING || (RunOf(tx.job) in tx.w.log && tx.w.log[RunOf(tx.job)] != [])
  {
    if tx.job.StepStart? || tx.job.StepEnd? || tx.job.StepRetry? || tx.job.StepNew? {
      StepJournals(db, tx);
    } else {
      hide StepStartShape, StepEndShape, StepRetryShape, StepNewShape, CreateShape;
    }
  }

  lemma StepJournals(db: Db, tx: Tx)
    requires tx.job.StepStart? || tx.job.StepEnd? || tx.job.StepRetry? || tx.job.StepNew?
    requires JobShape(db, tx) && tx.pc.Done?
    ensures RunOf(tx.job) in tx.w.log && tx.w.log[RunOf(tx.job)] != []
  {
    hide HookNewShape, CreateShape, EndShape, ReceiveShape;
  }

  // An in-band write that puts anything in an existing run's log found the count it
  // expected there, and leaves it one higher.
  lemma WritesAtExpected(db: Db, tx: Tx)
    requires Ready(db, tx) && Kept(tx) && RunsInv(db)
    requires tx.fence.Some? && RunOf(tx.job) in db.seqs && Unsaved(tx.w, RunOf(tx.job)) != []
    ensures tx.consumed
    ensures db.seqs[RunOf(tx.job)] == tx.fence.value.expected
    ensures Apply(db, tx.w).seqs[RunOf(tx.job)] == tx.fence.value.expected + 1
  {
    hide HooksOk, StepsOk, DecideOk, Covered;
    var r := RunOf(tx.job);
    assert r in db.log.Keys;
    assert !tx.w.log[r][0].ev.RunCreated?;
  }

  // A stale create adds nothing to any log, and changes no run, step or count. Unless it is
  // the resilient creation of a run, which may have tidied decisions and Hook rows before it
  // found the run, it commits nothing at all.
  lemma StaleCommitsNothing(s: State, t: nat)
    requires Inv(s) && Tidy(s) && Enabled(s, Save(t))
    requires s.txs[t].fence.Some? && RunOf(s.txs[t].job) in s.db.seqs
    requires s.db.seqs[RunOf(s.txs[t].job)] != s.txs[t].fence.value.expected
    ensures var db' := Commit(s, t).db;
            db' == s.db.(hooks := db'.hooks, adm := db'.adm, decided := db'.decided, revived := db'.revived)
    ensures !s.txs[t].job.Create? ==> Commit(s, t).db == s.db
  {
    hide DbInv, TxInv, Ready, Kept, Apply, JobShape, Guarded;
    var tx := s.txs[t];
    AllReady(s.db, tx);
    Runs(s.db);
    if Unsaved(tx.w, RunOf(tx.job)) != [] {
      WritesAtExpected(s.db, tx);
    }
    DoneShape(s.db, tx);
    StaleWrites(s.db, tx);
    AppliesTidying(s.db, tx.w);
  }

  lemma DoneShape(db: Db, tx: Tx)
    requires TxInv(db, tx) && tx.pc.Done?
    ensures JobShape(db, tx) && Guarded(db, tx)
  {
    hide JobShape, Guarded;
  }

  // Only rows of Hooks and decisions, if any.
  predicate Tidying(w: Writes) {
    w == NOTHING.(put := w.put, del := w.del, decide := w.decide, forget := w.forget)
  }

  lemma StaleWrites(db: Db, tx: Tx)
    requires RunsInv(db) && Guarded(db, tx) && JobShape(db, tx) && tx.pc.Done?
    requires RunOf(tx.job) in db.seqs && Unsaved(tx.w, RunOf(tx.job)) == []
    ensures Tidying(tx.w) && (!tx.job.Create? ==> tx.w == NOTHING)
  {
    hide Guarded, JobShape, RunsInv;
    if tx.job.Create? {
      NothingCounted(db, tx);
      SlotKeys(db);
      StaleCreate(db, tx);
    } else {
      HasJournaled(db, tx);
    }
  }

  lemma NothingCounted(db: Db, tx: Tx)
    requires Guarded(db, tx) && RunOf(tx.job) in db.seqs && Unsaved(tx.w, RunOf(tx.job)) == []
    ensures tx.w.seqs == map[]
  {
    hide Covered, TicketOk, Timely;
  }

  lemma StaleCreate(db: Db, tx: Tx)
    requires tx.job.Create? && JobShape(db, tx) && tx.pc.Done? && tx.w.seqs == map[]
    requires tx.job.run in db.runs && Unsaved(tx.w, tx.job.run) == []
    ensures Tidying(tx.w)
  {
    hide Existing, Accepting;
  }

  lemma AppliesTidying(db: Db, w: Writes)
    requires Tidying(w)
    ensures var db' := Apply(db, w);
            db' == db.(hooks := db'.hooks, adm := db'.adm, decided := db'.decided, revived := db'.revived)
    ensures w == NOTHING ==> Apply(db, w) == db
  {
    hide Apply;
    Unwritten(db, w);
  }

  // An accepted one moves the count from what it expected to one more, together with
  // exactly one position, which carries its mark.
  lemma AcceptedMovesByOne(s: State, t: nat)
    requires Inv(s) && Tidy(s) && Enabled(s, Save(t)) && s.txs[t].consumed
    requires s.txs[t].fence.Some? && RunOf(s.txs[t].job) in s.db.seqs
    ensures var tx, r := s.txs[t], RunOf(s.txs[t].job);
            && s.db.seqs[r] == tx.fence.value.expected
            && Commit(s, t).db.seqs[r] == tx.fence.value.expected + 1
            && Marks(Unsaved(tx.w, r)) == 1 == MarksBy(Unsaved(tx.w, r), tx.fence.value.writer)
  {
    hide DbInv, TxInv, Exec, RunsOk, StepsOk, DecideOk, HooksOk, Covered;
    var tx := s.txs[t];
    var r := RunOf(tx.job);
    AllReady(s.db, tx);
    assert AllSigned(Unsaved(tx.w, r), tx.fence);
    SignedMarks(Unsaved(tx.w, r), tx.fence);
  }

  lemma {:induction false} SignedMarks(log: Log, fence: Option<InBand>)
    requires AllSigned(log, fence) && fence.Some?
    ensures MarksBy(log, fence.value.writer) == Marks(log)
  {
    if log != [] {
      var n := |log| - 1;
      assert Signed(log[n], fence);
      assert AllSigned(log[..n], fence);
      SignedMarks(log[..n], fence);
    }
  }

  // -------------------------------------------------------------------------
  // The orchestrator has seen every in-band event before its own

  // A writer read run `r`'s count in state `i` (its listing follows, so it has seen at
  // least that log), and expects that count plus its own writes accepted `since`. When
  // its next write commits, every in-band event it may not have listed is its own.
  lemma WriterHasSeenAll(ss: seq<State>, ms: seq<Move>, i: nat, k: nat, t: nat, r: RunId, writer: Writer, since: Log)
    requires History(ss, ms) && i <= k < |ms| && ms[k] == Save(t) && t in ss[k].txs
    requires r in ss[i].db.seqs && LogOf(ss[k].db, r) == LogOf(ss[i].db, r) + since
    requires var tx := ss[k].txs[t];
             && RunOf(tx.job) == r && tx.consumed
             && tx.fence == Some(InBand(ss[i].db.seqs[r] + MarksBy(since, writer), writer))
    ensures forall p | 0 <= p < |since| && since[p].mark.Some? :: since[p].mark == Some(writer)
  {
    AcceptedAt(ss, ms, i, k, t);
    CountIsInBandWrites(ss, ms, i, r);
    CountIsInBandWrites(ss, ms, k, r);
    MarksConcat(LogOf(ss[i].db, r), since);
    forall p | 0 <= p < |since| && since[p].mark.Some?
      ensures since[p].mark == Some(writer)
    {
      AllMine(since, writer, p);
    }
  }

  lemma AcceptedAt(ss: seq<State>, ms: seq<Move>, i: nat, k: nat, t: nat)
    requires History(ss, ms) && i <= k < |ms| && ms[k] == Save(t) && t in ss[k].txs
    requires ss[k].txs[t].fence.Some? && ss[k].txs[t].consumed && RunOf(ss[k].txs[t].job) in ss[i].db.seqs
    ensures RunOf(ss[k].txs[t].job) in ss[k].db.seqs
    ensures ss[k].db.seqs[RunOf(ss[k].txs[t].job)] == ss[k].txs[t].fence.value.expected
  {
    hide Tidy, Inv, Moved, Committing;
    assert Enabled(ss[k], ms[k]);
    AlwaysInv(ss, ms, k);
    AlwaysTidy(ss, ms, k);
    LaterGrown(ss, ms, i, k);
    CountIsInBandWrites(ss, ms, i, RunOf(ss[k].txs[t].job));
    CountIsInBandWrites(ss, ms, k, RunOf(ss[k].txs[t].job));
    AcceptedMovesByOne(ss[k], t);
  }
}
