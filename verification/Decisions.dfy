/**
 What start Hook decisions add to the invariant: one decision per candidate, for good. It
 holds while no attempt stays open too long between its first look and its commit: with a
 bound `b` on that time, an attempt that found no decision must not outlive one that was
 made meanwhile, and that one may itself be `b` older than its commit. So two bounds have to
 fit into a decision's lifetime (`Short`). Nothing else in the model depends on it.
 */
module Decisions {
  import opened EventLog
  import opened Database
  import opened Protocol
  import opened Invariant
  import opened Shapes
  import opened World
  import opened Safety
  import opened Histories

  const LIFETIME: nat := CANDIDATE_MAX_AGE + CLOCK_SLACK

  predicate Short(b: nat) {
    2 * b <= LIFETIME
  }

  // -------------------------------------------------------------------------
  // The committed decisions

  ghost predicate AdmInv(db: Db) {
    && (forall r | r in db.adm :: r in db.decided && db.adm[r] == db.decided[r])
    && (forall r | r in db.decided ::
          && r.start.Some?
          && db.decided[r].at <= db.now
          && r.born <= db.decided[r].at + CLOCK_SLACK
          && (db.decided[r].accepted <==> r in db.runs)
          && (r !in db.adm ==> db.decided[r].at + LIFETIME < db.now))
    && (forall r | r in db.runs && r.start.Some? :: r in db.decided)
  }

  // -------------------------------------------------------------------------
  // An open attempt

  predicate OfCandidate(tx: Tx) {
    tx.job.Create? && tx.job.run.start.Some?
  }

  // It has found no decision that could be in its way.
  predicate Looked(pc: Pc) {
    pc.CheckRun? || pc.ForgetOld? || pc.ReleaseToken? || pc.FindOwner? || pc.ClaimToken? || pc.LostToken?
    || pc.RecordRefusal? || pc.RecordAcceptance?
  }

  // It may yet decide, or has decided and not committed.
  predicate Deciding(tx: Tx) {
    && OfCandidate(tx) && !tx.pc.Aborted?
    && (tx.pc.Begin? || tx.pc.First? || tx.pc.Recorded? || tx.pc.CheckAge? || Looked(tx.pc) || tx.w.decide != map[])
  }

  predicate PromptTx(now: nat, tx: Tx, b: nat) {
    Deciding(tx) ==> now <= tx.began + b
  }

  ghost predicate PromptState(s: State, b: nat) {
    forall t | t in s.txs :: PromptTx(s.db.now, s.txs[t], b)
  }

  // The decision, if there is one by now, is there until this attempt ends.
  ghost predicate Fresh(db: Db, began: nat, r: RunId, b: nat) {
    r in db.decided ==> r in db.adm && db.decided[r].at + b >= began
  }

  // Only old decisions are deleted, and never the attempt's own.
  ghost predicate Batch(db: Db, batch: set<RunId>, r: RunId) {
    forall q | q in batch :: q in db.adm && Expires(db, q) && q != r
  }

  ghost predicate Decides(db: Db, began: nat, decide: map<RunId, Decision>, r: RunId) {
    && r !in db.decided && r !in db.runs
    && r in decide && decide == map[r := decide[r]] && began <= decide[r].at <= db.now
  }

  ghost predicate AdmTx(db: Db, tx: Tx, b: nat) {
    OfCandidate(tx) && !tx.pc.Aborted? ==>
      var r := tx.job.run;
      && Batch(db, tx.w.forget, r)
      && (tx.w.decide != map[] ==> Decides(db, tx.began, tx.w.decide, r))
      && (tx.pc.CheckAge? ==> db.now > r.born + CANDIDATE_MAX_AGE || Fresh(db, tx.began, r, b))
      && (Looked(tx.pc) ==> Fresh(db, tx.began, r, b))
  }

  // -------------------------------------------------------------------------
  // Statements

  // A decision that is gone is older than any attempt that could still be admitted.
  lemma GoneIsOld(db: Db, r: RunId)
    requires AdmInv(db) && r in db.decided && r !in db.adm
    ensures db.now > r.born + CANDIDATE_MAX_AGE
  {
  }

  lemma NotOld(db: Db, tx: Tx, b: nat)
    requires AdmInv(db) && Short(b) && db.now <= tx.began + b
    requires OfCandidate(tx) && Fresh(db, tx.began, tx.job.run, b)
    ensures !(tx.job.run in db.adm && Expires(db, tx.job.run))
  {
  }

  // Nothing about decisions has changed.
  lemma SameAdm(db: Db, tx: Tx, tx': Tx, b: nat)
    requires AdmTx(db, tx, b) && !tx.pc.Aborted?
    requires tx'.job == tx.job && tx'.began == tx.began && tx'.w.decide == tx.w.decide && tx'.w.forget == tx.w.forget
    requires !tx'.pc.CheckAge? && (Looked(tx'.pc) ==> Looked(tx.pc))
    ensures AdmTx(db, tx', b)
  {
  }

  lemma LookingAdm(db: Db, held: set<Key>, tx: Tx, c: Choice, tx': Tx, b: nat)
    requires AdmInv(db) && AdmTx(db, tx, b) && OfCandidate(tx)
    requires tx.pc.Recorded? || tx.pc.CheckAge? || tx.pc.CheckRun?
    requires ExecAdmission(db, held, tx, c) == Go(tx')
    ensures AdmTx(db, tx', b)
  {
    hide TokenHeld, OwnerRead, Expires, Visible, ExecRelease, PutHook;
    var r := tx.job.run;
    if tx.pc.Recorded? && r !in db.adm && r in db.decided { GoneIsOld(db, r); }
  }

  lemma ForgettingAdm(db: Db, held: set<Key>, tx: Tx, c: Choice, tx': Tx, b: nat)
    requires AdmInv(db) && AdmTx(db, tx, b) && OfCandidate(tx) && Short(b) && db.now <= tx.began + b
    requires tx.pc.ForgetOld? && ExecAdmission(db, held, tx, c) == Go(tx')
    ensures AdmTx(db, tx', b)
  {
    hide TokenHeld, OwnerRead, Visible, ExecRelease, PutHook, Expires, AdmInv, Fresh;
    NotOld(db, tx, b);
  }

  // Between the deletions and the record only the token is looked at.
  lemma ClaimingSame(db: Db, held: set<Key>, tx: Tx, c: Choice, tx': Tx)
    requires OfCandidate(tx) && (tx.pc.FindOwner? || tx.pc.ClaimToken? || tx.pc.LostToken?)
    requires ExecAdmission(db, held, tx, c) == Go(tx')
    ensures tx'.job == tx.job && tx'.began == tx.began && tx'.w.decide == tx.w.decide && tx'.w.forget == tx.w.forget
    ensures !tx'.pc.CheckAge?
  {
    hide TokenHeld, OwnerRead, Expires, Visible, ExecRelease;
  }

  lemma ReleasingSame(db: Db, held: set<Key>, tx: Tx, t: Token, c: Choice, tx': Tx)
    requires ExecRelease(db, held, tx, t, c, FindOwner) == Go(tx')
    ensures tx'.job == tx.job && tx'.began == tx.began && tx'.w.decide == tx.w.decide && tx'.w.forget == tx.w.forget
    ensures tx'.pc.FindOwner?
  {
    hide OwnerTerminal;
  }

  lemma RecordingAdm(db: Db, held: set<Key>, tx: Tx, c: Choice, tx': Tx, b: nat)
    requires AdmInv(db) && AdmTx(db, tx, b) && OfCandidate(tx) && tx.w.decide == map[]
    requires tx.pc.RecordRefusal? || tx.pc.RecordAcceptance?
    requires ExecAdmission(db, held, tx, c) == Go(tx')
    ensures AdmTx(db, tx', b)
  {
    hide TokenHeld, OwnerRead, Expires, Visible, ExecRelease, PutHook;
    var r := tx.job.run;
    assert r !in tx.w.forget;
    if r !in db.adm {
      assert r !in db.decided && r !in db.runs;
      assert tx'.w.decide == map[r := tx'.w.decide[r]];
    }
  }

  lemma AdmissionAdm(db: Db, held: set<Key>, tx: Tx, c: Choice, tx': Tx, b: nat)
    requires AdmInv(db) && AdmTx(db, tx, b) && OfCandidate(tx) && Short(b) && PromptTx(db.now, tx, b)
    requires CreateShape(db, tx) && ExecAdmission(db, held, tx, c) == Go(tx')
    ensures AdmTx(db, tx', b)
  {
    hide AdmInv, AdmTx, ExecRelease, TokenHeld, OwnerRead, Replay, Visible, Expires, PutHook, Creating, CreatedShape;
    if tx.pc.Recorded? || tx.pc.CheckAge? || tx.pc.CheckRun? {
      LookingAdm(db, held, tx, c, tx', b);
    } else if tx.pc.ForgetOld? {
      ForgettingAdm(db, held, tx, c, tx', b);
    } else if tx.pc.ReleaseToken? {
      ReleasingSame(db, held, tx, tx.job.run.start.value, c, tx');
      SameAdm(db, tx, tx', b);
    } else if tx.pc.FindOwner? || tx.pc.ClaimToken? || tx.pc.LostToken? {
      ClaimingSame(db, held, tx, c, tx');
      SameAdm(db, tx, tx', b);
    } else if tx.pc.RecordRefusal? || tx.pc.RecordAcceptance? {
      RecordingAdm(db, held, tx, c, tx', b);
    }
  }

  lemma CreatingSame(db: Db, held: set<Key>, tx: Tx, c: Choice, tx': Tx)
    requires tx.job.Create? && (tx.pc.First? || tx.pc.InsertRun? || tx.pc.OpenSlots? || tx.pc.AfterCreate?)
    requires ExecCreate(db, held, tx, c) == Go(tx')
    ensures tx'.job == tx.job && tx'.began == tx.began && tx'.w.decide == tx.w.decide && tx'.w.forget == tx.w.forget
    ensures !tx'.pc.CheckAge? && !Looked(tx'.pc)
  {
    hide ExecAdmission, RunSeen;
  }

  lemma SlotSame(db: Db, held: set<Key>, tx: Tx, tx': Tx)
    requires tx.pc.Journal? && Append(db, held, tx, RunOf(tx.job), tx.pc.ev, Done) == Go(tx')
    ensures tx'.job == tx.job && tx'.began == tx.began && tx'.w.decide == tx.w.decide && tx'.w.forget == tx.w.forget
    ensures !tx'.pc.CheckAge? && !Looked(tx'.pc)
  {
    hide Journaled, SeqOf, LogOf;
  }

  lemma StatementAdm(db: Db, held: set<Key>, tx: Tx, c: Choice, tx': Tx, b: nat)
    requires AdmInv(db) && AdmTx(db, tx, b) && OfCandidate(tx) && Short(b) && PromptTx(db.now, tx, b)
    requires TxInv(db, tx) && Exec(db, held, tx, c) == Go(tx')
    ensures AdmTx(db, tx', b)
  {
    hide AdmInv, AdmTx, ExecCreate, ExecAdmission, Append, CreateShape, Guarded, PromptTx;
    if tx.pc.Begin? {
      SameAdm(db, tx, tx', b);
    } else if tx.pc.Journal? {
      SlotSame(db, held, tx, tx');
      SameAdm(db, tx, tx', b);
    } else if tx.pc.First? || tx.pc.InsertRun? || tx.pc.OpenSlots? || tx.pc.AfterCreate? {
      CreatingSame(db, held, tx, c, tx');
      SameAdm(db, tx, tx', b);
    } else {
      NotCreating(db, held, tx, c);
      AdmissionAdm(db, held, tx, c, tx', b);
    }
  }

  lemma NotCreating(db: Db, held: set<Key>, tx: Tx, c: Choice)
    requires OfCandidate(tx) && !tx.pc.First? && !tx.pc.InsertRun? && !tx.pc.OpenSlots? && !tx.pc.AfterCreate?
    ensures ExecCreate(db, held, tx, c) == ExecAdmission(db, held, tx, c)
  {
    hide ExecAdmission;
  }

  // -------------------------------------------------------------------------
  // Commits

  ghost predicate AdmOk(db: Db, w: Writes, b: nat) {
    && (forall r | r in w.decide ::
          && r !in db.decided && r !in w.forget && r.start.Some?
          && w.decide[r].at <= db.now <= w.decide[r].at + b
          && r.born <= w.decide[r].at + CLOCK_SLACK
          && (w.decide[r].accepted <==> r in w.runs)
          && r !in db.runs)
    && (forall r | r in w.forget :: r in db.adm && Expires(db, r))
    && (forall r | r in w.runs && r !in db.runs && r.start.Some? :: r in w.decide)
    && (forall r | r in w.runs && r !in db.runs :: r !in db.decided)
  }

  lemma CommitAdm(db: Db, w: Writes, b: nat)
    requires AdmInv(db) && AdmOk(db, w, b)
    ensures AdmInv(Apply(db, w))
  {
    hide Apply, AdmOk;
    var db' := Apply(db, w);
    forall r
      ensures r in db'.adm ==> r in db'.decided && db'.adm[r] == db'.decided[r]
      ensures r in db'.runs && r.start.Some? ==> r in db'.decided
    {
      CommitRecorded(db, w, b, r);
    }
    forall r | r in db'.decided
      ensures r.start.Some? && db'.decided[r].at <= db'.now && r.born <= db'.decided[r].at + CLOCK_SLACK
      ensures db'.decided[r].accepted <==> r in db'.runs
      ensures r !in db'.adm ==> db'.decided[r].at + LIFETIME < db'.now
    {
      CommitDecided(db, w, b, r);
    }
  }

  lemma CommitRecorded(db: Db, w: Writes, b: nat, r: RunId)
    requires AdmInv(db) && AdmOk(db, w, b)
    ensures var db' := Apply(db, w);
            && (r in db'.adm ==> r in db'.decided && db'.adm[r] == db'.decided[r])
            && (r in db'.runs && r.start.Some? ==> r in db'.decided)
  {
    hide LogOf, Unsaved, WasDisposed;
  }

  lemma CommitDecided(db: Db, w: Writes, b: nat, r: RunId)
    requires AdmInv(db) && AdmOk(db, w, b) && r in Apply(db, w).decided
    ensures var db' := Apply(db, w);
            && r.start.Some? && db'.decided[r].at <= db'.now && r.born <= db'.decided[r].at + CLOCK_SLACK
            && (db'.decided[r].accepted <==> r in db'.runs)
            && (r !in db'.adm ==> db'.decided[r].at + LIFETIME < db'.now)
  {
    hide LogOf, Unsaved, WasDisposed;
  }

  // A request that creates no candidate's run decides and forgets nothing.
  lemma OthersDecideNothing(db: Db, tx: Tx)
    requires RunsInv(db) && TxInv(db, tx) && Committing(tx) && !tx.job.Create?
    ensures tx.w.decide == map[] && tx.w.forget == {} && forall r | r in tx.w.runs :: r in db.runs
  {
    if tx.job.StepNew? || tx.job.StepStart? || tx.job.StepEnd? || tx.job.StepRetry? {
      StepsDecideNothing(db, tx);
    } else if tx.job.HookNew? {
      HooksDecideNothing(db, tx);
    } else {
      RunsDecideNothing(db, tx);
      assert tx.w.runs.Keys <= db.log.Keys;
    }
  }

  lemma RunsDecideNothing(db: Db, tx: Tx)
    requires TxInv(db, tx) && Committing(tx)
    requires tx.job.Plain? || tx.job.Start? || tx.job.End? || tx.job.Dispose? || tx.job.Receive?
    ensures tx.w.decide == map[] && tx.w.forget == {} && tx.w.runs.Keys <= db.log.Keys
  {
    hide Guarded, CreateShape, HookNewShape, StepNewShape, StepStartShape, StepEndShape, StepRetryShape, Says;
  }

  lemma StepsDecideNothing(db: Db, tx: Tx)
    requires TxInv(db, tx) && Committing(tx)
    requires tx.job.StepNew? || tx.job.StepStart? || tx.job.StepEnd? || tx.job.StepRetry?
    ensures tx.w.decide == map[] && tx.w.forget == {} && tx.w.runs == map[]
  {
    hide Guarded, CreateShape, HookNewShape, Logged, StepFits;
  }

  lemma HooksDecideNothing(db: Db, tx: Tx)
    requires TxInv(db, tx) && Committing(tx) && tx.job.HookNew?
    ensures tx.w.decide == map[] && tx.w.forget == {} && tx.w.runs == map[]
  {
    hide Guarded, TakenLog, Holding, Journaled, Existing, Logged;
  }

  lemma OrdinaryDecidesNothing(db: Db, tx: Tx)
    requires TxInv(db, tx) && Committing(tx) && tx.job.Create? && tx.job.run.start.None?
    ensures tx.w.decide == map[] && tx.w.forget == {} && tx.w.runs.Keys <= {tx.job.run}
  {
    hide Guarded, Says, Logged;
  }

  lemma CandidateDecides(db: Db, tx: Tx)
    requires TxInv(db, tx) && Committing(tx) && OfCandidate(tx)
    requires tx.w.decide != map[] ==> Decides(db, tx.began, tx.w.decide, tx.job.run)
    ensures tx.w.runs.Keys <= {tx.job.run} && tx.w.decide.Keys <= {tx.job.run}
    ensures tx.job.run in tx.w.decide ==> (tx.w.decide[tx.job.run].accepted <==> tx.job.run in tx.w.runs)
    ensures tx.job.run in tx.w.runs && tx.job.run !in db.runs ==> tx.job.run in tx.w.decide
  {
    hide Guarded, Says, Logged;
  }

  lemma AdmReady(db: Db, tx: Tx, b: nat)
    requires RunsInv(db) && AdmInv(db) && TxInv(db, tx) && Committing(tx) && AdmTx(db, tx, b) && PromptTx(db.now, tx, b)
    ensures AdmOk(db, tx.w, b)
  {
    hide AdmOk, TxInv, RunsInv, Committing, AdmInv, AdmTx, PromptTx;
    if !tx.job.Create? {
      OthersDecideNothing(db, tx);
      QuietAdm(db, tx.w, b);
    } else if tx.job.run.start.None? {
      OrdinaryDecidesNothing(db, tx);
      OrdinaryAdm(db, tx.w, tx.job.run, b);
    } else {
      Commits(tx);
      CandidateAdm(db, tx, b);
    }
  }

  lemma QuietAdm(db: Db, w: Writes, b: nat)
    requires w.decide == map[] && w.forget == {} && forall r | r in w.runs :: r in db.runs
    ensures AdmOk(db, w, b)
  {
  }

  lemma OrdinaryAdm(db: Db, w: Writes, r: RunId, b: nat)
    requires AdmInv(db) && w.decide == map[] && w.forget == {} && w.runs.Keys <= {r} && r.start.None?
    ensures AdmOk(db, w, b)
  {
    assert forall q | q in w.runs :: q == r;
  }

  lemma CandidateAdm(db: Db, tx: Tx, b: nat)
    requires AdmInv(db) && TxInv(db, tx) && Committing(tx) && OfCandidate(tx) && !tx.pc.Aborted?
    requires AdmTx(db, tx, b) && PromptTx(db.now, tx, b)
    ensures AdmOk(db, tx.w, b)
  {
    hide TxInv, Committing, AdmInv, Looked, Fresh;
    CandidateDecides(db, tx);
    Born(db, tx);
    assert forall q | q in tx.w.runs :: q == tx.job.run;
    assert forall q | q in tx.w.decide :: q == tx.job.run;
  }

  lemma Commits(tx: Tx)
    requires Committing(tx)
    ensures !tx.pc.Aborted?
  {
  }

  lemma Born(db: Db, tx: Tx)
    requires TxInv(db, tx) && tx.job.Create?
    ensures tx.job.run.born <= tx.began + CLOCK_SLACK && tx.began <= db.now
  {
    hide JobShape, Covered, FenceOk, TicketOk;
  }

  // -------------------------------------------------------------------------
  // What the others do meanwhile

  // Decisions stand, and new ones are recent.
  ghost predicate AdmRely(db: Db, db': Db, b: nat) {
    && db.now <= db'.now
    && (forall r | r in db.decided :: r in db'.decided && db'.decided[r] == db.decided[r])
    && (forall r | r in db'.decided && r !in db.decided :: db'.decided[r].at + b >= db.now)
  }

  lemma CommitAdmRely(db: Db, w: Writes, b: nat)
    requires AdmOk(db, w, b)
    ensures AdmRely(db, Apply(db, w), b)
  {
  }

  lemma FreshFrame(db: Db, db': Db, tx: Tx, b: nat)
    requires AdmInv(db') && AdmRely(db, db', b) && Short(b) && tx.job.Create?
    requires tx.began <= db.now && db'.now <= tx.began + b && Fresh(db, tx.began, tx.job.run, b)
    ensures Fresh(db', tx.began, tx.job.run, b)
  {
  }

  lemma BatchFrame(db: Db, db': Db, tx: Tx, r: RunId)
    requires Rely(db, db', tx.locks) && Covered(db, tx.w, tx.locks) && Batch(db, tx.w.forget, r)
    ensures Batch(db', tx.w.forget, r)
  {
    forall q | q in tx.w.forget
      ensures q in db'.adm && Expires(db', q)
    {
      assert SameOn(db, db', Admission(q));
    }
  }

  lemma DecidesFrame(db: Db, db': Db, tx: Tx, r: RunId)
    requires Rely(db, db', tx.locks) && Covered(db, tx.w, tx.locks) && AdmInv(db') && r.start.Some?
    requires Decides(db, tx.began, tx.w.decide, r)
    ensures Decides(db', tx.began, tx.w.decide, r)
  {
    assert SameOn(db, db', Admission(r));
  }

  lemma AdmFrame(db: Db, db': Db, tx: Tx, b: nat)
    requires Rely(db, db', tx.locks) && AdmInv(db') && AdmRely(db, db', b) && Short(b)
    requires TxInv(db, tx) && AdmTx(db, tx, b) && PromptTx(db'.now, tx, b)
    ensures AdmTx(db', tx, b)
  {
    if OfCandidate(tx) && !tx.pc.Aborted? {
      var r := tx.job.run;
      Born(db, tx);
      assert Covered(db, tx.w, tx.locks) by { hide JobShape, Covered, FenceOk; }
      hide TxInv, Rely, Covered, AdmInv, AdmRely, Batch, Decides, Fresh;
      BatchFrame(db, db', tx, r);
      if tx.w.decide != map[] { DecidesFrame(db, db', tx, r); }
      if Fresh(db, tx.began, r, b) && (tx.pc.CheckAge? || Looked(tx.pc)) { FreshFrame(db, db', tx, b); }
      assert db.now <= db'.now by { Later(db, db', b); }
    }
  }

  lemma Later(db: Db, db': Db, b: nat)
    requires AdmRely(db, db', b)
    ensures db.now <= db'.now
  {
  }

  // -------------------------------------------------------------------------
  // Every move

  ghost predicate AdmState(s: State, b: nat) {
    && AdmInv(s.db)
    && forall t | t in s.txs :: AdmTx(s.db, s.txs[t], b)
  }

  lemma OtherAdm(db: Db, tx: Tx, b: nat)
    requires !OfCandidate(tx)
    ensures AdmTx(db, tx, b)
  {
  }

  lemma StatementState(s: State, t: nat, c: Choice, b: nat)
    requires Inv(s) && AdmState(s, b) && Short(b) && PromptState(s, b) && Enabled(s, Statement(t, c))
    ensures AdmState(Moved(s, Statement(t, c)), b)
  {
    hide DbInv, TxInv, Exec, AdmInv, AdmTx, Exclusive, PromptTx;
    var tx, tx' := s.txs[t], Exec(s.db, Held(s, t), s.txs[t], c).tx;
    StatementKeeps(s.db, Held(s, t), tx, c, tx');
    if OfCandidate(tx) {
      StatementAdm(s.db, Held(s, t), tx, c, tx', b);
    } else {
      OtherAdm(s.db, tx', b);
    }
  }

  lemma RestAdm(db: Db, tx: Tx, b: nat)
    requires TxInv(db, tx) && Boundary(tx)
    ensures AdmTx(Apply(db, tx.w), Rest(tx), b)
  {
    hide Guarded, JobShape, Apply;
    if OfCandidate(tx) {
      assert !tx.pc.CheckAge? && !Looked(tx.pc);
    }
  }

  lemma SaveState(s: State, t: nat, b: nat)
    requires Inv(s) && AdmState(s, b) && Short(b) && PromptState(s, b) && Enabled(s, Save(t))
    requires PromptState(Moved(s, Save(t)), b)
    ensures AdmState(Moved(s, Save(t)), b)
    ensures AdmRely(s.db, Moved(s, Save(t)).db, b)
  {
    hide DbInv, TxInv, AdmInv, AdmTx, Apply, Boundary, Ready, PromptTx, AdmOk, AdmRely;
    var tx, s' := s.txs[t], Moved(s, Save(t));
    Runs(s.db);
    AllReady(s.db, tx);
    AdmReady(s.db, tx, b);
    CommitAdm(s.db, tx.w, b);
    CommitAdmRely(s.db, tx.w, b);
    forall u | u in s'.txs
      ensures AdmTx(s'.db, s'.txs[u], b)
    {
      if u == t {
        RestAdm(s.db, tx, b);
      } else {
        CommitRely(s.db, tx, s.txs[u].locks);
        AdmFrame(s.db, s'.db, s.txs[u], b);
      }
    }
  }

  lemma TickAdm(db: Db, b: nat)
    requires AdmInv(db)
    ensures AdmInv(db.(now := db.now + 1)) && AdmRely(db, db.(now := db.now + 1), b)
  {
  }

  lemma TickState(s: State, b: nat)
    requires Inv(s) && AdmState(s, b) && Short(b) && PromptState(Moved(s, Tick), b)
    ensures AdmState(Moved(s, Tick), b)
  {
    hide DbInv, TxInv, AdmInv, AdmTx, Rely, AdmRely, PromptTx;
    var db' := s.db.(now := s.db.now + 1);
    TickAdm(s.db, b);
    forall t | t in s.txs
      ensures AdmTx(db', s.txs[t], b)
    {
      TickRely(s.db, s.txs[t].locks);
      AdmFrame(s.db, db', s.txs[t], b);
    }
  }

  lemma OpenAdm(db: Db, tx: Tx, b: nat)
    requires tx.w == NOTHING && tx.pc.Begin?
    ensures AdmTx(db, tx, b)
  {
  }

  lemma MoveState(s: State, m: Move, b: nat)
    requires Inv(s) && AdmState(s, b) && Short(b) && PromptState(s, b) && Enabled(s, m) && PromptState(Moved(s, m), b)
    ensures AdmState(Moved(s, m), b) && AdmRely(s.db, Moved(s, m).db, b)
  {
    match m {
      case Statement(t, c) => StatementState(s, t, c, b);
      case Save(t) => SaveState(s, t, b);
      case Tick => TickState(s, b); TickAdm(s.db, b);
      case Open(t, job, fence) =>
        hide AdmInv, AdmTx;
        OpenAdm(s.db, Opened(s.db, job, fence), b);
      case Rollback(t) => hide AdmInv, AdmTx;
    }
  }

  // -------------------------------------------------------------------------
  // Whole histories

  // No attempt that may yet decide is ever open longer than `b`.
  ghost predicate Prompt(ss: seq<State>, b: nat) {
    forall k | 0 <= k < |ss| :: PromptState(ss[k], b)
  }

  lemma InitialState(b: nat)
    ensures AdmState(INITIAL, b)
  {
  }

  lemma {:induction false} AlwaysDecided(ss: seq<State>, ms: seq<Move>, b: nat, k: nat)
    requires History(ss, ms) && Prompt(ss, b) && Short(b) && k < |ss|
    ensures AdmState(ss[k], b)
  {
    hide Inv, Enabled, Moved, AdmState, PromptState;
    if k == 0 {
      InitialState(b);
    } else {
      AlwaysDecided(ss, ms, b, k - 1);
      AlwaysInv(ss, ms, k - 1);
      assert ss[k - 1 + 1] == Moved(ss[k - 1], ms[k - 1]) && Enabled(ss[k - 1], ms[k - 1]);
      MoveState(ss[k - 1], ms[k - 1], b);
    }
  }

  // Between any two states decisions stand.
  lemma {:induction false} LaterDecided(ss: seq<State>, ms: seq<Move>, b: nat, i: nat, k: nat)
    requires History(ss, ms) && Prompt(ss, b) && Short(b) && i <= k < |ss|
    ensures forall r | r in ss[i].db.decided :: r in ss[k].db.decided && ss[k].db.decided[r] == ss[i].db.decided[r]
    decreases k
  {
    hide Inv, Enabled, Moved, AdmState, PromptState;
    if i < k {
      LaterDecided(ss, ms, b, i, k - 1);
      AlwaysInv(ss, ms, k - 1);
      AlwaysDecided(ss, ms, b, k - 1);
      assert ss[k - 1 + 1] == Moved(ss[k - 1], ms[k - 1]) && Enabled(ss[k - 1], ms[k - 1]);
      MoveState(ss[k - 1], ms[k - 1], b);
    }
  }

  // A history with such a bound.
  ghost predicate Timed(ss: seq<State>, ms: seq<Move>, b: nat) {
    History(ss, ms) && Prompt(ss, b) && Short(b)
  }

  // What two states of such a history have in common.
  ghost predicate Stands(db: Db, db': Db) {
    && db.now <= db'.now
    && db.runs.Keys <= db'.runs.Keys
    && (forall r | r in db.decided :: r in db'.decided && db'.decided[r] == db.decided[r])
  }

  lemma MoveStands(s: State, m: Move, b: nat)
    requires Inv(s) && AdmState(s, b) && Short(b) && PromptState(s, b) && Enabled(s, m) && PromptState(Moved(s, m), b)
    ensures Stands(s.db, Moved(s, m).db)
  {
    hide Inv, AdmState, Short, PromptState, Enabled, Moved;
    MoveState(s, m, b);
    MoveGrows(s, m);
  }
}
