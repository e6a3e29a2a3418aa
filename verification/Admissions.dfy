/**
 Start Hook admission over whole histories: a candidate is decided once, what is decided
 is what every attempt answers, and the decision commits with everything it decides.
 */
module Admissions {
  import opened Options
  import opened EventLog
  import opened Database
  import opened Protocol
  import opened Invariant
  import opened Shapes
  import opened World
  import opened Histories
  import opened Decisions

  // -------------------------------------------------------------------------
  // One decision for good

  // A committed decision never changes, and its row says the same for as long as it is there.
  lemma DecisionStands(ss: seq<State>, ms: seq<Move>, b: nat, i: nat, k: nat, r: RunId)
    requires Timed(ss, ms, b) && i <= k < |ss| && r in ss[i].db.decided
    ensures r in ss[k].db.decided && ss[k].db.decided[r] == ss[i].db.decided[r]
    ensures r in ss[k].db.adm ==> ss[k].db.adm[r] == ss[i].db.decided[r]
    ensures r !in ss[k].db.adm ==> ss[k].db.now > r.born + CANDIDATE_MAX_AGE
  {
    LaterDecided(ss, ms, b, i, k);
    AlwaysDecided(ss, ms, b, k);
    hide Timed, AdmInv, AdmTx;
    DecidedAt(ss[k].db, r);
  }

  lemma DecidedAt(db: Db, r: RunId)
    requires AdmInv(db) && r in db.decided
    ensures r in db.adm ==> db.adm[r] == db.decided[r]
    ensures r !in db.adm ==> db.now > r.born + CANDIDATE_MAX_AGE
    ensures db.decided[r].accepted <==> r in db.runs
  {
  }

  // What a deciding commit finds and leaves.
  lemma DecidesAt(s: State, b: nat, t: nat, r: RunId)
    requires Inv(s) && AdmState(s, b) && PromptState(s, b) && Enabled(s, Save(t)) && r in s.txs[t].w.decide
    ensures r !in s.db.decided && r !in s.db.runs
    ensures r in Commit(s, t).db.decided && Commit(s, t).db.decided[r] == s.txs[t].w.decide[r]
    ensures r in Commit(s, t).db.runs <==> s.txs[t].w.decide[r].accepted
  {
    hide TxInv, DbInv, AdmInv, AdmTx, PromptTx, Committing, Exclusive;
    Runs(s.db);
    AdmReady(s.db, s.txs[t], b);
  }

  // Over any history, deletions of old decisions included, one commit at most decides a
  // candidate.
  lemma DecidedOnce(ss: seq<State>, ms: seq<Move>, b: nat, i: nat, k: nat, t: nat, u: nat, r: RunId)
    requires Timed(ss, ms, b) && i < |ms| && k < |ms| && ms[i] == Save(t) && ms[k] == Save(u)
    requires t in ss[i].txs && r in ss[i].txs[t].w.decide
    requires u in ss[k].txs && r in ss[k].txs[u].w.decide
    ensures i == k
  {
    hide Inv;
    if i < k {
      NotTwice(ss, ms, b, i, k, t, u, r);
    } else if k < i {
      NotTwice(ss, ms, b, k, i, u, t, r);
    }
  }

  lemma NotTwice(ss: seq<State>, ms: seq<Move>, b: nat, i: nat, k: nat, t: nat, u: nat, r: RunId)
    requires Timed(ss, ms, b) && i < k < |ms| && ms[i] == Save(t) && ms[k] == Save(u)
    requires t in ss[i].txs && r in ss[i].txs[t].w.decide
    ensures !(u in ss[k].txs && r in ss[k].txs[u].w.decide)
  {
    hide Inv, AdmState, PromptState;
    assert Enabled(ss[i], ms[i]) && ss[i + 1] == Moved(ss[i], ms[i]) && Enabled(ss[k], ms[k]);
    AlwaysInv(ss, ms, i);
    AlwaysInv(ss, ms, k);
    AlwaysDecided(ss, ms, b, i);
    AlwaysDecided(ss, ms, b, k);
    DecidesAt(ss[i], b, t, r);
    LaterDecided(ss, ms, b, i + 1, k);
    if u in ss[k].txs && r in ss[k].txs[u].w.decide {
      DecidesAt(ss[k], b, u, r);
    }
  }

  // -------------------------------------------------------------------------
  // A decision commits with what it decides

  // The run, its first event, its start Hook and the token claim come with the acceptance.
  lemma AcceptanceCommitsWhole(s: State, b: nat, t: nat, r: RunId)
    requires Inv(s) && AdmState(s, b) && PromptState(s, b) && Enabled(s, Save(t))
    requires r in s.txs[t].w.decide && s.txs[t].w.decide[r].accepted
    ensures var db' := Commit(s, t).db;
            && r.start.Some? && r !in s.db.runs && r in db'.runs
            && StartHook(r) in db'.hooks && db'.hooks[StartHook(r)] == r.start.value
            && LogOf(s.db, r) == [] && LogOf(db', r) != []
            && LogOf(db', r)[0].ev == RunCreated(Some(StartHook(r)))
            && (forall h | h in db'.hooks && db'.hooks[h] == r.start.value :: h == StartHook(r))
  {
    DecidesAt(s, b, t, r);
    hide DbInv, TxInv, Ready, Committing, Apply, Exclusive, AdmState, PromptState;
    var tx := s.txs[t];
    AllReady(s.db, tx);
    DeciderShape(s.db, tx, r);
    Accepts(s.db, tx, r);
  }

  // Only the creation of a run decides, and only of that run.
  lemma DeciderShape(db: Db, tx: Tx, r: RunId)
    requires TxInv(db, tx) && Committing(tx) && r in tx.w.decide
    ensures tx.job.Create? && CreateShape(db, tx) && tx.job.run == r
  {
    hide CreateShape;
    if tx.job.Create? {
      assert CreateShape(db, tx) by { hide Guarded; }
      hide TxInv;
      CreateDecidesOwn(db, tx, r);
    } else {
      OnlyCreateDecides(db, tx);
    }
  }

  lemma CreateDecidesOwn(db: Db, tx: Tx, r: RunId)
    requires tx.job.Create? && CreateShape(db, tx) && Committing(tx) && r in tx.w.decide
    ensures tx.job.run == r
  {
    hide Says, Logged, Existing;
  }

  lemma OnlyCreateDecides(db: Db, tx: Tx)
    requires TxInv(db, tx) && Committing(tx) && !tx.job.Create?
    ensures tx.w.decide == map[]
  {
    hide Committing, TxInv;
    if tx.job.StepNew? || tx.job.StepStart? || tx.job.StepEnd? || tx.job.StepRetry? {
      StepsDecideNothing(db, tx);
    } else if tx.job.HookNew? {
      HooksDecideNothing(db, tx);
    } else {
      RunsDecideNothing(db, tx);
    }
  }

  lemma Accepts(db: Db, tx: Tx, r: RunId)
    requires DbInv(db) && Ready(db, tx) && tx.job.Create? && tx.job.run == r && CreateShape(db, tx)
    requires Committing(tx) && r in tx.w.decide && tx.w.decide[r].accepted && r !in db.runs
    ensures var db' := Apply(db, tx.w);
            && r.start.Some? && r !in db.runs && r in db'.runs
            && StartHook(r) in db'.hooks && db'.hooks[StartHook(r)] == r.start.value
            && LogOf(db, r) == [] && LogOf(db', r) != []
            && LogOf(db', r)[0].ev == RunCreated(Some(StartHook(r)))
            && (forall h | h in db'.hooks && db'.hooks[h] == r.start.value :: h == StartHook(r))
  {
    hide CreateShape, DbInv, Ready, Covered, Committing;
    AcceptsShape(db, tx, r);
    LogAfter(db, tx.w, r);
    AcceptsFresh(db, tx, r);
    AcceptedRow(db, tx.w, tx.locks, StartHook(r));
  }

  lemma AcceptsShape(db: Db, tx: Tx, r: RunId)
    requires tx.job.Create? && tx.job.run == r && CreateShape(db, tx)
    requires Committing(tx) && r in tx.w.decide && tx.w.decide[r].accepted && r !in db.runs
    ensures Creating(db, tx, r) && r.start.Some? && r in tx.w.runs && r in tx.w.log && tx.w.log[r] != []
    ensures tx.w.log[r][0].ev == RunCreated(StartOf(r))
  {
    hide Logged;
  }

  lemma AcceptsFresh(db: Db, tx: Tx, r: RunId)
    requires DbInv(db) && Ready(db, tx) && r !in db.runs
    ensures LogOf(db, r) == [] && Covered(db, tx.w, tx.locks)
  {
    hide FenceOk, StepsOk, DecideOk, HooksOk, Covered;
    assert r !in db.log.Keys;
  }

  lemma AcceptedRow(db: Db, w: Writes, locks: set<Key>, h: HookId)
    requires Covered(db, w, locks) && h in w.put
    ensures var hooks := Apply(db, w).hooks;
            h in hooks && hooks[h] == w.put[h] && forall g | g in hooks && hooks[g] == w.put[h] :: g == h
  {
  }

  // A refused candidate has no run, no log and no Hook, ever.
  lemma RefusalLeavesNothing(ss: seq<State>, ms: seq<Move>, b: nat, i: nat, k: nat, r: RunId)
    requires Timed(ss, ms, b) && i <= k < |ss| && r in ss[i].db.decided && !ss[i].db.decided[r].accepted
    ensures r !in ss[k].db.runs && LogOf(ss[k].db, r) == []
    ensures forall h | h in ss[k].db.hooks :: h.run != r
  {
    hide Inv, AdmInv, AdmTx;
    DecisionStands(ss, ms, b, i, k, r);
    AlwaysInv(ss, ms, k);
    AlwaysDecided(ss, ms, b, k);
    DecidedAt(ss[k].db, r);
    NoRunNoHooks(ss[k], r);
  }

  lemma NoRunNoHooks(s: State, r: RunId)
    requires Inv(s) && r !in s.db.runs
    ensures LogOf(s.db, r) == [] && forall h | h in s.db.hooks :: h.run != r
  {
    hide TxInv, Exclusive;
    assert r !in s.db.log.Keys;
    forall h | h in s.db.hooks
      ensures h.run != r
    {
      assert !Hook(s.db, h).Absent?;
    }
  }

  // ... and every run of a candidate was accepted.
  lemma CandidateRunsWereAccepted(ss: seq<State>, ms: seq<Move>, b: nat, k: nat, r: RunId)
    requires Timed(ss, ms, b) && k < |ss| && r.start.Some?
    ensures r in ss[k].db.runs <==> r in ss[k].db.decided && ss[k].db.decided[r].accepted
  {
    AlwaysDecided(ss, ms, b, k);
  }

  // -------------------------------------------------------------------------
  // Every attempt answers with the decision

  predicate AnswerOk(db: Db, tx: Tx) {
    tx.job.Create? && !tx.pc.Aborted? ==>
      var r := tx.job.run;
      match tx.answer
      case Accepted =>
        (r in tx.w.decide && tx.w.decide[r].accepted) || (r in db.decided && db.decided[r].accepted)
      case Rejected => (r in tx.w.decide && !tx.w.decide[r].accepted)
      case Replayed(accepted) => r in db.decided && db.decided[r].accepted == accepted
      case Ordinary => r in db.runs
      case _ => true
  }

  lemma ReleaseAnswers(db: Db, held: set<Key>, tx: Tx, t: Token, c: Choice, next: Pc)
    requires AnswerOk(db, tx) && !tx.pc.Aborted?
    ensures var o := ExecRelease(db, held, tx, t, c, next); o.Go? ==> AnswerOk(db, o.tx)
  {
    hide OwnerTerminal, AnswerOk;
    var o := ExecRelease(db, held, tx, t, c, next);
    if o.Go? {
      SameAnswer(db, tx, o.tx);
    }
  }

  lemma EarlyAnswers(db: Db, held: set<Key>, tx: Tx, c: Choice)
    requires tx.job.Create? && tx.job.run.start.Some? && AnswerOk(db, tx)
    requires tx.pc.Recorded? || tx.pc.CheckAge? || tx.pc.CheckRun? || tx.pc.ForgetOld?
    requires var r := tx.job.run; r in db.adm ==> r in db.decided && db.adm[r] == db.decided[r]
    ensures var o := ExecAdmission(db, held, tx, c); o.Go? ==> AnswerOk(db, o.tx)
  {
    hide TokenHeld, OwnerRead, Expires, Visible, ExecRelease, PutHook;
  }

  lemma ClaimAnswers(db: Db, held: set<Key>, tx: Tx, c: Choice)
    requires tx.job.Create? && tx.job.run.start.Some? && AnswerOk(db, tx)
    requires tx.pc.FindOwner? || tx.pc.ClaimToken? || tx.pc.LostToken?
    requires var r := tx.job.run; r in db.adm ==> r in db.decided && db.adm[r] == db.decided[r]
    ensures var o := ExecAdmission(db, held, tx, c); o.Go? ==> AnswerOk(db, o.tx)
  {
    hide TokenHeld, OwnerRead, Expires, Visible, ExecRelease;
  }

  lemma DecideAnswers(db: Db, held: set<Key>, tx: Tx, c: Choice)
    requires tx.job.Create? && tx.job.run.start.Some? && AnswerOk(db, tx)
    requires tx.pc.RecordRefusal? || tx.pc.RecordAcceptance?
    requires var r := tx.job.run; r in db.adm ==> r in db.decided && db.adm[r] == db.decided[r]
    ensures var o := ExecAdmission(db, held, tx, c); o.Go? ==> AnswerOk(db, o.tx)
  {
    hide TokenHeld, OwnerRead, Expires, Visible, ExecRelease, PutHook;
  }

  lemma AdmissionAnswers(db: Db, held: set<Key>, tx: Tx, c: Choice)
    requires tx.job.Create? && tx.job.run.start.Some? && AdmInv(db) && AnswerOk(db, tx)
    ensures var o := ExecAdmission(db, held, tx, c); o.Go? ==> AnswerOk(db, o.tx)
  {
    hide TokenHeld, OwnerRead, Expires, Visible, ExecRelease, AdmInv, PutHook, Replay, AnswerOk;
    RowsAreDecisions(db, tx.job.run);
    if tx.pc.ReleaseToken? {
      ReleaseAnswers(db, held, tx, tx.job.run.start.value, c, FindOwner);
    } else if tx.pc.Recorded? || tx.pc.CheckAge? || tx.pc.CheckRun? || tx.pc.ForgetOld? {
      EarlyAnswers(db, held, tx, c);
    } else if tx.pc.FindOwner? || tx.pc.ClaimToken? || tx.pc.LostToken? {
      ClaimAnswers(db, held, tx, c);
    } else if tx.pc.RecordRefusal? || tx.pc.RecordAcceptance? {
      DecideAnswers(db, held, tx, c);
    }
  }

  lemma RowsAreDecisions(db: Db, r: RunId)
    requires AdmInv(db)
    ensures r in db.adm ==> r in db.decided && db.adm[r] == db.decided[r]
  {
  }

  lemma CreateAnswers(db: Db, held: set<Key>, tx: Tx, c: Choice)
    requires tx.job.Create? && AdmInv(db) && AnswerOk(db, tx) && !tx.pc.Aborted?
    ensures var o := ExecCreate(db, held, tx, c); o.Go? ==> AnswerOk(db, o.tx)
  {
    if tx.pc.First? || tx.pc.InsertRun? || tx.pc.OpenSlots? || tx.pc.AfterCreate? {
      hide AdmInv, AnswerOk;
      var o := ExecCreate(db, held, tx, c);
      if o.Go? {
        CreateKeepsAnswer(db, held, tx, c);
        SameAnswer(db, tx, o.tx);
      }
    } else {
      hide ExecAdmission, AdmInv, AnswerOk;
      if tx.job.run.start.Some? {
        AdmissionAnswers(db, held, tx, c);
      }
    }
  }

  lemma CreateKeepsAnswer(db: Db, held: set<Key>, tx: Tx, c: Choice)
    requires tx.job.Create? && (tx.pc.First? || tx.pc.InsertRun? || tx.pc.OpenSlots? || tx.pc.AfterCreate?)
    ensures var o := ExecCreate(db, held, tx, c);
            o.Go? ==> o.tx.job == tx.job && o.tx.answer == tx.answer && o.tx.w.decide == tx.w.decide
  {
    hide ExecAdmission, RunSeen;
  }

  lemma SameAnswer(db: Db, tx: Tx, tx': Tx)
    requires AnswerOk(db, tx) && !tx.pc.Aborted?
    requires tx'.job == tx.job && tx'.answer == tx.answer && tx'.w.decide == tx.w.decide
    ensures AnswerOk(db, tx')
  {
  }

  lemma StatementAnswers(db: Db, held: set<Key>, tx: Tx, c: Choice)
    requires tx.job.Create? && AdmInv(db) && AnswerOk(db, tx) && Exec(db, held, tx, c).Go?
    ensures AnswerOk(db, Exec(db, held, tx, c).tx)
  {
    hide ExecCreate, AdmInv, Journaled;
    if tx.pc.Journal? {
    } else if tx.pc.Begin? {
    } else {
      CreateAnswers(db, held, tx, c);
    }
  }

  lemma AnswerFrame(db: Db, db': Db, tx: Tx)
    requires AnswerOk(db, tx) && Stands(db, db')
    ensures AnswerOk(db', tx)
  {
    assert forall r | r in db.runs :: r in db'.runs.Keys;
  }

  ghost predicate Answers(s: State) {
    forall t | t in s.txs :: AnswerOk(s.db, s.txs[t])
  }

  lemma MoveAnswers(s: State, m: Move)
    requires Inv(s) && AdmInv(s.db) && Answers(s) && Enabled(s, m) && Stands(s.db, Moved(s, m).db)
    ensures Answers(Moved(s, m))
  {
    hide AnswerOk, Exec, DbInv, TxInv, AdmInv, Exclusive, Apply, Stands;
    var s' := Moved(s, m);
    forall u | u in s'.txs
      ensures AnswerOk(s'.db, s'.txs[u])
    {
      if m.Statement? && u == m.t {
        StatementKeeps(s.db, Held(s, u), s.txs[u], m.choice, s'.txs[u]);
        if s.txs[u].job.Create? {
          StatementAnswers(s.db, Held(s, u), s.txs[u], m.choice);
        } else {
          OthersAnswer(s'.db, s'.txs[u]);
        }
      } else if m.Save? && u == m.t {
        RestAnswers(s.db, s.txs[u]);
      } else if m.Open? && u == m.t {
        OpenAnswers(s.db, s'.txs[u]);
      } else {
        AnswerFrame(s.db, s'.db, s.txs[u]);
      }
    }
  }

  lemma OthersAnswer(db: Db, tx: Tx)
    requires !tx.job.Create?
    ensures AnswerOk(db, tx)
  {
  }

  lemma OpenAnswers(db: Db, tx: Tx)
    requires tx.answer.Unanswered?
    ensures AnswerOk(db, tx)
  {
  }

  lemma RestAnswers(db: Db, tx: Tx)
    requires TxInv(db, tx) && AnswerOk(db, tx) && Boundary(tx) && Stands(db, Apply(db, tx.w))
    ensures AnswerOk(Apply(db, tx.w), Rest(tx))
  {
    if tx.job.Create? {
      if tx.job.run in tx.w.decide { BoundaryDecides(db, tx); }
      hide TxInv;
      AnswerFrame(db, Apply(db, tx.w), tx);
      DecideApplies(db, tx.w);
      hide Apply, Stands;
    }
  }

  // A creation that commits half way has not been refused.
  lemma BoundaryDecides(db: Db, tx: Tx)
    requires TxInv(db, tx) && Boundary(tx) && tx.job.Create? && tx.job.run in tx.w.decide
    ensures tx.w.decide[tx.job.run].accepted
  {
    hide Guarded, Says, Logged;
  }

  lemma NoneAsked()
    ensures Answers(INITIAL)
  {
  }

  lemma {:induction false} AlwaysAnswers(ss: seq<State>, ms: seq<Move>, b: nat, k: nat)
    requires Timed(ss, ms, b) && k < |ss|
    ensures Answers(ss[k])
  {
    hide Inv, Enabled, Moved, PromptState, AdmInv, AdmTx, Stands, Answers;
    if k == 0 {
      NoneAsked();
    } else {
      AlwaysAnswers(ss, ms, b, k - 1);
      AlwaysInv(ss, ms, k - 1);
      AlwaysDecided(ss, ms, b, k - 1);
      assert ss[k - 1 + 1] == Moved(ss[k - 1], ms[k - 1]) && Enabled(ss[k - 1], ms[k - 1]);
      MoveStands(ss[k - 1], ms[k - 1], b);
      MoveAnswers(ss[k - 1], ms[k - 1]);
    }
  }

  // Whatever an attempt that commits has answered is the decision on record: two copies
  // of one candidate never answer differently.
  lemma CommittedAnswersAgree(ss: seq<State>, ms: seq<Move>, b: nat, k: nat, t: nat)
    requires Timed(ss, ms, b) && k < |ms| && ms[k] == Save(t) && t in ss[k].txs && ss[k].txs[t].job.Create?
    ensures var tx, decided := ss[k].txs[t], ss[k + 1].db.decided;
            && (tx.answer == Accepted || tx.answer == Replayed(true) ==>
                  tx.job.run in decided && decided[tx.job.run].accepted)
            && (tx.answer == Rejected || tx.answer == Replayed(false) ==>
                  tx.job.run in decided && !decided[tx.job.run].accepted)
            && (tx.answer == Ordinary && tx.job.run.start.Some? ==>
                  tx.job.run in decided && decided[tx.job.run].accepted)
  {
    hide Inv, Committing, AnswerOk, PromptState, AdmInv, AdmTx, Stands;
    assert Enabled(ss[k], ms[k]) && ss[k + 1] == Moved(ss[k], ms[k]);
    AlwaysAnswers(ss, ms, b, k);
    AlwaysInv(ss, ms, k);
    AlwaysDecided(ss, ms, b, k);
    MoveStands(ss[k], ms[k], b);
    hide Timed, Moved;
    AnswersAt(ss[k], t);
    CommitDb(ss[k], t);
  }

  lemma CommitDb(s: State, t: nat)
    requires Enabled(s, Save(t))
    ensures Moved(s, Save(t)).db == Apply(s.db, s.txs[t].w)
  {
  }

  lemma AnswersAt(s: State, t: nat)
    requires AdmInv(s.db) && Answers(s) && Enabled(s, Save(t)) && s.txs[t].job.Create?
    requires Stands(s.db, Moved(s, Save(t)).db)
    ensures var tx, decided := s.txs[t], Apply(s.db, s.txs[t].w).decided;
            && (tx.answer == Accepted || tx.answer == Replayed(true) ==>
                  tx.job.run in decided && decided[tx.job.run].accepted)
            && (tx.answer == Rejected || tx.answer == Replayed(false) ==>
                  tx.job.run in decided && !decided[tx.job.run].accepted)
            && (tx.answer == Ordinary && tx.job.run.start.Some? ==>
                  tx.job.run in decided && decided[tx.job.run].accepted)
  {
    hide Committing, Apply, AdmInv;
    var tx := s.txs[t];
    Commits(tx);
    CommitDb(s, t);
    DecideApplies(s.db, tx.w);
    if tx.job.run.start.Some? && tx.job.run in s.db.runs {
      RunsAreDecided(s.db, tx.job.run);
    }
  }

  lemma RunsAreDecided(db: Db, r: RunId)
    requires AdmInv(db) && r.start.Some? && r in db.runs
    ensures r in db.decided && db.decided[r].accepted
  {
  }

  lemma DecideApplies(db: Db, w: Writes)
    ensures forall r | r in w.decide :: r in Apply(db, w).decided && Apply(db, w).decided[r] == w.decide[r]
  {
  }

  // -------------------------------------------------------------------------
  // An attempt that begins after the decision

  predicate Late(db: Db, tx: Tx) {
    tx.job.Create? && var r := tx.job.run;
    && r in db.decided
    && tx.w.decide == map[]
    && (match tx.answer
        // a resilient start that found the run, and goes on with it
        case Unanswered => tx.pc.AfterCreate? || tx.pc.Journal? || tx.pc.Done? ==> r in db.runs
        case Replayed(accepted) => accepted == db.decided[r].accepted
        case Expired => db.now > r.born + CANDIDATE_MAX_AGE
        case _ => false)
    && (match tx.pc
        case Begin => true
        case First => true
        case Recorded => true
        case CheckAge => db.now > r.born + CANDIDATE_MAX_AGE
        case AfterCreate => true
        case Journal(_) => true
        case Done => true
        case Aborted => true
        case _ => false)
  }

  lemma LateCreate(db: Db, held: set<Key>, tx: Tx, c: Choice)
    requires Late(db, tx) && tx.job.run.start.Some? && ExecCreate(db, held, tx, c).Go?
    requires var r := tx.job.run;
             if r in db.adm then db.adm[r] == db.decided[r] else db.now > r.born + CANDIDATE_MAX_AGE
    requires !tx.pc.Journal? && !tx.pc.Done? && !tx.pc.Aborted? && !tx.pc.Begin?
    ensures Late(db, ExecCreate(db, held, tx, c).tx)
  {
    hide TokenHeld, OwnerRead, Expires, Visible, ExecRelease, PutHook, ExecStart;
    if tx.pc.AfterCreate? && tx.job.resilient {
      StartLate(db, held, tx);
    }
  }

  lemma StartLate(db: Db, held: set<Key>, tx: Tx)
    requires Late(db, tx) && tx.pc.AfterCreate? && ExecStart(db, held, tx).Go?
    ensures Late(db, ExecStart(db, held, tx).tx)
  {
  }

  lemma LateStatement(db: Db, held: set<Key>, tx: Tx, c: Choice)
    requires AdmInv(db) && Late(db, tx) && Exec(db, held, tx, c).Go?
    ensures Late(db, Exec(db, held, tx, c).tx)
  {
    hide Append, ExecCreate;
    assert tx.job.run.start.Some?;
    if tx.pc.Journal? {
      AppendLate(db, held, tx);
    } else if !tx.pc.Begin? {
      LateCreate(db, held, tx, c);
    }
  }

  lemma AppendLate(db: Db, held: set<Key>, tx: Tx)
    requires Late(db, tx) && tx.pc.Journal?
    ensures var o := Append(db, held, tx, RunOf(tx.job), tx.pc.ev, Done); o.Go? ==> Late(db, o.tx)
  {
    hide Journaled;
  }

  lemma LateFrame(db: Db, db': Db, tx: Tx)
    requires Late(db, tx) && Stands(db, db')
    ensures Late(db', tx)
    ensures Late(db', Rest(tx))
  {
  }

  lemma MoveLate(s: State, m: Move, t: nat)
    requires AdmInv(s.db) && Enabled(s, m) && t in s.txs && Late(s.db, s.txs[t]) && t in Moved(s, m).txs
    requires Stands(s.db, Moved(s, m).db)
    ensures Late(Moved(s, m).db, Moved(s, m).txs[t])
  {
    hide Late, Exec, AdmInv, Stands, Committing;
    var s' := Moved(s, m);
    if m.Statement? && t == m.t {
      LateStatement(s.db, Held(s, t), s.txs[t], m.choice);
    } else {
      LateFrame(s.db, s'.db, s.txs[t]);
    }
  }

  lemma {:induction false} AlwaysLate(ss: seq<State>, ms: seq<Move>, b: nat, i: nat, k: nat, t: nat)
    requires Timed(ss, ms, b) && i < k < |ss|
    requires ms[i].Open? && ms[i].t == t && ms[i].job.Create? && ms[i].job.run in ss[i].db.decided
    requires forall j | i < j <= k :: t in ss[j].txs
    ensures Late(ss[k].db, ss[k].txs[t]) && ss[k].txs[t].job == ms[i].job
    decreases k
  {
    hide Inv, Exec, PromptState, AdmInv, AdmTx, Stands;
    assert Enabled(ss[k - 1], ms[k - 1]) && ss[k - 1 + 1] == Moved(ss[k - 1], ms[k - 1]);
    AlwaysInv(ss, ms, k - 1);
    AlwaysDecided(ss, ms, b, k - 1);
    if i < k - 1 {
      AlwaysLate(ss, ms, b, i, k - 1, t);
      MoveStands(ss[k - 1], ms[k - 1], b);
      MoveLate(ss[k - 1], ms[k - 1], t);
      SameJob(ss[k - 1], ms[k - 1], t);
    }
  }

  lemma SameJob(s: State, m: Move, t: nat)
    requires Inv(s) && Enabled(s, m) && t in s.txs && t in Moved(s, m).txs
    ensures Moved(s, m).txs[t].job == s.txs[t].job
  {
    hide Exec, DbInv, TxInv, Exclusive, Committing;
    if m.Statement? && t == m.t {
      StatementKeeps(s.db, Held(s, t), s.txs[t], m.choice, Moved(s, m).txs[t]);
    }
  }

  // An attempt begun after the decision committed never decides. It answers with that
  // decision, whichever copy and however late, or finds the candidate too old to admit; one
  // that commits without an answer found the run, so the candidate had been accepted.
  lemma LateAttemptReplays(ss: seq<State>, ms: seq<Move>, b: nat, i: nat, k: nat, t: nat)
    requires Timed(ss, ms, b) && i < k < |ss|
    requires ms[i].Open? && ms[i].t == t && ms[i].job.Create? && ms[i].job.run in ss[i].db.decided
    requires forall j | i < j <= k :: t in ss[j].txs
    ensures var tx, r := ss[k].txs[t], ms[i].job.run;
            && tx.w.decide == map[]
            && (|| (tx.answer == Unanswered && (Committing(tx) ==> ss[i].db.decided[r].accepted))
                || tx.answer == Replayed(ss[i].db.decided[r].accepted)
                || (tx.answer == Expired && ss[k].db.now > r.born + CANDIDATE_MAX_AGE))
  {
    AlwaysLate(ss, ms, b, i, k, t);
    LaterDecided(ss, ms, b, i, k);
    AlwaysDecided(ss, ms, b, k);
    hide Timed, AdmInv, AdmTx;
    DecidedAt(ss[k].db, ms[i].job.run);
    LateCommits(ss[k].db, ss[k].txs[t]);
  }

  lemma LateCommits(db: Db, tx: Tx)
    requires Late(db, tx)
    ensures tx.answer == Unanswered && Committing(tx) ==> tx.job.run in db.runs
  {
  }
}
