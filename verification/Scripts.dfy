/**
 Writing down particular histories: one lemma per statement, for any database it can run
 on, and the steps that put them together. A history under construction keeps track of what
 is wanted of it: how long attempts stay open, and how a candidate is decided.
 */
module Scripts {
  import opened Options
  import opened EventLog
  import opened Database
  import opened Protocol
  import opened Histories
  import opened Decisions

  // -------------------------------------------------------------------------
  // Histories under construction

  // The decisions of candidate `r` that the first `n` moves commit, in order.
  ghost function Verdicts(ss: seq<State>, ms: seq<Move>, r: RunId, n: nat): seq<bool>
    requires n <= |ms| < |ss|
  {
    if n == 0 then [] else Then(Verdicts(ss, ms, r, n - 1), Verdict(ss[n - 1], ms[n - 1], r))
  }

  ghost function Verdict(s: State, m: Move, r: RunId): Option<bool> {
    if m.Save? && m.t in s.txs then VerdictOf(s.txs[m.t].w, r) else None
  }

  function VerdictOf(w: Writes, r: RunId): Option<bool> {
    if r in w.decide then Some(w.decide[r].accepted) else None
  }

  function Then(vs: seq<bool>, v: Option<bool>): seq<bool> {
    if v.Some? then vs + [v.value] else vs
  }

  datatype Goal = Goal(bound: nat, candidate: RunId)

  ghost predicate Leads(ss: seq<State>, ms: seq<Move>, s: State, g: Goal, vs: seq<bool>) {
    && History(ss, ms) && ss[|ms|] == s && Prompt(ss, g.bound)
    && Verdicts(ss, ms, g.candidate, |ms|) == vs
  }

  ghost predicate Reached(s: State, g: Goal, vs: seq<bool>) {
    exists ss: seq<State>, ms: seq<Move> :: Leads(ss, ms, s, g, vs)
  }

  ghost predicate Reachable(s: State) {
    exists ss: seq<State>, ms: seq<Move> :: History(ss, ms) && ss[|ms|] == s
  }

  lemma ReachedIsReachable(s: State, g: Goal, vs: seq<bool>)
    requires Reached(s, g, vs)
    ensures Reachable(s)
  {
    var ss, ms :| Leads(ss, ms, s, g, vs);
  }

  lemma ReachInitial(g: Goal)
    ensures Reached(INITIAL, g, [])
  {
    var ss: seq<State>, ms: seq<Move> := [INITIAL], [];
    assert Leads(ss, ms, INITIAL, g, []);
  }

  lemma {:induction false} SameVerdicts(ss: seq<State>, ms: seq<Move>, ss': seq<State>, ms': seq<Move>, r: RunId, n: nat)
    requires n <= |ms| < |ss| && |ms| <= |ms'| < |ss'|
    requires forall i | 0 <= i < n :: ss'[i] == ss[i] && ms'[i] == ms[i]
    ensures Verdicts(ss', ms', r, n) == Verdicts(ss, ms, r, n)
  {
    if n > 0 {
      SameVerdicts(ss, ms, ss', ms', r, n - 1);
    }
  }

  lemma Longer(ss: seq<State>, ms: seq<Move>, s: State, m: Move)
    requires History(ss, ms) && ss[|ms|] == s && Enabled(s, m)
    ensures History(ss + [Moved(s, m)], ms + [m])
  {
    hide Enabled, Moved;
    var ss', ms' := ss + [Moved(s, m)], ms + [m];
    forall i | 0 <= i < |ms'|
      ensures Enabled(ss'[i], ms'[i]) && ss'[i + 1] == Moved(ss'[i], ms'[i])
    {
      if i < |ms| {
        assert Enabled(ss[i], ms[i]) && ss[i + 1] == Moved(ss[i], ms[i]);
      }
    }
  }

  lemma Reach(s: State, g: Goal, vs: seq<bool>, m: Move)
    requires Reached(s, g, vs) && Enabled(s, m) && PromptState(Moved(s, m), g.bound)
    ensures Reached(Moved(s, m), g, Then(vs, Verdict(s, m, g.candidate)))
  {
    hide Enabled, Moved, PromptState, Verdict, History;
    var ss, ms :| Leads(ss, ms, s, g, vs);
    assert |ss| == |ms| + 1 by { Sizes(ss, ms); }
    var ss', ms' := ss + [Moved(s, m)], ms + [m];
    Longer(ss, ms, s, m);
    SameVerdicts(ss, ms, ss', ms', g.candidate, |ms|);
    assert ss'[|ms|] == s && ms'[|ms|] == m && ss'[|ms'|] == Moved(s, m);
    assert Prompt(ss', g.bound) by {
      forall k | 0 <= k < |ss'| ensures PromptState(ss'[k], g.bound) { if k < |ss| { assert ss'[k] == ss[k]; } }
    }
    assert Leads(ss', ms', Moved(s, m), g, Then(vs, Verdict(s, m, g.candidate)));
  }

  lemma Sizes(ss: seq<State>, ms: seq<Move>)
    requires History(ss, ms)
    ensures |ss| == |ms| + 1
  {
  }

  // -------------------------------------------------------------------------
  // One request among others that hold no lock

  function With(s: State, t: nat, tx: Tx): State {
    s.(txs := s.txs[t := tx])
  }

  ghost predicate Unlocked(s: State, t: nat) {
    forall u | u in s.txs && u != t :: s.txs[u].locks == {}
  }

  // Nothing has been open for longer than the bound.
  ghost predicate Brisk(s: State, b: nat) {
    forall u | u in s.txs :: s.db.now <= s.txs[u].began + b
  }

  lemma BriskIsPrompt(s: State, b: nat)
    requires Brisk(s, b)
    ensures PromptState(s, b)
  {
  }

  lemma Opens(s: State, g: Goal, vs: seq<bool>, t: nat, job: Job)
    requires Reached(s, g, vs) && t !in s.txs && Brisk(s, g.bound) && Issued(s.db, job)
    ensures Reached(With(s, t, Opened(s.db, job, None)), g, vs)
  {
    hide Reached;
    BriskIsPrompt(With(s, t, Opened(s.db, job, None)), g.bound);
    Reach(s, g, vs, Open(t, job, None));
  }

  lemma Takes(s: State, g: Goal, vs: seq<bool>, t: nat, tx: Tx, c: Choice, tx': Tx)
    requires Reached(With(s, t, tx), g, vs) && Unlocked(s, t) && Brisk(With(s, t, tx), g.bound)
    requires Exec(s.db, {}, tx, c) == Go(tx') && tx'.began == tx.began
    ensures Reached(With(s, t, tx'), g, vs) && Brisk(With(s, t, tx'), g.bound)
  {
    hide Exec, Reached;
    var w := With(s, t, tx);
    assert Held(w, t) == {};
    assert With(w, t, tx') == With(s, t, tx');
    assert Brisk(With(s, t, tx'), g.bound) by {
      forall u | u in With(s, t, tx').txs ensures s.db.now <= With(s, t, tx').txs[u].began + g.bound { assert u in w.txs; }
    }
    BriskIsPrompt(With(s, t, tx'), g.bound);
    Reach(w, g, vs, Statement(t, c));
  }

  lemma Saves(s: State, g: Goal, vs: seq<bool>, t: nat, tx: Tx)
    requires Reached(With(s, t, tx), g, vs) && t !in s.txs && tx.pc.Done? && Brisk(s, g.bound)
    ensures Reached(State(Apply(s.db, tx.w), s.txs), g, Then(vs, VerdictOf(tx.w, g.candidate)))
  {
    hide Reached;
    var w := With(s, t, tx);
    assert w.txs - {t} == s.txs;
    BriskIsPrompt(State(Apply(s.db, tx.w), s.txs), g.bound);
    Reach(w, g, vs, Save(t));
  }

  // The clock moves on.
  function AtTime(s: State, now: nat): State {
    s.(db := s.db.(now := now))
  }

  lemma {:induction false} Waits(s: State, g: Goal, vs: seq<bool>, now: nat)
    requires Reached(s, g, vs) && s.db.now <= now && Brisk(AtTime(s, now), g.bound)
    ensures Reached(AtTime(s, now), g, vs)
    decreases now
  {
    hide Reached;
    if s.db.now == now {
      assert AtTime(s, now) == s;
    } else {
      Waits(s, g, vs, now - 1);
      BriskIsPrompt(AtTime(s, now), g.bound);
      Reach(AtTime(s, now - 1), g, vs, Tick);
      assert Moved(AtTime(s, now - 1), Tick) == AtTime(s, now);
    }
  }

  // -------------------------------------------------------------------------
  // The statements of an attempt

  const ANY := Choice(None, false, {}, 0)

  function Attempt(r: RunId, began: nat, pc: Pc): Tx {
    Tx(Create(r, false, SINGLE_ORCHESTRATOR_SPEC), pc, None, false, began, Unanswered, NOTHING, {})
  }

  lemma AtBegin(db: Db, tx: Tx)
    requires tx.pc.Begin? && tx.fence.None?
    ensures Exec(db, {}, tx, ANY) == Go(tx.(pc := First))
  {
  }

  lemma AtFirst(db: Db, tx: Tx)
    requires tx.pc.First? && OfCandidate(tx) && !tx.job.resilient
    ensures Exec(db, {}, tx, ANY) == Go(tx.(pc := Recorded))
  {
    hide ExecAdmission;
  }

  lemma AtRecorded(db: Db, tx: Tx)
    requires tx.pc.Recorded? && OfCandidate(tx) && tx.job.run !in db.adm
    ensures Exec(db, {}, tx, ANY) == Go(tx.(pc := CheckAge))
  {
  }

  lemma AtCheckAge(db: Db, tx: Tx)
    requires tx.pc.CheckAge? && OfCandidate(tx) && db.now <= tx.job.run.born + CANDIDATE_MAX_AGE
    ensures Exec(db, {}, tx, ANY) == Go(tx.(pc := CheckRun))
  {
  }

  lemma AtCheckRun(db: Db, tx: Tx)
    requires tx.pc.CheckRun? && OfCandidate(tx) && tx.job.run !in db.runs
    ensures Exec(db, {}, tx, ANY) == Go(tx.(pc := ForgetOld))
  {
  }

  lemma AtForgetOld(db: Db, tx: Tx, batch: set<RunId>)
    requires tx.pc.ForgetOld? && OfCandidate(tx) && |batch| <= FORGET_BATCH
    requires forall q | q in batch :: q in db.adm && Expires(db, q)
    ensures Exec(db, {}, tx, ANY.(batch := batch))
            == Go(tx.(pc := ReleaseToken, locks := tx.locks + (set q | q in batch :: Admission(q)),
                      w := tx.w.(forget := tx.w.forget + batch)))
  {
    hide Expires;
  }

  lemma AtReleaseToken(db: Db, tx: Tx)
    requires tx.pc.ReleaseToken? && OfCandidate(tx)
    ensures Exec(db, {}, tx, ANY) == Go(tx.(pc := FindOwner))
  {
  }

  lemma AtFindOwner(db: Db, tx: Tx)
    requires tx.pc.FindOwner? && OfCandidate(tx)
    requires forall h | h in Visible(db, tx.w) :: Visible(db, tx.w)[h] != tx.job.run.start.value
    ensures Exec(db, {}, tx, ANY) == Go(tx.(pc := ClaimToken))
  {
    hide Visible;
  }

  lemma AtFindOwnerTaken(db: Db, tx: Tx, h: HookId)
    requires tx.pc.FindOwner? && OfCandidate(tx) && h.run != tx.job.run
    requires h in Visible(db, tx.w) && Visible(db, tx.w)[h] == tx.job.run.start.value
    ensures Exec(db, {}, tx, ANY.(row := Some(h))) == Go(tx.(pc := LostToken(true)))
  {
    hide Visible;
  }

  lemma AtLostToken(db: Db, tx: Tx)
    requires tx.pc == LostToken(true) && OfCandidate(tx) && tx.job.run !in db.adm
    ensures Exec(db, {}, tx, ANY) == Go(tx.(pc := RecordRefusal))
  {
  }

  lemma AtRecordRefusal(db: Db, tx: Tx, at: nat)
    requires tx.pc.RecordRefusal? && OfCandidate(tx) && tx.job.run !in db.adm && tx.fence.None?
    requires tx.began <= at <= db.now
    ensures Exec(db, {}, tx, ANY.(at := at))
            == Go(tx.(pc := Done, answer := Rejected, locks := tx.locks + {Admission(tx.job.run)},
                      w := tx.w.(decide := tx.w.decide[tx.job.run := Decision(false, at)])))
  {
  }

  lemma AtClaimToken(db: Db, tx: Tx)
    requires tx.pc.ClaimToken? && OfCandidate(tx) && StartHook(tx.job.run) !in Visible(db, tx.w)
    requires forall h | h in Visible(db, tx.w) :: Visible(db, tx.w)[h] != tx.job.run.start.value
    ensures Exec(db, {}, tx, ANY) == PutHook(tx, StartHook(tx.job.run), tx.job.run.start.value, RecordAcceptance)
  {
    hide Visible, PutHook;
  }

  lemma AtRecordAcceptance(db: Db, tx: Tx, at: nat)
    requires tx.pc.RecordAcceptance? && OfCandidate(tx) && (tx.job.run !in db.adm || tx.job.run in tx.w.forget)
    requires tx.began <= at <= db.now
    ensures Exec(db, {}, tx, ANY.(at := at))
            == Go(tx.(pc := InsertRun, answer := Accepted, locks := tx.locks + {Admission(tx.job.run)},
                      w := tx.w.(decide := tx.w.decide[tx.job.run := Decision(true, at)])))
  {
  }

  lemma AtRecordReplay(db: Db, tx: Tx)
    requires tx.pc.RecordAcceptance? && OfCandidate(tx) && tx.job.run in db.adm && tx.job.run !in tx.w.forget
    requires db.adm[tx.job.run].accepted
    ensures Exec(db, {}, tx, ANY) == Go(tx.(pc := AfterCreate, answer := Replayed(true)))
  {
  }

  lemma AtInsertRun(db: Db, tx: Tx)
    requires tx.pc.InsertRun? && tx.job.Create? && tx.job.run !in db.runs
    ensures Exec(db, {}, tx, ANY)
            == Go(tx.(pc := OpenSlots, locks := tx.locks + {Row(tx.job.run)},
                      w := tx.w.(runs := tx.w.runs[tx.job.run := RunRow(Status.Pending, tx.job.spec)])))
  {
    hide ExecAdmission;
  }

  lemma AtOpenSlots(db: Db, tx: Tx)
    requires tx.pc.OpenSlots? && OfCandidate(tx) && tx.job.run !in db.seqs
    ensures var r := tx.job.run;
            Exec(db, {}, tx, ANY)
            == Go(tx.(pc := AfterCreate, locks := tx.locks + {Fence(r), Tail(r)},
                      w := Push(tx.w, r, Entry(RunCreated(Some(StartHook(r))), None)).(seqs := tx.w.seqs[r := 1])))
  {
    hide ExecAdmission, Push;
  }

  lemma AtAfterCreate(db: Db, tx: Tx)
    requires tx.pc.AfterCreate? && tx.job.Create? && !tx.job.resilient
    ensures Exec(db, {}, tx, ANY) == Go(tx.(pc := Done))
  {
    hide ExecAdmission, ExecStart;
  }

  // -------------------------------------------------------------------------
  // Disposal and delivery

  lemma AtDisposeFirst(db: Db, tx: Tx)
    requires tx.pc.First? && tx.job.Dispose? && tx.job.hook in db.hooks
    ensures Exec(db, {}, tx, ANY) == Go(tx.(pc := DeleteRow))
  {
  }

  lemma AtDeleteRow(db: Db, tx: Tx)
    requires tx.pc.DeleteRow? && tx.job.Dispose? && tx.job.hook in db.hooks
    ensures var h := tx.job.hook;
            Exec(db, {}, tx, ANY)
            == Go(tx.(pc := Journal(HookDisposed(h, None)), locks := tx.locks + {HookRow(h), Claims(db.hooks[h])},
                      w := tx.w.(del := tx.w.del + {h})))
  {
  }

  lemma AtReceiveFirst(db: Db, tx: Tx)
    requires tx.pc.First? && tx.job.Receive? && tx.job.hook in db.hooks
    ensures Exec(db, {}, tx, ANY) == Go(tx.(pc := LockOwner))
  {
  }

  lemma AtLockOwner(db: Db, tx: Tx)
    requires tx.pc.LockOwner? && tx.job.Receive? && tx.job.hook.run in db.runs
    requires !db.runs[tx.job.hook.run].status.Terminal()
    ensures Exec(db, {}, tx, ANY) == Go(tx.(pc := LockDelivered, locks := tx.locks + {Row(tx.job.hook.run)}))
  {
  }

  lemma AtLockDelivered(db: Db, tx: Tx)
    requires tx.pc.LockDelivered? && tx.job.Receive? && tx.job.hook in db.hooks
    ensures var h := tx.job.hook;
            Exec(db, {}, tx, ANY) == Go(tx.(pc := Journal(HookReceived(h)), locks := tx.locks + {HookRow(h)}))
  {
  }

  lemma AtJournal(db: Db, tx: Tx)
    requires tx.pc.Journal? && tx.fence.None? && RunOf(tx.job) in db.seqs
    requires tx.pc.ev.HookDisposed? || tx.pc.ev.HookReceived?
    ensures var r := RunOf(tx.job);
            Exec(db, {}, tx, ANY)
            == Go(tx.(pc := Done, locks := tx.locks + {Tail(r)}, w := Push(tx.w, r, Entry(tx.pc.ev, None))))
  {
    NotDeduplicated(LogOf(db, RunOf(tx.job)) + Unsaved(tx.w, RunOf(tx.job)), tx.pc.ev);
    hide Journaled, Push, ExecJob;
  }

  lemma NotDeduplicated(log: Log, ev: Event)
    requires !ev.HookCreated? && !ev.StepCreated?
    ensures !Journaled(log, ev)
  {
  }

  // -------------------------------------------------------------------------
  // Whole requests

  // A copy looks: it is not decided, not too old, and has no run.
  lemma Looks(s: State, g: Goal, vs: seq<bool>, t: nat, r: RunId)
    requires Reached(s, g, vs) && t !in s.txs && Unlocked(s, t) && Brisk(s, g.bound)
    requires r.start.Some? && r.born <= s.db.now + CLOCK_SLACK && s.db.now <= r.born + CANDIDATE_MAX_AGE
    requires r !in s.db.adm && r !in s.db.runs
    ensures Reached(With(s, t, Attempt(r, s.db.now, ForgetOld)), g, vs)
  {
    hide Reached, Exec;
    var db, began := s.db, s.db.now;
    Opens(s, g, vs, t, Create(r, false, SINGLE_ORCHESTRATOR_SPEC));
    AtBegin(db, Attempt(r, began, Begin));
    Takes(s, g, vs, t, Attempt(r, began, Begin), ANY, Attempt(r, began, First));
    AtFirst(db, Attempt(r, began, First));
    Takes(s, g, vs, t, Attempt(r, began, First), ANY, Attempt(r, began, Recorded));
    AtRecorded(db, Attempt(r, began, Recorded));
    Takes(s, g, vs, t, Attempt(r, began, Recorded), ANY, Attempt(r, began, CheckAge));
    AtCheckAge(db, Attempt(r, began, CheckAge));
    Takes(s, g, vs, t, Attempt(r, began, CheckAge), ANY, Attempt(r, began, CheckRun));
    AtCheckRun(db, Attempt(r, began, CheckRun));
    Takes(s, g, vs, t, Attempt(r, began, CheckRun), ANY, Attempt(r, began, ForgetOld));
  }

  // It deletes what has expired and goes on to the token.
  lemma Forgets(s: State, g: Goal, vs: seq<bool>, t: nat, tx: Tx, batch: set<RunId>) returns (tx': Tx)
    requires Reached(With(s, t, tx), g, vs) && Unlocked(s, t) && Brisk(With(s, t, tx), g.bound)
    requires tx.pc.ForgetOld? && OfCandidate(tx) && |batch| <= FORGET_BATCH
    requires forall q | q in batch :: q in s.db.adm && Expires(s.db, q)
    ensures Reached(With(s, t, tx'), g, vs) && Brisk(With(s, t, tx'), g.bound)
    ensures tx' == tx.(pc := FindOwner, locks := tx'.locks, w := tx.w.(forget := tx.w.forget + batch))
    ensures batch == {} ==> tx'.locks == tx.locks
  {
    hide Reached, Exec, Expires;
    var a := tx.(pc := ReleaseToken, locks := tx.locks + (set q | q in batch :: Admission(q)),
                 w := tx.w.(forget := tx.w.forget + batch));
    AtForgetOld(s.db, tx, batch);
    Takes(s, g, vs, t, tx, ANY.(batch := batch), a);
    tx' := a.(pc := FindOwner);
    AtReleaseToken(s.db, a);
    Takes(s, g, vs, t, a, ANY, tx');
  }

  // The token is free: it claims it.
  lemma ClaimsToken(s: State, g: Goal, vs: seq<bool>, t: nat, tx: Tx) returns (tx': Tx)
    requires Reached(With(s, t, tx), g, vs) && Unlocked(s, t) && Brisk(With(s, t, tx), g.bound)
    requires tx.pc.ClaimToken? && OfCandidate(tx) && StartHook(tx.job.run) !in Visible(s.db, tx.w)
    requires forall h | h in Visible(s.db, tx.w) :: Visible(s.db, tx.w)[h] != tx.job.run.start.value
    ensures Reached(With(s, t, tx'), g, vs) && Brisk(With(s, t, tx'), g.bound)
    ensures tx' == tx.(pc := RecordAcceptance, locks := tx'.locks,
                       w := tx.w.(put := tx.w.put[StartHook(tx.job.run) := tx.job.run.start.value]))
  {
    hide Reached, Exec, Visible;
    AtClaimToken(s.db, tx);
    tx' := PutHook(tx, StartHook(tx.job.run), tx.job.run.start.value, RecordAcceptance).tx;
    Takes(s, g, vs, t, tx, ANY, tx');
  }

  // It is accepted and creates its run.
  lemma IsAccepted(s: State, g: Goal, vs: seq<bool>, t: nat, tx: Tx, at: nat) returns (tx': Tx)
    requires Reached(With(s, t, tx), g, vs) && Unlocked(s, t) && Brisk(With(s, t, tx), g.bound)
    requires tx.pc.RecordAcceptance? && OfCandidate(tx) && !tx.job.resilient && tx.began <= at <= s.db.now
    requires tx.job.run !in s.db.adm || tx.job.run in tx.w.forget
    requires tx.job.run !in s.db.runs && tx.job.run !in s.db.seqs && tx.w.log == map[] && tx.w.births == []
    ensures Reached(With(s, t, tx'), g, vs) && tx'.pc.Done?
    ensures var r := tx.job.run;
            tx'.w == tx.w.(decide := tx.w.decide[r := Decision(true, at)],
                           runs := tx.w.runs[r := RunRow(Status.Pending, tx.job.spec)],
                           log := map[r := [Entry(RunCreated(Some(StartHook(r))), None)]],
                           births := [StartHook(r)], seqs := tx.w.seqs[r := 1])
  {
    hide Reached, Exec;
    var db, r := s.db, tx.job.run;
    var a := tx.(pc := InsertRun, answer := Accepted, locks := tx.locks + {Admission(r)},
                 w := tx.w.(decide := tx.w.decide[r := Decision(true, at)]));
    AtRecordAcceptance(db, tx, at);
    Takes(s, g, vs, t, tx, ANY.(at := at), a);
    var b := a.(pc := OpenSlots, locks := a.locks + {Row(r)},
                w := a.w.(runs := a.w.runs[r := RunRow(Status.Pending, tx.job.spec)]));
    AtInsertRun(db, a);
    Takes(s, g, vs, t, a, ANY, b);
    var e := Entry(RunCreated(Some(StartHook(r))), None);
    var c := b.(pc := AfterCreate, locks := b.locks + {Fence(r), Tail(r)},
                w := Push(b.w, r, e).(seqs := b.w.seqs[r := 1]));
    AtOpenSlots(db, b);
    Takes(s, g, vs, t, b, ANY, c);
    tx' := c.(pc := Done);
    AtAfterCreate(db, c);
    Takes(s, g, vs, t, c, ANY, tx');
    assert [] + [e] == [e];
  }

  // A Hook is disposed by its run.
  lemma DisposesHook(s: State, g: Goal, vs: seq<bool>, t: nat, h: HookId) returns (w: Writes)
    requires Reached(s, g, vs) && t !in s.txs && Unlocked(s, t) && Brisk(s, g.bound)
    requires h in s.db.hooks && h.run in s.db.seqs
    ensures w == NOTHING.(del := {h}, log := map[h.run := [Entry(HookDisposed(h, None), None)]])
    ensures Reached(State(Apply(s.db, w), s.txs), g, vs)
  {
    hide Reached, Exec, Apply;
    var db := s.db;
    var a := Opened(db, Dispose(h), None);
    Opens(s, g, vs, t, Dispose(h));
    AtBegin(db, a);
    Takes(s, g, vs, t, a, ANY, a.(pc := First));
    AtDisposeFirst(db, a.(pc := First));
    Takes(s, g, vs, t, a.(pc := First), ANY, a.(pc := DeleteRow));
    AtDeleteRow(db, a.(pc := DeleteRow));
    var b := a.(pc := Journal(HookDisposed(h, None)), locks := a.locks + {HookRow(h), Claims(db.hooks[h])},
                w := a.w.(del := a.w.del + {h}));
    Takes(s, g, vs, t, a.(pc := DeleteRow), ANY, b);
    AtJournal(db, b);
    var e := Entry(HookDisposed(h, None), None);
    var c := b.(pc := Done, locks := b.locks + {Tail(h.run)}, w := Push(b.w, h.run, e));
    Takes(s, g, vs, t, b, ANY, c);
    assert [] + [e] == [e];
    w := c.w;
    Saves(s, g, vs, t, c);
  }

  // A Hook is delivered to.
  lemma DeliversTo(s: State, g: Goal, vs: seq<bool>, t: nat, h: HookId) returns (w: Writes)
    requires Reached(s, g, vs) && t !in s.txs && Unlocked(s, t) && Brisk(s, g.bound)
    requires h in s.db.hooks && h.run in s.db.seqs && h.run in s.db.runs && !s.db.runs[h.run].status.Terminal()
    ensures w == NOTHING.(log := map[h.run := [Entry(HookReceived(h), None)]])
    ensures Reached(State(Apply(s.db, w), s.txs), g, vs)
  {
    hide Reached, Exec, Apply;
    var db := s.db;
    var a := Opened(db, Receive(h), None);
    Opens(s, g, vs, t, Receive(h));
    AtBegin(db, a);
    Takes(s, g, vs, t, a, ANY, a.(pc := First));
    AtReceiveFirst(db, a.(pc := First));
    Takes(s, g, vs, t, a.(pc := First), ANY, a.(pc := LockOwner));
    AtLockOwner(db, a.(pc := LockOwner));
    var b := a.(pc := LockDelivered, locks := a.locks + {Row(h.run)});
    Takes(s, g, vs, t, a.(pc := LockOwner), ANY, b);
    AtLockDelivered(db, b);
    var c := b.(pc := Journal(HookReceived(h)), locks := b.locks + {HookRow(h)});
    Takes(s, g, vs, t, b, ANY, c);
    AtJournal(db, c);
    var e := Entry(HookReceived(h), None);
    var d := c.(pc := Done, locks := c.locks + {Tail(h.run)}, w := Push(c.w, h.run, e));
    Takes(s, g, vs, t, c, ANY, d);
    assert [] + [e] == [e];
    w := d.w;
    Saves(s, g, vs, t, d);
  }
}
