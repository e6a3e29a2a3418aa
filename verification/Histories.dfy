/**
 Whole histories: what holds in every state that any interleaving of requests, commits,
 rollbacks and clock ticks can reach, and between any two of its states.
 */
module Histories {
  import opened EventLog
  import opened Database
  import opened Protocol
  import opened Invariant
  import opened Shapes
  import opened World
  import opened Safety
  import opened Journals

  ghost predicate History(ss: seq<State>, ms: seq<Move>) {
    && |ss| == |ms| + 1
    && ss[0] == INITIAL
    && forall i | 0 <= i < |ms| :: Enabled(ss[i], ms[i]) && ss[i + 1] == Moved(ss[i], ms[i])
  }

  lemma InitialInv()
    ensures Inv(INITIAL)
  {
    assert forall h: HookId :: Hook(EMPTY_DB, h) == Absent;
    assert forall x: StepId :: Step(EMPTY_DB, x) == FRESH_STEP;
  }

  lemma {:induction false} AlwaysInv(ss: seq<State>, ms: seq<Move>, k: nat)
    requires History(ss, ms) && k < |ss|
    ensures Inv(ss[k])
  {
    hide Inv, Enabled, Moved;
    if k == 0 {
      InitialInv();
    } else {
      AlwaysInv(ss, ms, k - 1);
      MoveInv(ss[k - 1], ms[k - 1]);
      assert ss[k - 1 + 1] == Moved(ss[k - 1], ms[k - 1]);
    }
  }

  lemma {:induction false} AlwaysTidy(ss: seq<State>, ms: seq<Move>, k: nat)
    requires History(ss, ms) && k < |ss|
    ensures Tidy(ss[k])
  {
    hide Enabled, Moved;
    if k > 0 {
      AlwaysTidy(ss, ms, k - 1);
      MoveTidy(ss[k - 1], ms[k - 1]);
      assert ss[k - 1 + 1] == Moved(ss[k - 1], ms[k - 1]);
    }
  }

  // -------------------------------------------------------------------------
  // Between two states

  // Logs only grow at their end, a terminal step stays terminal.
  ghost predicate Grown(db: Db, db': Db) {
    && db.runs.Keys <= db'.runs.Keys
    && (forall r | r in db.log :: r in db'.log && db.log[r] <= db'.log[r])
    && (forall s | s in db.steps ::
          s in db'.steps && (db.steps[s].status.Terminal() ==> db'.steps[s].status.Terminal()))
  }

  lemma MoveGrows(s: State, m: Move)
    requires Inv(s) && Enabled(s, m)
    ensures Grown(s.db, Moved(s, m).db)
  {
    hide DbInv, TxInv, Exec, Ready, Apply;
    if m.Save? {
      AllReady(s.db, s.txs[m.t]);
      Runs(s.db);
      CommitRely(s.db, s.txs[m.t], {});
    }
  }

  lemma Runs(db: Db)
    requires DbInv(db)
    ensures RunsInv(db)
  {
  }

  lemma {:induction false} LaterGrown(ss: seq<State>, ms: seq<Move>, i: nat, k: nat)
    requires History(ss, ms) && i <= k < |ss|
    ensures Grown(ss[i].db, ss[k].db)
    decreases k
  {
    hide Inv, Enabled, Moved;
    if i < k {
      LaterGrown(ss, ms, i, k - 1);
      AlwaysInv(ss, ms, k - 1);
      MoveGrows(ss[k - 1], ms[k - 1]);
      assert ss[k - 1 + 1] == Moved(ss[k - 1], ms[k - 1]);
    }
  }

  // -------------------------------------------------------------------------
  // The creation of a run

  lemma CreatedOnceFirst(ss: seq<State>, ms: seq<Move>, k: nat, r: RunId)
    requires History(ss, ms) && k < |ss|
    ensures r in ss[k].db.runs <==> r in ss[k].db.log
    ensures r in ss[k].db.log ==>
              var log := ss[k].db.log[r];
              |log| > 0 && forall i | 0 <= i < |log| :: log[i].ev.RunCreated? <==> i == 0
  {
    AlwaysInv(ss, ms, k);
    if r in ss[k].db.log {
      assert WellBegun(r, ss[k].db.log[r]);
    }
  }

  // -------------------------------------------------------------------------
  // Steps

  // Starts are counted, a terminal event ends them, and one start at most created it.
  lemma StepLogOrder(ss: seq<State>, ms: seq<Move>, k: nat, x: StepId)
    requires History(ss, ms) && k < |ss|
    ensures StepOrder(LogOf(ss[k].db, x.run), x)
    ensures x in ss[k].db.steps ==> ss[k].db.steps[x].attempt == Starts(LogOf(ss[k].db, x.run), x)
    ensures forall i | 0 <= i < |LogOf(ss[k].db, x.run)| && LogOf(ss[k].db, x.run)[i].ev == StepEnded(x) ::
              x in ss[k].db.steps && ss[k].db.steps[x].status.Terminal()
  {
    AlwaysInv(ss, ms, k);
    hide History, StepOrder, Starts;
    StepFacts(ss[k].db, x);
  }

  lemma StepFacts(db: Db, x: StepId)
    requires StepInv(db)
    ensures StepOrder(LogOf(db, x.run), x)
    ensures x in db.steps ==> db.steps[x].attempt == Starts(LogOf(db, x.run), x)
    ensures forall i | 0 <= i < |LogOf(db, x.run)| && LogOf(db, x.run)[i].ev == StepEnded(x) ::
              x in db.steps && db.steps[x].status.Terminal()
  {
    var log := LogOf(db, x.run);
    assert StepFits(Step(db, x), RowOf(db, x));
    hide StepOrder;
    StepOrderHolds(log, x);
    StartsCounted(log, x);
    forall i | 0 <= i < |log| && log[i].ev == StepEnded(x)
      ensures x in db.steps && db.steps[x].status.Terminal()
    {
      StepAt(log, i, x);
      StepStays(log, i + 1, x);
    }
  }

  // The row of a terminal step is never written again.
  lemma MoveFreezes(s: State, m: Move, x: StepId)
    requires Inv(s) && Enabled(s, m)
    requires x in s.db.steps && s.db.steps[x].status.Terminal()
    ensures x in Moved(s, m).db.steps && Moved(s, m).db.steps[x] == s.db.steps[x]
  {
    hide DbInv, TxInv, Exec, RunsOk, FenceOk, StepsOk, DecideOk, HooksOk;
    if m.Save? {
      AllReady(s.db, s.txs[m.t]);
      assert x !in s.txs[m.t].w.steps;
    }
  }

  lemma {:induction false} StepRowFrozen(ss: seq<State>, ms: seq<Move>, i: nat, k: nat, x: StepId)
    requires History(ss, ms) && i <= k < |ss|
    requires x in ss[i].db.steps && ss[i].db.steps[x].status.Terminal()
    ensures x in ss[k].db.steps && ss[k].db.steps[x] == ss[i].db.steps[x]
    decreases k
  {
    hide Inv, Enabled, Moved;
    if i < k {
      StepRowFrozen(ss, ms, i, k - 1, x);
      AlwaysInv(ss, ms, k - 1);
      MoveFreezes(ss[k - 1], ms[k - 1], x);
      assert ss[k - 1 + 1] == Moved(ss[k - 1], ms[k - 1]);
    }
  }

  // A terminal step is never left: its row stands as it is, and it is not started again.
  lemma StepStaysTerminal(ss: seq<State>, ms: seq<Move>, i: nat, k: nat, x: StepId)
    requires History(ss, ms) && i <= k < |ss|
    requires x in ss[i].db.steps && ss[i].db.steps[x].status.Terminal()
    ensures x in ss[k].db.steps && ss[k].db.steps[x] == ss[i].db.steps[x]
    ensures Starts(LogOf(ss[k].db, x.run), x) == Starts(LogOf(ss[i].db, x.run), x)
  {
    hide History, StepOrder;
    StepRowFrozen(ss, ms, i, k, x);
    StepLogOrder(ss, ms, i, x);
    StepLogOrder(ss, ms, k, x);
  }
}
