/**
 A history in which the order of a start Hook's log breaks (see `HookLogs` for exactly when).

 Both copies of a candidate look before they claim. The first is accepted, and its run's
 start Hook disposed. The second copy then claims the token again, replays the acceptance
 and commits its row, and a delivery to that row is journaled behind the disposal.
 */
module StartHooks {
  import opened Options
  import opened EventLog
  import opened Database
  import opened Protocol
  import opened Invariant
  import opened HookLogs
  import opened Scripts

  const RUN := RunId(0, 0, Some(0))
  const START := StartHook(RUN)
  const WAITING := Attempt(RUN, 0, ClaimToken)

  // The committed rows as the requests of the history leave them.
  const ONCE := [Entry(RunCreated(Some(START)), None)]
  const GONE := ONCE + [Entry(HookDisposed(START, None), None)]

  const DECIDED :=
    Db(0, map[RUN := ONCE], map[RUN := 1], map[RUN := RunRow(Status.Pending, SINGLE_ORCHESTRATOR_SPEC)],
       map[START := 0], map[], map[RUN := Decision(true, 0)], map[RUN := Decision(true, 0)], [START], {})

  const DISPOSED := DECIDED.(log := map[RUN := GONE], hooks := map[])
  const REVIVED := DISPOSED.(hooks := map[START := 0], revived := {START})
  const DELIVERED := REVIVED.(log := map[RUN := GONE + [Entry(HookReceived(START), None)]])

  const GOAL := Goal(0, RUN)

  // What the accepted copy writes.
  const ACCEPTANCE :=
    NOTHING.(put := map[START := 0], decide := map[RUN := Decision(true, 0)],
             runs := map[RUN := RunRow(Status.Pending, SINGLE_ORCHESTRATOR_SPEC)],
             log := map[RUN := ONCE], births := [START], seqs := map[RUN := 1])

  // A copy has looked and found the token free.
  lemma LooksAndWaits(s: State, g: Goal, vs: seq<bool>, t: nat)
    requires Reached(s, g, vs) && s.db == EMPTY_DB && t !in s.txs && Unlocked(s, t) && Brisk(s, g.bound)
    ensures Reached(With(s, t, WAITING), g, vs) && Brisk(With(s, t, WAITING), g.bound)
  {
    hide Reached, Exec;
    Looks(s, g, vs, t, RUN);
    var tx := Forgets(s, g, vs, t, Attempt(RUN, 0, ForgetOld), {});
    assert NOTHING.forget + {} == {};
    assert tx == Attempt(RUN, 0, FindOwner);
    assert Visible(EMPTY_DB, NOTHING) == map[];
    AtFindOwner(s.db, tx);
    Takes(s, g, vs, t, tx, ANY, WAITING);
  }

  // Whoever waits with nothing locked, a copy that waits too goes on to be accepted.
  lemma GoesOnAndIsAccepted(s: State, g: Goal, vs: seq<bool>, t: nat)
    requires Reached(With(s, t, WAITING), g, vs) && Brisk(With(s, t, WAITING), g.bound)
    requires s.db == EMPTY_DB && t !in s.txs && Unlocked(s, t) && Brisk(s, g.bound)
    ensures Reached(State(DECIDED, s.txs), g, Then(vs, if g.candidate == RUN then Some(true) else None))
  {
    hide Reached, Exec, Apply, DECIDED;
    assert Visible(EMPTY_DB, NOTHING) == map[];
    var a := ClaimsToken(s, g, vs, t, WAITING);
    var b := IsAccepted(s, g, vs, t, a, 0);
    assert b.w == ACCEPTANCE;
    CommitsAcceptance();
    Saves(s, g, vs, t, b);
  }

  lemma CommitsAcceptance()
    ensures Apply(EMPTY_DB, ACCEPTANCE) == DECIDED
  {
    assert [] + ONCE == ONCE;
    assert Apply(EMPTY_DB, ACCEPTANCE).log == DECIDED.log;
    assert Apply(EMPTY_DB, ACCEPTANCE).births == DECIDED.births;
  }

  lemma CommitsDisposal(w: Writes)
    requires w == NOTHING.(del := {START}, log := map[RUN := [Entry(HookDisposed(START, None), None)]])
    ensures Apply(DECIDED, w) == DISPOSED
  {
    hide Apply;
    Unwritten(DECIDED, w);
    OneLog(DECIDED, w, RUN);
    assert DECIDED.hooks - {START} == map[];
  }

  lemma CommitsReplay(w: Writes)
    requires w == NOTHING.(put := map[START := 0])
    ensures Apply(DISPOSED, w) == REVIVED
  {
    assert Disposes(GONE[1].ev, START);
    assert Apply(DISPOSED, w).revived == {START} && Apply(DISPOSED, w).hooks == map[START := 0];
    hide Apply;
    Unwritten(DISPOSED, w);
  }

  lemma CommitsDelivery(w: Writes)
    requires w == NOTHING.(log := map[RUN := [Entry(HookReceived(START), None)]])
    ensures Apply(REVIVED, w) == DELIVERED
  {
    hide Apply;
    Unwritten(REVIVED, w);
    OneLog(REVIVED, w, RUN);
    assert REVIVED.hooks - {} == REVIVED.hooks;
  }

  // The second copy has looked, and waits; the first is accepted; its start Hook goes.
  lemma DisposedReached()
    ensures Reached(State(DISPOSED, map[1 := WAITING]), GOAL, [true])
  {
    hide Reached, Apply, DISPOSED;
    ReachInitial(GOAL);
    LooksAndWaits(INITIAL, GOAL, [], 1);
    var waiting := State(EMPTY_DB, map[1 := WAITING]);
    assert With(INITIAL, 1, WAITING) == waiting;
    LooksAndWaits(waiting, GOAL, [], 2);
    GoesOnAndIsAccepted(waiting, GOAL, [], 2);
    assert Then([], Some(true)) == [true];
    var decided := State(DECIDED, map[1 := WAITING]);
    var w := DisposesHook(decided, GOAL, [true], 3, START);
    CommitsDisposal(w);
  }

  // The second copy now claims the token again, and is about to commit that.
  ghost predicate Replays(tx: Tx) {
    && Reached(State(DISPOSED, map[1 := tx]), GOAL, [true])
    && tx.pc.Done? && tx.job.Create? && tx.job.run == RUN && tx.w == NOTHING.(put := map[START := 0])
  }

  lemma ReplayReached()
    ensures exists tx :: Replays(tx)
  {
    hide Reached, Exec;
    DisposedReached();
    var s := State(DISPOSED, map[]);
    assert With(s, 1, WAITING) == State(DISPOSED, map[1 := WAITING]);
    assert Visible(DISPOSED, NOTHING) == map[];
    var a := ClaimsToken(s, GOAL, [true], 1, WAITING);
    var b := a.(pc := AfterCreate, answer := Replayed(true));
    AtRecordReplay(DISPOSED, a);
    Takes(s, GOAL, [true], 1, a, ANY, b);
    AtAfterCreate(DISPOSED, b);
    Takes(s, GOAL, [true], 1, b, ANY, b.(pc := Done));
    var tx := b.(pc := Done);
    assert With(s, 1, tx) == State(DISPOSED, map[1 := tx]);
    assert Replays(tx);
  }

  // That commit is the one that spoils the Hook.
  lemma OvertakenReached()
    ensures exists tx :: Reachable(State(DISPOSED, map[1 := tx])) && Overtakes(State(DISPOSED, map[1 := tx]), Save(1), START)
  {
    hide Reached, Reachable;
    ReplayReached();
    var tx :| Replays(tx);
    ReachedIsReachable(State(DISPOSED, map[1 := tx]), GOAL, [true]);
    assert Disposes(GONE[1].ev, START);
    assert Overtakes(State(DISPOSED, map[1 := tx]), Save(1), START);
  }

  // ... and a delivery that follows is journaled behind the disposal.
  lemma OrderCanBreak()
    ensures Reachable(State(DELIVERED, map[])) && !HookOrder(LogOf(DELIVERED, RUN), START)
  {
    assert !HookOrder(LogOf(DELIVERED, RUN), START) by {
      var log := LogOf(DELIVERED, RUN);
      assert Disposes(log[1].ev, START) && Receives(log[2].ev, START);
    }
    assert Reachable(State(DELIVERED, map[])) by { DeliveredReached(); }
  }

  lemma DeliveredReached()
    ensures Reachable(State(DELIVERED, map[]))
  {
    hide Reached, Reachable, Apply, DELIVERED;
    ReplayReached();
    var tx :| Replays(tx);
    var s := State(DISPOSED, map[]);
    assert With(s, 1, tx) == State(DISPOSED, map[1 := tx]);
    CommitsReplay(tx.w);
    Saves(s, GOAL, [true], 1, tx);
    var w := DeliversTo(State(REVIVED, map[]), GOAL, [true], 4, START);
    CommitsDelivery(w);
    ReachedIsReachable(State(DELIVERED, map[]), GOAL, [true]);
  }
}
