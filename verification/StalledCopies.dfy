/**
 How long an attempt may stay open. A candidate is decided once as long as two stays fit
 into a decision's lifetime, and for every longer stay there is a history in which it is
 decided twice, and differently: a refusal, then an acceptance.

 The history: a rival run holds the token. One copy of the candidate is about to record its
 refusal, and stalls. Just before it commits, the other copy looks and finds no decision. It
 stalls in turn, until the refusal it never saw, dated when the first copy began, has
 expired. The rival's Hook is gone by then. The copy deletes the refusal among the expired
 decisions, claims the token and is accepted.
 */
module StalledCopies {
  import opened Options
  import opened EventLog
  import opened Database
  import opened Protocol
  import opened Invariant
  import opened Histories
  import opened Decisions
  import opened Admissions
  import opened Scripts
  import opened StartHooks

  // -------------------------------------------------------------------------
  // At most once, within the limit

  lemma {:induction false} VerdictGiven(ss: seq<State>, ms: seq<Move>, r: RunId, n: nat) returns (i: nat)
    requires n <= |ms| < |ss| && Verdicts(ss, ms, r, n) != []
    ensures i < n && Verdict(ss[i], ms[i], r).Some?
  {
    if Verdict(ss[n - 1], ms[n - 1], r).Some? {
      i := n - 1;
    } else {
      i := VerdictGiven(ss, ms, r, n - 1);
    }
  }

  lemma {:induction false} DecidedAtMostOnce(ss: seq<State>, ms: seq<Move>, b: nat, r: RunId, n: nat)
    requires Timed(ss, ms, b) && n <= |ms| < |ss|
    ensures |Verdicts(ss, ms, r, n)| <= 1
  {
    hide Timed;
    if n > 0 {
      DecidedAtMostOnce(ss, ms, b, r, n - 1);
      if Verdict(ss[n - 1], ms[n - 1], r).Some? && Verdicts(ss, ms, r, n - 1) != [] {
        var i := VerdictGiven(ss, ms, r, n - 1);
        DecidedOnce(ss, ms, b, i, n - 1, ms[i].t, ms[n - 1].t, r);
      }
    }
  }

  // -------------------------------------------------------------------------
  // Twice, beyond it

  const LOOKS_AT: nat := 45_000_001
  const ACTS_AT: nat := 90_000_001

  const CANDIDATE := RunId(1, CLOCK_SLACK, Some(0))
  const CLAIM := StartHook(CANDIDATE)
  const TWICE := Goal(LOOKS_AT, CANDIDATE)

  const REFUSING := Attempt(CANDIDATE, 0, RecordRefusal)
  const STALLED := Attempt(CANDIDATE, LOOKS_AT, ForgetOld)

  const REFUSED :=
    DECIDED.(now := LOOKS_AT,
             adm := map[RUN := Decision(true, 0), CANDIDATE := Decision(false, 0)],
             decided := map[RUN := Decision(true, 0), CANDIDATE := Decision(false, 0)])
  const CLEARED := REFUSED.(log := map[RUN := GONE], hooks := map[])

  // The rival's run exists and holds the token; the first copy will be refused.
  lemma RefusingReached()
    ensures Reached(State(DECIDED, map[1 := REFUSING]), TWICE, [])
  {
    hide Reached, Exec;
    ReachInitial(TWICE);
    LooksAndWaits(INITIAL, TWICE, [], 2);
    GoesOnAndIsAccepted(INITIAL, TWICE, [], 2);
    var s := State(DECIDED, map[]);
    assert INITIAL.txs == map[];
    Looks(s, TWICE, [], 1, CANDIDATE);
    var a := Forgets(s, TWICE, [], 1, Attempt(CANDIDATE, 0, ForgetOld), {});
    assert NOTHING.forget + {} == {};
    assert a == Attempt(CANDIDATE, 0, FindOwner);
    var b, c := Attempt(CANDIDATE, 0, LostToken(true)), REFUSING;
    assert Visible(DECIDED, NOTHING) == DECIDED.hooks;
    AtFindOwnerTaken(DECIDED, a, START);
    Takes(s, TWICE, [], 1, a, ANY.(row := Some(START)), b);
    AtLostToken(DECIDED, b);
    Takes(s, TWICE, [], 1, b, ANY, c);
    assert With(s, 1, c) == State(DECIDED, map[1 := REFUSING]);
  }

  // Much later the second copy looks, and the first one records and commits.
  lemma RefusedReached()
    ensures Reached(State(REFUSED, map[2 := STALLED]), TWICE, [false])
  {
    hide Reached, Exec, Apply, REFUSED;
    RefusingReached();
    var db := DECIDED.(now := LOOKS_AT);
    Waits(State(DECIDED, map[1 := REFUSING]), TWICE, [], LOOKS_AT);
    var s := State(db, map[1 := REFUSING]);
    assert AtTime(State(DECIDED, map[1 := REFUSING]), LOOKS_AT) == s;
    Looks(s, TWICE, [], 2, CANDIDATE);
    var others := State(db, map[2 := STALLED]);
    assert With(s, 2, STALLED) == With(others, 1, REFUSING);
    var w := NOTHING.(decide := map[CANDIDATE := Decision(false, 0)]);
    var tx := REFUSING.(pc := Done, answer := Rejected, locks := REFUSING.locks + {Admission(CANDIDATE)}, w := w);
    AtRecordRefusal(db, REFUSING, 0);
    assert NOTHING.decide[CANDIDATE := Decision(false, 0)] == map[CANDIDATE := Decision(false, 0)];
    Takes(others, TWICE, [], 1, REFUSING, ANY.(at := 0), tx);
    CommitsRefusal(db, w);
    Saves(others, TWICE, [], 1, tx);
    assert Then([], Some(false)) == [false];
  }

  lemma CommitsRefusal(db: Db, w: Writes)
    requires db == DECIDED.(now := LOOKS_AT) && w == NOTHING.(decide := map[CANDIDATE := Decision(false, 0)])
    ensures Apply(db, w) == REFUSED
  {
    RefusalRows(db, w);
    hide REFUSED, DECIDED;
    DecisionRows(db, w);
  }

  // A commit of nothing but decisions.
  lemma DecisionRows(db: Db, w: Writes)
    requires w == NOTHING.(decide := w.decide)
    ensures Apply(db, w) == db.(adm := db.adm + w.decide, decided := db.decided + w.decide)
  {
    var db' := Apply(db, w);
    assert db'.decided == db.decided + w.decide;
    hide Apply;
    Unwritten(db, w);
  }

  lemma RefusalRows(db: Db, w: Writes)
    requires db == DECIDED.(now := LOOKS_AT) && w == NOTHING.(decide := map[CANDIDATE := Decision(false, 0)])
    ensures REFUSED == db.(adm := db.adm + w.decide, decided := db.decided + w.decide)
  {
    assert REFUSED.adm == db.adm + w.decide;
    assert REFUSED.decided == db.decided + w.decide;
  }

  // The rival's Hook is disposed.
  lemma ClearedReached()
    ensures Reached(State(CLEARED, map[2 := STALLED]), TWICE, [false])
  {
    hide Reached, Apply, CLEARED;
    RefusedReached();
    var w := DisposesHook(State(REFUSED, map[2 := STALLED]), TWICE, [false], 3, START);
    CommitsClearing(w);
  }

  lemma CommitsClearing(w: Writes)
    requires w == NOTHING.(del := {START}, log := map[RUN := [Entry(HookDisposed(START, None), None)]])
    ensures Apply(REFUSED, w) == CLEARED
  {
    hide Apply;
    Unwritten(REFUSED, w);
    OneLog(REFUSED, w, RUN);
    assert REFUSED.hooks - {START} == map[];
  }

  const EXPIRED := CLEARED.(now := ACTS_AT)

  // The refusal has expired: the second copy deletes it and finds the token free.
  ghost predicate Forgetful(tx: Tx) {
    && Reached(With(State(EXPIRED, map[]), 2, tx), TWICE, [false])
    && tx == STALLED.(pc := ClaimToken, locks := tx.locks, w := NOTHING.(forget := {CANDIDATE}))
  }

  lemma ForgottenReached()
    ensures exists tx :: Forgetful(tx)
  {
    hide Reached, Exec;
    ClearedReached();
    Waits(State(CLEARED, map[2 := STALLED]), TWICE, [false], ACTS_AT);
    var alone := State(EXPIRED, map[]);
    assert AtTime(State(CLEARED, map[2 := STALLED]), ACTS_AT) == With(alone, 2, STALLED);
    var a := Forgets(alone, TWICE, [false], 2, STALLED, {CANDIDATE});
    assert NOTHING.forget + {CANDIDATE} == {CANDIDATE};
    assert a.w == NOTHING.(forget := {CANDIDATE});
    assert Visible(EXPIRED, a.w) == map[];
    AtFindOwner(EXPIRED, a);
    var tx := a.(pc := ClaimToken);
    Takes(alone, TWICE, [false], 2, a, ANY, tx);
    assert Forgetful(tx);
  }

  // It claims the token and is accepted.
  lemma DecidedTwiceReached()
    ensures exists s :: Reached(s, TWICE, [false, true]) && CANDIDATE in s.db.runs && s.db.revived == {}
  {
    hide Reached, Exec, Apply;
    ForgottenReached();
    var b :| Forgetful(b);
    var alone := State(EXPIRED, map[]);
    assert Visible(EXPIRED, b.w) == map[];
    var c := ClaimsToken(alone, TWICE, [false], 2, b);
    var d := IsAccepted(alone, TWICE, [false], 2, c, LOOKS_AT);
    SecondAcceptance(EXPIRED, d.w);
    hide EXPIRED;
    Saves(alone, TWICE, [false], 2, d);
    assert Then([false], Some(true)) == [false, true];
    var s := State(Apply(EXPIRED, d.w), map[]);
    assert CANDIDATE in s.db.runs && s.db.revived == {};
  }

  lemma SecondAcceptance(db: Db, w: Writes)
    requires db == EXPIRED
    requires w == NOTHING.(forget := {CANDIDATE}, put := map[CLAIM := 0],
                           decide := map[CANDIDATE := Decision(true, LOOKS_AT)],
                           runs := map[CANDIDATE := RunRow(Status.Pending, SINGLE_ORCHESTRATOR_SPEC)],
                           log := map[CANDIDATE := [Entry(RunCreated(Some(CLAIM)), None)]],
                           births := [CLAIM], seqs := map[CANDIDATE := 1])
    ensures CANDIDATE in Apply(db, w).runs && Apply(db, w).revived == {}
  {
    assert LogOf(db, CANDIDATE) == [];
  }

  // -------------------------------------------------------------------------
  // The limit

  ghost predicate DecidesOnceAlways(b: nat) {
    forall ss: seq<State>, ms: seq<Move>, r: RunId | History(ss, ms) && Prompt(ss, b) && |ms| < |ss| ::
      |Verdicts(ss, ms, r, |ms|)| <= 1
  }

  // Attempts that stay open for `b` never decide a candidate twice, in any history, exactly
  // when two such stays fit into a decision's lifetime.
  lemma StayLimitIsExact(b: nat)
    ensures DecidesOnceAlways(b) <==> Short(b)
  {
    if Short(b) {
      forall ss: seq<State>, ms: seq<Move>, r: RunId | History(ss, ms) && Prompt(ss, b) && |ms| < |ss|
        ensures |Verdicts(ss, ms, r, |ms|)| <= 1
      {
        DecidedAtMostOnce(ss, ms, b, r, |ms|);
      }
    } else {
      DecidedTwiceReached();
      var s :| Reached(s, TWICE, [false, true]) && CANDIDATE in s.db.runs && s.db.revived == {};
      var ss, ms :| Leads(ss, ms, s, TWICE, [false, true]);
      LongerIsPrompt(ss, LOOKS_AT, b);
      assert Verdicts(ss, ms, CANDIDATE, |ms|) == [false, true];
    }
  }

  lemma LongerIsPrompt(ss: seq<State>, a: nat, b: nat)
    requires Prompt(ss, a) && a <= b
    ensures Prompt(ss, b)
  {
    forall k | 0 <= k < |ss|
      ensures PromptState(ss[k], b)
    {
      assert PromptState(ss[k], a);
    }
  }

  // Beyond the limit the decisions differ, too: refused first, then accepted with a run. No
  // overtaken copy has a part in it.
  lemma RefusalIsOverturned()
    ensures exists ss: seq<State>, ms: seq<Move> ::
              && History(ss, ms) && Prompt(ss, LOOKS_AT)
              && CANDIDATE in ss[|ms|].db.runs && ss[|ms|].db.revived == {}
              && Verdicts(ss, ms, CANDIDATE, |ms|) == [false, true]
  {
    DecidedTwiceReached();
    var s :| Reached(s, TWICE, [false, true]) && CANDIDATE in s.db.runs && s.db.revived == {};
    var ss, ms :| Leads(ss, ms, s, TWICE, [false, true]);
  }
}
