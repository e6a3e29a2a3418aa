/**
 The takeover ledger: who took a token from whom, in both runs' logs, and where a
 delivery to a Hook that lost its token is sent.
 */
module Takeovers {
  import opened Options
  import opened EventLog
  import opened Database
  import opened Protocol
  import opened Invariant
  import opened Shapes
  import opened World
  import opened Histories
  import opened HookLogs

  ghost predicate Records(log: Log, ev: Event) {
    exists i :: 0 <= i < |log| && log[i].ev == ev
  }

  // -------------------------------------------------------------------------
  // The ledger balances

  // A Hook is created once, so it took one token at most.
  lemma TookOnce(db: Db, h: HookId, u: HookId, v: HookId)
    requires RunsInv(db) && OrderInv(db) && RevivedInv(db) && Took(db, h, u) && Took(db, h, v)
    ensures u == v
  {
    var log := LogOf(db, h.run);
    var i :| 0 <= i < |log| && TakesFrom(log[i].ev, h, u);
    var j :| 0 <= j < |log| && TakesFrom(log[j].ev, h, v);
    assert WellBegun(h.run, log);
    assert Hook(db, h) != Corrupt;
    if i < j {
      HookPair(log, i, j, h);
    } else if j < i {
      HookPair(log, j, i, h);
    }
  }

  lemma LostOnce(db: Db, v: HookId, g: HookId, h: HookId)
    requires OrderInv(db) && v !in db.revived && Lost(db, v, g) && Lost(db, v, h)
    ensures g == h
  {
    var log := LogOf(db, v.run);
    var i :| 0 <= i < |log| && LosesTo(log[i].ev, v, g);
    var j :| 0 <= j < |log| && LosesTo(log[j].ev, v, h);
    assert Hook(db, v) != Corrupt;
    if i < j {
      HookPair(log, i, j, v);
    } else if j < i {
      HookPair(log, j, i, v);
    }
  }

  // Every takeover of a running Hook is in both logs or in neither. A taker has one victim,
  // and a victim one taker unless an overtaken copy brought its row back.
  lemma LedgerBalances(ss: seq<State>, ms: seq<Move>, k: nat, v: HookId, h: HookId)
    requires History(ss, ms) && k < |ss|
    ensures Took(ss[k].db, h, v) <==> Lost(ss[k].db, v, h)
    ensures forall u: HookId :: Took(ss[k].db, h, v) && Took(ss[k].db, h, u) ==> u == v
    ensures !OvertakenBefore(ss, ms, k, v) ==>
              forall g: HookId :: Lost(ss[k].db, v, h) && Lost(ss[k].db, v, g) ==> g == h
  {
    var db := ss[k].db;
    AlwaysInv(ss, ms, k);
    RevivedExactly(ss, ms, k, v);
    hide TookIn, LostIn, OvertakenBefore;
    forall u: HookId | Took(db, h, v) && Took(db, h, u)
      ensures u == v
    {
      TookOnce(db, h, u, v);
    }
    forall g: HookId | v !in db.revived && Lost(db, v, h) && Lost(db, v, g)
      ensures g == h
    {
      LostOnce(db, v, g, h);
    }
  }

  // -------------------------------------------------------------------------
  // The disposal row

  // The first disposal row of `h`, as a read with a limit of one returns it.
  function DisposalOf(log: Log, h: HookId): Option<Event> {
    if log == [] then None
    else if Disposes(log[0].ev, h) then Some(log[0].ev)
    else DisposalOf(log[1..], h)
  }

  ghost predicate FirstDisposal(log: Log, h: HookId, i: int) {
    0 <= i < |log| && Disposes(log[i].ev, h) && forall j | 0 <= j < i :: !Disposes(log[j].ev, h)
  }

  lemma {:induction false} DisposalFirst(log: Log, h: HookId)
    ensures var d := DisposalOf(log, h);
            if d.None? then !WasDisposed(log, h) else exists i :: FirstDisposal(log, h, i) && log[i].ev == d.value
  {
    if log != [] && Disposes(log[0].ev, h) {
      assert FirstDisposal(log, h, 0);
    } else if log != [] {
      var rest, d := log[1..], DisposalOf(log[1..], h);
      DisposalFirst(rest, h);
      if d.Some? {
        var i :| FirstDisposal(rest, h, i) && rest[i].ev == d.value;
        assert FirstDisposal(log, h, i + 1) by {
          forall j | 0 <= j < i + 1 ensures !Disposes(log[j].ev, h) { if j > 0 { assert log[j] == rest[j - 1]; } }
        }
      } else {
        forall i | 0 <= i < |log| ensures !Disposes(log[i].ev, h) { if i > 0 { assert log[i] == rest[i - 1]; } }
      }
    }
  }

  // The first row that disposes `v` gives its token, which was `token`, to `h`.
  ghost predicate FirstLoss(db: Db, v: HookId, h: HookId, token: Token) {
    exists i :: FirstDisposal(LogOf(db, v.run), v, i)
                && LogOf(db, v.run)[i].ev == HookDisposed(v, Some(Taking(h, token)))
  }

  // Some row does.
  ghost predicate LostToken(db: Db, v: HookId, h: HookId, token: Token) {
    Records(LogOf(db, v.run), HookDisposed(v, Some(Taking(h, token))))
  }

  lemma FirstLossIsRead(db: Db, v: HookId, h: HookId, token: Token)
    ensures FirstLoss(db, v, h, token)
            <==> DisposalOf(LogOf(db, v.run), v) == Some(HookDisposed(v, Some(Taking(h, token))))
  {
    var log := LogOf(db, v.run);
    var d := DisposalOf(log, v);
    DisposalFirst(log, v);
    if d.Some? {
      var i :| FirstDisposal(log, v, i) && log[i].ev == d.value;
      if j :| FirstDisposal(log, v, j) && log[j].ev == HookDisposed(v, Some(Taking(h, token))) {
        assert i == j;
      }
    }
  }

  lemma OnlyOneRow(db: Db, v: HookId, h: HookId, token: Token)
    requires OrderInv(db) && v !in db.revived
    ensures FirstLoss(db, v, h, token) <==> LostToken(db, v, h, token)
  {
    var log := LogOf(db, v.run);
    if LostToken(db, v, h, token) {
      var i :| 0 <= i < |log| && log[i].ev == HookDisposed(v, Some(Taking(h, token)));
      assert Hook(db, v) != Corrupt;
      forall j | 0 <= j < i
        ensures !Disposes(log[j].ev, v)
      {
        HookPair(log, j, i, v);
      }
      assert FirstDisposal(log, v, i);
    }
  }

  // -------------------------------------------------------------------------
  // Following the links

  function IndexOf(births: seq<HookId>, h: HookId): (i: nat)
    requires h in births
    ensures i < |births| && births[i] == h
  {
    if births[0] == h then 0 else 1 + IndexOf(births[1..], h)
  }

  // Whoever took a token was created after the Hook it took it from.
  lemma LostComesLater(db: Db, v: HookId, c: HookId)
    requires DbInv(db) && Lost(db, v, c)
    ensures v in db.births && c in db.births && IndexOf(db.births, v) < IndexOf(db.births, c)
  {
    LostWereBorn(db, v, c);
    var i, j := IndexOf(db.births, v), IndexOf(db.births, c);
    assert Lost(db, db.births[i], db.births[j]);
  }

  // Whom the disposal row of `v` names.
  function TakerOf(db: Db, v: HookId): Option<HookId> {
    match DisposalOf(LogOf(db, v.run), v)
    case Some(HookDisposed(_, Some(Taking(taker, _)))) => Some(taker)
    case _ => None
  }

  lemma TakersComeLater(db: Db, v: HookId)
    requires DbInv(db) && TakerOf(db, v).Some?
    ensures var c := TakerOf(db, v).value;
            v in db.births && c in db.births && IndexOf(db.births, v) < IndexOf(db.births, c)
  {
    var log := LogOf(db, v.run);
    DisposalFirst(log, v);
    var i :| FirstDisposal(log, v, i) && log[i].ev == DisposalOf(log, v).value;
    assert LosesTo(log[i].ev, v, TakerOf(db, v).value);
    hide DbInv;
    LostComesLater(db, v, TakerOf(db, v).value);
  }

  lemma NobodyTook(db: Db, v: HookId, c: HookId)
    requires OrderInv(db) && v !in db.revived && TakerOf(db, v).None?
    ensures !Lost(db, v, c)
  {
    var log := LogOf(db, v.run);
    if i :| 0 <= i < |log| && LosesTo(log[i].ev, v, c) {
      var token := log[i].ev.lostTo.value.token;
      assert LostToken(db, v, c, token);
      OnlyOneRow(db, v, c, token);
      FirstLossIsRead(db, v, c, token);
    }
  }

  // The end of the chain of takeovers that starts at `v`. That it is a function is the
  // claim that following the links always ends.
  ghost function ChainEnd(db: Db, v: HookId): (e: HookId)
    requires DbInv(db) && v in db.births
    ensures e in db.births && TakerOf(db, e).None?
    ensures e !in db.revived ==> forall c :: !Lost(db, e, c)
    ensures e == v || IndexOf(db.births, v) < IndexOf(db.births, e)
    decreases |db.births| - IndexOf(db.births, v)
  {
    if TakerOf(db, v).Some? then
      TakersComeLater(db, v);
      ChainEnd(db, TakerOf(db, v).value)
    else
      assert v !in db.revived ==> forall c :: !Lost(db, v, c) by {
        if v !in db.revived { forall c ensures !Lost(db, v, c) { NobodyTook(db, v, c); } }
      }
      v
  }

  // A list of Hooks in which each lost its token to the next.
  ghost predicate Chain(db: Db, hs: seq<HookId>) {
    forall i | 0 < i < |hs| :: Lost(db, hs[i - 1], hs[i])
  }

  lemma {:induction false} ChainClimbs(db: Db, hs: seq<HookId>)
    requires DbInv(db) && Chain(db, hs) && |hs| > 0 && hs[0] in db.births
    ensures hs[|hs| - 1] in db.births
    ensures IndexOf(db.births, hs[|hs| - 1]) >= IndexOf(db.births, hs[0]) + |hs| - 1
  {
    hide DbInv, Lost;
    var n := |hs| - 1;
    if n > 0 {
      var init := hs[..n];
      assert Chain(db, init) by {
        forall i | 0 < i < n ensures Lost(db, init[i - 1], init[i]) { assert Lost(db, hs[i - 1], hs[i]); }
      }
      ChainClimbs(db, init);
      assert Lost(db, hs[n - 1], hs[n]);
      LostComesLater(db, hs[n - 1], hs[n]);
    }
  }

  // No chain of takeovers is longer than the number of Hooks ever created; none cycles.
  lemma ChainsEnd(ss: seq<State>, ms: seq<Move>, k: nat, hs: seq<HookId>)
    requires History(ss, ms) && k < |ss| && Chain(ss[k].db, hs) && |hs| > 1
    ensures |hs| <= |ss[k].db.births|
    ensures hs[0] != hs[|hs| - 1]
  {
    hide Chain, Lost;
    var db := ss[k].db;
    AlwaysInv(ss, ms, k);
    assert Lost(db, hs[0], hs[1]) by { FirstLink(db, hs); }
    LostComesLater(db, hs[0], hs[1]);
    ChainClimbs(db, hs);
  }

  lemma FirstLink(db: Db, hs: seq<HookId>)
    requires Chain(db, hs) && |hs| > 1
    ensures Lost(db, hs[0], hs[1])
  {
    assert Lost(db, hs[1 - 1], hs[1]);
  }

  // -------------------------------------------------------------------------
  // forceClaimRefusal

  // Where a delivery to `h`, whose row is gone, is redirected. The request may name the
  // token; otherwise it is the one the disposal row keeps.
  ghost function Redirect(db: Db, h: HookId, request: Option<Token>): Option<HookId> {
    match DisposalOf(LogOf(db, h.run), h)
    case Some(HookDisposed(_, Some(Taking(taker, kept)))) =>
      var token := if request.Some? then request.value else kept;
      if exists g :: g in db.hooks && db.hooks[g] == token
      then var g :| g in db.hooks && db.hooks[g] == token; Some(g)
      else Some(taker)
    case _ => None
  }

  // There is a redirect exactly when the Hook's disposal row is that of a takeover. It names
  // the holder of the token (the request's, or else the one that was lost) when there is one,
  // and otherwise the Hook that took it. That row is the only one, unless an overtaken copy
  // brought the Hook's row back.
  lemma RedirectFindsHolder(ss: seq<State>, ms: seq<Move>, k: nat, v: HookId, request: Option<Token>)
    requires History(ss, ms) && k < |ss|
    ensures var db, to := ss[k].db, Redirect(ss[k].db, v, request);
            && (to.Some? <==> exists c, kept :: FirstLoss(db, v, c, kept))
            && forall c, kept | FirstLoss(db, v, c, kept) ::
                 var token := if request.Some? then request.value else kept;
                 && (forall g | g in db.hooks && db.hooks[g] == token :: to == Some(g))
                 && ((forall g | g in db.hooks :: db.hooks[g] != token) ==> to == Some(c))
    ensures !OvertakenBefore(ss, ms, k, v) ==>
              forall c, kept :: LostToken(ss[k].db, v, c, kept) <==> FirstLoss(ss[k].db, v, c, kept)
  {
    hide FirstLoss, LostToken, Redirect, OvertakenBefore;
    AlwaysInv(ss, ms, k);
    RedirectAt(ss[k].db, v, request);
    RevivedExactly(ss, ms, k, v);
    if v !in ss[k].db.revived {
      forall c, kept
        ensures LostToken(ss[k].db, v, c, kept) <==> FirstLoss(ss[k].db, v, c, kept)
      {
        OnlyOneRow(ss[k].db, v, c, kept);
      }
    }
  }

  // While the end of the chain of takeovers holds the token, the redirect names it.
  lemma RedirectIsChainEnd(db: Db, v: HookId, request: Option<Token>)
    requires DbInv(db) && v in db.births && ChainEnd(db, v) != v && ChainEnd(db, v) in db.hooks
    requires forall c, kept | FirstLoss(db, v, c, kept) ::
               db.hooks[ChainEnd(db, v)] == if request.Some? then request.value else kept
    ensures Redirect(db, v, request) == Some(ChainEnd(db, v))
  {
    assert TakerOf(db, v).Some? && TokensInv(db);
    var e := ChainEnd(db, v);
    hide DbInv, FirstLoss, Redirect, ChainEnd;
    var c, kept := TakerHasRow(db, v);
    RedirectAt(db, v, request);
  }

  lemma TakerHasRow(db: Db, v: HookId) returns (c: HookId, kept: Token)
    requires TakerOf(db, v).Some?
    ensures FirstLoss(db, v, c, kept)
  {
    var log := LogOf(db, v.run);
    DisposalNames(log, v);
    c, kept := DisposalOf(log, v).value.lostTo.value.taker, DisposalOf(log, v).value.lostTo.value.token;
    hide DisposalOf;
    FirstLossIsRead(db, v, c, kept);
  }

  lemma DisposalNames(log: Log, v: HookId)
    ensures DisposalOf(log, v).Some? ==> Disposes(DisposalOf(log, v).value, v)
  {
    DisposalFirst(log, v);
  }

  lemma RedirectAt(db: Db, v: HookId, request: Option<Token>)
    requires TokensInv(db)
    ensures Redirect(db, v, request).Some? <==> exists c, kept :: FirstLoss(db, v, c, kept)
    ensures forall c, kept | FirstLoss(db, v, c, kept) ::
              var token := if request.Some? then request.value else kept;
              && (forall g | g in db.hooks && db.hooks[g] == token :: Redirect(db, v, request) == Some(g))
              && ((forall g | g in db.hooks :: db.hooks[g] != token) ==> Redirect(db, v, request) == Some(c))
  {
    var log := LogOf(db, v.run);
    DisposalNames(log, v);
    forall c, kept
      ensures FirstLoss(db, v, c, kept) <==> DisposalOf(log, v) == Some(HookDisposed(v, Some(Taking(c, kept))))
    {
      FirstLossIsRead(db, v, c, kept);
    }
    hide FirstLoss, DisposalOf;
    if Redirect(db, v, request).Some? {
      var Taking(c, kept) := DisposalOf(log, v).value.lostTo.value;
      assert FirstLoss(db, v, c, kept);
    }
  }

  // -------------------------------------------------------------------------
  // What a commit of hook_created does to others

  // A refused takeover leaves a conflict in its own run's log and changes nothing else.
  lemma RefusalChangesNothing(s: State, t: nat)
    requires Inv(s) && Enabled(s, Save(t)) && s.txs[t].job.HookNew? && s.txs[t].pc.Done?
    requires Records(Unsaved(s.txs[t].w, s.txs[t].job.hook.run), HookConflict(s.txs[t].job.hook))
    ensures var db', r := Commit(s, t).db, s.txs[t].job.hook.run;
            && db' == s.db.(log := db'.log, seqs := db'.seqs)
            && (forall q :: q != r ==> LogOf(db', q) == LogOf(s.db, q))
            && (forall q | q in s.db.seqs && q != r :: q in db'.seqs && db'.seqs[q] == s.db.seqs[q])
            && (forall g: HookId :: Hook(db', g) == Hook(s.db, g))
  {
    hide DbInv, TxInv, Records, Apply, Logged;
    var tx := s.txs[t];
    ConflictShape(s.db, tx);
    FenceGuard(s.db, tx);
    ConflictHooks(s.db, tx.w, tx.job.hook);
    ConflictRows(s.db, tx.w, tx.job.hook);
  }

  lemma ConflictRows(db: Db, w: Writes, h: HookId)
    requires Upon(w, NOTHING) && w.seqs.Keys <= {h.run}
    ensures var db' := Apply(db, w);
            && db' == db.(log := db'.log, seqs := db'.seqs)
            && forall q | q in db.seqs && q != h.run :: q in db'.seqs && db'.seqs[q] == db.seqs[q]
  {
    Unwritten(db, w);
    OtherCounts(db, w, h.run);
    hide Apply;
  }

  lemma OtherCounts(db: Db, w: Writes, r: RunId)
    requires w.seqs.Keys <= {r}
    ensures var db' := Apply(db, w); forall q | q in db.seqs && q != r :: q in db'.seqs && db'.seqs[q] == db.seqs[q]
  {
  }

  lemma ConflictHooks(db: Db, w: Writes, h: HookId)
    requires Logged(db, w, h.run, [HookConflict(h)])
    ensures var db' := Apply(db, w);
            && (forall q :: q != h.run ==> LogOf(db', q) == LogOf(db, q))
            && (forall g: HookId :: Hook(db', g) == Hook(db, g))
  {
    hide Apply;
    forall q: RunId
      ensures q != h.run ==> LogOf(Apply(db, w), q) == LogOf(db, q)
    {
      LogAfter(db, w, q);
      assert LogOf(db, q) + [] == LogOf(db, q);
    }
    forall g: HookId
      ensures Hook(Apply(db, w), g) == Hook(db, g)
    {
      HookAfter(db, w, g);
      assert Untouched(w, g);
    }
  }

  lemma FenceGuard(db: Db, tx: Tx)
    requires TxInv(db, tx) && tx.pc.Done?
    ensures tx.w.seqs.Keys <= {RunOf(tx.job)}
  {
    hide JobShape, Covered, TicketOk;
  }

  lemma ConflictShape(db: Db, tx: Tx)
    requires TxInv(db, tx) && tx.pc.Done? && tx.job.HookNew?
    requires Records(Unsaved(tx.w, tx.job.hook.run), HookConflict(tx.job.hook))
    ensures Upon(tx.w, NOTHING) && Logged(db, tx.w, tx.job.hook.run, [HookConflict(tx.job.hook)])
  {
    hide Guarded, Holding;
    var h := tx.job.hook;
    var i :| 0 <= i < |Unsaved(tx.w, h.run)| && Unsaved(tx.w, h.run)[i].ev == HookConflict(h);
  }

  // A takeover moves the token: the victim's row goes, the taker's row claims the same
  // token, and only a victim whose run was still running has its disposal journaled.
  lemma TakeoverMovesToken(s: State, t: nat, v: HookId, running: bool)
    requires Inv(s) && Enabled(s, Save(t)) && s.txs[t].job.HookNew? && s.txs[t].pc.Done?
    requires Records(Unsaved(s.txs[t].w, s.txs[t].job.hook.run),
                     HookCreated(s.txs[t].job.hook, Some(Claim(v, running))))
    ensures var db', HookNew(h, token, _) := Commit(s, t).db, s.txs[t].job;
            && v in s.db.hooks && s.db.hooks[v] == token
            && db'.hooks == (s.db.hooks - {v})[h := token]
            && Hook(s.db, h).Absent? && Hook(db', h) == Live(Some(Claim(v, running)))
            && (v !in s.db.revived ==> Hook(s.db, v).Live?)
            && Hook(db', v) == (if running then HookStep(Hook(s.db, v), v, HookDisposed(v, Some(Taking(h, token))))
                                else Hook(s.db, v))
            && forall g: HookId :: g != h && g != v ==> Hook(db', g) == Hook(s.db, g)
  {
    hide DbInv, TxInv, Records, Apply, TakenShape;
    var tx, db := s.txs[t], s.db;
    TakenShapeOf(db, tx, v, running);
    TakenRows(db, tx, v, running);
    TakenHooks(db, tx, v, running);
    TakenOthers(db, tx, v, running);
  }

  lemma TakenRows(db: Db, tx: Tx, v: HookId, running: bool)
    requires DbInv(db) && tx.job.HookNew? && TakenShape(db, tx, v, running)
    ensures var HookNew(h, token, _) := tx.job;
            && v in db.hooks && db.hooks[v] == token && Hook(db, h).Absent?
            && (v !in db.revived ==> Hook(db, v).Live?)
            && Apply(db, tx.w).hooks == (db.hooks - {v})[h := token]
  {
    hide TakenLog, Existing, HookOf, RunsInv, FenceInv, OrderInv, TokensInv, RevivedInv, LedgerInv, BirthInv, StepInv,
      AcceptedInv;
  }

  lemma TakenShapeOf(db: Db, tx: Tx, v: HookId, running: bool)
    requires TxInv(db, tx) && tx.pc.Done? && tx.job.HookNew?
    requires Records(Unsaved(tx.w, tx.job.hook.run), HookCreated(tx.job.hook, Some(Claim(v, running))))
    ensures TakenShape(db, tx, v, running)
  {
    hide Guarded, Holding;
    var h := tx.job.hook;
    var i :| 0 <= i < |Unsaved(tx.w, h.run)|
             && Unsaved(tx.w, h.run)[i].ev == HookCreated(h, Some(Claim(v, running)));
  }

  lemma TakenHooks(db: Db, tx: Tx, v: HookId, running: bool)
    requires tx.job.HookNew? && TakenShape(db, tx, v, running)
    ensures var db', h := Apply(db, tx.w), tx.job.hook;
            && Hook(db', h) == Live(Some(Claim(v, running)))
            && Hook(db', v) == (if running then HookStep(Hook(db, v), v, HookDisposed(v, Some(Taking(h, tx.job.token))))
                                else Hook(db, v))
  {
    hide Apply, HookOf;
    var h, w := tx.job.hook, tx.w;
    HookAfter(db, w, h);
    HookAfter(db, w, v);
    HookPushes(LogOf(db, h.run), w.log[h.run], h);
    HookPushes(LogOf(db, v.run), Unsaved(w, v.run), v);
  }

  lemma TakenOthers(db: Db, tx: Tx, v: HookId, running: bool)
    requires tx.job.HookNew? && TakenShape(db, tx, v, running)
    ensures forall g: HookId :: g != tx.job.hook && g != v ==> Hook(Apply(db, tx.w), g) == Hook(db, g)
  {
    hide Apply, HookOf;
    forall g: HookId | g != tx.job.hook && g != v
      ensures Hook(Apply(db, tx.w), g) == Hook(db, g)
    {
      HookAfter(db, tx.w, g);
      assert Untouched(tx.w, g);
    }
  }
}
