/**
 What is true of the committed rows after every commit (`DbInv`), what an open
 transaction must have done to be allowed to commit (`Ready`), and the proof that such
 a commit keeps `DbInv`.
 */
module Invariant {
  import opened Options
  import opened EventLog
  import opened Database

  // -------------------------------------------------------------------------
  // The committed rows

  function StartOf(r: RunId): Option<HookId> {
    if r.start.None? then None else Some(StartHook(r))
  }

  // The creation of a run, or of a start Hook.
  predicate Begins(ev: Event) {
    ev.RunCreated? || (ev.HookCreated? && ev.hook.n == 0)
  }

  // A log opens with the creation of its run and its start Hook, and never repeats it.
  ghost predicate WellBegun(r: RunId, log: Log) {
    && |log| > 0
    && log[0].ev == RunCreated(StartOf(r))
    && forall i | 0 < i < |log| :: !Begins(log[i].ev)
  }

  ghost predicate RunsInv(db: Db) {
    && db.runs.Keys == db.log.Keys == db.seqs.Keys
    && forall r | r in db.log :: WellBegun(r, db.log[r])
  }

  // The in-band count is one more than the in-band positions of the log.
  ghost predicate FenceInv(db: Db) {
    forall r | r in db.seqs :: db.seqs[r] == 1 + Marks(LogOf(db, r))
  }

  // The log of a Hook that was not revived is in order.
  ghost predicate OrderInv(db: Db) {
    forall h: HookId | h !in db.revived :: Hook(db, h) != Corrupt
  }

  // Its row stands for a Hook the log shows as live.
  ghost predicate RowsInv(db: Db) {
    forall h | h in db.hooks :: !Hook(db, h).Absent? && (h !in db.revived ==> Hook(db, h).Live?)
  }

  ghost predicate TokensInv(db: Db) {
    forall g, h | g in db.hooks && h in db.hooks && g != h :: db.hooks[g] != db.hooks[h]
  }

  // Only start Hooks are ever revived, and a revived Hook has its disposal in the log.
  ghost predicate RevivedInv(db: Db) {
    forall h | h in db.revived :: StartOf(h.run) == Some(h) && WasDisposed(LogOf(db, h.run), h)
  }

  // `h` is in its log as having taken the token of `v`, whose run was running.
  ghost predicate Took(db: Db, h: HookId, v: HookId) {
    TookIn(LogOf(db, h.run), h, v)
  }

  // `v` is in its log as having lost its token to `h`.
  ghost predicate Lost(db: Db, v: HookId, h: HookId) {
    LostIn(LogOf(db, v.run), v, h)
  }

  ghost predicate LedgerInv(db: Db) {
    forall v: HookId, h: HookId :: Took(db, h, v) <==> Lost(db, v, h)
  }

  ghost predicate BirthInv(db: Db) {
    && (forall i, j | 0 <= i < j < |db.births| :: db.births[i] != db.births[j])
    && (forall h: HookId :: h in db.births <==> !Hook(db, h).Absent?)
    && (forall i, j | 0 <= i < |db.births| && 0 <= j < |db.births| ::
          Lost(db, db.births[i], db.births[j]) ==> i < j)
  }

  ghost predicate StepFits(st: StepState, row: Option<StepRow>) {
    && !st.corrupt
    && match row
       case None => st == FRESH_STEP
       case Some(row) => st.starts == row.attempt && (st.ended ==> row.status.Terminal())
  }

  function RowOf(db: Db, s: StepId): Option<StepRow> {
    if s in db.steps then Some(db.steps[s]) else None
  }

  ghost predicate StepInv(db: Db) {
    forall s: StepId :: StepFits(Step(db, s), RowOf(db, s))
  }

  // An acceptance on record has its run.
  ghost predicate AcceptedInv(db: Db) {
    forall r | r in db.adm && db.adm[r].accepted :: r in db.runs
  }

  ghost predicate DbInv(db: Db) {
    && RunsInv(db) && FenceInv(db) && OrderInv(db) && RowsInv(db) && TokensInv(db) && RevivedInv(db)
    && LedgerInv(db) && BirthInv(db) && StepInv(db) && AcceptedInv(db)
  }

  // -------------------------------------------------------------------------
  // A transaction that may commit

  // The Hook and the step as they will be once `w` has committed.
  function After(db: Db, w: Writes, h: HookId): HookState {
    HookOf(LogOf(db, h.run) + Unsaved(w, h.run), h)
  }

  function StepAfter(db: Db, w: Writes, s: StepId): StepState {
    StepOf(LogOf(db, s.run) + Unsaved(w, s.run), s)
  }

  ghost predicate Untouched(w: Writes, h: HookId) {
    forall i | 0 <= i < |Unsaved(w, h.run)| :: !Concerns(Unsaved(w, h.run)[i].ev, h)
  }

  ghost predicate StepUntouched(w: Writes, s: StepId) {
    forall i | 0 <= i < |Unsaved(w, s.run)| :: !StepConcerns(Unsaved(w, s.run)[i].ev, s)
  }

  // Every write is under the lock of what it writes.
  ghost predicate Covered(db: Db, w: Writes, locks: set<Key>) {
    && (forall r | r in w.log :: Tail(r) in locks)
    && (forall r | r in w.seqs :: Fence(r) in locks)
    && (forall r | r in w.runs :: Row(r) in locks)
    && (forall h | h in w.put ::
          && HookRow(h) in locks && Claims(w.put[h]) in locks
          && (h !in db.hooks || h in w.del)
          && (forall g | g in db.hooks && g !in w.del :: db.hooks[g] != w.put[h]))
    && (forall g, h | g in w.put && h in w.put :: g == h)
    && (forall h | h in w.del :: h in db.hooks && HookRow(h) in locks && Claims(db.hooks[h]) in locks)
    && (forall s | s in w.steps ::
          Steps(s) in locks && (s in db.steps ==> !db.steps[s].status.Terminal()))
    && (forall r | r in w.decide :: Admission(r) in locks)
    && (forall r | r in w.forget :: Admission(r) in locks)
    && (forall r, i | r in w.log && 0 <= i < |w.log[r]| && w.log[r][i].ev.StepEnded? ::
          Ticket(w.log[r][i].ev.step) in locks)
  }

  // What an in-band request has done to its run's count.
  ghost predicate FenceOk(db: Db, tx: Tx) {
    var r := RunOf(tx.job);
    && (forall q | q in tx.w.log && q != r :: Marks(tx.w.log[q]) == 0)
    && Marks(Unsaved(tx.w, r)) == (if tx.consumed then 1 else 0)
    && tx.w.seqs.Keys <= {r}
    && (r in tx.w.seqs ==>
          && Fence(r) in tx.locks
          && tx.w.seqs[r] == (if r in db.seqs then db.seqs[r] else 1) + Marks(Unsaved(tx.w, r)))
    && (tx.consumed ==> tx.fence.Some? && r in tx.w.seqs && tx.w.seqs[r] == tx.fence.value.expected + 1)
    && (!tx.consumed && r in tx.w.seqs ==> r !in db.seqs)
    // the fence, once taken, keeps the count at what was expected
    && (tx.fence.Some? && Fence(r) in tx.locks && r in db.seqs ==> db.seqs[r] == tx.fence.value.expected)
  }

  ghost predicate RunsOk(db: Db, w: Writes) {
    && (forall r | r in w.log && r !in db.log :: r in w.runs && r in w.seqs)
    && (forall r | r in w.runs && r !in db.log :: r in w.log)
    && (forall r | r in w.seqs && r !in db.log :: r in w.log)
    && forall r | r in w.log ::
         if r in db.log then forall i | 0 <= i < |w.log[r]| :: !Begins(w.log[r][i].ev)
         else WellBegun(r, w.log[r])
  }

  // What a commit does to the Hooks of its runs' logs.
  datatype Effect =
    | NoHook
    | Made(hook: HookId)
    | Handed(victim: HookId, hook: HookId)
    | Dropped(hook: HookId)
    | Delivered(hook: HookId)

  ghost predicate Has(db: Db, w: Writes, e: Effect) {
    match e
    case NoHook => w.births == [] && forall g: HookId :: Untouched(w, g)
    case Made(h) => IsMade(db, w, h) && forall g: HookId :: g != h ==> Untouched(w, g)
    case Handed(v, h) =>
      v != h && IsMade(db, w, h) && IsEnded(db, w, v) && forall g: HookId :: g != h && g != v ==> Untouched(w, g)
    case Dropped(h) => w.births == [] && IsEnded(db, w, h) && forall g: HookId :: g != h ==> Untouched(w, g)
    case Delivered(h) =>
      && w.births == [] && h in db.hooks
      && !After(db, w, h).Absent? && (Hook(db, h).Live? ==> After(db, w, h).Live?)
      && forall g: HookId :: g != h ==> Untouched(w, g)
  }

  // `h` is created ...
  ghost predicate IsMade(db: Db, w: Writes, h: HookId) {
    w.births == [h] && Hook(db, h).Absent? && After(db, w, h).Live?
  }

  // ... or disposed, with its row.
  ghost predicate IsEnded(db: Db, w: Writes, h: HookId) {
    && h in db.hooks && h in w.del
    && !After(db, w, h).Absent? && (Hook(db, h).Live? ==> After(db, w, h).Gone?)
  }

  // Both sides of a takeover are journaled together, by the Hook that takes over.
  ghost predicate LedgerOk(db: Db, w: Writes) {
    forall v: HookId, h: HookId ::
      && (TookIn(Unsaved(w, h.run), h, v) <==> LostIn(Unsaved(w, v.run), v, h))
      && (LostIn(Unsaved(w, v.run), v, h) ==> v in db.hooks && w.births == [h])
  }

  // A row is inserted for the Hook that is created, or by a copy of the candidate for the
  // start Hook of the run it found.
  ghost predicate PutsOk(db: Db, w: Writes) {
    forall h | h in w.put ::
      w.births == [h] || (StartOf(h.run) == Some(h) && h.run in db.runs && Untouched(w, h))
  }

  ghost predicate HooksOk(db: Db, w: Writes) {
    (exists e :: Has(db, w, e)) && LedgerOk(db, w) && PutsOk(db, w)
  }

  ghost predicate StepsOk(db: Db, w: Writes) {
    forall s: StepId ::
      if s in w.steps then StepFits(StepAfter(db, w, s), Some(w.steps[s]))
      else StepUntouched(w, s) || StepFits(StepAfter(db, w, s), RowOf(db, s))
  }

  ghost predicate DecideOk(db: Db, w: Writes) {
    forall r | r in w.decide && w.decide[r].accepted :: r in db.runs || r in w.runs
  }

  ghost predicate Ready(db: Db, tx: Tx) {
    && Covered(db, tx.w, tx.locks)
    && FenceOk(db, tx)
    && RunsOk(db, tx.w)
    && HooksOk(db, tx.w)
    && StepsOk(db, tx.w)
    && DecideOk(db, tx.w)
  }

  // -------------------------------------------------------------------------
  // Committing

  lemma LogAfter(db: Db, w: Writes, r: RunId)
    ensures LogOf(Apply(db, w), r) == LogOf(db, r) + Unsaved(w, r)
  {
    if r !in db.log.Keys + w.log.Keys {
      assert LogOf(db, r) + Unsaved(w, r) == [];
    }
  }

  lemma SameLogs(db: Db, w: Writes)
    requires w.log == map[]
    ensures Apply(db, w).log == db.log
  {
    forall r | r in db.log
      ensures LogOf(db, r) + Unsaved(w, r) == db.log[r]
    {
      assert db.log[r] + [] == db.log[r];
    }
  }

  lemma Nothing<K, V>(m: map<K, V>)
    ensures m + map[] == m && m - {} == m
  {
  }

  // A commit leaves alone what it did not write.
  lemma Unwritten(db: Db, w: Writes)
    ensures var db' := Apply(db, w);
            && db'.now == db.now
            && (w.log == map[] ==> db'.log == db.log)
            && (w.seqs == map[] ==> db'.seqs == db.seqs)
            && (w.runs == map[] ==> db'.runs == db.runs)
            && (w.put == map[] ==> db'.hooks == db.hooks - w.del && db'.revived == db.revived)
            && (w.put == map[] && w.del == {} ==> db'.hooks == db.hooks)
            && (w.steps == map[] ==> db'.steps == db.steps)
            && (w.decide == map[] ==> db'.decided == db.decided)
            && (w.decide == map[] && w.forget == {} ==> db'.adm == db.adm)
            && (w.forget == {} ==> db'.adm == db.adm + w.decide)
            && (w.births == [] ==> db'.births == db.births)
  {
    if w.log == map[] { SameLogs(db, w); }
    hide LogOf, Unsaved, WasDisposed;
    Nothing(db.seqs);
    Nothing(db.runs);
    Nothing(db.hooks);
    Nothing(db.hooks - w.del);
    Nothing(db.steps);
    Nothing(db.decided);
    Nothing(db.adm);
    Nothing(db.adm - w.forget);
  }

  lemma OneLog(db: Db, w: Writes, r: RunId)
    requires w.log.Keys == {r} && r in db.log
    ensures Apply(db, w).log == db.log[r := db.log[r] + w.log[r]]
  {
    forall q | q in db.log && q != r
      ensures LogOf(db, q) + Unsaved(w, q) == db.log[q]
    {
      assert db.log[q] + [] == db.log[q];
    }
  }

  lemma HookAfter(db: Db, w: Writes, h: HookId)
    ensures Hook(Apply(db, w), h) == After(db, w, h)
    ensures Untouched(w, h) ==> After(db, w, h) == Hook(db, h)
  {
    LogAfter(db, w, h.run);
    if Untouched(w, h) {
      HookUnconcerned(LogOf(db, h.run), Unsaved(w, h.run), h);
    }
  }

  lemma CommitRunKeys(db: Db, w: Writes)
    requires db.runs.Keys == db.log.Keys == db.seqs.Keys && RunsOk(db, w)
    ensures var db' := Apply(db, w); db'.runs.Keys == db'.log.Keys == db'.seqs.Keys
  {
    ApplyKeys(db, w);
    hide Apply, WellBegun;
    assert forall r | r in w.runs.Keys || r in w.seqs.Keys :: r in db.log.Keys || r in w.log.Keys;
    assert forall r | r in w.log.Keys && r !in db.log.Keys :: r in w.runs.Keys && r in w.seqs.Keys;
  }

  lemma ApplyKeys(db: Db, w: Writes)
    ensures var db' := Apply(db, w);
            && db'.log.Keys == db.log.Keys + w.log.Keys
            && db'.runs.Keys == db.runs.Keys + w.runs.Keys
            && db'.seqs.Keys == db.seqs.Keys + w.seqs.Keys
  {
  }

  lemma CommitRuns(db: Db, w: Writes)
    requires RunsInv(db) && RunsOk(db, w)
    ensures RunsInv(Apply(db, w))
  {
    var db' := Apply(db, w);
    CommitRunKeys(db, w);
    forall r | r in db'.log
      ensures WellBegun(r, db'.log[r])
    {
      LogAfter(db, w, r);
      if r in db.log {
        assert WellBegun(r, db.log[r]);
        assert db'.log[r][0] == db.log[r][0];
      } else {
        assert [] + w.log[r] == w.log[r];
      }
    }
  }

  lemma CommitCount(db: Db, tx: Tx, q: RunId)
    requires FenceOk(db, tx) && q in db.seqs.Keys + tx.w.seqs.Keys && (q !in db.seqs ==> LogOf(db, q) == [])
    requires q in db.seqs ==> db.seqs[q] == 1 + Marks(LogOf(db, q))
    ensures (db.seqs + tx.w.seqs)[q] == 1 + Marks(LogOf(db, q)) + Marks(Unsaved(tx.w, q))
  {
  }

  lemma CommitFence(db: Db, tx: Tx)
    requires FenceInv(db) && RunsInv(db) && FenceOk(db, tx) && RunsOk(db, tx.w)
    ensures FenceInv(Apply(db, tx.w))
  {
    hide WellBegun;
    var db' := Apply(db, tx.w);
    forall q | q in db'.seqs
      ensures db'.seqs[q] == 1 + Marks(LogOf(db', q))
    {
      LogAfter(db, tx.w, q);
      MarksConcat(LogOf(db, q), Unsaved(tx.w, q));
      assert q in db.seqs.Keys <==> q in db.log.Keys;
      CommitCount(db, tx, q);
    }
  }

  lemma CommitOrder(db: Db, w: Writes, e: Effect)
    requires OrderInv(db) && RowsInv(db) && Has(db, w, e)
    ensures OrderInv(Apply(db, w))
  {
    hide HookOf, LogOf, After, Untouched;
    forall h: HookId | h !in Apply(db, w).revived
      ensures Hook(Apply(db, w), h) != Corrupt
    {
      HookAfter(db, w, h);
    }
  }

  lemma CommitTokens(db: Db, w: Writes, locks: set<Key>)
    requires TokensInv(db) && Covered(db, w, locks)
    ensures TokensInv(Apply(db, w))
  {
  }

  // A run that exists has created its start Hook.
  lemma StartHookExists(db: Db, r: RunId)
    requires RunsInv(db) && r in db.runs && r.start.Some?
    ensures !Hook(db, StartHook(r)).Absent?
  {
    assert r in db.log.Keys && WellBegun(r, db.log[r]);
    if Hook(db, StartHook(r)).Absent? {
      AbsentMeans(db.log[r], StartHook(r), 0);
    }
  }

  // A row that a commit inserts, and whose Hook's disposal is not in the log.
  lemma PutIsLive(db: Db, w: Writes, e: Effect, h: HookId)
    requires RunsInv(db) && OrderInv(db) && Has(db, w, e) && PutsOk(db, w) && h in w.put
    ensures !After(db, w, h).Absent?
    ensures h !in db.revived && !WasDisposed(LogOf(db, h.run), h) ==> After(db, w, h).Live?
  {
    HookAfter(db, w, h);
    if w.births != [h] {
      StartHookExists(db, h.run);
      if h !in db.revived && !WasDisposed(LogOf(db, h.run), h) {
        GoneMeans(LogOf(db, h.run), h);
      }
    }
  }

  lemma KeptIsLive(db: Db, w: Writes, e: Effect, h: HookId)
    requires RowsInv(db) && Has(db, w, e) && h in db.hooks && h !in w.del
    ensures !After(db, w, h).Absent?
    ensures h !in db.revived ==> After(db, w, h).Live?
  {
    hide HookOf, LogOf, Untouched;
    HookAfter(db, w, h);
  }

  lemma CommitRows(db: Db, w: Writes, e: Effect)
    requires RunsInv(db) && OrderInv(db) && RowsInv(db) && Has(db, w, e) && PutsOk(db, w)
    ensures RowsInv(Apply(db, w))
  {
    hide RunsInv, OrderInv, RowsInv, HookOf, Has, PutsOk, After;
    forall h | h in Apply(db, w).hooks
      ensures !Hook(Apply(db, w), h).Absent?
      ensures h !in Apply(db, w).revived ==> Hook(Apply(db, w), h).Live?
    {
      HookAfter(db, w, h);
      if h in w.put {
        PutIsLive(db, w, e, h);
      } else {
        KeptIsLive(db, w, e, h);
      }
    }
    RowsAre(Apply(db, w));
  }

  lemma RowsAre(db: Db)
    requires forall h | h in db.hooks :: !Hook(db, h).Absent? && (h !in db.revived ==> Hook(db, h).Live?)
    ensures RowsInv(db)
  {
  }

  lemma StillDisposed(a: Log, b: Log, h: HookId)
    requires WasDisposed(a, h)
    ensures WasDisposed(a + b, h)
  {
    var i :| 0 <= i < |a| && Disposes(a[i].ev, h);
    assert (a + b)[i] == a[i];
  }

  lemma CommitRevived(db: Db, w: Writes, e: Effect)
    requires RevivedInv(db) && Has(db, w, e) && PutsOk(db, w)
    ensures RevivedInv(Apply(db, w))
  {
    forall h | h in Apply(db, w).revived
      ensures StartOf(h.run) == Some(h) && WasDisposed(LogOf(Apply(db, w), h.run), h)
    {
      LogAfter(db, w, h.run);
      hide Apply, Untouched, After;
      StillDisposed(LogOf(db, h.run), Unsaved(w, h.run), h);
      if h !in db.revived && w.births == [h] {
        var i :| 0 <= i < |LogOf(db, h.run)| && Disposes(LogOf(db, h.run)[i].ev, h);
        AbsentMeans(LogOf(db, h.run), h, i);
      }
    }
  }

  // What the logs of the two Hooks say of a takeover after a commit.
  lemma LedgerAfter(db: Db, w: Writes, v: HookId, h: HookId)
    ensures Took(Apply(db, w), h, v) <==> Took(db, h, v) || TookIn(Unsaved(w, h.run), h, v)
    ensures Lost(Apply(db, w), v, h) <==> Lost(db, v, h) || LostIn(Unsaved(w, v.run), v, h)
  {
    hide Apply, LostIn, TookIn;
    LogAfter(db, w, v.run);
    LogAfter(db, w, h.run);
    TookConcat(LogOf(db, h.run), Unsaved(w, h.run), h, v);
    LostConcat(LogOf(db, v.run), Unsaved(w, v.run), v, h);
  }

  lemma CommitLedger(db: Db, w: Writes)
    requires LedgerInv(db) && LedgerOk(db, w)
    ensures LedgerInv(Apply(db, w))
  {
    hide Apply, LogOf, LostIn, TookIn;
    forall v: HookId, h: HookId
      ensures Took(Apply(db, w), h, v) <==> Lost(Apply(db, w), v, h)
    {
      LedgerAfter(db, w, v, h);
    }
  }

  // Whoever is in the ledger has been created.
  lemma LostWereBorn(db: Db, v: HookId, h: HookId)
    requires LedgerInv(db) && BirthInv(db) && Lost(db, v, h)
    ensures v in db.births && h in db.births
  {
    var i :| 0 <= i < |LogOf(db, v.run)| && LosesTo(LogOf(db, v.run)[i].ev, v, h);
    if Hook(db, v).Absent? { AbsentMeans(LogOf(db, v.run), v, i); }
    assert Took(db, h, v);
    var j :| 0 <= j < |LogOf(db, h.run)| && TakesFrom(LogOf(db, h.run)[j].ev, h, v);
    if Hook(db, h).Absent? { AbsentMeans(LogOf(db, h.run), h, j); }
  }

  lemma CommitBorn(db: Db, w: Writes, e: Effect)
    requires BirthInv(db) && RowsInv(db) && Has(db, w, e)
    ensures var db' := Apply(db, w);
            && (forall i, j | 0 <= i < j < |db'.births| :: db'.births[i] != db'.births[j])
            && (forall h: HookId :: h in db'.births <==> !Hook(db', h).Absent?)
  {
    hide HookOf, LogOf, After, Untouched;
    var db' := Apply(db, w);
    forall h: HookId
      ensures h in db'.births <==> !Hook(db', h).Absent?
    {
      HookAfter(db, w, h);
    }
  }

  lemma CommitBirths(db: Db, w: Writes, e: Effect)
    requires BirthInv(db) && RowsInv(db) && LedgerInv(db) && Has(db, w, e) && LedgerOk(db, w)
    ensures BirthInv(Apply(db, w))
  {
    var db' := Apply(db, w);
    CommitBorn(db, w, e);
    assert db'.births == db.births + w.births;
    hide Apply, Has, LedgerInv;
    forall i, j | 0 <= i < |db'.births| && 0 <= j < |db'.births| && Lost(db', db'.births[i], db'.births[j])
      ensures i < j
    {
      LedgerAfter(db, w, db'.births[i], db'.births[j]);
      TakerIsYounger(db, w, i, j);
    }
  }

  lemma TakerIsYounger(db: Db, w: Writes, i: nat, j: nat)
    requires BirthInv(db) && RowsInv(db) && LedgerInv(db) && LedgerOk(db, w)
    requires var births := db.births + w.births;
             && i < |births| && j < |births|
             && (forall x, y | 0 <= x < y < |births| :: births[x] != births[y])
             && (Lost(db, births[i], births[j]) || LostIn(Unsaved(w, births[i].run), births[i], births[j]))
    ensures i < j
  {
    hide LedgerInv, HookOf, LogOf, LostIn, TookIn, Lost;
    var births := db.births + w.births;
    var v, h := births[i], births[j];
    if Lost(db, v, h) {
      LostWereBorn(db, v, h);
      var x :| 0 <= x < |db.births| && db.births[x] == v;
      var y :| 0 <= y < |db.births| && db.births[y] == h;
      assert births[x] == v && births[y] == h;
      assert x == i && y == j;
    } else {
      assert v in db.hooks && w.births == [h];
      var x :| 0 <= x < |db.births| && db.births[x] == v;
      assert births[x] == v && births[|db.births|] == h;
      assert x == i && |db.births| == j;
    }
  }

  lemma CommitSteps(db: Db, w: Writes)
    requires StepInv(db) && StepsOk(db, w)
    ensures StepInv(Apply(db, w))
  {
    var db' := Apply(db, w);
    forall s: StepId
      ensures StepFits(Step(db', s), RowOf(db', s))
    {
      LogAfter(db, w, s.run);
      assert StepFits(Step(db, s), RowOf(db, s));
      if StepUntouched(w, s) {
        StepUnconcerned(LogOf(db, s.run), Unsaved(w, s.run), s);
      }
    }
  }

  lemma CommitAccepted(db: Db, w: Writes)
    requires AcceptedInv(db) && DecideOk(db, w)
    ensures AcceptedInv(Apply(db, w))
  {
  }

  lemma CommitKeeps(db: Db, tx: Tx)
    requires DbInv(db) && Ready(db, tx)
    ensures DbInv(Apply(db, tx.w))
  {
    hide RunsInv, FenceInv, OrderInv, RowsInv, TokensInv, RevivedInv, LedgerInv, BirthInv, StepInv, AcceptedInv, Apply,
      Covered, FenceOk, RunsOk, Has, LedgerOk, PutsOk, StepsOk, DecideOk;
    var e :| Has(db, tx.w, e);
    CommitRuns(db, tx.w);
    CommitFence(db, tx);
    CommitOrder(db, tx.w, e);
    CommitRows(db, tx.w, e);
    CommitTokens(db, tx.w, tx.locks);
    CommitRevived(db, tx.w, e);
    CommitLedger(db, tx.w);
    CommitBirths(db, tx.w, e);
    CommitSteps(db, tx.w);
    CommitAccepted(db, tx.w);
  }
}
