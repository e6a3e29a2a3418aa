/**
 What is true of an open transaction between two of its statements (`TxInv`), and why
 the other transactions cannot make it false: everything it says about the committed
 rows is either under one of the transaction's own locks or only ever becomes more
 true (`Rely`).
 */
module Shapes {
  import opened Options
  import opened EventLog
  import opened Database
  import opened Invariant

  ghost predicate Says(es: Log, evs: seq<Event>) {
    |es| == |evs| && forall i | 0 <= i < |es| :: es[i].ev == evs[i]
  }

  ghost predicate Idle(tx: Tx) {
    tx.w == NOTHING && !tx.consumed
  }

  // The log writes so far are `evs`, all on run `r`, and touch existing runs only.
  ghost predicate Logged(db: Db, w: Writes, r: RunId, evs: seq<Event>) {
    && (if evs == [] then w.log == map[] else w.log.Keys == {r} && Says(w.log[r], evs))
    && Existing(db, w)
  }

  ghost predicate Existing(db: Db, w: Writes) {
    w.log.Keys <= db.log.Keys && w.seqs.Keys <= db.log.Keys && w.runs.Keys <= db.log.Keys
  }

  // `w` is `base` but for the slots it took.
  predicate Upon(w: Writes, base: Writes) {
    w == base.(log := w.log, seqs := w.seqs)
  }

  // -------------------------------------------------------------------------
  // Runs

  ghost predicate PlainShape(db: Db, tx: Tx)
    requires tx.job.Plain?
  {
    match tx.pc
    case First => Idle(tx)
    case Journal(ev) => ev.Other? && Idle(tx)
    case Done => Upon(tx.w, NOTHING) && Logged(db, tx.w, tx.job.run, [Other])
    case _ => false
  }

  ghost predicate StartShape(db: Db, tx: Tx)
    requires tx.job.Start?
  {
    var r := tx.job.run;
    match tx.pc
    case First => Idle(tx)
    case Journal(ev) =>
      ev.RunStarted? && !tx.consumed && tx.w == NOTHING.(runs := tx.w.runs) && Logged(db, tx.w, r, [])
    case Done =>
      && Upon(tx.w, NOTHING.(runs := tx.w.runs))
      && (Logged(db, tx.w, r, [RunStarted]) || Idle(tx))
    case _ => false
  }

  ghost predicate EndShape(db: Db, tx: Tx)
    requires tx.job.End?
  {
    var base := NOTHING.(runs := tx.w.runs, del := tx.w.del);
    match tx.pc
    case First => Idle(tx)
    case UpdateRun => Idle(tx)
    case ReleaseHooks => !tx.consumed && tx.w == base && Logged(db, tx.w, tx.job.run, [])
    case Journal(ev) => ev.RunEnded? && !tx.consumed && tx.w == base && Logged(db, tx.w, tx.job.run, [])
    case Done => Upon(tx.w, base) && Logged(db, tx.w, tx.job.run, [RunEnded])
    case _ => false
  }

  // -------------------------------------------------------------------------
  // Hooks

  ghost predicate DisposeShape(db: Db, tx: Tx)
    requires tx.job.Dispose?
  {
    var h := tx.job.hook;
    var base := NOTHING.(del := {h});
    match tx.pc
    case First => Idle(tx)
    case DeleteRow => Idle(tx)
    case Journal(ev) => ev == HookDisposed(h, None) && !tx.consumed && tx.w == base
    case Done => Upon(tx.w, base) && Logged(db, tx.w, h.run, [HookDisposed(h, None)])
    case _ => false
  }

  ghost predicate ReceiveShape(db: Db, tx: Tx)
    requires tx.job.Receive?
  {
    var h := tx.job.hook;
    var held := HookRow(h) in tx.locks && h in db.hooks;
    match tx.pc
    case First => Idle(tx)
    case LockOwner => Idle(tx)
    case LockDelivered => Idle(tx)
    case Journal(ev) => ev == HookReceived(h) && Idle(tx) && held
    case Done => Upon(tx.w, NOTHING) && Logged(db, tx.w, h.run, [HookReceived(h)]) && held
    case _ => false
  }

  // The row of the victim is locked and still holds the token.
  ghost predicate Holding(db: Db, tx: Tx, v: HookId)
    requires tx.job.HookNew?
  {
    && v != tx.job.hook
    && HookRow(v) in tx.locks
    && v in db.hooks && db.hooks[v] == tx.job.token
  }

  // What has been journaled for the victim of a takeover.
  ghost predicate Unseated(db: Db, tx: Tx, v: HookId, running: bool)
    requires tx.job.HookNew?
  {
    Logged(db, tx.w, v.run, if running then [HookDisposed(v, Some(Taking(tx.job.hook, tx.job.token)))] else [])
  }

  ghost predicate HookNewShape(db: Db, tx: Tx)
    requires tx.job.HookNew?
  {
    var h, t, w := tx.job.hook, tx.job.token, tx.w;
    match tx.pc
    case First => Idle(tx)
    case ReadToken => Idle(tx) && h.n != 0
    case Release => Idle(tx) && h.n != 0
    case Insert => !tx.consumed && w == NOTHING.(del := w.del) && h.n != 0
    case LostClaim => Idle(tx) && h.n != 0
    case Resolve => Idle(tx) && h.n != 0
    case LockRun(v) => Idle(tx) && h.n != 0
    case LockHook(v, owner) => Idle(tx) && h.n != 0
    case DisposeVictim(v) => Idle(tx) && h.n != 0 && Holding(db, tx, v)
    case DeleteVictim(v, running) =>
      Upon(w, NOTHING) && h.n != 0 && Holding(db, tx, v) && Unseated(db, tx, v, running)
    case InsertTaken(v, running) =>
      Upon(w, NOTHING.(del := {v})) && h.n != 0 && Holding(db, tx, v) && Unseated(db, tx, v, running)
    case Journal(ev) =>
      && h.n != 0
      && (|| (ev == HookConflict(h) && Idle(tx))
          || (ev == HookCreated(h, None) && !tx.consumed
              && ((w == NOTHING.(del := w.del) && Journaled(LogOf(db, h.run), ev))
                  || w == NOTHING.(del := w.del, put := map[h := t])))
          || (ev.HookCreated? && ev.hook == h && ev.from.Some?
              && var Claim(v, running) := ev.from.value;
                 && Upon(w, NOTHING.(del := {v}, put := map[h := t]))
                 && Holding(db, tx, v) && Unseated(db, tx, v, running)))
    case Done =>
      && h.n != 0
      && (|| (Upon(w, NOTHING) && Logged(db, w, h.run, [HookConflict(h)]))
          || (Upon(w, NOTHING.(del := w.del, put := map[h := t], births := [h]))
              && Logged(db, w, h.run, [HookCreated(h, None)]) && Hook(db, h).Absent?)
          || (exists v, running :: TakenShape(db, tx, v, running)))
    case _ => false
  }

  ghost predicate TakenShape(db: Db, tx: Tx, v: HookId, running: bool)
    requires tx.job.HookNew?
  {
    var h, t, w := tx.job.hook, tx.job.token, tx.w;
    && Upon(w, NOTHING.(del := {v}, put := map[h := t], births := [h]))
    && Holding(db, tx, v) && Existing(db, w) && Hook(db, h).Absent?
    && TakenLog(w, h, t, v, running)
  }

  // Its entries: the victim's disposal if its run was running, and then the creation.
  ghost predicate TakenLog(w: Writes, h: HookId, t: Token, v: HookId, running: bool) {
    var made := HookCreated(h, Some(Claim(v, running)));
    var disposed := if running then [HookDisposed(v, Some(Taking(h, t)))] else [];
    && w.log.Keys == {h.run} + (if running then {v.run} else {})
    && (if v.run == h.run then Says(w.log[h.run], disposed + [made])
        else Says(w.log[h.run], [made]) && (running ==> Says(w.log[v.run], disposed)))
  }

  // -------------------------------------------------------------------------
  // Steps

  ghost predicate StepNewShape(db: Db, tx: Tx)
    requires tx.job.StepNew?
  {
    var s, w := tx.job.step, tx.w;
    var row := if w.steps == map[] then s in db.steps
               else w.steps == map[s := StepRow(StepPending, 0)] && s !in db.steps;
    match tx.pc
    case First => Idle(tx)
    case InsertStep => Idle(tx)
    case Journal(ev) =>
      ev == StepCreated(s) && !tx.consumed && w == NOTHING.(steps := w.steps) && row
    case Done =>
      && Upon(w, NOTHING.(steps := w.steps)) && row
      && Logged(db, w, s.run, [StepCreated(s)]) && !Step(db, s).created
    case _ => false
  }

  // The row a lazy start inserted, with the creation it journaled before spec 9.
  ghost predicate Inserted(db: Db, tx: Tx, row: StepRow)
    requires tx.job.StepStart?
  {
    var s := tx.job.step;
    && s !in db.steps
    && Upon(tx.w, NOTHING.(steps := map[s := row]))
    && (Logged(db, tx.w, s.run, []) || Logged(db, tx.w, s.run, [StepCreated(s)]))
  }

  ghost predicate StepStartShape(db: Db, tx: Tx)
    requires tx.job.StepStart?
  {
    var StepStart(s, lazy) := tx.job;
    var w := tx.w;
    match tx.pc
    case First => Idle(tx)
    case ReadStep(_) => Idle(tx)
    case InsertStep => Idle(tx) && lazy
    case UpdateStep =>
      if lazy then Inserted(db, tx, StepRow(StepPending, 0)) && Steps(s) in tx.locks
      else Idle(tx) && s in db.steps
    case RecheckStep => Idle(tx) && s in db.steps && db.steps[s].status.Terminal()
    case Journal(ev) =>
      && ev == StepStarted(s, lazy)
      && (if lazy then Inserted(db, tx, StepRow(StepRunning, 1))
          else !tx.consumed && s in db.steps && !db.steps[s].status.Terminal()
               && w == NOTHING.(steps := map[s := StepRow(StepRunning, db.steps[s].attempt + 1)]))
    case Done =>
      && s in w.steps && Upon(w, NOTHING.(steps := map[s := w.steps[s]]))
      && (Logged(db, w, s.run, [StepStarted(s, lazy)])
          || Logged(db, w, s.run, [StepCreated(s), StepStarted(s, lazy)]))
      && StepFits(StepAfter(db, w, s), Some(w.steps[s]))
    case _ => false
  }

  ghost predicate StepEndShape(db: Db, tx: Tx)
    requires tx.job.StepEnd?
  {
    var StepEnd(s, outcome) := tx.job;
    var w := tx.w;
    match tx.pc
    case First => Idle(tx) && s in db.steps
    case UpdateStep => Idle(tx) && s in db.steps && outcome.Terminal()
    case RecheckStep => Idle(tx) && s in db.steps && db.steps[s].status.Terminal()
    case Journal(ev) =>
      && ev == StepEnded(s) && !tx.consumed
      && w == NOTHING.(steps := w.steps) && EndRow(db, tx)
    case Done =>
      Upon(w, NOTHING.(steps := w.steps)) && Logged(db, w, s.run, [StepEnded(s)]) && EndRow(db, tx)
    case _ => false
  }

  // The step is ended by this request, and nobody has journaled it yet.
  ghost predicate EndRow(db: Db, tx: Tx)
    requires tx.job.StepEnd?
  {
    var StepEnd(s, outcome) := tx.job;
    && Ticket(s) in tx.locks && s in db.steps && !Step(db, s).ended
    && (if tx.w.steps == map[] then db.steps[s].status.Terminal()
        else outcome.Terminal() && tx.w.steps == map[s := db.steps[s].(status := outcome)])
  }

  ghost predicate StepRetryShape(db: Db, tx: Tx)
    requires tx.job.StepRetry?
  {
    var s, w := tx.job.step, tx.w;
    var row := w.steps == map[]
               || (s in db.steps && w.steps == map[s := db.steps[s].(status := StepPending)]);
    match tx.pc
    case First => Idle(tx)
    case UpdateStep => Idle(tx)
    case Journal(ev) => ev == StepRetrying(s) && !tx.consumed && w == NOTHING.(steps := w.steps) && row
    case Done => Upon(w, NOTHING.(steps := w.steps)) && Logged(db, w, s.run, [StepRetrying(s)]) && row
    case _ => false
  }

  // -------------------------------------------------------------------------
  // The creation of a run

  // The token is claimed and the acceptance recorded.
  predicate Accepting(w: Writes, r: RunId) {
    && r.start.Some? && w.put == map[StartHook(r) := r.start.value]
    && r in w.decide && w.decide == map[r := Decision(true, w.decide[r].at)]
  }

  // This transaction creates the run ...
  ghost predicate Creating(db: Db, tx: Tx, r: RunId) {
    && r !in db.runs
    && (if r.start.None? then tx.w.decide == map[] && tx.w.put == map[] && tx.w.forget == {} && tx.w.del == {}
        else Accepting(tx.w, r))
  }

  // ... or goes on with a run that exists. An attempt that claimed the token before it
  // found the run, or the other copy's acceptance, still has its start Hook row to commit.
  ghost predicate Resumed(db: Db, tx: Tx, r: RunId) {
    && r in db.runs && tx.w.births == [] && (r.start.None? ==> tx.w.forget == {})
    && (|| Accepting(tx.w, r)
        || (tx.w.decide == map[]
            && (tx.w.put == map[] || (r.start.Some? && tx.w.put == map[StartHook(r) := r.start.value]))))
  }

  ghost predicate CreateShape(db: Db, tx: Tx)
    requires tx.job.Create?
  {
    var r, w := tx.job.run, tx.w;
    var tidy := NOTHING.(forget := w.forget, del := w.del);
    var some := r.start.Some?;
    match tx.pc
    case First => Idle(tx)
    case Recorded => Idle(tx) && some
    case CheckAge => Idle(tx) && some
    case CheckRun => Idle(tx) && some
    case ForgetOld => Idle(tx) && some
    case ReleaseToken => !tx.consumed && w == tidy && some
    case FindOwner => !tx.consumed && w == tidy && some
    case ClaimToken => !tx.consumed && w == tidy && some
    case LostToken(_) => !tx.consumed && w == tidy && some
    case RecordRefusal => !tx.consumed && w == tidy && some
    case RecordAcceptance => !tx.consumed && some && w == tidy.(put := map[StartHook(r) := r.start.value])
    case InsertRun =>
      && !tx.consumed && w == tidy.(put := w.put, decide := w.decide)
      && (if some then Accepting(w, r) else Idle(tx))
    case OpenSlots =>
      && !tx.consumed && w == tidy.(put := w.put, decide := w.decide, runs := w.runs)
      && Creating(db, tx, r) && w.runs.Keys == {r}
    case AfterCreate => !tx.consumed && CreatedShape(db, tx, []) && Unstarted(w)
    case Journal(ev) => ev.RunStarted? && !tx.consumed && CreatedShape(db, tx, [])
    case Done =>
      || (CreatedShape(db, tx, []) && Unstarted(w))
      || CreatedShape(db, tx, [RunStarted])
      || (some && w == tidy)
      || (some && r in w.decide && w == tidy.(decide := map[r := Decision(false, w.decide[r].at)]))
    case _ => false
  }

  // Until it takes a slot, it has no run row to commit.
  predicate Unstarted(w: Writes) {
    w.log == map[] ==> w.runs == map[]
  }

  ghost predicate CreatedShape(db: Db, tx: Tx, more: seq<Event>)
    requires tx.job.Create?
  {
    var r, w := tx.job.run, tx.w;
    && w == Writes(w.log, w.seqs, w.runs, w.put, w.del, map[], w.decide, w.forget, w.births)
    && w.runs.Keys <= {r}
    && (|| (&& Creating(db, tx, r) && w.runs.Keys == {r}
            && w.births == (if r.start.Some? then [StartHook(r)] else [])
            && r in w.seqs && w.log.Keys == {r}
            && Says(w.log[r], [RunCreated(StartOf(r))] + more))
        || (Resumed(db, tx, r) && Logged(db, w, r, more)))
  }

  // -------------------------------------------------------------------------
  // Every transaction

  ghost predicate JobShape(db: Db, tx: Tx) {
    match tx.job
    case Plain(_) => PlainShape(db, tx)
    case Create(_, _, _) => CreateShape(db, tx)
    case Start(_) => StartShape(db, tx)
    case End(_, _) => EndShape(db, tx)
    case HookNew(_, _, _) => HookNewShape(db, tx)
    case Dispose(_) => DisposeShape(db, tx)
    case Receive(_) => ReceiveShape(db, tx)
    case StepNew(_) => StepNewShape(db, tx)
    case StepStart(_, _) => StepStartShape(db, tx)
    case StepEnd(_, _) => StepEndShape(db, tx)
    case StepRetry(_) => StepRetryShape(db, tx)
  }

  // A ticket is held under the step's lock or for a step that has ended.
  ghost predicate TicketOk(db: Db, tx: Tx) {
    forall s | Ticket(s) in tx.locks ::
      && tx.job.StepEnd? && tx.job.step == s
      && (Steps(s) in tx.locks || (s in db.steps && db.steps[s].status.Terminal()))
  }

  ghost predicate Timely(db: Db, tx: Tx) {
    && tx.began <= db.now
    && (tx.job.Create? ==> tx.job.run.born <= tx.began + CLOCK_SLACK)
    && (tx.job.StepEnd? || tx.job.StepRetry? ==> tx.job.step in db.steps)
  }

  // What every statement keeps, whatever the request.
  ghost predicate Guarded(db: Db, tx: Tx) {
    TicketOk(db, tx) && Timely(db, tx) && Covered(db, tx.w, tx.locks) && FenceOk(db, tx)
  }

  ghost predicate TxInv(db: Db, tx: Tx) {
    if tx.pc.Aborted? then TicketOk(db, tx) && Timely(db, tx)
    else Guarded(db, tx) && (if tx.pc.Begin? then Idle(tx) && tx.locks == {} else JobShape(db, tx))
  }

  // -------------------------------------------------------------------------
  // What the others may do meanwhile

  ghost predicate SameOn(db: Db, db': Db, k: Key) {
    match k
    case Fence(r) => (r in db.seqs <==> r in db'.seqs) && (r in db.seqs ==> db.seqs[r] == db'.seqs[r])
    case Row(r) => (r in db.runs <==> r in db'.runs) && (r in db.runs ==> db.runs[r] == db'.runs[r])
    case Tail(r) => (r in db.log <==> r in db'.log) && (r in db.log ==> db.log[r] == db'.log[r])
    case HookRow(h) => (h in db.hooks <==> h in db'.hooks) && (h in db.hooks ==> db.hooks[h] == db'.hooks[h])
    case Claims(t) =>
      forall h: HookId :: (h in db.hooks && db.hooks[h] == t) <==> (h in db'.hooks && db'.hooks[h] == t)
    case Admission(r) =>
      && (r in db.adm <==> r in db'.adm) && (r in db.adm ==> db.adm[r] == db'.adm[r])
      && (r in db.decided <==> r in db'.decided)
    case Steps(s) => RowOf(db, s) == RowOf(db', s)
    case Ticket(s) => Step(db, s).ended == Step(db', s).ended
  }

  ghost predicate Rely(db: Db, db': Db, locks: set<Key>) {
    && db.now <= db'.now
    && db.runs.Keys <= db'.runs.Keys
    && (forall r | r in db.log :: r in db'.log && db.log[r] <= db'.log[r])
    && (forall s | s in db.steps ::
          s in db'.steps && (db.steps[s].status.Terminal() ==> db'.steps[s].status.Terminal()))
    && (forall k | k in locks :: SameOn(db, db', k))
  }

  lemma CoveredFrame(db: Db, db': Db, w: Writes, locks: set<Key>)
    requires Covered(db, w, locks) && Rely(db, db', locks)
    ensures Covered(db', w, locks)
  {
    forall h | h in w.put
      ensures h !in db'.hooks || h in w.del
      ensures forall g | g in db'.hooks && g !in w.del :: db'.hooks[g] != w.put[h]
    {
      assert SameOn(db, db', HookRow(h)) && SameOn(db, db', Claims(w.put[h]));
    }
    forall h | h in w.del
      ensures h in db'.hooks && Claims(db'.hooks[h]) in locks
    {
      assert SameOn(db, db', HookRow(h));
    }
    forall s | s in w.steps && s in db'.steps
      ensures !db'.steps[s].status.Terminal()
    {
      assert SameOn(db, db', Steps(s));
    }
  }

  lemma FenceFrame(db: Db, db': Db, tx: Tx)
    requires FenceOk(db, tx) && Rely(db, db', tx.locks)
    ensures FenceOk(db', tx)
  {
    if Fence(RunOf(tx.job)) in tx.locks {
      assert SameOn(db, db', Fence(RunOf(tx.job)));
    }
  }

  lemma TicketFrame(db: Db, db': Db, tx: Tx)
    requires TicketOk(db, tx) && Rely(db, db', tx.locks)
    ensures TicketOk(db', tx)
  {
  }

  // Under the tail of a run, its Hooks and steps read the same.
  lemma TailFrame(db: Db, db': Db, locks: set<Key>, r: RunId)
    requires Rely(db, db', locks) && Tail(r) in locks
    ensures LogOf(db', r) == LogOf(db, r)
  {
    assert SameOn(db, db', Tail(r));
  }

  // -------------------------------------------------------------------------
  // Taking a slot

  function Slotted(tx: Tx, r: RunId, ev: Event, next: Pc): Tx {
    (if Advances(tx, r) then TakeInBandSlot(tx, r, ev) else TakeSlot(tx, r, ev)).(pc := next)
  }

  // An insert that went through: the slot is taken, and its event was not there before.
  ghost predicate Appended(db: Db, tx: Tx, tx': Tx, r: RunId, ev: Event, next: Pc) {
    && tx' == Slotted(tx, r, ev, next)
    && (r in db.seqs || r in tx.w.seqs)
    && !Journaled(LogOf(db, r) + Unsaved(tx.w, r), ev)
  }

  lemma AppendDoes(db: Db, held: set<Key>, tx: Tx, r: RunId, ev: Event, next: Pc)
    requires !next.Aborted?
    ensures var o := Append(db, held, tx, r, ev, next);
            o.Go? ==> Appended(db, tx, o.tx, r, ev, next) || o.tx == tx.(pc := Aborted)
  {
  }

  // What it leaves in the transaction's writes.
  lemma SlottedWrites(tx: Tx, r: RunId, ev: Event, next: Pc) returns (m: Option<Writer>)
    ensures var tx' := Slotted(tx, r, ev, next);
            && tx'.w == Push(tx.w, r, Entry(ev, m)).(seqs := tx'.w.seqs)
            && tx.w.seqs.Keys <= tx'.w.seqs.Keys <= tx.w.seqs.Keys + {r}
            && tx.locks + {Tail(r)} <= tx'.locks <= tx.locks + {Tail(r), Fence(r)}
            && (r in tx'.w.seqs ==> r in tx.w.seqs || Fence(r) in tx'.locks)
            && tx'.job == tx.job && tx'.pc == next && tx'.began == tx.began
  {
    m := if Advances(tx, r) then Some(tx.fence.value.writer) else None;
  }

  lemma SlotExists(db: Db, w: Writes, w': Writes, r: RunId, e: Entry)
    requires RunsInv(db) && Existing(db, w) && (r in db.seqs || r in w.seqs)
    requires w' == Push(w, r, e).(seqs := w'.seqs) && w'.seqs.Keys <= w.seqs.Keys + {r}
    ensures Existing(db, w')
  {
    assert db.seqs.Keys == db.log.Keys;
  }

  // An unmarked slot leaves the count alone.
  lemma UnmarkedFence(db: Db, tx: Tx, r: RunId, ev: Event)
    requires FenceOk(db, tx) && !Advances(tx, r)
    ensures FenceOk(db, TakeSlot(tx, r, ev))
  {
    var tx' := TakeSlot(tx, r, ev);
    MarksPush(Unsaved(tx.w, r), Entry(ev, None));
    assert forall q | q != r :: Unsaved(tx'.w, q) == Unsaved(tx.w, q);
    forall q | q in tx'.w.log && q != RunOf(tx.job)
      ensures Marks(tx'.w.log[q]) == 0
    {
      if q == r && q !in tx.w.log {
        assert Unsaved(tx.w, r) == [];
      }
    }
  }

  // The first slot of an in-band write on its own run moves it by one.
  lemma MarkedFence(db: Db, tx: Tx, r: RunId, ev: Event)
    requires FenceOk(db, tx) && Advances(tx, r)
    requires SeqOf(db, tx, r) == Some(tx.fence.value.expected)
    ensures FenceOk(db, TakeInBandSlot(tx, r, ev))
  {
    var tx' := TakeInBandSlot(tx, r, ev);
    MarksPush(Unsaved(tx.w, r), Entry(ev, Some(tx.fence.value.writer)));
    assert forall q | q in tx'.w.log && q != r :: q in tx.w.log && tx'.w.log[q] == tx.w.log[q];
  }

  lemma PcFence(db: Db, tx: Tx, pc: Pc)
    requires FenceOk(db, tx)
    ensures FenceOk(db, tx.(pc := pc))
  {
  }

  lemma AppendFence(db: Db, held: set<Key>, tx: Tx, r: RunId, ev: Event, next: Pc)
    requires FenceOk(db, tx)
    ensures var o := Append(db, held, tx, r, ev, next); o.Go? ==> FenceOk(db, o.tx)
  {
    PcFence(db, tx, Aborted);
    if Advances(tx, r) {
      if SeqOf(db, tx, r) == Some(tx.fence.value.expected) {
        MarkedFence(db, tx, r, ev);
        PcFence(db, TakeInBandSlot(tx, r, ev), next);
      }
    } else {
      UnmarkedFence(db, tx, r, ev);
      PcFence(db, TakeSlot(tx, r, ev), next);
    }
  }
}
