/**
 The writers: every statement of `create`, one step at a time.

 `Exec` runs the next statement of an open request against the committed rows and
 the locks of the other transactions. `Moved` interleaves the statements of any number
 of requests with commits, rollbacks at any point, and the clock. A request that is
 not in-band commits statement by statement where the source does (`Boundary`); an
 in-band one is a single transaction behind the run's fence.
 */
module Protocol {
  import opened Options
  import opened EventLog
  import opened Database

  const FORCE_CLAIM_SPEC: nat := 8
  const SINGLE_ORCHESTRATOR_SPEC: nat := 9
  const FORGET_BATCH: nat := 100

  // -------------------------------------------------------------------------
  // hook_created

  ghost function ExecHookNew(db: Db, held: set<Key>, tx: Tx, c: Choice): Outcome
    requires tx.job.HookNew?
  {
    var HookNew(h, t, force) := tx.job;
    match tx.pc
    case First =>
      if h.n == 0 || h.run !in db.runs || db.runs[h.run].status.Terminal() then Abort(tx)
      else At(tx, ReadToken)
    case ReadToken =>
      if !TokenRead(db, db.hooks, t, c.row) then Blocked
      else (match c.row
            case None => At(tx, Release)
            case Some(v) =>
              if v == h then
                (if Journaled(LogOf(db, h.run), HookCreated(h, None)) then Abort(tx)
                 else At(tx, Journal(HookCreated(h, None))))
              else if force then At(tx, Resolve)
              else At(tx, Journal(HookConflict(h))))
    case Release => ExecRelease(db, held, tx, t, c, Insert)
    case Insert =>
      if HookRow(h) in held then Blocked
      else if h in Visible(db, tx.w) then At(tx, Journal(HookCreated(h, None)))
      else if Claims(t) in held then Blocked
      else if TokenHeld(Visible(db, tx.w), t) then Reset(tx, LostClaim)
      else PutHook(tx, h, t, Journal(HookCreated(h, None)))
    case LostClaim =>
      if !TokenRead(db, db.hooks, t, c.row) then Blocked
      else if c.row.None? || c.row == Some(h) then Abort(tx)
      else At(tx, Journal(HookConflict(h)))
    case _ => ExecTakeover(db, held, tx, c)
  }

  // Delete the row of a token whose run has ended and whose retention has passed.
  ghost function ExecRelease(db: Db, held: set<Key>, tx: Tx, t: Token, c: Choice, next: Pc): Outcome {
    match c.row
    case None => At(tx, next)
    case Some(v) =>
      if v in db.hooks && v !in tx.w.del && db.hooks[v] == t && OwnerTerminal(db, v)
      then Remove(db, held, tx, v, next)
      else Blocked
  }

  // createHook({ experimental_force: true }): take the token over.
  ghost function ExecTakeover(db: Db, held: set<Key>, tx: Tx, c: Choice): Outcome
    requires tx.job.HookNew?
  {
    var HookNew(h, t, force) := tx.job;
    match tx.pc
    case Resolve =>
      (match c.row
       case Some(v) => if v in db.hooks && db.hooks[v] == t then At(tx, LockRun(v)) else Blocked
       case None => if TokenHeld(db.hooks, t) then Blocked else At(tx, Release))
    case LockRun(v) =>
      if Row(v.run) in held then Blocked
      else Go(tx.(pc := LockHook(v, if v.run in db.runs then Some(db.runs[v.run]) else None),
                  locks := tx.locks + {Row(v.run)}))
    case LockHook(v, owner) =>
      (match c.row
       // The row the statement waited for was deleted: it returns none.
       case None => if v in db.hooks then Blocked else Reset(tx, Release)
       case Some(x) =>
         if x !in db.hooks || db.hooks[x] != t || HookRow(x) in held then Blocked
         else if x != v then Reset(tx, Resolve)
         else if v == h then Abort(tx)
         else
           var running := owner.Some? && !owner.value.status.Terminal();
           if owner.Some? && !running && !c.retained then Reset(tx, Release)
           else if running && owner.value.spec < FORCE_CLAIM_SPEC then
             Reset(tx, Journal(HookConflict(h)))
           else Go(tx.(pc := if running then DisposeVictim(v) else DeleteVictim(v, false),
                       locks := tx.locks + {HookRow(v)})))
    case DisposeVictim(v) =>
      Append(db, held, tx, v.run, HookDisposed(v, Some(Taking(h, t))), DeleteVictim(v, true))
    case DeleteVictim(v, running) =>
      if v in db.hooks then Remove(db, held, tx, v, InsertTaken(v, running)) else Abort(tx)
    case InsertTaken(v, running) =>
      if HookRow(h) in held || Claims(t) in held then Blocked
      else if h in Visible(db, tx.w) then Abort(tx)
      else if TokenHeld(Visible(db, tx.w), t) then Reset(tx, Resolve)
      else PutHook(tx, h, t, Journal(HookCreated(h, Some(Claim(v, running)))))
    case _ => Blocked
  }

  // -------------------------------------------------------------------------
  // hook_disposed, hook_received

  ghost function ExecDispose(db: Db, held: set<Key>, tx: Tx): Outcome
    requires tx.job.Dispose?
  {
    var h := tx.job.hook;
    match tx.pc
    case First => if h in db.hooks then At(tx, DeleteRow) else Abort(tx)
    case DeleteRow =>
      if HookRow(h) in held then Blocked
      else if h !in db.hooks then Abort(tx)
      else Remove(db, held, tx, h, Journal(HookDisposed(h, None)))
    case _ => Blocked
  }

  ghost function ExecReceive(db: Db, held: set<Key>, tx: Tx): Outcome
    requires tx.job.Receive?
  {
    var h := tx.job.hook;
    match tx.pc
    case First => if h in db.hooks then At(tx, LockOwner) else Abort(tx)
    case LockOwner =>
      if Row(h.run) in held then Blocked
      else if h.run !in db.runs || db.runs[h.run].status.Terminal() then Abort(tx)
      else Go(tx.(pc := LockDelivered, locks := tx.locks + {Row(h.run)}))
    case LockDelivered =>
      if HookRow(h) in held then Blocked
      else if h !in db.hooks then Abort(tx)
      else Go(tx.(pc := Journal(HookReceived(h)), locks := tx.locks + {HookRow(h)}))
    case _ => Blocked
  }

  // -------------------------------------------------------------------------
  // The run: any other event, its start, its end

  ghost function ExecPlain(db: Db, tx: Tx): Outcome {
    if tx.pc == First && RunOf(tx.job) in db.runs then At(tx, Journal(Other)) else Blocked
  }

  function RunSeen(db: Db, w: Writes, r: RunId): Option<RunRow> {
    if r in w.runs then Some(w.runs[r]) else if r in db.runs then Some(db.runs[r]) else None
  }

  // The check and the unguarded update of `run_started`, as one step.
  ghost function ExecStart(db: Db, held: set<Key>, tx: Tx): Outcome {
    var r := RunOf(tx.job);
    if Row(r) in held then Blocked
    else match RunSeen(db, tx.w, r)
      case None => Abort(tx)
      case Some(row) =>
        if row.status.Terminal() then Abort(tx)
        else if row.status.Running? then At(tx, Done)
        else Go(tx.(pc := Journal(RunStarted),
                    locks := tx.locks + {Row(r)},
                    w := tx.w.(runs := tx.w.runs[r := row.(status := Running)])))
  }

  ghost function ExecEnd(db: Db, held: set<Key>, tx: Tx, c: Choice): Outcome
    requires tx.job.End?
  {
    var r := tx.job.run;
    match tx.pc
    case First =>
      if r !in db.runs || db.runs[r].status.Terminal() || !tx.job.status.Terminal() then Abort(tx)
      else At(tx, UpdateRun)
    case UpdateRun =>
      if Row(r) in held then Blocked
      else if r !in db.runs || db.runs[r].status.Terminal() then Abort(tx)
      else Go(tx.(pc := ReleaseHooks,
                  locks := tx.locks + {Row(r)},
                  w := tx.w.(runs := tx.w.runs[r := db.runs[r].(status := tx.job.status)])))
    case ReleaseHooks =>
      (match c.row
       case None => At(tx, Journal(RunEnded))
       case Some(h) =>
         if h in db.hooks && h !in tx.w.del && h.run == r then Remove(db, held, tx, h, ReleaseHooks)
         else Blocked)
    case _ => Blocked
  }

  // -------------------------------------------------------------------------
  // run_created, and the creating half of a resilient run_started

  ghost function ExecCreate(db: Db, held: set<Key>, tx: Tx, c: Choice): Outcome
    requires tx.job.Create?
  {
    var r := tx.job.run;
    match tx.pc
    case First =>
      if tx.job.resilient && r in db.runs then At(tx, AfterCreate)
      else if r.start.None? then At(tx, InsertRun)
      else At(tx, Recorded)
    case InsertRun =>
      if Row(r) in held then Blocked
      else if r in db.runs then At(tx, AfterCreate)
      else Go(tx.(pc := OpenSlots,
                  locks := tx.locks + {Row(r)},
                  w := tx.w.(runs := tx.w.runs[r := RunRow(Status.Pending, tx.job.spec)])))
    case OpenSlots =>
      if Fence(r) in held || Tail(r) in held then Blocked
      else if r in db.seqs then Abort(tx)
      else
        var ev := RunCreated(if r.start.None? then None else Some(StartHook(r)));
        Go(tx.(pc := AfterCreate,
               locks := tx.locks + {Fence(r), Tail(r)},
               w := Push(tx.w, r, Entry(ev, None)).(seqs := tx.w.seqs[r := 1])))
    case AfterCreate =>
      if tx.job.resilient then ExecStart(db, held, tx) else At(tx, Done)
    case _ => if r.start.Some? then ExecAdmission(db, held, tx, c) else Blocked
  }

  // decideStartHookAdmission and recordDecision.
  ghost function ExecAdmission(db: Db, held: set<Key>, tx: Tx, c: Choice): Outcome
    requires tx.job.Create? && tx.job.run.start.Some?
  {
    var r, t := tx.job.run, tx.job.run.start.value;
    match tx.pc
    case Recorded => if r in db.adm then Replay(db, tx, r) else At(tx, CheckAge)
    case CheckAge =>
      if db.now > r.born + CANDIDATE_MAX_AGE then Go(tx.(pc := Aborted, answer := Expired))
      else At(tx, CheckRun)
    case CheckRun =>
      if r in db.runs then Go(tx.(pc := AfterCreate, answer := Ordinary)) else At(tx, ForgetOld)
    case ForgetOld =>
      if |c.batch| <= FORGET_BATCH
         && (forall q | q in c.batch :: q in db.adm && Admission(q) !in held && Expires(db, q))
      then Go(tx.(pc := ReleaseToken,
                  locks := tx.locks + (set q | q in c.batch :: Admission(q)),
                  w := tx.w.(forget := tx.w.forget + c.batch)))
      else Blocked
    case ReleaseToken => ExecRelease(db, held, tx, t, c, FindOwner)
    case FindOwner =>
      if !OwnerRead(db, Visible(db, tx.w), t, r, c.row) then Blocked
      else if c.row.Some? then At(tx, LostToken(true))
      else At(tx, ClaimToken)
    case ClaimToken =>
      if HookRow(StartHook(r)) in held || Claims(t) in held then Blocked
      else if StartHook(r) in Visible(db, tx.w) || TokenHeld(Visible(db, tx.w), t) then
        At(tx, LostToken(false))
      else PutHook(tx, StartHook(r), t, RecordAcceptance)
    case LostToken(seen) =>
      if r in db.adm && r !in tx.w.forget then Replay(db, tx, r)
      else if seen then At(tx, RecordRefusal)
      else if !OwnerRead(db, Visible(db, tx.w), t, r, c.row) then Blocked
      else if c.row.Some? then At(tx, RecordRefusal)
      else Go(tx.(pc := Aborted, answer := Retry))
    case RecordRefusal =>
      if Admission(r) in held then Blocked
      else if r in db.adm && r !in tx.w.forget then Replay(db, tx, r)
      else if !(tx.began <= c.at <= db.now) then Blocked
      else Go(tx.(pc := if tx.fence.Some? then Aborted else Done,
                  answer := Rejected,
                  locks := tx.locks + {Admission(r)},
                  w := tx.w.(decide := tx.w.decide[r := Decision(false, c.at)])))
    case RecordAcceptance =>
      if Admission(r) in held then Blocked
      else if r in db.adm && r !in tx.w.forget then
        (if db.adm[r].accepted then Replay(db, tx, r)
         else Go(tx.(pc := Aborted, answer := Retry)))
      else if !(tx.began <= c.at <= db.now) then Blocked
      else Go(tx.(pc := InsertRun,
                  answer := Accepted,
                  locks := tx.locks + {Admission(r)},
                  w := tx.w.(decide := tx.w.decide[r := Decision(true, c.at)])))
    case _ => Blocked
  }

  predicate Expires(db: Db, q: RunId) {
    q in db.adm && db.adm[q].at + CANDIDATE_MAX_AGE + CLOCK_SLACK < db.now
  }

  // The recorded decision answers: an acceptance goes on to the run that exists, a
  // refusal is thrown once whatever was cleaned up has committed.
  function Replay(db: Db, tx: Tx, r: RunId): Outcome
    requires r in db.adm
  {
    var accepted := db.adm[r].accepted;
    Go(tx.(pc := if accepted then AfterCreate else if tx.fence.Some? then Aborted else Done,
           answer := Replayed(accepted)))
  }

  // A possible answer of `findActiveTokenOwner`: a row of another run that still holds
  // the token.
  ghost predicate OwnerRead(db: Db, hooks: map<HookId, Token>, t: Token, r: RunId, row: Option<HookId>) {
    match row
    case Some(h) => h in hooks && hooks[h] == t && h.run != r
    case None => forall h :: h in hooks && hooks[h] == t && h.run != r ==> OwnerTerminal(db, h)
  }

  // -------------------------------------------------------------------------
  // Steps

  function StepSeen(db: Db, w: Writes, s: StepId): Option<StepRow> {
    if s in w.steps then Some(w.steps[s]) else if s in db.steps then Some(db.steps[s]) else None
  }

  function WriteStep(tx: Tx, s: StepId, row: StepRow, keys: set<Key>, next: Pc): Outcome {
    Go(tx.(pc := next,
           locks := tx.locks + {Steps(s)} + keys,
           w := tx.w.(steps := tx.w.steps[s := row])))
  }

  ghost function ExecStepNew(db: Db, held: set<Key>, tx: Tx): Outcome
    requires tx.job.StepNew?
  {
    var s := tx.job.step;
    match tx.pc
    case First =>
      if s.run !in db.runs || db.runs[s.run].status.Terminal() then Abort(tx) else At(tx, InsertStep)
    case InsertStep =>
      if Steps(s) in held then Blocked
      else if s in db.steps then At(tx, Journal(StepCreated(s)))
      else WriteStep(tx, s, StepRow(StepPending, 0), {}, Journal(StepCreated(s)))
    case _ => Blocked
  }

  ghost function ExecStepStart(db: Db, held: set<Key>, tx: Tx): Outcome
    requires tx.job.StepStart?
  {
    var StepStart(s, lazy) := tx.job;
    match tx.pc
    case First =>
      if s.run !in db.runs || (lazy && db.runs[s.run].status.Terminal()) then Abort(tx)
      else At(tx, ReadStep(db.runs[s.run].status.Terminal()))
    case ReadStep(runTerminal) =>
      if s !in db.steps then (if lazy then At(tx, InsertStep) else Abort(tx))
      else if lazy || db.steps[s].status.Terminal() then Abort(tx)
      else if runTerminal && !db.steps[s].status.StepRunning? then Abort(tx)
      else At(tx, UpdateStep)
    case InsertStep =>
      if Steps(s) in held then Blocked
      else if s in StepsSeen(db, tx.w) then Abort(tx)
      else if s.run !in db.runs then Abort(tx)
      else if db.runs[s.run].spec >= SINGLE_ORCHESTRATOR_SPEC then
        WriteStep(tx, s, StepRow(StepPending, 0), {}, UpdateStep)
      else (match Append(db, held, tx, s.run, StepCreated(s), UpdateStep)
            case Blocked => Blocked
            case Go(tx') => if tx'.pc == Aborted then Abort(tx)
                            else WriteStep(tx', s, StepRow(StepPending, 0), {}, UpdateStep))
    case UpdateStep =>
      if Steps(s) in held then Blocked
      else (match StepSeen(db, tx.w, s)
            case None => At(tx, RecheckStep)
            case Some(row) =>
              if row.status.Terminal() then At(tx, RecheckStep)
              else WriteStep(tx, s, StepRow(StepRunning, row.attempt + 1), {},
                             Journal(StepStarted(s, lazy))))
    // The update matched no row: find out why. A row that is there and open falls through.
    case RecheckStep =>
      (match StepSeen(db, tx.w, s)
       case None => Abort(tx)
       case Some(row) =>
         if row.status.Terminal() then Abort(tx) else At(tx, Journal(StepStarted(s, lazy))))
    case _ => Blocked
  }

  function StepsSeen(db: Db, w: Writes): set<StepId> {
    db.steps.Keys + w.steps.Keys
  }

  ghost function ExecStepEnd(db: Db, held: set<Key>, tx: Tx): Outcome
    requires tx.job.StepEnd?
  {
    var StepEnd(s, outcome) := tx.job;
    match tx.pc
    case First => if outcome.Terminal() then At(tx, UpdateStep) else Abort(tx)
    case UpdateStep =>
      if Steps(s) in held then Blocked
      else if s !in db.steps || db.steps[s].status.Terminal() then At(tx, RecheckStep)
      else WriteStep(tx, s, db.steps[s].(status := outcome), {Ticket(s)}, Journal(StepEnded(s)))
    case RecheckStep =>
      if s !in db.steps || db.steps[s].status.Terminal() then Abort(tx)
      else At(tx, Journal(StepEnded(s)))
    case _ => Blocked
  }

  ghost function ExecStepRetry(db: Db, held: set<Key>, tx: Tx): Outcome
    requires tx.job.StepRetry?
  {
    var s := tx.job.step;
    match tx.pc
    case First => if s in db.steps && !db.steps[s].status.Terminal() then At(tx, UpdateStep) else Abort(tx)
    case UpdateStep =>
      if Steps(s) in held then Blocked
      else if s !in db.steps || db.steps[s].status.Terminal() then Abort(tx)
      else WriteStep(tx, s, db.steps[s].(status := StepPending), {}, Journal(StepRetrying(s)))
    case _ => Blocked
  }

  // -------------------------------------------------------------------------
  // One statement of any request

  ghost function Exec(db: Db, held: set<Key>, tx: Tx, c: Choice): Outcome {
    if tx.pc.Begin? then ExecBegin(db, held, tx)
    else if tx.pc.Journal? then Append(db, held, tx, RunOf(tx.job), tx.pc.ev, Done)
    else if tx.pc.Done? || tx.pc.Aborted? then Blocked
    else ExecJob(db, held, tx, c)
  }

  ghost function ExecJob(db: Db, held: set<Key>, tx: Tx, c: Choice): Outcome {
    match tx.job
    case Plain(_) => ExecPlain(db, tx)
    case Create(_, _, _) => ExecCreate(db, held, tx, c)
    case Start(_) => if tx.pc.First? then ExecStart(db, held, tx) else Blocked
    case End(_, _) => ExecEnd(db, held, tx, c)
    case HookNew(_, _, _) => ExecHookNew(db, held, tx, c)
    case Dispose(_) => ExecDispose(db, held, tx)
    case Receive(_) => ExecReceive(db, held, tx)
    case StepNew(_) => ExecStepNew(db, held, tx)
    case StepStart(_, _) => ExecStepStart(db, held, tx)
    case StepEnd(_, _) => ExecStepEnd(db, held, tx)
    case StepRetry(_) => ExecStepRetry(db, held, tx)
  }

  // A fenced create locks the run's slots row and compares the count before anything.
  ghost function ExecBegin(db: Db, held: set<Key>, tx: Tx): Outcome {
    var r := RunOf(tx.job);
    if tx.fence.None? || r !in db.seqs then At(tx, First)
    else if Fence(r) in held then Blocked
    else if db.seqs[r] != tx.fence.value.expected then Abort(tx)
    else Go(tx.(pc := First, locks := tx.locks + {Fence(r)}))
  }

  // Where a request that is not in-band has committed what it wrote so far.
  predicate Boundary(tx: Tx) {
    && tx.fence.None?
    && match tx.pc
       case AfterCreate => true
       case ReleaseHooks => true
       case Journal(ev) =>
         ev.RunStarted? || ev.RunEnded? || ev.StepCreated? || ev.StepEnded? || ev.StepRetrying?
         || ev.HookConflict? || ev.Other?
       case _ => false
  }

  // -------------------------------------------------------------------------
  // The system

  datatype State = State(db: Db, txs: map<nat, Tx>)

  function Held(s: State, t: nat): set<Key> {
    set u, k | u in s.txs && u != t && k in s.txs[u].locks :: k
  }

  function Opened(db: Db, job: Job, fence: Option<InBand>): Tx {
    Tx(job, Begin, fence, false, db.now, Unanswered, NOTHING, {})
  }

  // What a request must meet to be issued: step events other than creation follow the
  // step's creation, and a candidate's clock is at most an hour ahead.
  predicate Issued(db: Db, job: Job) {
    && (job.StepEnd? || job.StepRetry? ==> job.step in db.steps)
    && (job.Create? ==> job.run.born <= db.now + CLOCK_SLACK)
  }

  predicate Committing(tx: Tx) {
    tx.pc == Done || Boundary(tx)
  }

  function Tickets(tx: Tx): set<Key> {
    set k | k in tx.locks && k.Ticket?
  }

  function Commit(s: State, t: nat): State
    requires t in s.txs
  {
    var tx := s.txs[t];
    State(Apply(s.db, tx.w),
          if tx.pc == Done then s.txs - {t}
          else s.txs[t := tx.(w := NOTHING, locks := Tickets(tx))])
  }

  datatype Move =
    | Open(t: nat, job: Job, fence: Option<InBand>)
    | Statement(t: nat, choice: Choice)
    | Save(t: nat)
    | Rollback(t: nat)
    | Tick

  ghost predicate Enabled(s: State, m: Move) {
    match m
    case Open(t, job, fence) => t !in s.txs && Issued(s.db, job)
    case Statement(t, c) => t in s.txs && Exec(s.db, Held(s, t), s.txs[t], c).Go?
    case Save(t) => t in s.txs && Committing(s.txs[t])
    case Rollback(t) => t in s.txs
    case Tick => true
  }

  ghost function Moved(s: State, m: Move): State
    requires Enabled(s, m)
  {
    match m
    case Open(t, job, fence) => s.(txs := s.txs[t := Opened(s.db, job, fence)])
    case Statement(t, c) => s.(txs := s.txs[t := Exec(s.db, Held(s, t), s.txs[t], c).tx])
    case Save(t) => Commit(s, t)
    case Rollback(t) => s.(txs := s.txs - {t})
    case Tick => s.(db := s.db.(now := s.db.now + 1))
  }

  const EMPTY_DB := Db(0, map[], map[], map[], map[], map[], map[], map[], [], {})
  const INITIAL := State(EMPTY_DB, map[])
}
