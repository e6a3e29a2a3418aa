/**
 The database the writers share, and what one open transaction looks like.

 Isolation is READ COMMITTED. A transaction's writes stay its own (`Writes`) until
 they are committed as one (`Apply`). Every statement that writes or locks a row, or
 claims a unique key, takes that key's lock and keeps it to the end of the
 transaction; a statement that finds the key locked by another transaction is
 `Blocked`, and runs again once that transaction has ended, when it sees what it
 left. Plain reads take no lock and see the committed rows and the reader's own.
 */
module Database {
  import opened Options
  import opened EventLog

  datatype Status = Pending | Running | Completed | Failed | Cancelled {
    predicate Terminal() { Completed? || Failed? || Cancelled? }
  }

  datatype RunRow = RunRow(status: Status, spec: nat)

  datatype StepStatus = StepPending | StepRunning | StepCompleted | StepFailed {
    predicate Terminal() { StepCompleted? || StepFailed? }
  }

  datatype StepRow = StepRow(status: StepStatus, attempt: nat)

  // One start Hook decision; `at` is the row's creation time.
  datatype Decision = Decision(accepted: bool, at: nat)

  // Milliseconds. The orphan bound of a start Hook candidate and the slack of its clock.
  const CANDIDATE_MAX_AGE: nat := 86_400_000
  const CLOCK_SLACK: nat := 3_600_000

  datatype Db = Db(
    now: nat,
    log: map<RunId, Log>,
    seqs: map<RunId, nat>,           // workflow_event_slots.seq_in_band
    runs: map<RunId, RunRow>,
    hooks: map<HookId, Token>,       // every row claims its token
    steps: map<StepId, StepRow>,
    adm: map<RunId, Decision>,       // workflow_start_hook_admissions
    decided: map<RunId, Decision>,   // history: every decision ever committed
    births: seq<HookId>,             // history: Hooks in the order their creation committed
    revived: set<HookId>)            // history: Hooks whose row was committed behind their disposal

  function LogOf(db: Db, r: RunId): Log {
    if r in db.log then db.log[r] else []
  }

  function Hook(db: Db, h: HookId): HookState {
    HookOf(LogOf(db, h.run), h)
  }

  function Step(db: Db, s: StepId): StepState {
    StepOf(LogOf(db, s.run), s)
  }

  // What a lock can be held on. The unique keys are the primary keys of runs, slots,
  // events (a run's next slot: its `Tail`), steps, hooks and admissions, and the token
  // claim. A `Ticket` is not a lock: it records that a writer's guarded update ended
  // a step, so that writer alone goes on to journal the end.
  datatype Key =
    | Fence(run: RunId)
    | Row(run: RunId)
    | Tail(run: RunId)
    | HookRow(hook: HookId)
    | Claims(token: Token)
    | Admission(run: RunId)
    | Steps(step: StepId)
    | Ticket(step: StepId)

  datatype Writes = Writes(
    log: map<RunId, Log>,
    seqs: map<RunId, nat>,
    runs: map<RunId, RunRow>,
    put: map<HookId, Token>,
    del: set<HookId>,
    steps: map<StepId, StepRow>,
    decide: map<RunId, Decision>,
    forget: set<RunId>,
    births: seq<HookId>)

  const NOTHING := Writes(map[], map[], map[], map[], {}, map[], map[], {}, [])

  function Unsaved(w: Writes, r: RunId): Log {
    if r in w.log then w.log[r] else []
  }

  function Apply(db: Db, w: Writes): Db {
    db.(
      log := map r | r in db.log.Keys + w.log.Keys :: LogOf(db, r) + Unsaved(w, r),
      seqs := db.seqs + w.seqs,
      runs := db.runs + w.runs,
      hooks := (db.hooks - w.del) + w.put,
      steps := db.steps + w.steps,
      adm := (db.adm - w.forget) + w.decide,
      decided := db.decided + w.decide,
      births := db.births + w.births,
      revived := db.revived + set h | h in w.put && WasDisposed(LogOf(db, h.run), h))
  }

  // What the requests ask for. `Create` is `run_created`, or with `resilient` the
  // `run_started` of a run that may not exist yet.
  datatype Job =
    | Plain(run: RunId)
    | Create(run: RunId, resilient: bool, spec: nat)
    | Start(run: RunId)
    | End(run: RunId, status: Status)
    | HookNew(hook: HookId, token: Token, force: bool)
    | Dispose(hook: HookId)
    | Receive(hook: HookId)
    | StepNew(step: StepId)
    | StepStart(step: StepId, lazy: bool)
    | StepEnd(step: StepId, outcome: StepStatus)
    | StepRetry(step: StepId)

  function RunOf(job: Job): RunId {
    match job
    case Plain(r) => r
    case Create(r, _, _) => r
    case Start(r) => r
    case End(r, _) => r
    case HookNew(h, _, _) => h.run
    case Dispose(h) => h.run
    case Receive(h) => h.run
    case StepNew(s) => s.run
    case StepStart(s, _) => s.run
    case StepEnd(s, _) => s.run
    case StepRetry(s) => s.run
  }

  // Where a request has got to: the statement it issues next.
  datatype Pc =
    | Begin                                     // open; take the fence if in-band
    | First                                     // validate
    | Journal(ev: Event)                        // insert `ev` as the run's next slot
    | Done
    | Aborted
    // hook_created
    | ReadToken
    | Release
    | Insert
    | LostClaim
    | Resolve
    | LockRun(victim: HookId)
    | LockHook(victim: HookId, owner: Option<RunRow>)
    | DisposeVictim(victim: HookId)
    | DeleteVictim(victim: HookId, running: bool)
    | InsertTaken(victim: HookId, running: bool)
    // hook_disposed, hook_received, the end of a run
    | DeleteRow
    | LockOwner
    | LockDelivered
    | UpdateRun
    | ReleaseHooks
    // the creation of a run, with its start Hook's admission
    | Recorded
    | CheckAge
    | CheckRun
    | ForgetOld
    | ReleaseToken
    | FindOwner
    | ClaimToken
    | LostToken(seen: bool)
    | RecordRefusal
    | RecordAcceptance
    | InsertRun
    | OpenSlots
    | AfterCreate
    // steps
    | ReadStep(runTerminal: bool)
    | InsertStep
    | UpdateStep
    | RecheckStep

  // An in-band request: the count it expects, and who sends it.
  datatype InBand = InBand(expected: nat, writer: Writer)

  // How a creation with a start Hook was answered.
  datatype Answer = Unanswered | Accepted | Replayed(accepted: bool) | Rejected | Ordinary | Expired | Retry

  datatype Tx = Tx(
    job: Job,
    pc: Pc,
    fence: Option<InBand>,
    consumed: bool,
    began: nat,
    answer: Answer,
    w: Writes,
    locks: set<Key>)

  datatype Outcome = Blocked | Go(tx: Tx)

  // The choices a statement leaves open: the row a read returned, whether a retention
  // period had passed (the clock is not modelled for it), a batch, a timestamp.
  datatype Choice = Choice(row: Option<HookId>, retained: bool, batch: set<RunId>, at: nat)

  // The rows a transaction's own statements see.
  function Visible(db: Db, w: Writes): map<HookId, Token> {
    (db.hooks - w.del) + w.put
  }

  ghost predicate TokenHeld(hooks: map<HookId, Token>, t: Token) {
    exists h :: h in hooks && hooks[h] == t
  }

  predicate OwnerTerminal(db: Db, h: HookId) {
    h.run in db.runs && db.runs[h.run].status.Terminal()
  }

  // `row` is a possible answer of a by-token read that skips owners that have ended and
  // whose retention has passed.
  ghost predicate TokenRead(db: Db, hooks: map<HookId, Token>, t: Token, row: Option<HookId>) {
    match row
    case Some(h) => h in hooks && hooks[h] == t
    case None => forall h :: h in hooks && hooks[h] == t ==> OwnerTerminal(db, h)
  }

  predicate Journaled(log: Log, ev: Event) {
    exists i | 0 <= i < |log| ::
      || (ev.HookCreated? && log[i].ev.HookCreated? && log[i].ev.hook == ev.hook)
      || (ev.StepCreated? && log[i].ev == ev)
  }

  function Abort(tx: Tx): Outcome {
    Go(tx.(pc := Aborted))
  }

  function At(tx: Tx, pc: Pc): Outcome {
    Go(tx.(pc := pc))
  }

  // Back to the savepoint the statement group began at: its writes and locks are
  // undone, the fence taken before it stays.
  function Reset(tx: Tx, pc: Pc): Outcome {
    Go(tx.(pc := pc, w := NOTHING, locks := set k | k in tx.locks && k.Fence?))
  }

  // -------------------------------------------------------------------------
  // The slot insert, with the in-band count it advances

  predicate Advances(tx: Tx, r: RunId) {
    tx.fence.Some? && !tx.consumed && r == RunOf(tx.job)
  }

  function SeqOf(db: Db, tx: Tx, r: RunId): Option<nat> {
    if r in tx.w.seqs then Some(tx.w.seqs[r]) else if r in db.seqs then Some(db.seqs[r]) else None
  }

  function Born(ev: Event): seq<HookId> {
    match ev
    case RunCreated(Some(h)) => [h]
    case HookCreated(h, _) => [h]
    case _ => []
  }

  function Push(w: Writes, r: RunId, e: Entry): Writes {
    w.(log := w.log[r := Unsaved(w, r) + [e]], births := w.births + Born(e.ev))
  }

  function TakeSlot(tx: Tx, r: RunId, ev: Event): Tx {
    tx.(locks := tx.locks + {Tail(r)}, w := Push(tx.w, r, Entry(ev, None)))
  }

  function TakeInBandSlot(tx: Tx, r: RunId, ev: Event): Tx
    requires tx.fence.Some?
  {
    tx.(consumed := true,
        locks := tx.locks + {Tail(r), Fence(r)},
        w := Push(tx.w, r, Entry(ev, Some(tx.fence.value.writer)))
             .(seqs := tx.w.seqs[r := tx.fence.value.expected + 1]))
  }

  // Insert `ev` as the next slot of run `r`. The slot key serializes the writers of one
  // run (see SlotLog); the first slot an in-band write takes on its own run advances
  // the count, which must still be the one it expects.
  function Append(db: Db, held: set<Key>, tx: Tx, r: RunId, ev: Event, next: Pc): Outcome {
    if Tail(r) in held then Blocked
    else if SeqOf(db, tx, r).None? || Journaled(LogOf(db, r) + Unsaved(tx.w, r), ev) then Abort(tx)
    else if !Advances(tx, r) then At(TakeSlot(tx, r, ev), next)
    else if Fence(r) in held then Blocked
    else if SeqOf(db, tx, r) != Some(tx.fence.value.expected) then Abort(tx)
    else At(TakeInBandSlot(tx, r, ev), next)
  }

  // Delete a Hook row: its own lock, and its claim's key for whoever waits to claim it.
  function Remove(db: Db, held: set<Key>, tx: Tx, h: HookId, next: Pc): Outcome
    requires h in db.hooks
  {
    if HookRow(h) in held || Claims(db.hooks[h]) in held then Blocked
    else Go(tx.(pc := next,
                locks := tx.locks + {HookRow(h), Claims(db.hooks[h])},
                w := tx.w.(del := tx.w.del + {h})))
  }

  function PutHook(tx: Tx, h: HookId, t: Token, next: Pc): Outcome {
    Go(tx.(pc := next,
           locks := tx.locks + {HookRow(h), Claims(t)},
           w := tx.w.(put := tx.w.put[h := t])))
  }
}
