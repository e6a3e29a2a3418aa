/**
 Run queues and the job table. A job waits on its run's queue, or as a timer that knows
 the queue it goes back to; whatever sends, reschedules, sweeps, promotes or recovers it,
 a spec 9 orchestrator's job is never anywhere else. With graphile's one locked job per
 named queue, one delivery at most is in flight per run.
 */
module RunQueues {
  import opened Options
  import opened Delivery

  const SINGLE_ORCHESTRATOR_SPEC: nat := 9
  const MAX_ATTEMPTS: nat := 49
  const TIMER_HORIZON_SECONDS: nat := 60

  // -------------------------------------------------------------------------
  // Names

  const QUEUE_PREFIX: string := "wfrun:"

  function RunQueueName(tenant: string, run: string): string {
    QUEUE_PREFIX + tenant + ":" + run
  }

  predicate TenantChar(c: char) {
    'A' <= c <= 'Z' || 'a' <= c <= 'z' || '0' <= c <= '9' || c == '_' || c == '-'
  }

  predicate ValidTenant(tenant: string) {
    1 <= |tenant| <= 128 && forall i | 0 <= i < |tenant| :: TenantChar(tenant[i])
  }

  // A queue belongs to one run of one tenant.
  lemma QueueNamesAreInjective(t1: string, r1: string, t2: string, r2: string)
    requires ValidTenant(t1) && ValidTenant(t2)
    ensures RunQueueName(t1, r1) == RunQueueName(t2, r2) <==> t1 == t2 && r1 == r2
  {
    var p := |QUEUE_PREFIX|;
    var a, b := RunQueueName(t1, r1), RunQueueName(t2, r2);
    assert a[p..] == t1 + ":" + r1 && b[p..] == t2 + ":" + r2;
    if a == b {
      assert a[p + |t1|] == ':' && b[p + |t2|] == ':';
      assert forall i | 0 <= i < |t1| :: a[p + i] == t1[i];
      assert forall i | 0 <= i < |t2| :: b[p + i] == t2[i];
      assert !TenantChar(':');
      assert |t1| == |t2|;
      assert a[p..p + |t1|] == t1 && b[p..p + |t2|] == t2;
      assert a[p + |t1| + 1..] == r1 && b[p + |t2| + 1..] == r2;
    }
  }

  // -------------------------------------------------------------------------
  // Messages

  // What the upstream predicates read off a message: the spec version it is stamped with,
  // the run it orchestrates under spec 9 (none for a step or a timer hop), the run it
  // names, whether it is an invocation that wakes its run for hook input, and whether it
  // carries that input itself.
  datatype Body = Body(
    spec: Option<nat>,
    orchestrates: Option<string>,
    run: Option<string>,
    hookWake: bool,
    input: bool)

  datatype Message = Message(
    tenant: string,
    body: Body,
    messageId: string,
    idempotencyKey: Option<string>,
    offsets: Offsets)

  predicate Spec9(body: Body) {
    body.spec.Some? && body.spec.value >= SINGLE_ORCHESTRATOR_SPEC
  }

  function RunQueueFor(tenant: string, body: Body): Option<string> {
    var run := if Spec9(body) then body.orchestrates else body.run;
    if run.None? then None else Some(RunQueueName(tenant, run.value))
  }

  predicate MayBypass(body: Body) {
    body.hookWake && !Spec9(body)
  }

  predicate HoldsAsTimer(queue: Option<string>, delay: nat) {
    queue.Some? && delay >= TIMER_HORIZON_SECONDS
  }

  function TenantFlag(tenant: string): string {
    "project:" + tenant
  }

  function WakeFlag(tenant: string): string {
    "wake:" + tenant
  }

  // -------------------------------------------------------------------------
  // Jobs

  datatype Task = Flow | Timer

  // `runQueue` is the queue a timer's payload names.
  datatype Job = Job(
    task: Task,
    queue: Option<string>,
    runQueue: Option<string>,
    flags: seq<string>,
    message: Message,
    key: Option<string>,
    attempts: nat,
    locked: bool)

  function FlowJob(message: Message, queue: Option<string>, key: Option<string>): Job {
    Job(Flow, queue, None, [TenantFlag(message.tenant)], message, key, 0, false)
  }

  function TimerJob(message: Message, queue: string, key: Option<string>): Job {
    Job(Timer, None, Some(queue), [], message, key, 0, false)
  }

  // The queue a timer goes back to.
  function TargetOf(job: Job): Option<string> {
    if job.runQueue.Some? then job.runQueue else RunQueueFor(job.message.tenant, job.message.body)
  }

  function Swept(job: Job): Job
    requires job.queue.Some?
  {
    job.(task := Timer, queue := None, flags := [], runQueue := job.queue)
  }

  predicate Sweepable(job: Job) {
    job.task.Flow? && job.queue.Some? && QUEUE_PREFIX <= job.queue.value && !job.locked && job.attempts == 0
  }

  // The flow job a due timer is put back as.
  function Promoted(job: Job): Job {
    FlowJob(job.message, TargetOf(job), job.key)
  }

  // Where a job of this World may be.
  predicate Placed(job: Job) {
    var queue := RunQueueFor(job.message.tenant, job.message.body);
    match job.task
    case Flow =>
      && job.runQueue.None?
      && (job.queue == queue || (job.queue.None? && MayBypass(job.message.body)))
      && (job.queue.Some? ==> job.flags == [TenantFlag(job.message.tenant)])
    case Timer => job.queue.None? && (job.runQueue.Some? ==> job.runQueue == queue)
  }

  // A claimed timer is promoted to the job that was swept.
  lemma PromotedIsSwept(job: Job)
    requires Placed(job) && Sweepable(job)
    ensures Promoted(Swept(job).(locked := true, attempts := 1)) == job
  {
  }

  // -------------------------------------------------------------------------
  // The job table

  type Jobs = map<nat, Job>

  ghost predicate UniqueKeys(jobs: Jobs) {
    forall i, j | i in jobs && j in jobs && jobs[i].key.Some? && jobs[i].key == jobs[j].key :: i == j
  }

  // Graphile's guarantee: of the jobs of one named queue, one at most is locked.
  ghost predicate Serial(jobs: Jobs) {
    forall i, j | i in jobs && j in jobs && jobs[i].locked && jobs[j].locked
                  && jobs[i].queue.Some? && jobs[i].queue == jobs[j].queue :: i == j
  }

  ghost predicate AllPlaced(jobs: Jobs) {
    forall i | i in jobs :: Placed(jobs[i])
  }

  ghost predicate TableInv(jobs: Jobs) {
    AllPlaced(jobs) && Serial(jobs) && UniqueKeys(jobs)
  }

  // graphile's add_job. Under a key, a pending job is replaced and a claimed one lets go
  // of the key, its retries spent; `unsafe_dedupe` makes it nothing while the key is held.
  ghost predicate AddsJob(jobs: Jobs, jobs': Jobs, job: Job, dedupe: bool) {
    if job.key.Some? && exists i :: i in jobs && jobs[i].key == job.key then
      exists i :: i in jobs && jobs[i].key == job.key
        && (if dedupe then jobs' == jobs
            else if jobs[i].locked then
              exists n: nat :: n !in jobs
                && jobs' == jobs[i := jobs[i].(key := None, attempts := MAX_ATTEMPTS)][n := job]
            else jobs' == jobs[i := job])
    else exists n: nat :: n !in jobs && jobs' == jobs[n := job]
  }

  lemma AddKeeps(jobs: Jobs, jobs': Jobs, job: Job, dedupe: bool)
    requires TableInv(jobs) && AddsJob(jobs, jobs', job, dedupe) && Placed(job) && !job.locked
    ensures TableInv(jobs')
  {
    hide Placed, TableInv;
    if job.key.Some? && exists i :: i in jobs && jobs[i].key == job.key {
      var i :| i in jobs && jobs[i].key == job.key
               && (if dedupe then jobs' == jobs
                   else if jobs[i].locked then
                     exists n: nat :: n !in jobs
                       && jobs' == jobs[i := jobs[i].(key := None, attempts := MAX_ATTEMPTS)][n := job]
                   else jobs' == jobs[i := job]);
      if !dedupe && jobs[i].locked {
        var n: nat :| n !in jobs && jobs' == jobs[i := jobs[i].(key := None, attempts := MAX_ATTEMPTS)][n := job];
        SpentKeeps(jobs, i);
        NewKeeps(jobs[i := jobs[i].(key := None, attempts := MAX_ATTEMPTS)], n, job);
      } else if !dedupe {
        ReplacedKeeps(jobs, i, job);
      }
    } else {
      var n: nat :| n !in jobs && jobs' == jobs[n := job];
      NewKeeps(jobs, n, job);
    }
  }

  lemma NewKeeps(jobs: Jobs, n: nat, job: Job)
    requires TableInv(jobs) && n !in jobs && Placed(job) && !job.locked
    requires job.key.Some? ==> forall i | i in jobs :: jobs[i].key != job.key
    ensures TableInv(jobs[n := job])
  {
    hide Placed;
  }

  lemma ReplacedKeeps(jobs: Jobs, i: nat, job: Job)
    requires TableInv(jobs) && i in jobs && jobs[i].key == job.key && Placed(job) && !job.locked
    ensures TableInv(jobs[i := job])
  {
    hide Placed;
  }

  // The claimed holder of a key lets go of it.
  lemma SpentKeeps(jobs: Jobs, i: nat)
    requires TableInv(jobs) && i in jobs && jobs[i].key.Some?
    ensures TableInv(jobs[i := jobs[i].(key := None, attempts := MAX_ATTEMPTS)])
    ensures forall j | j in jobs && j != i :: jobs[j].key != jobs[i].key
  {
    SpentStaysPlaced(jobs[i]);
    hide Placed;
  }

  lemma SpentStaysPlaced(job: Job)
    requires Placed(job)
    ensures Placed(job.(key := None, attempts := MAX_ATTEMPTS))
  {
  }

  // -------------------------------------------------------------------------
  // What is done to it

  datatype Op =
    // queue.ts: a send, with its delay and whether it found its run's queue locked
    | Send(message: Message, delay: nat, busy: bool, embedded: bool, dedupe: bool)
    // the answer { timeoutSeconds } to a claimed delivery, by the World or the dispatcher
    | Reschedule(id: nat, message: Message, delay: nat)
    | Sweep(id: nat)
    | Promote(id: nat)
    // boot recovery puts an unstamped message on the run's queue
    | Recover(tenant: string, run: string)
    | ClaimJob(id: nat)
    | Finish(id: nat)
    | Fail(id: nat)

  // placeInvoke and addGraphileJob
  function SentJob(message: Message, delay: nat, busy: bool, embedded: bool): Job {
    var queue := RunQueueFor(message.tenant, message.body);
    var key := if message.idempotencyKey.Some? then message.idempotencyKey else Some(message.messageId);
    if delay == 0 && busy && MayBypass(message.body) then
      Job(Flow, None, None, [WakeFlag(message.tenant)], message,
          if message.idempotencyKey.Some? then message.idempotencyKey else Some(WakeKey(message)), 0, false)
    else Delayed(message, queue, delay, key, embedded)
  }

  // At most one pending bypassing wake per run, unless it carries its input.
  function WakeKey(message: Message): string {
    if message.body.input then message.messageId
    else "wfwake:" + message.tenant + ":" + (if message.body.run.Some? then message.body.run.value else "")
  }

  // A timer when it is far enough out, and whoever enqueues also claims timers.
  function Delayed(message: Message, queue: Option<string>, delay: nat, key: Option<string>, timers: bool): Job {
    if timers && HoldsAsTimer(queue, delay) then TimerJob(message, queue.value, key)
    else FlowJob(message, queue, key)
  }

  function RecoveryMessage(tenant: string, run: string): Message {
    Message(tenant, Body(None, None, Some(run), false, false), "msg_recover_" + run, None, SENT)
  }

  function RecoveryJob(tenant: string, run: string): Job {
    FlowJob(RecoveryMessage(tenant, run), Some(RunQueueName(tenant, run)), Some("msg_recover_" + run))
  }

  ghost predicate Does(jobs: Jobs, jobs': Jobs, op: Op) {
    match op
    case Send(message, delay, busy, embedded, dedupe) =>
      AddsJob(jobs, jobs', SentJob(message, delay, busy, embedded), dedupe)
    // The same message on a fresh job: only its offsets are new.
    case Reschedule(id, message, delay) =>
      && id in jobs && jobs[id].locked && jobs[id].task.Flow?
      && message == jobs[id].message.(offsets := message.offsets)
      && AddsJob(jobs, jobs',
                 Delayed(message, RunQueueFor(message.tenant, message.body), delay,
                         if message.idempotencyKey.Some? then message.idempotencyKey else Some(message.messageId),
                         true),
                 false)
    case Sweep(id) =>
      id in jobs && Sweepable(jobs[id]) && jobs' == jobs[id := Swept(jobs[id])]
    case Promote(id) =>
      id in jobs && jobs[id].locked && jobs[id].task.Timer? && AddsJob(jobs, jobs', Promoted(jobs[id]), false)
    case Recover(tenant, run) => AddsJob(jobs, jobs', RecoveryJob(tenant, run), false)
    case ClaimJob(id) =>
      && id in jobs && !jobs[id].locked && jobs[id].attempts < MAX_ATTEMPTS
      && (jobs[id].queue.Some? ==> forall j | j in jobs && jobs[j].queue == jobs[id].queue :: !jobs[j].locked)
      && jobs' == jobs[id := jobs[id].(locked := true, attempts := jobs[id].attempts + 1)]
    case Finish(id) => id in jobs && jobs[id].locked && jobs' == jobs - {id}
    case Fail(id) => id in jobs && jobs[id].locked && jobs' == jobs[id := jobs[id].(locked := false)]
  }

  lemma SentIsPlaced(message: Message, delay: nat, busy: bool, embedded: bool)
    ensures Placed(SentJob(message, delay, busy, embedded)) && !SentJob(message, delay, busy, embedded).locked
  {
  }

  lemma DelayedIsPlaced(message: Message, delay: nat, key: Option<string>)
    ensures var job := Delayed(message, RunQueueFor(message.tenant, message.body), delay, key, true);
            Placed(job) && !job.locked
  {
  }

  lemma PromotedIsPlaced(job: Job)
    requires Placed(job) && job.task.Timer?
    ensures Placed(Promoted(job)) && !Promoted(job).locked
  {
  }

  lemma RecoveryIsPlaced(tenant: string, run: string)
    ensures Placed(RecoveryJob(tenant, run)) && !RecoveryJob(tenant, run).locked
  {
  }

  // A job that is locked, released or swept where it is.
  lemma ChangedKeeps(jobs: Jobs, id: nat, job: Job)
    requires TableInv(jobs) && id in jobs && Placed(job) && job.key == jobs[id].key
    requires job.locked && job.queue.Some? ==>
               || (jobs[id].locked && job.queue == jobs[id].queue)
               || (forall j | j in jobs && jobs[j].queue == job.queue :: !jobs[j].locked)
    ensures TableInv(jobs[id := job])
  {
    hide Placed;
  }

  lemma RemovedKeeps(jobs: Jobs, id: nat)
    requires TableInv(jobs)
    ensures TableInv(jobs - {id})
  {
    hide Placed;
  }

  // Every operation keeps every job where it belongs.
  lemma OpKeeps(jobs: Jobs, jobs': Jobs, op: Op)
    requires TableInv(jobs) && Does(jobs, jobs', op)
    ensures TableInv(jobs')
  {
    hide TableInv, AddsJob;
    match op {
      case Send(message, delay, busy, embedded, dedupe) =>
        SentIsPlaced(message, delay, busy, embedded);
        AddKeeps(jobs, jobs', SentJob(message, delay, busy, embedded), dedupe);
      case Reschedule(id, message, delay) =>
        var key := if message.idempotencyKey.Some? then message.idempotencyKey else Some(message.messageId);
        DelayedIsPlaced(message, delay, key);
        AddKeeps(jobs, jobs', Delayed(message, RunQueueFor(message.tenant, message.body), delay, key, true), false);
      case Promote(id) =>
        PlacedIn(jobs, id);
        PromotedIsPlaced(jobs[id]);
        AddKeeps(jobs, jobs', Promoted(jobs[id]), false);
      case Recover(tenant, run) =>
        RecoveryIsPlaced(tenant, run);
        AddKeeps(jobs, jobs', RecoveryJob(tenant, run), false);
      case Finish(id) => RemovedKeeps(jobs, id);
      case _ =>
        PlacedIn(jobs, op.id);
        ChangedKeeps(jobs, op.id, jobs'[op.id]);
    }
  }

  lemma PlacedIn(jobs: Jobs, id: nat)
    requires TableInv(jobs) && id in jobs
    ensures Placed(jobs[id])
  {
  }

  // -------------------------------------------------------------------------
  // Whole histories

  ghost predicate History(tables: seq<Jobs>, ops: seq<Op>) {
    && |tables| == |ops| + 1 && tables[0] == map[]
    && forall i | 0 <= i < |ops| :: Does(tables[i], tables[i + 1], ops[i])
  }

  lemma {:induction false} AlwaysPlaced(tables: seq<Jobs>, ops: seq<Op>, k: nat)
    requires History(tables, ops) && k < |tables|
    ensures TableInv(tables[k])
  {
    hide Does, Placed;
    if k > 0 {
      AlwaysPlaced(tables, ops, k - 1);
      assert Does(tables[k - 1], tables[k - 1 + 1], ops[k - 1]);
      hide TableInv;
      OpKeeps(tables[k - 1], tables[k], ops[k - 1]);
    }
  }

  // In every table, a spec 9 orchestrator's job is on its run's queue or is a timer that
  // goes back to it, and one such delivery at most is in flight per run.
  lemma OneOrchestratorInFlight(tables: seq<Jobs>, ops: seq<Op>, k: nat, i: nat, run: string)
    requires History(tables, ops) && k < |tables| && i in tables[k]
    requires Spec9(tables[k][i].message.body) && tables[k][i].message.body.orchestrates == Some(run)
    ensures var job := tables[k][i];
            var queue := RunQueueName(job.message.tenant, run);
            && (job.task.Flow? ==> job.queue == Some(queue))
            && (job.task.Timer? ==> TargetOf(job) == Some(queue))
            && forall j | j in tables[k] && job.task.Flow? && job.locked
                          && tables[k][j].locked && tables[k][j].queue == Some(queue) :: j == i
  {
    AlwaysPlaced(tables, ops, k);
    PlacedIn(tables[k], i);
  }

  // Two in-flight deliveries of one run's orchestrator are the same one.
  lemma OrchestratorsAreSerial(tables: seq<Jobs>, ops: seq<Op>, k: nat, i: nat, j: nat, run: string)
    requires History(tables, ops) && k < |tables| && i in tables[k] && j in tables[k]
    requires forall x | x in {i, j} ::
               var job := tables[k][x];
               job.task.Flow? && job.locked && Spec9(job.message.body) && job.message.body.orchestrates == Some(run)
    requires tables[k][i].message.tenant == tables[k][j].message.tenant
    ensures i == j
  {
    OneOrchestratorInFlight(tables, ops, k, i, run);
    OneOrchestratorInFlight(tables, ops, k, j, run);
  }

  // The table a swept timer's claim and promotion go through, and its own end.
  ghost predicate SweptAndPromoted(t0: Jobs, t1: Jobs, t2: Jobs, t3: Jobs, t4: Jobs, id: nat) {
    Does(t0, t1, Sweep(id)) && Does(t1, t2, ClaimJob(id)) && Does(t2, t3, Promote(id)) && Does(t3, t4, Finish(id))
  }

  // In every table, sweeping a job, and claiming, promoting and finishing its timer once it
  // is due, gives back the table with the same job under a new id.
  lemma SweepThenPromote(t0: Jobs, t1: Jobs, t2: Jobs, t3: Jobs, t4: Jobs, id: nat)
    requires TableInv(t0) && SweptAndPromoted(t0, t1, t2, t3, t4, id)
    ensures exists n: nat :: n !in t0 && t4 == (t0 - {id})[n := t0[id]]
  {
    var job := t0[id];
    PlacedIn(t0, id);
    PromotedIsSwept(job);
    var timer := Swept(job).(locked := true, attempts := 1);
    assert t2 == t0[id := timer];
    OpKeeps(t0, t1, Sweep(id));
    OpKeeps(t1, t2, ClaimJob(id));
    assert AddsJob(t2, t3, job, false) && t4 == t3 - {id};
    hide TableInv, Placed, Sweepable, Swept, Promoted, Does, AddsJob;
    var n := PromotesTo(t2, t3, id, job);
    assert t4 == (t0 - {id})[n := job];
  }

  // The promotion takes the key over from its own timer.
  lemma PromotesTo(jobs: Jobs, jobs': Jobs, id: nat, job: Job) returns (n: nat)
    requires TableInv(jobs) && AddsJob(jobs, jobs', job, false)
    requires id in jobs && jobs[id].locked && jobs[id].key == job.key
    ensures n !in jobs && jobs'.Keys == jobs.Keys + {n} && jobs'[n] == job
    ensures forall i | i in jobs && i != id :: jobs'[i] == jobs[i]
  {
    hide AllPlaced, Serial;
    if job.key.Some? {
      var i :| i in jobs && jobs[i].key == job.key
               && (if jobs[i].locked then
                     exists n: nat :: n !in jobs
                       && jobs' == jobs[i := jobs[i].(key := None, attempts := MAX_ATTEMPTS)][n := job]
                   else jobs' == jobs[i := job]);
      assert i == id;
      n :| n !in jobs && jobs' == jobs[i := jobs[i].(key := None, attempts := MAX_ATTEMPTS)][n := job];
    } else {
      n :| n !in jobs && jobs' == jobs[n := job];
    }
  }

  // -------------------------------------------------------------------------
  // The sweep

  class JobTable {
    var jobs: Jobs

    constructor ()
      ensures jobs == map[]
    {
      jobs := map[];
    }

    // graphile's add_job, as one statement.
    method AddJob(job: Job, dedupe: bool)
      modifies this
      ensures AddsJob(old(jobs), jobs, job, dedupe)
    {
      var n := FreshId(jobs);
      if job.key.Some? {
        if i :| i in jobs && jobs[i].key == job.key {
          if dedupe {
          } else if jobs[i].locked {
            jobs := jobs[i := jobs[i].(key := None, attempts := MAX_ATTEMPTS)][n := job];
          } else {
            jobs := jobs[i := job];
          }
          return;
        }
      }
      jobs := jobs[n := job];
    }

    // queue(): send a message.
    method SendMessage(message: Message, delay: nat, busy: bool, embedded: bool, dedupe: bool)
      requires TableInv(jobs)
      modifies this
      ensures Does(old(jobs), jobs, Send(message, delay, busy, embedded, dedupe)) && TableInv(jobs)
    {
      hide TableInv;
      var job := SentJob(message, delay, busy, embedded);
      AddJob(job, dedupe);
      OpKeeps(old(jobs), jobs, Send(message, delay, busy, embedded, dedupe));
    }

    // The dispatcher's reschedule of a claimed delivery.
    method AddDelayedDelivery(id: nat, message: Message, delay: nat)
      requires TableInv(jobs) && id in jobs && jobs[id].locked && jobs[id].task.Flow?
      requires message == jobs[id].message.(offsets := message.offsets)
      modifies this
      ensures Does(old(jobs), jobs, Reschedule(id, message, delay)) && TableInv(jobs)
    {
      hide TableInv, AddsJob;
      var key := if message.idempotencyKey.Some? then message.idempotencyKey else Some(message.messageId);
      AddJob(Delayed(message, RunQueueFor(message.tenant, message.body), delay, key, true), false);
      OpKeeps(old(jobs), jobs, Reschedule(id, message, delay));
    }

    // The timer task of a claimed timer.
    method PromoteTimer(id: nat)
      requires TableInv(jobs) && id in jobs && jobs[id].locked && jobs[id].task.Timer?
      modifies this
      ensures Does(old(jobs), jobs, Promote(id)) && TableInv(jobs)
    {
      hide TableInv, AddsJob;
      AddJob(Promoted(jobs[id]), false);
      OpKeeps(old(jobs), jobs, Promote(id));
    }

    // Moves the sweepable jobs among `due`, the ids due beyond the horizon.
    method MoveDelayedJobsToTimers(due: set<nat>) returns (moved: nat)
      requires TableInv(jobs)
      modifies this
      ensures TableInv(jobs) && jobs.Keys == old(jobs).Keys
      ensures forall i | i in jobs ::
                jobs[i] == (if i in due && Sweepable(old(jobs)[i]) then Swept(old(jobs)[i]) else old(jobs)[i])
      ensures moved == |set i | i in old(jobs) && i in due && Sweepable(old(jobs)[i])|
    {
      hide Placed, Serial, UniqueKeys;
      var rest := set i | i in jobs && i in due && Sweepable(jobs[i]);
      ghost var all := rest;
      moved := 0;
      while rest != {}
        invariant TableInv(jobs) && jobs.Keys == old(jobs).Keys && rest <= all
        invariant all == set i | i in old(jobs) && i in due && Sweepable(old(jobs)[i])
        invariant forall i | i in all :: old(jobs)[i].queue.Some?
        invariant forall i | i in jobs ::
                    jobs[i] == (if i in all - rest then Swept(old(jobs)[i]) else old(jobs)[i])
        invariant moved == |all| - |rest|
      {
        var i :| i in rest;
        SweepKeeps(jobs, i);
        jobs := jobs[i := Swept(jobs[i])];
        rest := rest - {i};
        moved := moved + 1;
      }
    }
  }

  lemma SweepKeeps(jobs: Jobs, id: nat)
    requires TableInv(jobs) && id in jobs && Sweepable(jobs[id])
    ensures TableInv(jobs[id := Swept(jobs[id])])
  {
    hide TableInv;
    OpKeeps(jobs, jobs[id := Swept(jobs[id])], Sweep(id));
  }

  method FreshId(jobs: Jobs) returns (n: nat)
    ensures n !in jobs
  {
    n := 0;
    var rest := jobs.Keys;
    while rest != {}
      invariant rest <= jobs.Keys && forall i | i in jobs && i !in rest :: i < n
    {
      var i :| i in rest;
      if n <= i { n := i + 1; }
      rest := rest - {i};
    }
  }
}
