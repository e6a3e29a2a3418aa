/**
 Boot recovery: which runs get a recovery job, when it is due, and what is covered
 afterwards. The recovery job's key names the run alone, while queues are per tenant and
 run: another tenant's recovery job for the same run id takes the key, and with it the
 place, of the job that had it. `SweepCoversExactly` says for every active run whether
 something will deliver it after the sweep.
 */
module BootRecovery {
  import opened Options
  import opened RunQueues

  // One active run that is not dead-lettered, as the sweep's query returns it.
  datatype RunRow = RunRow(tenant: string, run: string, deployment: string, hasHook: bool, sleeping: bool)

  function QueueOf(row: RunRow): string {
    RunQueueName(row.tenant, row.run)
  }

  function RecoveryKey(row: RunRow): Option<string> {
    Some("msg_recover_" + row.run)
  }

  // A job that will still be delivered on this queue: waiting in it, or a timer for it.
  predicate LiveFor(job: Job, queue: string) {
    job.attempts < MAX_ATTEMPTS && (job.queue == Some(queue) || (job.task.Timer? && job.runQueue == Some(queue)))
  }

  predicate HasLiveJob(jobs: Jobs, row: RunRow) {
    exists i :: i in jobs && LiveFor(jobs[i], QueueOf(row))
  }

  predicate Candidate(jobs: Jobs, row: RunRow) {
    !HasLiveJob(jobs, row) && (!row.hasHook || row.sleeping)
  }

  // Something will deliver the run: a job, a timer, or a hook it is parked on.
  predicate Covered(jobs: Jobs, row: RunRow) {
    HasLiveJob(jobs, row) || (row.hasHook && !row.sleeping)
  }

  function JobFor(row: RunRow): Job {
    RecoveryJob(row.tenant, row.run)
  }

  function Candidates(jobs: Jobs, rows: seq<RunRow>): seq<RunRow> {
    if rows == [] then []
    else (if Candidate(jobs, rows[0]) then [rows[0]] else []) + Candidates(jobs, rows[1..])
  }

  // The enqueue loop: one addJob after another.
  ghost predicate Enqueues(tables: seq<Jobs>, rows: seq<RunRow>) {
    && |tables| == |rows| + 1
    && forall i | 0 <= i < |rows| :: AddsJob(tables[i], tables[i + 1], JobFor(rows[i]), false)
  }

  // -------------------------------------------------------------------------
  // One addJob

  lemma AddedAt(jobs: Jobs, jobs': Jobs, job: Job) returns (x: nat)
    requires AddsJob(jobs, jobs', job, false)
    ensures x in jobs' && jobs'[x] == job
  {
    if job.key.Some? && exists i :: i in jobs && jobs[i].key == job.key {
      var i :| i in jobs && jobs[i].key == job.key
               && (if jobs[i].locked then
                     exists n: nat :: n !in jobs
                       && jobs' == jobs[i := jobs[i].(key := None, attempts := MAX_ATTEMPTS)][n := job]
                   else jobs' == jobs[i := job]);
      if jobs[i].locked {
        var n: nat :| n !in jobs && jobs' == jobs[i := jobs[i].(key := None, attempts := MAX_ATTEMPTS)][n := job];
        x := n;
      } else {
        x := i;
      }
    } else {
      var n: nat :| n !in jobs && jobs' == jobs[n := job];
      x := n;
    }
  }

  // A job under another key, or none, stays.
  lemma OthersStay(jobs: Jobs, jobs': Jobs, job: Job, i: nat)
    requires AddsJob(jobs, jobs', job, false) && i in jobs && jobs[i].key != job.key
    ensures i in jobs' && jobs'[i] == jobs[i]
  {
  }

  // What is live for a queue afterwards was before, or is the job that was added.
  lemma NothingElseAppears(jobs: Jobs, jobs': Jobs, job: Job, queue: string, i: nat)
    requires AddsJob(jobs, jobs', job, false) && i in jobs' && LiveFor(jobs'[i], queue)
    ensures jobs'[i] == job || (i in jobs && jobs'[i] == jobs[i])
  {
  }

  // The holder of the key, pending or claimed, is not live for another queue afterwards: a
  // pending job is replaced, and a claimed one has its retries spent.
  lemma HolderIsGone(jobs: Jobs, jobs': Jobs, job: Job, queue: string, i: nat)
    requires AddsJob(jobs, jobs', job, false) && UniqueKeys(jobs) && job.key.Some?
    requires i in jobs && jobs[i].key == job.key && i in jobs' && LiveFor(jobs'[i], queue)
    ensures jobs'[i] == job
  {
  }

  // -------------------------------------------------------------------------
  // Coverage

  lemma SameKeySameRun(a: RunRow, b: RunRow)
    ensures RecoveryKey(a) == RecoveryKey(b) <==> a.run == b.run
  {
    var p := "msg_recover_";
    assert (p + a.run)[|p|..] == a.run && (p + b.run)[|p|..] == b.run;
  }

  ghost predicate ValidRows(rows: seq<RunRow>) {
    forall i | 0 <= i < |rows| :: ValidTenant(rows[i].tenant)
  }

  // No recovery job of the first `n` candidates has this key.
  predicate Unclaimed(cands: seq<RunRow>, n: nat, key: Option<string>)
    requires n <= |cands|
  {
    forall x | 0 <= x < n :: key != RecoveryKey(cands[x])
  }

  // A job the run had from the start, that none of them takes the key of.
  predicate Keeps(jobs: Jobs, row: RunRow, cands: seq<RunRow>, n: nat)
    requires n <= |cands|
  {
    exists i :: i in jobs && LiveFor(jobs[i], QueueOf(row)) && Unclaimed(cands, n, jobs[i].key)
  }

  // Of the first `n` candidates, the last one of its run id is this run.
  predicate ComesLast(cands: seq<RunRow>, n: nat, row: RunRow)
    requires n <= |cands|
  {
    exists x :: 0 <= x < n && QueueOf(cands[x]) == QueueOf(row)
                && forall y | x < y < n :: cands[y].run != row.run
  }

  lemma {:induction false} StaysLastOrNot(cands: seq<RunRow>, n: nat, row: RunRow)
    requires n < |cands| && ValidRows(cands) && ValidTenant(row.tenant)
    ensures ComesLast(cands, n + 1, row) <==>
            QueueOf(cands[n]) == QueueOf(row) || (ComesLast(cands, n, row) && cands[n].run != row.run)
  {
    QueueNamesAreInjective(cands[n].tenant, cands[n].run, row.tenant, row.run);
    hide RunQueueName;
    if ComesLast(cands, n + 1, row) {
      var x :| 0 <= x < n + 1 && QueueOf(cands[x]) == QueueOf(row) && forall y | x < y < n + 1 :: cands[y].run != row.run;
    }
    if QueueOf(cands[n]) != QueueOf(row) && ComesLast(cands, n, row) && cands[n].run != row.run {
      var x :| 0 <= x < n && QueueOf(cands[x]) == QueueOf(row) && forall y | x < y < n :: cands[y].run != row.run;
      assert forall y | x < y < n + 1 :: cands[y].run != row.run;
    }
  }

  // What is live for the run's queue after `n` candidates: what it keeps, and its own
  // recovery job if it comes last.
  ghost predicate LiveJobs(jobs0: Jobs, jobs: Jobs, cands: seq<RunRow>, n: nat, row: RunRow)
    requires n <= |cands|
  {
    && (forall i | i in jobs && LiveFor(jobs[i], QueueOf(row)) ::
          || (i in jobs0 && jobs[i] == jobs0[i] && Unclaimed(cands, n, jobs[i].key))
          || (ComesLast(cands, n, row) && jobs[i] == JobFor(row)))
    && (forall i | i in jobs0 && LiveFor(jobs0[i], QueueOf(row)) && Unclaimed(cands, n, jobs0[i].key) ::
          i in jobs && jobs[i] == jobs0[i])
    && (ComesLast(cands, n, row) ==> exists i :: i in jobs && jobs[i] == JobFor(row))
  }

  lemma SameQueueSameJob(a: RunRow, b: RunRow)
    requires ValidTenant(a.tenant) && ValidTenant(b.tenant) && QueueOf(a) == QueueOf(b)
    ensures JobFor(a) == JobFor(b) && a.run == b.run
  {
    QueueNamesAreInjective(a.tenant, a.run, b.tenant, b.run);
  }

  lemma LiveOnlyThose(jobs0: Jobs, jobs: Jobs, jobs': Jobs, cands: seq<RunRow>, n: nat, row: RunRow, i: nat)
    requires n < |cands| && ValidRows(cands) && ValidTenant(row.tenant) && UniqueKeys(jobs)
    requires LiveJobs(jobs0, jobs, cands, n, row) && AddsJob(jobs, jobs', JobFor(cands[n]), false)
    requires i in jobs' && LiveFor(jobs'[i], QueueOf(row))
    ensures || (i in jobs0 && jobs'[i] == jobs0[i] && Unclaimed(cands, n + 1, jobs'[i].key))
            || (ComesLast(cands, n + 1, row) && jobs'[i] == JobFor(row))
  {
    var c := cands[n];
    StaysLastOrNot(cands, n, row);
    if jobs'[i] == JobFor(c) {
      SameQueueSameJob(c, row);
    } else {
      NothingElseAppears(jobs, jobs', JobFor(c), QueueOf(row), i);
      if jobs[i].key == RecoveryKey(c) { HolderIsGone(jobs, jobs', JobFor(c), QueueOf(row), i); }
      SameKeySameRun(c, row);
      hide AddsJob, UniqueKeys, ComesLast, LiveFor, RunQueueName;
    }
  }

  lemma LiveKept(jobs0: Jobs, jobs: Jobs, jobs': Jobs, cands: seq<RunRow>, n: nat, row: RunRow, i: nat)
    requires n < |cands| && LiveJobs(jobs0, jobs, cands, n, row) && AddsJob(jobs, jobs', JobFor(cands[n]), false)
    requires i in jobs0 && LiveFor(jobs0[i], QueueOf(row)) && Unclaimed(cands, n + 1, jobs0[i].key)
    ensures i in jobs' && jobs'[i] == jobs0[i]
  {
    assert jobs0[i].key != RecoveryKey(cands[n]);
    assert Unclaimed(cands, n, jobs0[i].key);
    OthersStay(jobs, jobs', JobFor(cands[n]), i);
  }

  lemma OwnKept(jobs0: Jobs, jobs: Jobs, jobs': Jobs, cands: seq<RunRow>, n: nat, row: RunRow)
    requires n < |cands| && ValidRows(cands) && ValidTenant(row.tenant)
    requires LiveJobs(jobs0, jobs, cands, n, row) && AddsJob(jobs, jobs', JobFor(cands[n]), false)
    requires ComesLast(cands, n + 1, row)
    ensures exists i :: i in jobs' && jobs'[i] == JobFor(row)
  {
    var c := cands[n];
    StaysLastOrNot(cands, n, row);
    if QueueOf(c) == QueueOf(row) {
      SameQueueSameJob(c, row);
      var x := AddedAt(jobs, jobs', JobFor(c));
    } else {
      var i :| i in jobs && jobs[i] == JobFor(row);
      SameKeySameRun(c, row);
      OthersStay(jobs, jobs', JobFor(c), i);
    }
  }

  lemma {:induction false} LiveJobsAfter(tables: seq<Jobs>, cands: seq<RunRow>, n: nat, row: RunRow)
    requires Enqueues(tables, cands) && n <= |cands| && ValidRows(cands) && ValidTenant(row.tenant) && TableInv(tables[0])
    ensures LiveJobs(tables[0], tables[n], cands, n, row) && TableInv(tables[n])
  {
    if n > 0 {
      LiveJobsAfter(tables, cands, n - 1, row);
      var jobs0, jobs, jobs', c := tables[0], tables[n - 1], tables[n], cands[n - 1];
      assert AddsJob(jobs, tables[n - 1 + 1], JobFor(c), false);
      RecoveryIsPlaced(c.tenant, c.run);
      AddKeeps(jobs, jobs', JobFor(c), false);
      hide AddsJob, AllPlaced, Serial, UniqueKeys, LiveFor, Unclaimed, ComesLast;
      forall i | i in jobs' && LiveFor(jobs'[i], QueueOf(row))
        ensures || (i in jobs0 && jobs'[i] == jobs0[i] && Unclaimed(cands, n, jobs'[i].key))
                || (ComesLast(cands, n, row) && jobs'[i] == JobFor(row))
      {
        LiveOnlyThose(jobs0, jobs, jobs', cands, n - 1, row, i);
      }
      forall i | i in jobs0 && LiveFor(jobs0[i], QueueOf(row)) && Unclaimed(cands, n, jobs0[i].key)
        ensures i in jobs' && jobs'[i] == jobs0[i]
      {
        LiveKept(jobs0, jobs, jobs', cands, n - 1, row, i);
      }
      if ComesLast(cands, n, row) {
        OwnKept(jobs0, jobs, jobs', cands, n - 1, row);
      }
    }
  }

  // Exactly: after the enqueues a run will be delivered if and only if it is parked on a
  // hook, has a job from before that no candidate's key is on, or is itself the last
  // candidate of its run id.
  lemma CoveredExactly(tables: seq<Jobs>, cands: seq<RunRow>, row: RunRow)
    requires Enqueues(tables, cands) && ValidRows(cands) && ValidTenant(row.tenant) && TableInv(tables[0])
    ensures Covered(tables[|cands|], row) <==>
            || (row.hasHook && !row.sleeping)
            || Keeps(tables[0], row, cands, |cands|)
            || ComesLast(cands, |cands|, row)
  {
    var n := |cands|;
    LiveJobsAfter(tables, cands, n, row);
    assert LiveFor(JobFor(row), QueueOf(row));
    hide Enqueues, TableInv, ComesLast, Unclaimed, LiveFor, RunQueueName;
    if HasLiveJob(tables[n], row) {
      var i :| i in tables[n] && LiveFor(tables[n][i], QueueOf(row));
      if !ComesLast(cands, n, row) { assert i in tables[0]; }
    }
    if Keeps(tables[0], row, cands, n) {
      var i :| i in tables[0] && LiveFor(tables[0][i], QueueOf(row)) && Unclaimed(cands, n, tables[0][i].key);
      assert i in tables[n];
    }
  }

  lemma {:induction false} CandidatesAre(jobs: Jobs, rows: seq<RunRow>, row: RunRow)
    ensures row in Candidates(jobs, rows) <==> row in rows && Candidate(jobs, row)
  {
    hide Candidate;
    if rows != [] {
      CandidatesAre(jobs, rows[1..], row);
    }
  }

  // The same for a sweep: for every active run, whatever the table and the other runs.
  lemma SweepCoversExactly(tables: seq<Jobs>, rows: seq<RunRow>, row: RunRow)
    requires row in rows && ValidRows(rows) && tables != [] && TableInv(tables[0])
    requires Enqueues(tables, Candidates(tables[0], rows))
    ensures var cands := Candidates(tables[0], rows);
            Covered(tables[|tables| - 1], row) <==>
            || (row.hasHook && !row.sleeping)
            || Keeps(tables[0], row, cands, |cands|)
            || ComesLast(cands, |cands|, row)
  {
    CandidatesAreValid(tables[0], rows);
    CoveredExactly(tables, Candidates(tables[0], rows), row);
  }

  lemma CandidatesAreValid(jobs: Jobs, rows: seq<RunRow>)
    requires ValidRows(rows)
    ensures ValidRows(Candidates(jobs, rows))
  {
    var cands := Candidates(jobs, rows);
    forall i | 0 <= i < |cands|
      ensures ValidTenant(cands[i].tenant)
    {
      CandidatesAre(jobs, rows, cands[i]);
    }
  }

  // -------------------------------------------------------------------------
  // What follows

  // No two of the active runs have the same id, whatever their tenants.
  ghost predicate DistinctRuns(rows: seq<RunRow>) {
    forall a, b | a in rows && b in rows && a.run == b.run :: a == b
  }

  // A recovery job of one of the runs is not on the queue of another.
  ghost predicate KeysAtHome(jobs: Jobs, rows: seq<RunRow>) {
    forall i, a, b | i in jobs && a in rows && b in rows
                     && jobs[i].key == RecoveryKey(a) && LiveFor(jobs[i], QueueOf(b)) :: a.run == b.run
  }

  // With keys at home, a run that has a job keeps one unless a candidate has its run id.
  lemma LiveRunKeepsItsJob(jobs: Jobs, rows: seq<RunRow>, cands: seq<RunRow>, row: RunRow)
    requires KeysAtHome(jobs, rows) && row in rows && HasLiveJob(jobs, row)
    requires forall x | 0 <= x < |cands| :: cands[x] in rows && cands[x].run != row.run
    ensures Keeps(jobs, row, cands, |cands|)
  {
    var i :| i in jobs && LiveFor(jobs[i], QueueOf(row));
    forall x | 0 <= x < |cands|
      ensures jobs[i].key != RecoveryKey(cands[x])
    {
    }
    assert Unclaimed(cands, |cands|, jobs[i].key);
  }

  // Of candidates that all are on this run's queue when they have its id, the last is this run's.
  lemma {:induction false} OnlyOneComesLast(cands: seq<RunRow>, n: nat, row: RunRow)
    requires n <= |cands| && ValidRows(cands) && ValidTenant(row.tenant)
    requires exists x :: 0 <= x < n && QueueOf(cands[x]) == QueueOf(row)
    requires forall x | 0 <= x < |cands| && cands[x].run == row.run :: QueueOf(cands[x]) == QueueOf(row)
    ensures ComesLast(cands, n, row)
  {
    hide RunQueueName;
    StaysLastOrNot(cands, n - 1, row);
    if QueueOf(cands[n - 1]) != QueueOf(row) {
      OnlyOneComesLast(cands, n - 1, row);
    }
  }

  // What can be checked before the sweep: candidates of one run id are of one tenant, and a
  // run that has a job, and is not parked, has one whose key is no candidate's.
  ghost predicate NoneDisplaced(jobs: Jobs, rows: seq<RunRow>) {
    && (forall a, b | a in rows && b in rows && Candidate(jobs, a) && Candidate(jobs, b) && a.run == b.run ::
          QueueOf(a) == QueueOf(b))
    && (forall row | row in rows && HasLiveJob(jobs, row) && !(row.hasHook && !row.sleeping) ::
          KeepsOne(jobs, rows, row))
  }

  ghost predicate KeepsOne(jobs: Jobs, rows: seq<RunRow>, row: RunRow) {
    exists i :: i in jobs && LiveFor(jobs[i], QueueOf(row))
                && forall c | c in rows && Candidate(jobs, c) :: jobs[i].key != RecoveryKey(c)
  }

  lemma KeepsIsKeepsOne(jobs: Jobs, rows: seq<RunRow>, row: RunRow)
    ensures var cands := Candidates(jobs, rows); Keeps(jobs, row, cands, |cands|) <==> KeepsOne(jobs, rows, row)
  {
    hide Candidates, Candidate, LiveFor, RecoveryKey, RunQueueName;
    var cands := Candidates(jobs, rows);
    forall c
      ensures c in cands <==> c in rows && Candidate(jobs, c)
    {
      CandidatesAre(jobs, rows, c);
    }
    if Keeps(jobs, row, cands, |cands|) {
      var i :| i in jobs && LiveFor(jobs[i], QueueOf(row)) && Unclaimed(cands, |cands|, jobs[i].key);
      forall c | c in rows && Candidate(jobs, c)
        ensures jobs[i].key != RecoveryKey(c)
      {
        assert c in cands;
      }
    }
    if i :| i in jobs && LiveFor(jobs[i], QueueOf(row))
            && forall c | c in rows && Candidate(jobs, c) :: jobs[i].key != RecoveryKey(c) {
      assert forall x | 0 <= x < |cands| :: cands[x] in cands;
      assert Unclaimed(cands, |cands|, jobs[i].key);
    }
  }

  // A sweep leaves every active run that is not dead-lettered with something to deliver it
  // exactly when that holds.
  lemma EveryRunIsCovered(tables: seq<Jobs>, rows: seq<RunRow>)
    requires ValidRows(rows) && tables != [] && TableInv(tables[0])
    requires Enqueues(tables, Candidates(tables[0], rows))
    ensures (forall row | row in rows :: Covered(tables[|tables| - 1], row)) <==> NoneDisplaced(tables[0], rows)
  {
    var jobs, last := tables[0], tables[|tables| - 1];
    hide TableInv, Enqueues, Covered, NoneDisplaced;
    forall row | row in rows
      ensures var cands := Candidates(jobs, rows);
              Covered(last, row) <==>
              (row.hasHook && !row.sleeping) || Keeps(jobs, row, cands, |cands|) || ComesLast(cands, |cands|, row)
    {
      SweepCoversExactly(tables, rows, row);
    }
    hide Candidates, Keeps, ComesLast;
    if NoneDisplaced(jobs, rows) {
      forall row | row in rows
        ensures Covered(last, row)
      {
        NotDisplaced(jobs, rows, row);
      }
    }
    if forall row | row in rows :: Covered(last, row) {
      AllCoveredMeans(jobs, rows);
    }
  }

  lemma NotDisplaced(jobs: Jobs, rows: seq<RunRow>, row: RunRow)
    requires ValidRows(rows) && row in rows && NoneDisplaced(jobs, rows)
    ensures var cands := Candidates(jobs, rows);
            (row.hasHook && !row.sleeping) || Keeps(jobs, row, cands, |cands|) || ComesLast(cands, |cands|, row)
  {
    hide Candidates, Keeps, ComesLast, HasLiveJob, KeepsOne;
    var cands := Candidates(jobs, rows);
    if Candidate(jobs, row) {
      CandidatesAre(jobs, rows, row);
      forall x | 0 <= x < |cands|
        ensures cands[x] in rows && Candidate(jobs, cands[x])
      {
        CandidatesAre(jobs, rows, cands[x]);
      }
      OnlyOneComesLast(cands, |cands|, row);
    } else if !(row.hasHook && !row.sleeping) {
      KeepsIsKeepsOne(jobs, rows, row);
    }
  }

  lemma AllCoveredMeans(jobs: Jobs, rows: seq<RunRow>)
    requires ValidRows(rows)
    requires var cands := Candidates(jobs, rows);
             forall row | row in rows ::
               (row.hasHook && !row.sleeping) || Keeps(jobs, row, cands, |cands|) || ComesLast(cands, |cands|, row)
    ensures NoneDisplaced(jobs, rows)
  {
    hide Candidates;
    var cands := Candidates(jobs, rows);
    forall a, b | a in rows && b in rows && Candidate(jobs, a) && Candidate(jobs, b) && a.run == b.run
      ensures QueueOf(a) == QueueOf(b)
    {
      assert !Keeps(jobs, a, cands, |cands|) && !Keeps(jobs, b, cands, |cands|);
      CandidatesAreValid(jobs, rows);
      BothLast(cands, a, b);
    }
    forall row | row in rows && HasLiveJob(jobs, row) && !(row.hasHook && !row.sleeping)
      ensures KeepsOne(jobs, rows, row)
    {
      forall x | 0 <= x < |cands|
        ensures QueueOf(cands[x]) != QueueOf(row)
      {
        CandidatesAre(jobs, rows, cands[x]);
      }
      KeepsIsKeepsOne(jobs, rows, row);
    }
  }

  // Only one queue has the last candidate of a run id.
  lemma BothLast(cands: seq<RunRow>, a: RunRow, b: RunRow)
    requires ValidRows(cands) && ValidTenant(a.tenant) && ValidTenant(b.tenant) && a.run == b.run
    requires ComesLast(cands, |cands|, a) && ComesLast(cands, |cands|, b)
    ensures QueueOf(a) == QueueOf(b)
  {
    var n := |cands|;
    var x :| 0 <= x < n && QueueOf(cands[x]) == QueueOf(a) && forall y | x < y < n :: cands[y].run != a.run;
    var z :| 0 <= z < n && QueueOf(cands[z]) == QueueOf(b) && forall y | z < y < n :: cands[y].run != b.run;
    QueueNamesAreInjective(cands[x].tenant, cands[x].run, a.tenant, a.run);
    QueueNamesAreInjective(cands[z].tenant, cands[z].run, b.tenant, b.run);
    assert x == z;
  }

  // Which it does when run ids are distinct and recovery keys are on their own runs' jobs.
  lemma DistinctRunsAreNotDisplaced(jobs: Jobs, rows: seq<RunRow>)
    requires DistinctRuns(rows) && KeysAtHome(jobs, rows)
    ensures NoneDisplaced(jobs, rows)
  {
    hide LiveFor, RunQueueName, KeysAtHome, Candidates;
    forall row | row in rows && HasLiveJob(jobs, row)
      ensures KeepsOne(jobs, rows, row)
    {
      var cands := Candidates(jobs, rows);
      forall x | 0 <= x < |cands|
        ensures cands[x] in rows && cands[x].run != row.run
      {
        CandidatesAre(jobs, rows, cands[x]);
      }
      LiveRunKeepsItsJob(jobs, rows, cands, row);
      KeepsIsKeepsOne(jobs, rows, row);
    }
  }

  // A candidate ends up with a delivery if and only if no candidate after it has its id.
  lemma CandidateCoveredExactly(tables: seq<Jobs>, cands: seq<RunRow>, k: nat)
    requires Enqueues(tables, cands) && k < |cands| && ValidRows(cands) && TableInv(tables[0])
    requires Candidate(tables[0], cands[k])
    requires forall i | k < i < |cands| :: (cands[i].tenant, cands[i].run) != (cands[k].tenant, cands[k].run)
    ensures Covered(tables[|cands|], cands[k]) <==> forall j | k < j < |cands| :: cands[j].run != cands[k].run
  {
    var row, n := cands[k], |cands|;
    CoveredExactly(tables, cands, row);
    assert !Keeps(tables[0], row, cands, n) by { hide LiveFor, Unclaimed; }
    if ComesLast(cands, n, row) {
      var x :| 0 <= x < n && QueueOf(cands[x]) == QueueOf(row) && forall y | x < y < n :: cands[y].run != row.run;
      QueueNamesAreInjective(cands[x].tenant, cands[x].run, row.tenant, row.run);
      assert x == k;
    }
  }

  // -------------------------------------------------------------------------
  // Two tenants, one run id

  const ONE := RunRow("a", "wrun_1", "dpl_1", false, false)
  const OTHER := RunRow("b", "wrun_1", "dpl_1", false, false)

  lemma TwoTenants()
    ensures ValidRows([ONE, OTHER]) && QueueOf(ONE) != QueueOf(OTHER)
    ensures JobFor(ONE).key == JobFor(OTHER).key && JobFor(ONE) != JobFor(OTHER)
  {
    QueueNamesAreInjective("a", "wrun_1", "b", "wrun_1");
    SameKeySameRun(ONE, OTHER);
  }

  // Both are candidates of a sweep over an empty table; the second's job replaces the
  // first's, which ends up with nothing that would deliver it.
  lemma FirstTenantLoses()
    ensures var tables, rows := [map[], map[0 := JobFor(ONE)], map[0 := JobFor(OTHER)]], [ONE, OTHER];
            && Candidates(tables[0], rows) == rows && TableInv(tables[0])
            && Enqueues(tables, rows) && !Covered(tables[2], ONE)
  {
    var empty: Jobs := map[];
    var first: Jobs, last: Jobs := map[0 := JobFor(ONE)], map[0 := JobFor(OTHER)];
    var rows := [ONE, OTHER];
    TwoTenants();
    assert Candidate(empty, ONE) && Candidate(empty, OTHER);
    assert rows[1..] == [OTHER] && [OTHER][1..] == [];
    assert Candidates(empty, [OTHER]) == [OTHER] + Candidates(empty, [OTHER][1..]);
    hide RunQueueName;
    assert AddsJob(empty, first, JobFor(ONE), false) by {
      var n: nat := 0;
      assert n !in empty && first == empty[n := JobFor(ONE)];
    }
    assert AddsJob(first, last, JobFor(OTHER), false) by {
      assert first[0].key == JobFor(OTHER).key && !first[0].locked && last == first[0 := JobFor(OTHER)];
    }
    assert Enqueues([empty, first, last], rows);
    assert !LiveFor(last[0], QueueOf(ONE));
  }

  // The first tenant's run need not be a candidate: a pending job of an earlier sweep, which
  // covers it, is lost to the second tenant's in the same way.
  lemma EarlierJobIsLost()
    ensures var tables, rows := [map[0 := JobFor(ONE)], map[0 := JobFor(OTHER)]], [ONE, OTHER];
            && TableInv(tables[0]) && KeysAtHome(tables[0], rows) && Covered(tables[0], ONE)
            && Candidates(tables[0], rows) == [OTHER]
            && Enqueues(tables, [OTHER]) && !Covered(tables[1], ONE)
  {
    var first: Jobs, last: Jobs := map[0 := JobFor(ONE)], map[0 := JobFor(OTHER)];
    var rows := [ONE, OTHER];
    TwoTenants();
    RecoveryIsPlaced(ONE.tenant, ONE.run);
    assert TableInv(first) by { hide Placed; }
    assert KeysAtHome(first, rows) by { hide RunQueueName; }
    assert LiveFor(first[0], QueueOf(ONE)) && !LiveFor(first[0], QueueOf(OTHER)) && !LiveFor(last[0], QueueOf(ONE));
    hide RunQueueName, LiveFor;
    assert HasLiveJob(first, ONE) && !HasLiveJob(first, OTHER) && !HasLiveJob(last, ONE);
    assert rows[1..] == [OTHER] && [OTHER][1..] == [];
    assert Candidates(first, [OTHER]) == [OTHER] + Candidates(first, [OTHER][1..]);
    assert Candidates(first, rows) == [] + Candidates(first, rows[1..]);
    assert AddsJob(first, last, JobFor(OTHER), false) by {
      assert first[0].key == JobFor(OTHER).key && !first[0].locked && last == first[0 := JobFor(OTHER)];
    }
    assert Enqueues([first, last], [OTHER]);
  }

  // Nor need it be the same run: a job under another run's recovery key is lost to that
  // run's. This is why a live job alone does not keep a run covered.
  const THIRD := RunRow("a", "wrun_2", "dpl_1", false, false)

  lemma ForeignKeyIsLost()
    ensures var job := JobFor(ONE).(key := RecoveryKey(THIRD));
            var tables, rows := [map[0 := job], map[0 := JobFor(THIRD)]], [ONE, THIRD];
            && Covered(tables[0], ONE) && DistinctRuns(rows) && Candidates(tables[0], rows) == [THIRD]
            && Enqueues(tables, [THIRD]) && !Covered(tables[1], ONE)
  {
    var job := JobFor(ONE).(key := RecoveryKey(THIRD));
    var first: Jobs, last: Jobs := map[0 := job], map[0 := JobFor(THIRD)];
    var rows := [ONE, THIRD];
    QueueNamesAreInjective("a", "wrun_1", "a", "wrun_2");
    assert LiveFor(first[0], QueueOf(ONE)) && !LiveFor(first[0], QueueOf(THIRD)) && !LiveFor(last[0], QueueOf(ONE));
    hide RunQueueName, LiveFor;
    assert HasLiveJob(first, ONE) && !HasLiveJob(first, THIRD) && !HasLiveJob(last, ONE);
    assert rows[1..] == [THIRD] && [THIRD][1..] == [];
    assert Candidates(first, [THIRD]) == [THIRD] + Candidates(first, [THIRD][1..]);
    assert Candidates(first, rows) == [] + Candidates(first, rows[1..]);
    assert AddsJob(first, last, JobFor(THIRD), false) by {
      assert first[0].key == JobFor(THIRD).key && !first[0].locked && last == first[0 := JobFor(THIRD)];
    }
    assert Enqueues([first, last], [THIRD]);
  }

  // -------------------------------------------------------------------------
  // Pacing

  datatype Pacing = Pacing(deploymentsPerWave: nat, waveIntervalMs: nat)

  type Deployment = (string, string)

  function DeploymentOf(row: RunRow): Deployment {
    (row.tenant, row.deployment)
  }

  ghost predicate Distinct<T>(s: seq<T>) {
    forall i, j | 0 <= i < j < |s| :: s[i] != s[j]
  }

  ghost function Elements<T>(s: seq<T>): set<T> {
    set x | x in s
  }

  lemma {:induction false} DistinctSize<T>(s: seq<T>)
    requires Distinct(s)
    ensures |Elements(s)| == |s|
  {
    if s == [] {
      assert Elements(s) == {};
    } else {
      var n := |s| - 1;
      DistinctSize(s[..n]);
      assert s == s[..n] + [s[n]];
      assert Elements(s) == Elements(s[..n]) + {s[n]};
      assert s[n] !in Elements(s[..n]);
    }
  }

  // The wave of the i-th deployment met.
  function WaveOf(i: nat, per: nat): nat
    requires per > 0
  {
    i / per
  }

  ghost function InWave<D(!new)>(waves: map<D, nat>, w: nat): set<D> {
    set d | d in waves && waves[d] == w
  }

  // The deployments in the order the sweep met them, `per` to a wave.
  ghost predicate Paced<D(!new)>(waves: map<D, nat>, order: seq<D>, per: nat) {
    && per > 0 && Distinct(order)
    && (forall d :: d in waves <==> d in order)
    && forall i | 0 <= i < |order| :: order[i] in waves && waves[order[i]] == WaveOf(i, per)
  }

  // Waves are full, but for the last.
  lemma WaveSizes<D(!new)>(waves: map<D, nat>, order: seq<D>, per: nat, w: nat)
    requires Paced(waves, order, per)
    ensures |InWave(waves, w)| <= per
    ensures (w + 1) * per <= |order| ==> |InWave(waves, w)| == per
    ensures |InWave(waves, w)| > 0 <==> w * per < |order|
  {
    hide WaveOf;
    var lo, hi := w * per, (w + 1) * per;
    assert hi == lo + per;
    if lo < |order| {
      var end := if hi <= |order| then hi else |order|;
      var part := order[lo..end];
      assert Distinct(part);
      DistinctSize(part);
      WaveIsSlice(waves, order, per, w, lo, end);
    } else {
      EmptyWave(waves, order, per, w);
    }
  }

  lemma EmptyWave<D(!new)>(waves: map<D, nat>, order: seq<D>, per: nat, w: nat)
    requires Paced(waves, order, per) && w * per >= |order|
    ensures InWave(waves, w) == {}
  {
    hide WaveOf;
    forall d | d in InWave(waves, w)
      ensures false
    {
      var i :| 0 <= i < |order| && order[i] == d;
      InSlice(i, per, w);
    }
  }

  lemma WaveIsSlice<D(!new)>(waves: map<D, nat>, order: seq<D>, per: nat, w: nat, lo: nat, end: nat)
    requires Paced(waves, order, per) && lo == w * per < |order|
    requires end == if lo + per <= |order| then lo + per else |order|
    ensures InWave(waves, w) == Elements(order[lo..end])
  {
    hide WaveOf;
    forall d
      ensures d in InWave(waves, w) <==> d in Elements(order[lo..end])
    {
      if d in InWave(waves, w) {
        var i :| 0 <= i < |order| && order[i] == d;
        InSlice(i, per, w);
        assert order[lo..end][i - lo] == d;
      }
      if d in Elements(order[lo..end]) {
        var i :| 0 <= i < |order[lo..end]| && order[lo..end][i] == d;
        assert order[lo + i] == d;
        InSlice(lo + i, per, w);
      }
    }
  }

  lemma InSlice(i: nat, per: nat, w: nat)
    requires per > 0
    ensures WaveOf(i, per) == w <==> w * per <= i < w * per + per
  {
    var q := i / per;
    assert i == q * per + i % per;
    if q < w {
      Times(q + 1, w, per);
      assert i < w * per;
    } else if q > w {
      Times(w + 1, q, per);
      assert w * per + per <= i;
    }
  }

  lemma Times(a: nat, b: nat, per: nat)
    requires a <= b
    ensures a * per <= b * per
  {
  }

  lemma NewDeployment<D(!new)>(waves: map<D, nat>, order: seq<D>, per: nat, d: D)
    requires per > 0 && Paced(waves, order, per) && d !in waves
    ensures Paced(waves[d := WaveOf(|order|, per)], order + [d], per)
  {
    hide WaveOf;
    var waves', order' := waves[d := WaveOf(|order|, per)], order + [d];
    assert forall x :: x in order' <==> x in order || x == d;
    forall i | 0 <= i < |order'|
      ensures order'[i] in waves' && waves'[order'[i]] == WaveOf(i, per)
    {
      if i < |order| { assert order'[i] == order[i] && order[i] in order; }
    }
  }

  method AssignWaves(rows: seq<RunRow>, per: nat) returns (waves: map<Deployment, nat>, ghost order: seq<Deployment>)
    requires per > 0
    ensures Paced(waves, order, per)
    ensures forall i | 0 <= i < |rows| :: DeploymentOf(rows[i]) in waves
  {
    waves, order := map[], [];
    var n := 0;
    assert Paced(waves, order, per);
    hide Paced, WaveOf, DeploymentOf;
    while n < |rows|
      invariant 0 <= n <= |rows| && Paced(waves, order, per) && |waves| == |order|
      invariant forall i | 0 <= i < n :: DeploymentOf(rows[i]) in waves
    {
      var d := DeploymentOf(rows[n]);
      if d !in waves {
        NewDeployment(waves, order, per, d);
        waves := waves[d := WaveOf(|waves|, per)];
        order := order + [d];
      }
      n := n + 1;
    }
  }

  // The sweep. `due` is when each candidate's job is due; none means at once.
  method RecoverActiveRuns(table: JobTable, rows: seq<RunRow>, pacing: Option<Pacing>, startedAt: nat)
    returns (enqueued: nat, due: seq<Option<nat>>, ghost tables: seq<Jobs>, ghost waves: map<Deployment, nat>,
             ghost order: seq<Deployment>)
    modifies table
    ensures tables != [] && tables[0] == old(table.jobs) && tables[|tables| - 1] == table.jobs
    ensures var cands := Candidates(old(table.jobs), rows);
            && Enqueues(tables, cands) && enqueued == |cands| == |due|
            && if pacing.Some? && pacing.value.waveIntervalMs > 0 && pacing.value.deploymentsPerWave > 0 then
                 && Paced(waves, order, pacing.value.deploymentsPerWave)
                 && (forall i | 0 <= i < |cands| ::
                       && DeploymentOf(cands[i]) in waves
                       && due[i] == Some(startedAt + waves[DeploymentOf(cands[i])] * pacing.value.waveIntervalMs))
               else forall i | 0 <= i < |cands| :: due[i] == None
  {
    var cands := Candidates(table.jobs, rows);
    var paced := pacing.Some? && pacing.value.waveIntervalMs > 0 && pacing.value.deploymentsPerWave > 0;
    var waveOf: map<Deployment, nat> := map[];
    order := [];
    if paced {
      waveOf, order := AssignWaves(cands, pacing.value.deploymentsPerWave);
    }
    waves := waveOf;
    tables, due, enqueued := [table.jobs], [], 0;
    while enqueued < |cands|
      invariant 0 <= enqueued <= |cands| && |due| == enqueued
      invariant |tables| == enqueued + 1 && tables[0] == old(table.jobs) && tables[enqueued] == table.jobs
      invariant forall i | 0 <= i < enqueued :: AddsJob(tables[i], tables[i + 1], JobFor(cands[i]), false)
      invariant forall i | 0 <= i < enqueued ::
                  due[i] == if paced then Some(startedAt + waveOf[DeploymentOf(cands[i])] * pacing.value.waveIntervalMs)
                            else None
    {
      hide AddsJob, Candidates, Paced;
      var row := cands[enqueued];
      table.AddJob(JobFor(row), false);
      ghost var before := tables;
      tables := tables + [table.jobs];
      assert forall i | 0 <= i < |before| :: tables[i] == before[i];
      due := due + [if paced then Some(startedAt + waveOf[DeploymentOf(row)] * pacing.value.waveIntervalMs) else None];
      enqueued := enqueued + 1;
    }
  }
}
