/**
 Delivery accounting. A message lives on a chain of jobs: a job is claimed, and claimed
 again when a delivery fails; an answer with a timeout ends it and continues the message
 on a fresh job. Only the offsets stored with the message know what came before. Over any
 such life, what a claim reports is the number of the delivery and the retries that count.
 */
module Delivery {
  import opened Options

  // What a stored message carries about the deliveries before its current job.
  datatype Offsets = Offsets(attempt: nat, deliveryOffset: Option<nat>, attemptOffset: Option<nat>)

  datatype Report = Report(attempt: int, deliveryCount: int)

  function ValueOr(o: Option<nat>, d: nat): nat {
    if o.Some? then o.value else d
  }

  // `deliveryAccounting`
  function Accounting(message: Offsets, jobAttempts: Option<nat>): Report {
    match jobAttempts
    case None => Report(message.attempt, message.attempt)
    case Some(n) =>
      Report(n + ValueOr(message.attemptOffset, 0),
             n + ValueOr(message.deliveryOffset, ValueOr(message.attemptOffset, 0)))
  }

  // Encoding leaves a zero offset out.
  function Stored(offset: int): Option<nat> {
    if offset <= 0 then None else Some(offset)
  }

  predicate Handoff(timeoutSeconds: nat, singleOrchestrator: bool) {
    timeoutSeconds == 0 && singleOrchestrator
  }

  // `continuationOf`
  function Continuation(message: Offsets, delivery: Report, timeoutSeconds: nat, singleOrchestrator: bool): Offsets
    requires delivery.attempt >= 0
  {
    var handoff := Handoff(timeoutSeconds, singleOrchestrator);
    Offsets(if handoff then delivery.attempt else delivery.attempt + 1,
            Stored(delivery.deliveryCount),
            if handoff then Stored(delivery.attempt - 1)
            else if message.attemptOffset == Some(0) then None
            else message.attemptOffset)
  }

  // -------------------------------------------------------------------------
  // A message's life

  // A claim of the current job, or the answer to the last claim that ends it.
  datatype Step = Claim | Answer(timeoutSeconds: nat, singleOrchestrator: bool)

  const SENT := Offsets(1, None, None)

  // How often the current job has been claimed.
  function JobClaims(life: seq<Step>): nat {
    if life == [] || life[|life| - 1].Answer? then 0 else 1 + JobClaims(life[..|life| - 1])
  }

  // An answer ends a job that was claimed.
  predicate Lives(life: seq<Step>) {
    forall i | 0 <= i < |life| && life[i].Answer? :: i > 0 && life[i - 1].Claim?
  }

  // The message as stored for the current job.
  function Message(life: seq<Step>): Offsets {
    if life == [] then SENT
    else
      var before, step := life[..|life| - 1], life[|life| - 1];
      match step
      case Claim => Message(before)
      case Answer(timeout, single) =>
        Continuation(Message(before), Accounting(Message(before), Some(JobClaims(before))), timeout, single)
  }

  // What the last claim reports.
  function Reported(life: seq<Step>): Report {
    Accounting(Message(life), Some(JobClaims(life)))
  }

  // Counted on the life itself, not on any offset.
  function Deliveries(life: seq<Step>): nat {
    if life == [] then 0 else Deliveries(life[..|life| - 1]) + (if life[|life| - 1].Claim? then 1 else 0)
  }

  // The retries of earlier jobs that ended in a handoff.
  function HandedRetries(life: seq<Step>): nat {
    if life == [] then 0
    else
      var before, step := life[..|life| - 1], life[|life| - 1];
      HandedRetries(before)
      + (if step.Answer? && Handoff(step.timeoutSeconds, step.singleOrchestrator) && JobClaims(before) > 0
         then JobClaims(before) - 1 else 0)
  }

  ghost predicate Counts(life: seq<Step>) {
    var m := Message(life);
    && ValueOr(m.attemptOffset, 0) == HandedRetries(life)
    && ValueOr(m.deliveryOffset, ValueOr(m.attemptOffset, 0)) + JobClaims(life) == Deliveries(life)
    && HandedRetries(life) + JobClaims(life) <= Deliveries(life)
  }

  lemma LivesBefore(life: seq<Step>)
    requires Lives(life) && life != []
    ensures Lives(life[..|life| - 1])
    ensures life[|life| - 1].Answer? ==> JobClaims(life[..|life| - 1]) > 0
  {
    var before := life[..|life| - 1];
    forall i | 0 <= i < |before| && before[i].Answer?
      ensures i > 0 && before[i - 1].Claim?
    {
      assert life[i].Answer?;
    }
  }

  lemma {:induction false} OffsetsCount(life: seq<Step>)
    requires Lives(life)
    ensures Counts(life)
  {
    if life != [] {
      LivesBefore(life);
      OffsetsCount(life[..|life| - 1]);
    }
  }

  // The k-th claim reports k deliveries; the attempt is one more than the retries of the
  // current job and of every earlier job that ended in a handoff.
  lemma ClaimReports(life: seq<Step>)
    requires Lives(life) && life != [] && life[|life| - 1].Claim?
    ensures Reported(life).deliveryCount == Deliveries(life)
    ensures Reported(life).attempt - 1 == (JobClaims(life) - 1) + HandedRetries(life)
    ensures 1 <= Reported(life).attempt <= Reported(life).deliveryCount
  {
    OffsetsCount(life);
  }

  // Two claims of one message never report the same delivery.
  lemma {:induction false} DeliveriesGrow(life: seq<Step>, k: nat)
    requires k < |life| && life[|life| - 1].Claim?
    ensures Deliveries(life[..k]) < Deliveries(life)
    decreases |life|
  {
    DeliveriesGrowWeakly(life[..|life| - 1], k);
    assert life[..|life| - 1][..k] == life[..k];
  }

  lemma {:induction false} DeliveriesGrowWeakly(life: seq<Step>, k: nat)
    requires k <= |life|
    ensures Deliveries(life[..k]) <= Deliveries(life)
  {
    if k < |life| {
      DeliveriesGrowWeakly(life[..|life| - 1], k);
      assert life[..|life| - 1][..k] == life[..k];
    } else {
      assert life[..k] == life;
    }
  }

  lemma RedeliveryIsNumberedHigher(life: seq<Step>, k: nat)
    requires Lives(life) && 0 < k < |life|
    requires life[k - 1].Claim? && life[|life| - 1].Claim?
    ensures Reported(life[..k]).deliveryCount < Reported(life).deliveryCount
  {
    assert Lives(life[..k]) by {
      forall i | 0 <= i < k && life[..k][i].Answer? ensures i > 0 && life[..k][i - 1].Claim? { assert life[i].Answer?; }
    }
    ClaimReports(life);
    ClaimReports(life[..k]);
    DeliveriesGrow(life, k);
  }
}
