/**
 The activation lease held around a dispatch. It is renewed at every tick of an interval;
 failures are tolerated up to a budget, and then the dispatch is aborted. For every
 sequence of answers the abort comes strictly before the lease lapses, and a full interval
 before it when the lease is at least two intervals long.
 */
module Lease {
  import opened Options

  // How many consecutive failures fit into the lease, one interval held back.
  function AllowedFailures(ttl: Option<real>, interval: real): (n: nat) {
    if ttl.Some? && interval > 0.0 && (ttl.value / interval).Floor - 2 > 0
    then (ttl.value / interval).Floor - 2
    else 0
  }

  // The renewal timer's state.
  class Renewal {
    const allowed: nat
    var consecutiveFailures: nat
    var aborted: bool

    constructor (ttl: Option<real>, interval: real)
      ensures allowed == AllowedFailures(ttl, interval) && consecutiveFailures == 0 && !aborted
    {
      allowed := AllowedFailures(ttl, interval);
      consecutiveFailures := 0;
      aborted := false;
    }

    // One tick's answer. Only a success resets the count.
    method Tick(renewed: bool)
      modifies this
      ensures consecutiveFailures == (if renewed then 0 else old(consecutiveFailures) + 1)
      ensures aborted <==> old(aborted) || (!renewed && old(consecutiveFailures) + 1 > allowed)
    {
      if renewed {
        consecutiveFailures := 0;
        return;
      }
      consecutiveFailures := consecutiveFailures + 1;
      if consecutiveFailures > allowed {
        aborted := true;
      }
    }
  }

  // -------------------------------------------------------------------------
  // Over any sequence of answers

  // The failures in a row at the end.
  function Failing(answers: seq<bool>): nat {
    if answers == [] || answers[|answers| - 1] then 0 else 1 + Failing(answers[..|answers| - 1])
  }

  // The tick of the last renewal; the lease was taken at tick 0.
  function LastRenewal(answers: seq<bool>): nat {
    if answers == [] then 0
    else if answers[|answers| - 1] then |answers|
    else LastRenewal(answers[..|answers| - 1])
  }

  // Whether the dispatch has been aborted by now.
  predicate Aborted(answers: seq<bool>, allowed: nat) {
    answers != [] && (Failing(answers) > allowed || Aborted(answers[..|answers| - 1], allowed))
  }

  lemma {:induction false} FailingSince(answers: seq<bool>)
    ensures LastRenewal(answers) + Failing(answers) == |answers|
  {
    if answers != [] {
      FailingSince(answers[..|answers| - 1]);
    }
  }

  lemma {:induction false} NoRunOfFailures(answers: seq<bool>, allowed: nat)
    requires !Aborted(answers, allowed)
    ensures Failing(answers) <= allowed
  {
  }

  // The whole timer, run over the answers.
  method Run(ttl: Option<real>, interval: real, answers: seq<bool>) returns (aborted: bool)
    ensures aborted <==> Aborted(answers, AllowedFailures(ttl, interval))
  {
    var renewal := new Renewal(ttl, interval);
    var i := 0;
    while i < |answers|
      invariant 0 <= i <= |answers| && renewal.allowed == AllowedFailures(ttl, interval)
      invariant renewal.consecutiveFailures == Failing(answers[..i])
      invariant renewal.aborted <==> Aborted(answers[..i], renewal.allowed)
    {
      assert answers[..i + 1][..i] == answers[..i];
      renewal.Tick(answers[i]);
      i := i + 1;
    }
    assert answers[..i] == answers;
    return renewal.aborted;
  }

  // When the lease as last renewed would lapse.
  function Lapses(answers: seq<bool>, ttl: real, interval: real): real {
    LastRenewal(answers) as real * interval + ttl
  }

  lemma FloorBelow(x: real, y: real)
    requires y > 0.0
    ensures (x / y).Floor as real * y <= x
  {
    var q := x / y;
    assert q * y == x;
    assert q.Floor as real <= q;
    Scale(q.Floor as real, q, y);
  }

  lemma Scale(a: real, b: real, y: real)
    requires a <= b && y > 0.0
    ensures a * y <= b * y
  {
  }

  lemma BudgetFits(ttl: real, interval: real)
    requires 0.0 < interval < ttl
    ensures (AllowedFailures(Some(ttl), interval) + 1) as real * interval < ttl
    ensures 2.0 * interval <= ttl ==> (AllowedFailures(Some(ttl), interval) + 2) as real * interval <= ttl
  {
    var n := (ttl / interval).Floor;
    var allowed := AllowedFailures(Some(ttl), interval);
    FloorBelow(ttl, interval);
    if n - 2 > 0 {
      assert (allowed + 2) as real * interval == n as real * interval;
      assert (allowed + 1) as real * interval == (allowed + 2) as real * interval - interval;
    } else {
      assert (allowed + 1) as real * interval == interval;
      assert (allowed + 2) as real * interval == 2.0 * interval;
    }
  }

  // At every tick at which the dispatch is still going, the lease outlives that tick and,
  // if the next answer is the one too many, also the tick of the abort.
  lemma AbortBeforeLapse(answers: seq<bool>, ttl: real, interval: real)
    requires 0.0 < interval < ttl
    requires answers != [] && !Aborted(answers[..|answers| - 1], AllowedFailures(Some(ttl), interval))
    ensures |answers| as real * interval < Lapses(answers[..|answers| - 1], ttl, interval)
    ensures 2.0 * interval <= ttl ==>
              |answers| as real * interval + interval <= Lapses(answers[..|answers| - 1], ttl, interval)
  {
    var allowed, before := AllowedFailures(Some(ttl), interval), answers[..|answers| - 1];
    NoRunOfFailures(before, allowed);
    FailingSince(before);
    BudgetFits(ttl, interval);
    var since := Failing(before) + 1;
    assert |answers| == LastRenewal(before) + since;
    assert |answers| as real * interval == LastRenewal(before) as real * interval + since as real * interval;
    Scale(since as real, (allowed + 1) as real, interval);
    assert (allowed + 2) as real * interval == (allowed + 1) as real * interval + interval;
  }

  // Without a known lease the first failure aborts.
  lemma UnknownLeaseAbortsAtOnce(answers: seq<bool>, interval: real)
    requires answers != [] && !answers[|answers| - 1]
    ensures Aborted(answers, AllowedFailures(None, interval))
  {
  }

  // Aborting is not premature either: it takes more failures in a row than the budget.
  lemma {:induction false} AbortNeedsFailures(answers: seq<bool>, allowed: nat)
    requires Aborted(answers, allowed)
    ensures exists k :: 0 < k <= |answers| && Failing(answers[..k]) > allowed
  {
    if Failing(answers) > allowed {
      assert answers[..|answers|] == answers;
    } else {
      var before := answers[..|answers| - 1];
      AbortNeedsFailures(before, allowed);
      var k :| 0 < k <= |before| && Failing(before[..k]) > allowed;
      assert before[..k] == answers[..k];
    }
  }
}
