/**
 The vocabulary of the event log, and what one run's log says about one Hook and
 about one step.

 A Hook's history is read off the log by a small automaton (`HookOf`): it is
 created once, takes deliveries while it is live, and is disposed at most once.
 An order no replay can consume is the state `Corrupt`. The step automaton
 (`StepOf`) does the same for starts and terminal events. `HookOrder` and
 `StepOrder` restate what "not corrupt" means in terms of log positions.
 */
module EventLog {
  import opened Options

  type Token = nat
  type Writer = nat

  // A run id carries what its copies agree on: its ULID time, and the token of the
  // start Hook that every copy of the candidate names (none for an ordinary run).
  datatype RunId = RunId(uid: nat, born: nat, start: Option<Token>)

  // Hook and step ids belong to one run and are never reused. Number 0 is the start Hook.
  datatype HookId = HookId(run: RunId, n: nat)
  datatype StepId = StepId(run: RunId, n: nat)

  // `forceClaimedFrom`, with whether the victim was still running.
  datatype Claim = Claim(victim: HookId, running: bool)

  // `forceClaimedBy`, with the token the disposal row keeps.
  datatype Taking = Taking(taker: HookId, token: Token)

  datatype Event =
    | RunCreated(start: Option<HookId>)
    | RunStarted
    | RunEnded
    | HookCreated(hook: HookId, from: Option<Claim>)
    | HookReceived(hook: HookId)
    | HookDisposed(hook: HookId, lostTo: Option<Taking>)
    | HookConflict(hook: HookId)
    | StepCreated(step: StepId)
    | StepStarted(step: StepId, created: bool)
    | StepEnded(step: StepId)
    | StepRetrying(step: StepId)
    | Other

  // `mark` names the in-band writer whose write advanced the run's in-band count
  // with this slot; it is absent on every other slot.
  datatype Entry = Entry(ev: Event, mark: Option<Writer>)

  type Log = seq<Entry>

  function StartHook(r: RunId): HookId {
    HookId(r, 0)
  }

  // -------------------------------------------------------------------------
  // One Hook's history

  datatype HookState =
    | Absent
    | Live(from: Option<Claim>)
    | Gone(from: Option<Claim>, lostTo: Option<Taking>)
    | Corrupt

  function HookStep(st: HookState, h: HookId, ev: Event): HookState {
    match ev
    case RunCreated(start) =>
      if start != Some(h) then st else if st.Absent? then Live(None) else Corrupt
    case HookCreated(g, from) =>
      if g != h then st else if st.Absent? then Live(from) else Corrupt
    case HookReceived(g) =>
      if g != h || st.Live? then st else Corrupt
    case HookDisposed(g, lostTo) =>
      if g != h then st else if st.Live? then Gone(st.from, lostTo) else Corrupt
    case _ => st
  }

  function HookOf(log: Log, h: HookId): HookState {
    if log == [] then Absent
    else HookStep(HookOf(log[..|log| - 1], h), h, log[|log| - 1].ev)
  }

  // Whether an event says anything about Hook `h`.
  predicate Concerns(ev: Event, h: HookId) {
    match ev
    case RunCreated(start) => start == Some(h)
    case HookCreated(g, _) => g == h
    case HookReceived(g) => g == h
    case HookDisposed(g, _) => g == h
    case _ => false
  }

  predicate Creates(ev: Event, h: HookId) {
    ev == RunCreated(Some(h)) || (ev.HookCreated? && ev.hook == h)
  }

  predicate Disposes(ev: Event, h: HookId) {
    ev.HookDisposed? && ev.hook == h
  }

  predicate Receives(ev: Event, h: HookId) {
    ev == HookReceived(h)
  }

  // Whether the log holds a disposal of Hook `h`.
  predicate WasDisposed(log: Log, h: HookId) {
    exists i | 0 <= i < |log| :: Disposes(log[i].ev, h)
  }

  lemma HookPush(log: Log, e: Entry, h: HookId)
    ensures HookOf(log + [e], h) == HookStep(HookOf(log, h), h, e.ev)
  {
    assert (log + [e])[..|log|] == log;
  }

  lemma HookPushes(log: Log, more: Log, h: HookId)
    requires |more| <= 2
    ensures HookOf(log + more, h) ==
            if |more| == 0 then HookOf(log, h)
            else if |more| == 1 then HookStep(HookOf(log, h), h, more[0].ev)
            else HookStep(HookStep(HookOf(log, h), h, more[0].ev), h, more[1].ev)
  {
    if |more| == 0 {
      assert log + more == log;
    } else if |more| == 1 {
      assert more == [more[0]];
      HookPush(log, more[0], h);
    } else {
      assert log + more == (log + [more[0]]) + [more[1]];
      HookPush(log, more[0], h);
      HookPush(log + [more[0]], more[1], h);
    }
  }

  // Events about other Hooks leave `h` as it was.
  lemma {:induction false} HookUnconcerned(log: Log, more: Log, h: HookId)
    requires forall i | 0 <= i < |more| :: !Concerns(more[i].ev, h)
    ensures HookOf(log + more, h) == HookOf(log, h)
  {
    if more == [] {
      assert log + more == log;
    } else {
      var init, e := more[..|more| - 1], more[|more| - 1];
      assert log + more == (log + init) + [e];
      HookPush(log + init, e, h);
      HookUnconcerned(log, init, h);
    }
  }

  lemma {:induction false} HookStays(log: Log, k: nat, h: HookId)
    requires k <= |log|
    requires HookOf(log, h) != Corrupt
    ensures HookOf(log[..k], h) != Corrupt
    ensures HookOf(log[..k], h).Gone? ==> HookOf(log, h).Gone?
    ensures !HookOf(log[..k], h).Absent? ==> !HookOf(log, h).Absent?
  {
    if k < |log| {
      HookStays(log[..|log| - 1], k, h);
      assert log[..|log| - 1][..k] == log[..k];
    } else {
      assert log[..k] == log;
    }
  }

  // The state after the entry at `i`, from the state before it.
  lemma HookAt(log: Log, i: nat, h: HookId)
    requires i < |log|
    ensures HookOf(log[..i + 1], h) == HookStep(HookOf(log[..i], h), h, log[i].ev)
  {
    assert log[..i + 1] == log[..i] + [log[i]];
    HookPush(log[..i], log[i], h);
  }

  // A Hook that is not absent was created at some position.
  lemma {:induction false} HookWasCreated(log: Log, h: HookId) returns (at: nat)
    requires HookOf(log, h) != Corrupt && !HookOf(log, h).Absent?
    ensures at < |log| && Creates(log[at].ev, h)
  {
    var init := log[..|log| - 1];
    if Creates(log[|log| - 1].ev, h) {
      at := |log| - 1;
    } else {
      at := HookWasCreated(init, h);
    }
  }

  lemma {:induction false} HookWasNotCreated(log: Log, h: HookId)
    requires forall i | 0 <= i < |log| :: !Creates(log[i].ev, h)
    requires HookOf(log, h) != Corrupt
    ensures HookOf(log, h).Absent?
  {
    if !HookOf(log, h).Absent? {
      var at := HookWasCreated(log, h);
    }
  }

  // A Hook that is absent is not in the log at all.
  lemma AbsentMeans(log: Log, h: HookId, i: nat)
    requires HookOf(log, h).Absent? && i < |log|
    ensures !Concerns(log[i].ev, h)
  {
    HookStays(log, i, h);
    HookStays(log, i + 1, h);
    HookAt(log, i, h);
  }

  // In an order a replay can consume, a Hook is gone exactly when its disposal is there.
  lemma GoneMeans(log: Log, h: HookId)
    requires HookOf(log, h) != Corrupt
    ensures HookOf(log, h).Gone? <==> WasDisposed(log, h)
  {
    if WasDisposed(log, h) {
      var i :| 0 <= i < |log| && Disposes(log[i].ev, h);
      HookStays(log, i + 1, h);
      HookAt(log, i, h);
    }
    if HookOf(log, h).Gone? {
      GoneHasDisposal(log, h);
    }
  }

  lemma {:induction false} GoneHasDisposal(log: Log, h: HookId)
    requires HookOf(log, h).Gone?
    ensures WasDisposed(log, h)
  {
    var n := |log| - 1;
    if Disposes(log[n].ev, h) {
      assert WasDisposed(log, h);
    } else {
      GoneHasDisposal(log[..n], h);
      var i :| 0 <= i < n && Disposes(log[..n][i].ev, h);
      assert Disposes(log[i].ev, h);
    }
  }

  ghost predicate HookOrder(log: Log, h: HookId) {
    // a creation comes before every delivery and every disposal
    && (forall i | 0 <= i < |log| && (Receives(log[i].ev, h) || Disposes(log[i].ev, h)) ::
          exists j :: 0 <= j < i && Creates(log[j].ev, h))
    // it is created once and disposed at most once
    && (forall i, j | 0 <= i < j < |log| :: !(Creates(log[i].ev, h) && Creates(log[j].ev, h)))
    && (forall i, j | 0 <= i < j < |log| :: !(Disposes(log[i].ev, h) && Disposes(log[j].ev, h)))
    // and nothing is delivered behind the disposal
    && (forall i, j | 0 <= i < j < |log| :: !(Disposes(log[i].ev, h) && Receives(log[j].ev, h)))
  }

  lemma HookPair(log: Log, i: nat, j: nat, h: HookId)
    requires i < j < |log|
    requires HookOf(log, h) != Corrupt
    ensures !(Creates(log[i].ev, h) && Creates(log[j].ev, h))
    ensures !(Disposes(log[i].ev, h) && Disposes(log[j].ev, h))
    ensures !(Disposes(log[i].ev, h) && Receives(log[j].ev, h))
  {
    var afterI, beforeJ, afterJ := HookOf(log[..i + 1], h), HookOf(log[..j], h), HookOf(log[..j + 1], h);
    assert afterJ != Corrupt by { HookStays(log, j + 1, h); }
    assert afterJ == HookStep(beforeJ, h, log[j].ev) by { HookAt(log, j, h); }
    assert beforeJ != Corrupt by { HookStays(log, j, h); }
    assert log[..j][..i + 1] == log[..i + 1];
    HookStays(log[..j], i + 1, h);
    assert afterI == HookStep(HookOf(log[..i], h), h, log[i].ev) by { HookAt(log, i, h); }
  }

  lemma HookCreatedFirst(log: Log, i: nat, h: HookId) returns (at: nat)
    requires i < |log| && HookOf(log, h) != Corrupt
    requires Receives(log[i].ev, h) || Disposes(log[i].ev, h)
    ensures at < i && Creates(log[at].ev, h)
  {
    assert HookOf(log[..i + 1], h) != Corrupt by { HookStays(log, i + 1, h); }
    HookAt(log, i, h);
    at := HookWasCreated(log[..i], h);
  }

  // What the automaton's verdict means, in log positions.
  lemma HookOrderHolds(log: Log, h: HookId)
    requires HookOf(log, h) != Corrupt
    ensures HookOrder(log, h)
  {
    forall i | 0 <= i < |log| && (Receives(log[i].ev, h) || Disposes(log[i].ev, h))
      ensures exists j :: 0 <= j < i && Creates(log[j].ev, h)
    {
      var at := HookCreatedFirst(log, i, h);
    }
    forall i, j | 0 <= i < j < |log|
      ensures !(Creates(log[i].ev, h) && Creates(log[j].ev, h))
      ensures !(Disposes(log[i].ev, h) && Disposes(log[j].ev, h))
      ensures !(Disposes(log[i].ev, h) && Receives(log[j].ev, h))
    {
      HookPair(log, i, j, h);
    }
  }

  // -------------------------------------------------------------------------
  // Takeovers of a running Hook

  predicate TakesFrom(ev: Event, h: HookId, v: HookId) {
    ev == HookCreated(h, Some(Claim(v, true)))
  }

  predicate LosesTo(ev: Event, v: HookId, h: HookId) {
    ev.HookDisposed? && ev.hook == v && ev.lostTo.Some? && ev.lostTo.value.taker == h
  }

  ghost predicate TookIn(log: Log, h: HookId, v: HookId) {
    exists i :: 0 <= i < |log| && TakesFrom(log[i].ev, h, v)
  }

  ghost predicate LostIn(log: Log, v: HookId, h: HookId) {
    exists i :: 0 <= i < |log| && LosesTo(log[i].ev, v, h)
  }

  lemma TookConcat(a: Log, b: Log, h: HookId, v: HookId)
    ensures TookIn(a + b, h, v) <==> TookIn(a, h, v) || TookIn(b, h, v)
  {
    if i :| 0 <= i < |a| && TakesFrom(a[i].ev, h, v) {
      assert (a + b)[i] == a[i];
    }
    if i :| 0 <= i < |b| && TakesFrom(b[i].ev, h, v) {
      assert (a + b)[|a| + i] == b[i];
    }
  }

  lemma LostConcat(a: Log, b: Log, v: HookId, h: HookId)
    ensures LostIn(a + b, v, h) <==> LostIn(a, v, h) || LostIn(b, v, h)
  {
    if i :| 0 <= i < |a| && LosesTo(a[i].ev, v, h) {
      assert (a + b)[i] == a[i];
    }
    if i :| 0 <= i < |b| && LosesTo(b[i].ev, v, h) {
      assert (a + b)[|a| + i] == b[i];
    }
  }

  // -------------------------------------------------------------------------
  // One step's history

  datatype StepState = StepState(created: bool, starts: nat, ended: bool, corrupt: bool)

  function StepStep(st: StepState, s: StepId, ev: Event): StepState {
    match ev
    case StepCreated(g) =>
      if g != s then st else st.(created := true, corrupt := st.corrupt || st.created)
    case StepStarted(g, creates) =>
      if g != s then st
      else st.(starts := st.starts + 1,
               corrupt := st.corrupt || st.ended || (creates && st.starts != 0))
    case StepEnded(g) =>
      if g != s then st else st.(ended := true, corrupt := st.corrupt || st.ended)
    case _ => st
  }

  const FRESH_STEP := StepState(false, 0, false, false)

  function StepOf(log: Log, s: StepId): StepState {
    if log == [] then FRESH_STEP
    else StepStep(StepOf(log[..|log| - 1], s), s, log[|log| - 1].ev)
  }

  predicate StepConcerns(ev: Event, s: StepId) {
    match ev
    case StepCreated(g) => g == s
    case StepStarted(g, _) => g == s
    case StepEnded(g) => g == s
    case _ => false
  }

  lemma StepPush(log: Log, e: Entry, s: StepId)
    ensures StepOf(log + [e], s) == StepStep(StepOf(log, s), s, e.ev)
  {
    assert (log + [e])[..|log|] == log;
  }

  lemma {:induction false} StepUnconcerned(log: Log, more: Log, s: StepId)
    requires forall i | 0 <= i < |more| :: !StepConcerns(more[i].ev, s)
    ensures StepOf(log + more, s) == StepOf(log, s)
  {
    if more == [] {
      assert log + more == log;
    } else {
      var init, e := more[..|more| - 1], more[|more| - 1];
      assert log + more == (log + init) + [e];
      StepPush(log + init, e, s);
      StepUnconcerned(log, init, s);
    }
  }

  // How many times the log starts step `s`.
  function Starts(log: Log, s: StepId): nat {
    if log == [] then 0
    else Starts(log[..|log| - 1], s)
         + (var ev := log[|log| - 1].ev; if ev.StepStarted? && ev.step == s then 1 else 0)
  }

  ghost predicate StepOrder(log: Log, s: StepId) {
    // at most one terminal event, and no start behind it
    && (forall i, j | 0 <= i < j < |log| :: !(log[i].ev == StepEnded(s) && log[j].ev == StepEnded(s)))
    && (forall i, j | 0 <= i < j < |log| ::
          !(log[i].ev == StepEnded(s) && log[j].ev.StepStarted? && log[j].ev.step == s))
    // only the first start can have created the step
    && (forall i, j | 0 <= i < j < |log| ::
          !(log[i].ev.StepStarted? && log[i].ev.step == s && log[j].ev == StepStarted(s, true)))
    // and its creation is journaled at most once
    && (forall i, j | 0 <= i < j < |log| :: !(log[i].ev == StepCreated(s) && log[j].ev == StepCreated(s)))
  }

  lemma {:induction false} StepStays(log: Log, k: nat, s: StepId)
    requires k <= |log| && !StepOf(log, s).corrupt
    ensures !StepOf(log[..k], s).corrupt
    ensures StepOf(log[..k], s).ended ==> StepOf(log, s).ended
    ensures StepOf(log[..k], s).created ==> StepOf(log, s).created
    ensures StepOf(log[..k], s).starts <= StepOf(log, s).starts
  {
    if k < |log| {
      StepStays(log[..|log| - 1], k, s);
      assert log[..|log| - 1][..k] == log[..k];
    } else {
      assert log[..k] == log;
    }
  }

  lemma StepAt(log: Log, i: nat, s: StepId)
    requires i < |log|
    ensures StepOf(log[..i + 1], s) == StepStep(StepOf(log[..i], s), s, log[i].ev)
  {
    assert log[..i + 1] == log[..i] + [log[i]];
    StepPush(log[..i], log[i], s);
  }

  lemma StepPair(log: Log, i: nat, j: nat, s: StepId)
    requires i < j < |log| && !StepOf(log, s).corrupt
    ensures log[i].ev == StepEnded(s) ==>
              log[j].ev != StepEnded(s) && !(log[j].ev.StepStarted? && log[j].ev.step == s)
    ensures log[i].ev.StepStarted? && log[i].ev.step == s ==> log[j].ev != StepStarted(s, true)
    ensures log[i].ev == StepCreated(s) ==> log[j].ev != StepCreated(s)
  {
    var afterI, beforeJ, afterJ := StepOf(log[..i + 1], s), StepOf(log[..j], s), StepOf(log[..j + 1], s);
    assert !afterJ.corrupt by { StepStays(log, j + 1, s); }
    assert afterJ == StepStep(beforeJ, s, log[j].ev) by { StepAt(log, j, s); }
    assert !beforeJ.corrupt by { StepStays(log, j, s); }
    assert log[..j][..i + 1] == log[..i + 1];
    StepStays(log[..j], i + 1, s);
    assert afterI == StepStep(StepOf(log[..i], s), s, log[i].ev) by { StepAt(log, i, s); }
  }

  lemma StepOrderHolds(log: Log, s: StepId)
    requires !StepOf(log, s).corrupt
    ensures StepOrder(log, s)
  {
    forall i, j | 0 <= i < j < |log|
      ensures log[i].ev == StepEnded(s) ==>
                log[j].ev != StepEnded(s) && !(log[j].ev.StepStarted? && log[j].ev.step == s)
      ensures log[i].ev.StepStarted? && log[i].ev.step == s ==> log[j].ev != StepStarted(s, true)
      ensures log[i].ev == StepCreated(s) ==> log[j].ev != StepCreated(s)
    {
      StepPair(log, i, j, s);
    }
  }

  lemma {:induction false} StartsCounted(log: Log, s: StepId)
    ensures StepOf(log, s).starts == Starts(log, s)
  {
    if log != [] {
      StartsCounted(log[..|log| - 1], s);
    }
  }

  // -------------------------------------------------------------------------
  // In-band positions

  function Marks(log: Log): nat {
    if log == [] then 0
    else Marks(log[..|log| - 1]) + (if log[|log| - 1].mark.Some? then 1 else 0)
  }

  lemma MarksPush(log: Log, e: Entry)
    ensures Marks(log + [e]) == Marks(log) + (if e.mark.Some? then 1 else 0)
  {
    assert (log + [e])[..|log|] == log;
  }

  lemma {:induction false} MarksConcat(a: Log, b: Log)
    ensures Marks(a + b) == Marks(a) + Marks(b)
  {
    if b == [] {
      assert a + b == a;
    } else {
      var init, e := b[..|b| - 1], b[|b| - 1];
      assert a + b == (a + init) + [e];
      MarksPush(a + init, e);
      MarksConcat(a, init);
    }
  }
}
