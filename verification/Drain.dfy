/** Draining: what a completed drain promises while messages, retries, control calls and snapshots interleave. */
module Drain {

  type Pid = nat

  /** How far one incoming message got between announcing itself and leaving. */
  datatype Stage = Entered | Admitted | Started

  /** A control call that has switched the controller's flag and not yet the coordinator's gate. */
  datatype Half = HalfDrain | HalfResume

  /** What a snapshot read in its first half. */
  datatype Reading = Reading(draining: bool, idle: bool)

  datatype System = System(
    draining: bool, gate: bool, staging: nat, batches: nat,
    handlers: map<Pid, Stage>, messageTasks: set<Pid>,
    retries: set<Pid>, retryTasks: set<Pid>,
    calls: map<Pid, Half>, readers: map<Pid, Reading>)

  const IDLE := System(false, false, 0, 0, map[], {}, {}, {}, map[], map[])

  /** Every event is one critical section of the controller, the coordinator or the store. */
  datatype Event =
    | Enter(h: Pid)
    | Admit(h: Pid)
    | StartTask(h: Pid)
    | Leave(h: Pid)
    | EndTask(t: Pid)
    | AdmitRetry(h: Pid)
    | StartRetry(h: Pid)
    | DropRetry(h: Pid)
    | EndRetry(t: Pid)
    | Batches(n: nat)
    | DrainFlag(c: Pid)
    | DrainGate(c: Pid)
    | ResumeFlag(c: Pid)
    | ResumeGate(c: Pid)
    | ReadFlags(r: Pid)
    | ReadTasks(r: Pid, complete: bool)

  predicate Active(s: System) { s.messageTasks != {} || s.retryTasks != {} }

  /** A message enters before it is admitted and leaves after its task started; a retry is admitted without entering. */
  predicate Step(s: System, e: Event, s': System) {
    match e
    case Enter(h) => h !in s.handlers && s' == s.(staging := s.staging + 1, handlers := s.handlers[h := Entered])
    case Admit(h) =>
      h in s.handlers && s.handlers[h] == Entered && !s.gate && s' == s.(handlers := s.handlers[h := Admitted])
    case StartTask(h) =>
      h in s.handlers && s.handlers[h] == Admitted
      && s' == s.(handlers := s.handlers[h := Started], messageTasks := s.messageTasks + {h})
    case Leave(h) =>
      h in s.handlers
      && s' == s.(staging := if s.staging > 0 then s.staging - 1 else s.staging, handlers := s.handlers - {h})
    case EndTask(t) => s' == s.(messageTasks := s.messageTasks - {t})
    case AdmitRetry(h) => !s.gate && s' == s.(retries := s.retries + {h})
    case StartRetry(h) => h in s.retries && s' == s.(retries := s.retries - {h}, retryTasks := s.retryTasks + {h})
    case DropRetry(h) => s' == s.(retries := s.retries - {h})
    case EndRetry(t) => s' == s.(retryTasks := s.retryTasks - {t})
    case Batches(n) => s' == s.(batches := n)
    case DrainFlag(c) => c !in s.calls && s' == s.(draining := true, calls := s.calls[c := HalfDrain])
    case DrainGate(c) => c in s.calls && s.calls[c] == HalfDrain && s' == s.(gate := true, calls := s.calls - {c})
    case ResumeFlag(c) => c !in s.calls && s' == s.(draining := false, calls := s.calls[c := HalfResume])
    case ResumeGate(c) => c in s.calls && s.calls[c] == HalfResume && s' == s.(gate := false, calls := s.calls - {c})
    case ReadFlags(r) =>
      r !in s.readers && s' == s.(readers := s.readers[r := Reading(s.draining, s.staging == 0 && s.batches == 0)])
    case ReadTasks(r, complete) =>
      r in s.readers
      && complete == (s.readers[r].draining && s.readers[r].idle && !Active(s))
      && s' == s.(readers := s.readers - {r})
  }

  predicate IsPath(states: seq<System>, events: seq<Event>) {
    |states| == |events| + 1 && forall i | 0 <= i < |events| :: Step(states[i], events[i], states[i + 1])
  }

  predicate IsRun(states: seq<System>, events: seq<Event>) { IsPath(states, events) && states[0] == IDLE }

  /** The ingress counter counts exactly the messages on their way. */
  predicate Counted(s: System) { s.staging == |s.handlers| }

  lemma CountedStep(s: System, e: Event, s': System)
    requires Counted(s) && Step(s, e, s')
    ensures Counted(s')
  {
    match e
    case Enter(h) => assert s'.handlers.Keys == s.handlers.Keys + {h};
    case Admit(h) => assert s'.handlers.Keys == s.handlers.Keys;
    case StartTask(h) => assert s'.handlers.Keys == s.handlers.Keys;
    case Leave(h) =>
      assert s'.handlers.Keys == s.handlers.Keys - {h};
      assert |s'.handlers| == |s'.handlers.Keys|;
    case _ =>
  }

  lemma {:induction false} CountedAlways(states: seq<System>, events: seq<Event>, k: nat)
    requires IsRun(states, events) && k <= |events|
    ensures Counted(states[k])
  {
    if k > 0 {
      CountedAlways(states, events, k - 1);
      CountedStep(states[k - 1], events[k - 1], states[k]);
    }
  }

  /** No message is past the gate. */
  predicate NoneAdmitted(s: System) { forall h | h in s.handlers :: s.handlers[h] != Admitted }

  /** Nothing that came in as a message is running or can still start. */
  predicate Quiet(s: System) { NoneAdmitted(s) && s.messageTasks == {} }

  predicate NoResumeGate(events: seq<Event>, i: nat, k: nat) {
    forall m | i <= m < k && m < |events| :: !events[m].ResumeGate?
  }

  /** The gate opens only in the second half of a resume. */
  lemma {:induction false} GateStays(states: seq<System>, events: seq<Event>, i: nat, k: nat)
    requires IsPath(states, events) && i <= k <= |events| && states[i].gate && NoResumeGate(events, i, k)
    ensures states[k].gate
  {
    if i < k {
      GateStays(states, events, i, k - 1);
      assert Step(states[k - 1], events[k - 1], states[k]);
      assert !events[k - 1].ResumeGate?;
    }
  }

  /** Behind a shut gate messages are no longer admitted and their tasks only end. */
  lemma {:induction false} Subsides(states: seq<System>, events: seq<Event>, i: nat, k: nat)
    requires IsPath(states, events) && i <= k <= |events|
    requires states[i].gate && NoneAdmitted(states[i]) && NoResumeGate(events, i, k)
    ensures NoneAdmitted(states[k]) && states[k].messageTasks <= states[i].messageTasks
  {
    if i < k {
      Subsides(states, events, i, k - 1);
      GateStays(states, events, i, k - 1);
      assert Step(states[k - 1], events[k - 1], states[k]);
    }
  }

  /** This reader's snapshot began at `i` and ends at `j`. */
  predicate ReadsFrom(events: seq<Event>, r: Pid, i: nat, j: nat) {
    && i < j < |events| && events[i] == ReadFlags(r)
    && forall m | i < m < j ::
      events[m] != ReadFlags(r) && events[m] != ReadTasks(r, true) && events[m] != ReadTasks(r, false)
  }

  lemma {:induction false} ReadingKept(states: seq<System>, events: seq<Event>, r: Pid, i: nat, j: nat, k: nat)
    requires IsRun(states, events) && ReadsFrom(events, r, i, j) && i < k <= j
    ensures r in states[k].readers
    ensures states[k].readers[r] == Reading(states[i].draining, states[i].staging == 0 && states[i].batches == 0)
  {
    assert Step(states[k - 1], events[k - 1], states[k]);
    if k > i + 1 {
      ReadingKept(states, events, r, i, j, k - 1);
      assert events[k - 1] != ReadTasks(r, true) && events[k - 1] != ReadTasks(r, false);
    }
  }

  /** Once a drain call has shut the gate, a snapshot that begins afterwards and reports completion means that no task
      that came in as a message runs or will run, up to the moment a resume opens the gate again. The snapshot reads
      the ingress counter and the task counts at different instants. */
  lemma CompleteMeansQuiet(states: seq<System>, events: seq<Event>, d: nat, r: Pid, i: nat, j: nat, k: nat)
    requires IsRun(states, events) && d < i && j < k <= |events|
    requires d < |events| && events[d].DrainGate? && NoResumeGate(events, d, k)
    requires ReadsFrom(events, r, i, j) && events[j] == ReadTasks(r, true)
    ensures Quiet(states[k])
  {
    assert Step(states[d], events[d], states[d + 1]);
    GateStays(states, events, d + 1, i);
    ReadingKept(states, events, r, i, j, j);
    assert Step(states[j], events[j], states[j + 1]);
    CountedAlways(states, events, i);
    assert states[i].handlers == map[];
    Subsides(states, events, i, j);
    GateStays(states, events, i, j);
    Subsides(states, events, j, k);
  }

  // ---------------------------------------------------------------- exactly when completion can be relied on

  predicate NoneResuming(s: System) { forall c | c in s.calls :: s.calls[c] != HalfResume }

  predicate NoResumeFlag(events: seq<Event>) { forall m | 0 <= m < |events| :: !events[m].ResumeFlag? }

  /** Whatever happens next, as long as nobody asks to resume anew, no message runs or can start. */
  ghost predicate StaysQuiet(s: System) {
    forall states: seq<System>, events: seq<Event> | IsPath(states, events) && states[0] == s && NoResumeFlag(events) ::
      Quiet(states[|events|])
  }

  /** A shut gate and no resume under way: what a caller can check in one state. */
  predicate Settled(s: System) { s.gate && NoneResuming(s) }

  lemma {:induction false} SettledStays(states: seq<System>, events: seq<Event>, k: nat)
    requires IsPath(states, events) && k <= |events| && NoResumeFlag(events)
    requires Settled(states[0]) && Quiet(states[0])
    ensures Settled(states[k]) && Quiet(states[k])
  {
    if k > 0 {
      SettledStays(states, events, k - 1);
      assert Step(states[k - 1], events[k - 1], states[k]);
      assert !events[k - 1].ResumeFlag?;
    }
  }

  lemma {:induction false} Above(ids: set<Pid>) returns (bound: Pid)
    ensures forall x | x in ids :: x < bound
  {
    bound := 0;
    if ids != {} {
      var x :| x in ids;
      var rest := Above(ids - {x});
      bound := if x < rest then rest else x + 1;
      assert forall y | y in ids :: y == x || y in ids - {x};
    }
  }

  /** Through an open gate the next message is admitted. */
  lemma OpenGateAdmits(s: System) returns (states: seq<System>, events: seq<Event>)
    requires !s.gate
    ensures IsPath(states, events) && states[0] == s && NoResumeFlag(events) && |events| == 2 && !Quiet(states[2])
    ensures forall m | 0 <= m < 2 :: !events[m].ResumeGate?
  {
    var h := Above(s.handlers.Keys);
    var entered := s.(staging := s.staging + 1, handlers := s.handlers[h := Entered]);
    var admitted := entered.(handlers := entered.handlers[h := Admitted]);
    states, events := [s, entered, admitted], [Enter(h), Admit(h)];
    assert h in admitted.handlers;
  }

  lemma Prepend(s: System, e: Event, states: seq<System>, events: seq<Event>)
    requires IsPath(states, events) && Step(s, e, states[0])
    ensures IsPath([s] + states, [e] + events)
  {
    hide Step;
    forall i | 0 <= i < |events| + 1 ensures Step(([s] + states)[i], ([e] + events)[i], ([s] + states)[i + 1]) {
      if i > 0 { assert Step(states[i - 1], events[i - 1], states[i]); }
    }
  }

  /** Nothing that came in as a message runs or will run, until somebody asks to resume, exactly when nothing does now,
      the gate is shut and no resume is under way. */
  lemma QuietExactly(s: System)
    ensures StaysQuiet(s) <==> Quiet(s) && Settled(s)
  {
    if Quiet(s) && Settled(s) {
      forall states: seq<System>, events: seq<Event> | IsPath(states, events) && states[0] == s
        && NoResumeFlag(events) ensures Quiet(states[|events|]) {
        SettledStays(states, events, |events|);
      }
    } else if !Quiet(s) {
      assert IsPath([s], []) && NoResumeFlag([]);
    } else if !s.gate {
      var states, events := OpenGateAdmits(s);
    } else {
      UnderWayBreaks(s);
    }
  }

  lemma UnderWayBreaks(s: System)
    requires !NoneResuming(s)
    ensures !StaysQuiet(s)
  {
    var c :| c in s.calls && s.calls[c] == HalfResume;
    var reopened := s.(gate := false, calls := s.calls - {c});
    var states, events := OpenGateAdmits(reopened);
    Prepend(s, ResumeGate(c), states, events);
    hide IsPath, Quiet, Step;
    var all, following := [s] + states, [ResumeGate(c)] + events;
    assert NoResumeFlag(following);
    assert all[|following|] == states[2] && all[0] == s;
  }

  /** What a reported completion is worth: it lasts until somebody asks to resume exactly when, in the state in which it
      is reported, the gate is shut, no message is between admission and start, and no resume is under way. */
  lemma CompletionLastsExactly(states: seq<System>, events: seq<Event>, r: Pid, j: nat)
    requires IsRun(states, events) && j < |events| && events[j] == ReadTasks(r, true)
    ensures StaysQuiet(states[j + 1]) <==> Settled(states[j + 1]) && NoneAdmitted(states[j + 1])
  {
    assert Step(states[j], events[j], states[j + 1]);
    QuietExactly(states[j + 1]);
    hide StaysQuiet;
  }

  /** As long as no resume opens the gate, no retry runs. */
  ghost predicate RetriesStayAway(s: System) {
    forall states: seq<System>, events: seq<Event> | IsPath(states, events) && states[0] == s
      && NoResumeGate(events, 0, |events|) ::
      states[|events|].retryTasks == {}
  }

  lemma {:induction false} NoRetryStarts(states: seq<System>, events: seq<Event>, k: nat)
    requires IsPath(states, events) && k <= |events| && NoResumeGate(events, 0, |events|)
    requires states[0].gate && states[0].retries == {} && states[0].retryTasks == {}
    ensures states[k].gate && states[k].retries == {} && states[k].retryTasks == {}
  {
    if k > 0 {
      NoRetryStarts(states, events, k - 1);
      assert Step(states[k - 1], events[k - 1], states[k]);
      assert !events[k - 1].ResumeGate?;
    }
  }

  lemma AdmittedRetryStarts(s: System, h: Pid)
    requires h in s.retries
    ensures !RetriesStayAway(s)
  {
    var started := s.(retries := s.retries - {h}, retryTasks := s.retryTasks + {h});
    var states, events: seq<Event> := [s, started], [StartRetry(h)];
    assert IsPath(states, events) && NoResumeGate(events, 0, 1);
    assert h in states[1].retryTasks;
  }

  /** The same for retries, which enter without being counted: after a drain shut the gate and completion was reported,
      no retry runs until a resume opens the gate exactly when none was admitted and not yet started. */
  lemma RetriesStayAwayExactly(states: seq<System>, events: seq<Event>, d: nat, r: Pid, i: nat, j: nat)
    requires IsRun(states, events) && d < i && d < |events| && events[d].DrainGate? && NoResumeGate(events, d, j + 1)
    requires ReadsFrom(events, r, i, j) && events[j] == ReadTasks(r, true)
    ensures RetriesStayAway(states[j + 1]) <==> states[j + 1].retries == {}
  {
    assert Step(states[d], events[d], states[d + 1]);
    GateStays(states, events, d + 1, j + 1);
    assert Step(states[j], events[j], states[j + 1]);
    var s := states[j + 1];
    if s.retries == {} {
      forall more: seq<System>, following: seq<Event> | IsPath(more, following) && more[0] == s
        && NoResumeGate(following, 0, |following|)
        ensures more[|following|].retryTasks == {}
      {
        NoRetryStarts(more, following, |following|);
      }
    } else {
      var h :| h in s.retries;
      AdmittedRetryStarts(s, h);
    }
  }

  // ---------------------------------------------------------------- runs in which it cannot

  lemma Extend(states: seq<System>, events: seq<Event>, e: Event, s: System)
    returns (more: seq<System>, all: seq<Event>)
    requires IsRun(states, events) && |states| == |events| + 1 && Step(states[|events|], e, s)
    ensures more == states + [s] && all == events + [e] && IsRun(more, all)
  {
    more, all := states + [s], events + [e];
    hide Step;
    forall i | 0 <= i < |all| ensures Step(more[i], all[i], more[i + 1]) {
      if i < |events| { assert Step(states[i], events[i], states[i + 1]); }
    }
  }

  lemma EmptyRun()
    ensures IsRun([IDLE], [])
  {
  }

  const FLAGGED := IDLE.(draining := true)
  const RESUMING := IDLE.(calls := map[1 := HalfResume])
  const BOTH := RESUMING.(draining := true, calls := RESUMING.calls[2 := HalfDrain])
  const GATED := BOTH.(gate := true, calls := BOTH.calls - {2})

  lemma OverlapSteps()
    ensures Step(IDLE, ResumeFlag(1), RESUMING) && Step(RESUMING, DrainFlag(2), BOTH) && Step(BOTH, DrainGate(2), GATED)
    ensures Step(GATED, ResumeGate(1), FLAGGED)
  {
    assert GATED.calls - {1} == map[];
  }

  /** A resume that began first and a drain that overlaps it leave the flag set and the gate open. */
  lemma FlagWithoutGate() returns (states: seq<System>, events: seq<Event>)
    ensures IsRun(states, events) && |states| == 5 && states[4] == FLAGGED
    ensures events == [ResumeFlag(1), DrainFlag(2), DrainGate(2), ResumeGate(1)]
  {
    OverlapSteps();
    EmptyRun();
    hide IsRun, IsPath, Step;
    states, events := Extend([IDLE], [], ResumeFlag(1), RESUMING);
    states, events := Extend(states, events, DrainFlag(2), BOTH);
    states, events := Extend(states, events, DrainGate(2), GATED);
    states, events := Extend(states, events, ResumeGate(1), FLAGGED);
  }

  /** A snapshot of an idle system with the flag set reports completion, whatever the gate. */
  lemma SnapshotSteps(s: System, r: Pid) returns (reading: System)
    requires s.draining && s.staging == 0 && s.batches == 0 && !Active(s) && s.readers == map[]
    ensures Step(s, ReadFlags(r), reading) && Step(reading, ReadTasks(r, true), s)
  {
    reading := s.(readers := map[r := Reading(true, true)]);
    assert reading.readers - {r} == map[];
  }

  /** A drain that overlaps a resume is reported complete in a state in which the completion does not last. */
  lemma OverlappingResumeBreaksDrain()
    ensures exists states: seq<System>, events: seq<Event> ::
      && IsRun(states, events) && |events| == 6
      && events[2] == DrainGate(2) && ReadsFrom(events, 3, 4, 5) && events[5] == ReadTasks(3, true)
      && !StaysQuiet(states[6])
  {
    var reading := SnapshotSteps(FLAGGED, 3);
    QuietExactly(FLAGGED);
    hide IsRun, IsPath, Step, Quiet, StaysQuiet;
    var states, events := FlagWithoutGate();
    states, events := Extend(states, events, ReadFlags(3), reading);
    states, events := Extend(states, events, ReadTasks(3, true), FLAGGED);
  }

  const RETRYING := IDLE.(retries := {1})
  const RETRY_DRAIN := RETRYING.(draining := true, calls := map[2 := HalfDrain])
  const RETRY_GATED := RETRYING.(draining := true, gate := true)

  lemma RetrySteps()
    ensures Step(IDLE, AdmitRetry(1), RETRYING) && Step(RETRYING, DrainFlag(2), RETRY_DRAIN)
    ensures Step(RETRY_DRAIN, DrainGate(2), RETRY_GATED)
  {
    assert RETRY_DRAIN.calls - {2} == map[];
  }

  lemma RetryBehindGate() returns (states: seq<System>, events: seq<Event>)
    ensures IsRun(states, events) && |states| == 4 && states[3] == RETRY_GATED
    ensures events == [AdmitRetry(1), DrainFlag(2), DrainGate(2)]
  {
    RetrySteps();
    EmptyRun();
    hide IsRun, IsPath, Step;
    states, events := Extend([IDLE], [], AdmitRetry(1), RETRYING);
    states, events := Extend(states, events, DrainFlag(2), RETRY_DRAIN);
    states, events := Extend(states, events, DrainGate(2), RETRY_GATED);
  }

  /** A retry is admitted without entering, so it can start after completion was reported. */
  lemma RetryEscapesDrain()
    ensures exists states: seq<System>, events: seq<Event> ::
      && IsRun(states, events) && |events| == 5
      && events[2] == DrainGate(2) && ReadsFrom(events, 3, 3, 4) && events[4] == ReadTasks(3, true)
      && NoResumeGate(events, 0, 5) && !RetriesStayAway(states[5])
  {
    var reading := SnapshotSteps(RETRY_GATED, 3);
    AdmittedRetryStarts(RETRY_GATED, 1);
    hide IsRun, IsPath, Step, RetriesStayAway;
    var states, events := RetryBehindGate();
    states, events := Extend(states, events, ReadFlags(3), reading);
    states, events := Extend(states, events, ReadTasks(3, true), RETRY_GATED);
  }
}
