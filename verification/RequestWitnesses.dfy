/** Runs that exist: what the store can do, and how each promise that is not kept is missed. */
module RequestWitnesses {
  import opened Sums
  import opened RequestModel
  import opened RequestSpec
  import opened RequestInvariant
  import opened RequestRecovery
  import opened RequestRuns
  import opened RequestSteps
  import opened RequestTheorems
  import opened RequestCapacity
  import opened RequestReopening
  import opened RequestReading

  // ---------------------------------------------------------------- building runs

  /** Some run ends in this world, and its clock has not passed `now`. */
  ghost predicate Reaches(w: World, now: int) {
    exists worlds: seq<World>, events: seq<Event>, times: seq<int> ::
      && IsRun(worlds, events, times) && worlds[|events|] == w && (forall i | 0 <= i < |times| :: times[i] <= now)
  }

  lemma ReachesNothing(now: int)
    ensures Reaches(Down(EMPTY_DB), now)
  {
    var worlds: seq<World>, events: seq<Event>, times: seq<int> := [Down(EMPTY_DB)], [], [];
    assert IsRun(worlds, events, times) && worlds[|events|] == Down(EMPTY_DB);
  }

  lemma ReachesNext(w: World, before: int, e: Event, now: int, w': World)
    requires Reaches(w, before) && before <= now && Step(w, e, now, w')
    ensures Reaches(w', now)
  {
    hide Step;
    var worlds: seq<World>, events: seq<Event>, times: seq<int> :|
      IsRun(worlds, events, times) && worlds[|events|] == w && (forall i | 0 <= i < |times| :: times[i] <= before);
    RunExtends(worlds, events, times, e, now, w');
    assert (worlds + [w'])[|events + [e]|] == w';
  }

  lemma RunExtends(worlds: seq<World>, events: seq<Event>, times: seq<int>, e: Event, now: int, w': World)
    requires IsRun(worlds, events, times) && Step(worlds[|events|], e, now, w')
      && (forall i | 0 <= i < |times| :: times[i] <= now)
    ensures IsRun(worlds + [w'], events + [e], times + [now])
  {
    hide Step;
    var n := |events|;
    forall i | 0 <= i < n + 1
      ensures Step((worlds + [w'])[i], (events + [e])[i], (times + [now])[i], (worlds + [w'])[i + 1])
    {
      if i < n { assert Step(worlds[i], events[i], times[i], worlds[i + 1]); }
    }
  }

  lemma ReachesInv(w: World, now: int)
    requires Reaches(w, now)
    ensures WorldInv(w, now)
  {
    hide WorldInv, Step;
    var worlds: seq<World>, events: seq<Event>, times: seq<int> :|
      IsRun(worlds, events, times) && worlds[|events|] == w && (forall i | 0 <= i < |times| :: times[i] <= now);
    if events == [] {
      EmptyWorld(now);
    } else {
      RunInvariant(worlds, events, times, |events| - 1);
      WorldLater(w, times[|events| - 1], now);
    }
  }

  lemma EmptyWorld(now: int)
    ensures WorldInv(Down(EMPTY_DB), now)
  {
    EmptyInv(now);
  }

  // ---------------------------------------------------------------- starting one task after another

  const NOTHING := Store(EMPTY_ROWS, EMPTY_DB)

  lemma EmptyOpens(now: int)
    ensures Reaches(Up(NOTHING), now)
  {
    EmptyInv(now);
    OpeningSucceeds(EMPTY_DB, {}, now);
    EmptyStays(now);
    ReachesNothing(now);
    hide OpenStep, Reaches;
    assert Step(Down(EMPTY_DB), Open({}), now, Up(NOTHING));
    ReachesNext(Down(EMPTY_DB), now, Open({}), now, Up(NOTHING));
  }

  lemma EmptyStays(now: int)
    ensures AllRecover(EMPTY_DB, {}, now) && Opened(EMPTY_DB, {}, now) == NOTHING
  {
  }

  function Label(n: nat): string { seq(n + 1, _ => 'x') }

  /** The `n`-th instruction of one owner, each for a target of its own. */
  function Instruction(n: nat, sourceData: nat, files: seq<nat>): StartInput {
    StartInput(Label(n), "owner", Label(n), "", "", true, 1, false, 0, sourceData, Some(sourceData), [], files)
  }

  predicate InLine(n: nat, i: StartInput) {
    i == Instruction(n, i.sourceData, i.files).(reread := i.reread) && Storable(i)
  }

  /** Only the first `n` of these instructions were started, and nothing was refused or cleared. */
  predicate Line(s: Store, n: nat) {
    && s.mem.cleared == map[] && s.mem.rejected == map[] && |s.mem.tasks| <= n
    && forall id | id in s.mem.tasks :: var t := s.mem.tasks[id];
         && |id| <= n && t.source == id && t.target == id && t.thread == "" && t.owner == "owner"
  }

  lemma NextAdmitted(s: Store, n: nat, i: StartInput, now: int)
    requires Line(s, n) && n < 20 && InLine(n, i) && AcceptableInput(i)
    requires RoomForResult(s.mem, now) && RoomForInput(s.mem, i, now)
    ensures Admits(s.mem, i, now) && Label(n) !in s.mem.tasks
  {
    hide RoomForResult, RoomForInput, AcceptableInput;
    assert |Label(n)| == n + 1;
    forall id | id in s.mem.tasks ensures KeyOf(s.mem.tasks[id]) != SessionKey(i.owner, i.target, i.thread) {
      assert KeyOf(s.mem.tasks[id]) == "intent:" + "owner" + ":" + id;
      assert |KeyOf(s.mem.tasks[id])| == 13 + |id| && |SessionKey(i.owner, i.target, i.thread)| == 13 + n + 1;
    }
    SubsetSize(OwnedIds(s.mem.tasks, "owner"), s.mem.tasks.Keys);
  }

  /** The next instruction of the line becomes a running task when there is room for it. */
  lemma NextStarts(s: Store, n: nat, i: StartInput, now: int)
    requires Reaches(Up(s), now) && Line(s, n) && n < 20 && InLine(n, i)
    requires AcceptableInput(i) && Chargeable(i) && RoomForResult(s.mem, now) && RoomForInput(s.mem, i, now)
    ensures var s', t := Started(s, i, Label(n), now), NewTask(i, Label(n), s.mem.nextOrder, now);
      && Reaches(Up(s'), now) && Line(s', n + 1) && Label(n) !in s.mem.tasks
        && s'.mem.tasks == s.mem.tasks[Label(n) := t]
      && t.state == Running && t.payloadBytes == SubmittedCharge(i)
      && ReservedBytes(s'.mem.tasks, now) == ReservedBytes(s.mem.tasks, now) + MAX_RESERVATION
      && PayloadBytes(s'.mem.tasks, now) == PayloadBytes(s.mem.tasks, now) + SubmittedCharge(i)
  {
    NextAdmitted(s, n, i, now);
    AdmittedStarts(s, i, Label(n), now);
    StartedSums(s, i, Label(n), now);
    hide Reaches, AcceptableInput, Chargeable, RoomForResult, RoomForInput, Admits, ReservedBytes, PayloadBytes,
      SubmittedCharge, Started;
    NextInLine(s, n, i, now);
  }

  lemma AdmittedStarts(s: Store, i: StartInput, id: Id, now: int)
    requires Reaches(Up(s), now) && Admits(s.mem, i, now) && Storable(i) && id !in s.mem.tasks && Chargeable(i)
    ensures Reaches(Up(Started(s, i, id, now)), now)
  {
    ReachesInv(Up(s), now);
    hide Reaches, Inv, ValidRows, Admits, Chargeable, Storable, Started, NewTask;
    StartDecides(s, i, id, now);
    var t := NewTask(i, id, s.mem.nextOrder, now);
    assert Step(Up(s), Start(i, id, Created(t)), now, Up(Started(s, i, id, now)));
    ReachesNext(Up(s), now, Start(i, id, Created(t)), now, Up(Started(s, i, id, now)));
  }

  lemma StartedSums(s: Store, i: StartInput, id: Id, now: int)
    requires id !in s.mem.tasks
    ensures var s', t := Started(s, i, id, now), NewTask(i, id, s.mem.nextOrder, now);
      && s'.mem == WithNewTask(s.mem, t) && t.state == Running && t.payloadBytes == SubmittedCharge(i)
      && ReservedBytes(s'.mem.tasks, now) == ReservedBytes(s.mem.tasks, now) + MAX_RESERVATION
      && PayloadBytes(s'.mem.tasks, now) == PayloadBytes(s.mem.tasks, now) + SubmittedCharge(i)
  {
    var t := NewTask(i, id, s.mem.nextOrder, now);
    SavedMem(s, WithNewTask(s.mem, t), PutInput(id, InputOf(i)));
    hide ReservedBytes, PayloadBytes, Saved, SubmittedCharge;
    ReservedUpdate(s.mem.tasks, t, now);
    PayloadUpdate(s.mem.tasks, t, now);
  }

  lemma NextInLine(s: Store, n: nat, i: StartInput, now: int)
    requires Line(s, n) && InLine(n, i) && Label(n) !in s.mem.tasks
    requires Started(s, i, Label(n), now).mem == WithNewTask(s.mem, NewTask(i, Label(n), s.mem.nextOrder, now))
    ensures Line(Started(s, i, Label(n), now), n + 1)
  {
    hide SubmittedCharge, Started;
  }

  function Times(m: nat, c: nat): nat { m * c }

  lemma OneMore(m: nat, c: nat)
    requires m > 0
    ensures Times(m, c) == c + Times(m - 1, c)
  {
    assert m * c == (m - 1) * c + c;
  }

  /** The line of `n` tasks is reached, and what they reserve and are charged for. */
  ghost predicate Standing(s: Store, n: nat, reserved: int, charged: int, now: int) {
    Reaches(Up(s), now) && Line(s, n) && ReservedBytes(s.mem.tasks, now) == reserved
      && PayloadBytes(s.mem.tasks, now) == charged
  }

  lemma StandingStarts(s: Store, n: nat, i: StartInput, charge: nat, reserved: int, charged: int, now: int)
    requires Standing(s, n, reserved, charged, now) && n < 20 && InLine(n, i)
    requires AcceptableInput(i) && Chargeable(i) && SubmittedCharge(i) == charge
    requires reserved + MAX_RESERVATION <= MAX_RESULT_STORE && charged + charge <= MAX_INPUT_STORE
    ensures var s', t := Started(s, i, Label(n), now), NewTask(i, Label(n), s.mem.nextOrder, now);
      Standing(s', n + 1, reserved + MAX_RESERVATION, charged + charge, now) && Label(n) !in s.mem.tasks
        && s'.mem.tasks == s.mem.tasks[Label(n) := t]
  {
    assert RoomForResult(s.mem, now) && RoomForInput(s.mem, i, now) by { hide Reaches, Line, SubmittedCharge; }
    hide Reaches, Line, ReservedBytes, PayloadBytes, AcceptableInput, Chargeable, SubmittedCharge, Started, Label,
      RoomForResult, RoomForInput, NewTask;
    NextStarts(s, n, i, now);
  }

  lemma StandingNext(s: Store, n: nat, files: seq<nat>, reserved: int, charged: int, now: int)
    requires Standing(s, n, reserved, charged, now) && n < 20 && AcceptableInput(Instruction(0, 0, files))
    requires reserved + MAX_RESERVATION <= MAX_RESULT_STORE && charged + 1 + SumOf(files) <= MAX_INPUT_STORE
    ensures var s' := Started(s, Instruction(n, 0, files), Label(n), now);
      && Standing(s', n + 1, reserved + MAX_RESERVATION, charged + 1 + SumOf(files), now)
      && forall id | id in s.mem.tasks :: id in s'.mem.tasks && s'.mem.tasks[id] == s.mem.tasks[id]
  {
    Plain(n, files);
    hide Standing, AcceptableInput, Chargeable, SubmittedCharge, SumOf, Started, Label, NewTask;
    StandingStarts(s, n, Instruction(n, 0, files), 1 + SumOf(files), reserved, charged, now);
  }

  /** The next `m` instructions, with the same files, all started. */
  lemma {:induction false} LineGrows(s: Store, n: nat, m: nat, files: seq<nat>, reserved: int, charged: int,
                                     now: int) returns (s': Store)
    requires Standing(s, n, reserved, charged, now) && n + m <= 20 && AcceptableInput(Instruction(0, 0, files))
    requires reserved + Times(m, MAX_RESERVATION) <= MAX_RESULT_STORE
    requires charged + Times(m, 1 + SumOf(files)) <= MAX_INPUT_STORE
    ensures Standing(s', n + m, reserved + Times(m, MAX_RESERVATION), charged + Times(m, 1 + SumOf(files)), now)
    ensures forall id | id in s.mem.tasks :: id in s'.mem.tasks && s'.mem.tasks[id] == s.mem.tasks[id]
    decreases m
  {
    hide Standing, AcceptableInput, SumOf;
    var charge := 1 + SumOf(files);
    if m == 0 {
      s' := s;
    } else {
      OneMore(m, charge);
      OneMore(m, MAX_RESERVATION);
      hide Times;
      StandingNext(s, n, files, reserved, charged, now);
      s' := LineGrows(Started(s, Instruction(n, 0, files), Label(n), now), n + 1, m - 1, files,
          reserved + MAX_RESERVATION, charged + charge, now);
    }
  }

  lemma Plain(n: nat, files: seq<nat>)
    ensures SubmittedCharge(Instruction(n, 0, files)) == 1 + SumOf(files)
    ensures AcceptableInput(Instruction(0, 0, files)) ==>
      AcceptableInput(Instruction(n, 0, files)) && Chargeable(Instruction(n, 0, files))
  {
    assert SumOf([]) == 0;
  }

  lemma PlainAcceptable()
    ensures AcceptableInput(Instruction(0, 0, [])) && SumOf([]) == 0
  {
  }

  // ---------------------------------------------------------------- starting is possible

  const PLAIN := Instruction(0, 0, [])

  lemma FirstStands(now: int)
    ensures Standing(Started(NOTHING, PLAIN, Label(0), now), 1, MAX_RESERVATION, 1, now)
  {
    NothingStands(now);
    PlainAcceptable();
    hide Standing;
    StandingNext(NOTHING, 0, [], 0, 0, now);
  }

  lemma NothingStands(now: int)
    ensures Standing(NOTHING, 0, 0, 0, now)
  {
    EmptyOpens(now);
    NothingHeld(NOTHING.mem.tasks, now);
  }

  /** Starting is possible: a process that opened an empty database turns a short instruction into a running task. */
  lemma RunsStart()
    ensures exists s: Store :: Reaches(Up(s), 1) && LiveTask(s.db.rows, Label(0), Label(0))
  {
    FirstStands(1);
    var s := Started(NOTHING, PLAIN, Label(0), 1);
    assert Reaches(Up(s), 1);
    hide Reaches;
  }

  /** An instruction that passes every check of a start and is then refused by the validation of the save: it brings a
      file of two megabytes together with source data, 35 bytes that name one more file. */
  lemma StartRefusedBySave()
    ensures exists i: StartInput ::
      Reaches(Up(NOTHING), 1) && Admits(NOTHING.mem, i, 1) && Storable(i) && !CanStart(NOTHING, i, Label(0), 1)
  {
    var i := Instruction(0, 35, [0x20_0000]);
    EmptyOpens(1);
    ReachesInv(Up(NOTHING), 1);
    TooMuchAtOnce();
    NothingHeld(NOTHING.mem.tasks, 1);
    hide Reaches, ReservedBytes, PayloadBytes, AcceptableInput, Chargeable, Inv, SubmittedCharge;
    assert RoomForResult(NOTHING.mem, 1) && RoomForInput(NOTHING.mem, i, 1);
    NextAdmitted(NOTHING, 0, i, 1);
    hide Admits, CanStart;
    StartDecides(NOTHING, i, Label(0), 1);
  }

  lemma TooMuchAtOnce()
    ensures var i := Instruction(0, 35, [0x20_0000]);
      AcceptableInput(i) && !Chargeable(i) && SubmittedCharge(i) <= MAX_INPUT_STORE
  {
    assert SumOf([]) == 0 && [0x20_0000][1..] == [];
  }

  // ---------------------------------------------------------------- source data that reads back larger

  /** The first instruction with this source data, started. */
  lemma Announces(sourceData: nat, reread: nat) returns (s: Store, i: StartInput)
    requires 0 < sourceData <= MAX_SOURCE_DATA
    ensures Reaches(Up(s), 1) && Has(s.mem, "owner", Label(0)) && AsSubmitted(s.db, Label(0), i, 1)
    ensures s.mem.tasks[Label(0)].state == Running && s.mem.tasks[Label(0)].inputPending
    ensures i.sourceData == sourceData && InputOf(i).sourceData == reread
  {
    i := Instruction(0, sourceData, []).(reread := Some(reread));
    s := Started(NOTHING, i, Label(0), 1);
    AnnouncedStarts(i);
    AnnouncedFields(i, Label(0), s);
    hide Reaches, Label, Started, AsSubmitted;
  }

  lemma AnnouncedStarts(i: StartInput)
    requires i == Instruction(0, i.sourceData, []).(reread := i.reread) && i.reread.Some?
    requires 0 < i.sourceData <= MAX_SOURCE_DATA
    ensures Reaches(Up(Started(NOTHING, i, Label(0), 1)), 1)
  {
    NothingStands(1);
    AnnouncedCharge(i);
    hide Standing, AcceptableInput, Chargeable, SubmittedCharge, Label, Started;
    StandingStarts(NOTHING, 0, i, 1 + MAX_TASK + i.sourceData, 0, 0, 1);
    StandingReaches(Started(NOTHING, i, Label(0), 1), 1, MAX_RESERVATION, 1 + MAX_TASK + i.sourceData);
  }

  lemma StandingReaches(s: Store, n: nat, reserved: int, charged: int)
    requires Standing(s, n, reserved, charged, 1)
    ensures Reaches(Up(s), 1)
  {
    hide Reaches, Line, ReservedBytes, PayloadBytes;
  }

  lemma AnnouncedCharge(i: StartInput)
    requires i == Instruction(0, i.sourceData, []).(reread := i.reread) && 0 < i.sourceData <= MAX_SOURCE_DATA
    ensures AcceptableInput(i) && Chargeable(i) && SubmittedCharge(i) == 1 + MAX_TASK + i.sourceData
  {
    assert SumOf([]) == 0;
  }

  lemma AnnouncedFields(i: StartInput, id: Id, s: Store)
    requires i.owner == "owner" && i.sourceData > 0 && s == Started(NOTHING, i, id, 1)
    ensures Has(s.mem, "owner", id) && s.mem.tasks[id].state == Running && s.mem.tasks[id].inputPending
    ensures AsSubmitted(s.db, id, i, 1)
  {
    hide SubmittedCharge, InputOf;
  }

  /** A live request whose input cannot be read: 23 bytes of source data that name one file by its length, without the
      key for images, read back as 35. */
  lemma LiveInputUnreadable()
    ensures exists s: Store, id ::
      && Reaches(Up(s), 1) && Has(s.mem, "owner", id) && HasPayload(s.mem.tasks[id], 1)
      && InputOnFile(s, "owner", id, 1).None?
  {
    var s, i := Announces(23, 35);
    ReachesInv(Up(s), 1);
    hide Reaches, Inv, InputOnFile;
    ReadsOne(s, "owner", Label(0), i, 1);
  }

  /** The longest source data that is accepted, again without the key for images, reads back as twelve bytes more. If
      its process ends while the request runs, the store does not open any more, however often it is tried. */
  lemma StoreNeverOpens()
    ensures exists s: Store ::
      && Reaches(Up(s), 1) && Reaches(Down(s.db), 1)
      && forall intact, later, db', mem | later >= 1 :: !OpenStep(s.db, intact, later, db', Some(mem))
  {
    var s, i := Announces(MAX_SOURCE_DATA, MAX_SOURCE_DATA + 12);
    ReachesInv(Up(s), 1);
    SameOnDisk(s, 1, Label(0));
    DbOfInv(s, 1);
    AgreesActive(s, 1, Label(0));
    hide Inv, Step, DbInv, Label;
    CrashHappens(s, 1);
    ReachesNext(Up(s), 1, Crash, 1, Down(s.db));
    assert Blocked(s.db, Label(0));
    hide Reaches, Blocked, OpenStep;
    forall intact, later, db', mem | later >= 1 && OpenStep(s.db, intact, later, db', Some(mem)) ensures false {
      DbLater(s.db, 1, later);
      BlockedOpening(s.db, intact, later, db', Some(mem), Label(0));
    }
  }

  lemma AgreesActive(s: Store, now: int, id: Id)
    requires Inv(s, now) && id in s.mem.tasks && !s.mem.tasks[id].state.Terminal()
    ensures id in s.db.rows.tasks && !s.db.rows.tasks[id].state.Terminal()
  {
    var d := OnDisk(s, now, id);
  }

  // ---------------------------------------------------------------- changing a task

  /** What a saved change of one task leaves. */
  function After(s: Store, id: Id, change: Change, now: int): Store
    requires id in s.mem.tasks && Changed(EntryOf(s.mem.tasks, s.db, id), change, now).Some?
  {
    var c := Changed(EntryOf(s.mem.tasks, s.db, id), change, now).value;
    Saved(s, PutTask(s.mem, c.0), c.1)
  }

  lemma ChangeHappens(s: Store, id: Id, change: Change, now: int)
    requires Reaches(Up(s), now) && Has(s.mem, "owner", id) && SessionKeeping(change)
    requires Changed(EntryOf(s.mem.tasks, s.db, id), change, now).Some?
    ensures ChangeStep(s, "owner", id, change, now, After(s, id, change, now), true)
    ensures var c := Changed(EntryOf(s.mem.tasks, s.db, id), change, now).value;
      c.0.id == id && After(s, id, change, now).mem == PutTask(s.mem, c.0)
  {
    ReachesInv(Up(s), now);
    RowsById(s.mem, id);
    hide Reaches, Changed, ValidRows, Inv, Saved;
    GuardsDecide(s, "owner", id, change, now);
    ChangedIdentity(EntryOf(s.mem.tasks, s.db, id), change, now);
    var c := Changed(EntryOf(s.mem.tasks, s.db, id), change, now).value;
    SavedMem(s, PutTask(s.mem, c.0), c.1);
  }

  // ---------------------------------------------------------------- completing twice

  const SMALL := Result(2, 1, false, [], 0, 1, PENDING, [])

  lemma ReplacedSums(mem: Rows, t: Task, now: int)
    requires t.id in mem.tasks
    ensures var o := mem.tasks[t.id];
      && ReservedBytes(PutTask(mem, t).tasks, now)
         == ReservedBytes(mem.tasks, now) - Reservation(o, now) + Reservation(t, now)
      && PayloadBytes(PutTask(mem, t).tasks, now)
         == PayloadBytes(mem.tasks, now) - LivePayload(o, now) + LivePayload(t, now)
  {
    ReservedUpdate(mem.tasks, t, now);
    PayloadUpdate(mem.tasks, t, now);
  }

  lemma FirstTask(now: int)
    ensures var s := Started(NOTHING, PLAIN, Label(0), now);
      && s.mem == WithNewTask(EMPTY_ROWS, NewTask(PLAIN, Label(0), 1, now)) && Has(s.mem, "owner", Label(0))
      && s.mem.tasks[Label(0)] == NewTask(PLAIN, Label(0), 1, now) && s.db.results == map[] && s.db.completions == map[]
      && s.db.rows == s.mem
  {
  }

  lemma FreezesSmall(s: Store, id: Id)
    requires id in s.mem.tasks && s.mem.tasks[id].state == Running && s.mem.tasks[id].id == id
    requires s.mem.tasks[id].startedAt == 1
    ensures Changed(EntryOf(s.mem.tasks, s.db, id), Freeze(SMALL), 1)
         == Some((FrozenTask(s.mem.tasks[id], SMALL), PutResult(id, SMALL)))
  {
    assert SumOf([]) == 0;
    hide Transitioned, Recorded;
  }

  lemma SmallFits(s: Store, id: Id, s': Store)
    requires ChangeStep(s, "owner", id, Freeze(SMALL), 1, s', true) && s.db.results == map[] && id in s.mem.tasks
    requires ReservedBytes(s.mem.tasks, 1) == MAX_RESERVATION && Reservation(s.mem.tasks[id], 1) == MAX_RESERVATION
    ensures FreezeStep(s, "owner", id, SMALL, 1, s', true)
  {
    SmallSize();
    hide ChangeStep, ReservedBytes, Reservation, ResultSize, SMALL;
  }

  lemma SmallSize()
    ensures ResultSize(SMALL) == 1 && SMALL.frozenAt == 1
  {
    assert SumOf([]) == 0;
  }

  lemma FreezeIsStep(s: Store, id: Id, r: Result, now: int, s': Store)
    requires FreezeStep(s, "owner", id, r, now, s', true)
    ensures Step(Up(s), Event.FreezeResult("owner", id, r, true), now, Up(s'))
  {
    hide FreezeStep, OpenStep;
  }

  /** A running task that was archived with an answer of one byte. */
  predicate Archived1(s: Store, id: Id) {
    && Has(s.mem, "owner", id) && s.mem.tasks[id].state == Running
    && s.mem.tasks[id].resultExpiresAt > 1 && s.mem.tasks[id].completedAt > 0 && s.mem.tasks[id].resultBytes == 1
  }

  lemma SmallArchives(s: Store, id: Id, s': Store)
    requires Standing(s, 1, MAX_RESERVATION, 1, 1) && Has(s.mem, "owner", id)
    requires s.mem.tasks[id] == NewTask(PLAIN, id, 1, 1)
    requires s'.mem == PutTask(s.mem, FrozenTask(s.mem.tasks[id], SMALL)) && Reaches(Up(s'), 1)
    ensures Standing(s', 1, 1, 1, 1) && Archived1(s', id)
  {
    SmallSize();
    hide Reaches, ReservedBytes, PayloadBytes, ResultSize, SMALL;
    ReplacedSums(s.mem, FrozenTask(s.mem.tasks[id], SMALL), 1);
  }

  lemma ArchivedStands(id: Id) returns (s: Store)
    requires id == Label(0)
    ensures Standing(s, 1, 1, 1, 1) && Archived1(s, id)
  {
    var s0 := Started(NOTHING, PLAIN, id, 1);
    FirstStands(1);
    FirstTask(1);
    assert Reaches(Up(s0), 1);
    hide Reaches, Started, Label;
    NewReserves(s0.mem.tasks[id], id);
    assert ReservedBytes(s0.mem.tasks, 1) == MAX_RESERVATION;
    FreezesSmall(s0, id);
    ChangeHappens(s0, id, Freeze(SMALL), 1);
    s := After(s0, id, Freeze(SMALL), 1);
    hide Changed, After, Standing;
    SmallFits(s0, id, s);
    FreezeIsStep(s0, id, SMALL, 1, s);
    hide Step;
    ReachesNext(Up(s0), 1, Event.FreezeResult("owner", id, SMALL, true), 1, Up(s));
    SmallArchives(s0, id, s);
  }

  lemma NewReserves(t: Task, id: Id)
    requires t == NewTask(PLAIN, id, 1, 1)
    ensures Reservation(t, 1) == MAX_RESERVATION && t.state == Running && t.id == id && t.startedAt == 1
  {
  }

  /** Ten requests that fit, one of them archived: completing that one again, with a save that commits, exceeds the
      limit. */
  lemma RepeatedCompletionOverflows()
    ensures exists s: Store, s': Store, id ::
      && Reaches(Up(s), 1) && Fits(s.mem.tasks, 1)
      && Step(Up(s), Event.CompleteExecution("owner", id, 0, true), 1, Up(s')) && !Fits(s'.mem.tasks, 1)
  {
    var s1 := ArchivedStands(Label(0));
    PlainAcceptable();
    hide Standing, Reaches;
    var s := LineGrows(s1, 1, 9, [], 1, 1, 1);
    assert Standing(s, 10, 1 + 9 * MAX_RESERVATION, 10, 1);
    CompletesAgain(s, Label(0));
  }

  lemma CompletesAgain(s: Store, id: Id)
    requires Standing(s, 10, 1 + 9 * MAX_RESERVATION, 10, 1) && Archived1(s, id)
    ensures exists s': Store ::
      Step(Up(s), Event.CompleteExecution("owner", id, 0, true), 1, Up(s')) && !Fits(s'.mem.tasks, 1)
    ensures Reaches(Up(s), 1) && Fits(s.mem.tasks, 1)
  {
    var t := s.mem.tasks[id];
    CompletionChanges(s, id);
    hide Reaches, ReservedBytes, PayloadBytes, Line;
    var s' := After(s, id, Complete(0), 1);
    ChangeHappens(s, id, Complete(0), 1);
    hide ChangeStep, After, Changed;
    ReplacedSums(s.mem, CompletedTask(t, 0, 1), 1);
    CompleteIsStep(s, id, s');
    hide Step;
  }

  lemma CompleteIsStep(s: Store, id: Id, s': Store)
    requires ChangeStep(s, "owner", id, Complete(0), 1, s', true) && Has(s.mem, "owner", id)
    requires s.mem.tasks[id].state == Running
    ensures Step(Up(s), Event.CompleteExecution("owner", id, 0, true), 1, Up(s'))
  {
    hide ChangeStep, OpenStep;
  }

  lemma CompletionChanges(s: Store, id: Id)
    requires id in s.mem.tasks && s.mem.tasks[id].state == Running
    ensures var c := Changed(EntryOf(s.mem.tasks, s.db, id), Complete(0), 1);
      c.Some? && c.value.0 == CompletedTask(s.mem.tasks[id], 0, 1)
  {
  }

  // ---------------------------------------------------------------- preparing more than was submitted

  const MEGABYTE := 0x10_0000

  /** Four of these and one input that still has to be downloaded fit with a few bytes to spare. */
  const FILLER := [50 * MEGABYTE, 50 * MEGABYTE - 20]

  const DOWNLOAD := [50 * MEGABYTE, 50 * MEGABYTE]

  lemma FillerSize()
    ensures SumOf(FILLER) == 100 * MEGABYTE - 20 && AcceptableInput(Instruction(0, 0, FILLER))
    ensures SumOf(DOWNLOAD) == 100 * MEGABYTE
  {
    assert SumOf([]) == 0;
    assert FILLER[1..] == [50 * MEGABYTE - 20] && SumOf(FILLER[1..]) == 50 * MEGABYTE - 20;
    assert DOWNLOAD[1..] == [50 * MEGABYTE] && SumOf(DOWNLOAD[1..]) == 50 * MEGABYTE;
  }

  const LARGER := Prepare(MEGABYTE, false, [], DOWNLOAD)

  /** Five inputs that fit: preparing the last one with a text longer than the submitted one exceeds the limit. */
  lemma PreparationOverflows()
    ensures exists s: Store, s': Store, id ::
      && Reaches(Up(s), 1) && Fits(s.mem.tasks, 1)
      && Step(Up(s), Update("owner", id, LARGER, true), 1, Up(s')) && !Fits(s'.mem.tasks, 1)
  {
    var charge := 100 * MEGABYTE - 19;
    NothingStands(1);
    FillerSize();
    hide Standing, Reaches, SumOf, AcceptableInput;
    var s0 := LineGrows(NOTHING, 0, 4, FILLER, 0, 0, 1);
    assert Standing(s0, 4, 4 * MAX_RESERVATION, 4 * charge, 1);
    var s := PendingStands(s0, Label(4), 4 * MAX_RESERVATION, 4 * charge);
    PreparesLarger(s, Label(4), 5 * MAX_RESERVATION, 4 * charge);
  }

  /** One byte of text and source data that names a file, 35 bytes with both of its keys. */
  const PENDING_CHARGE := 100 * MEGABYTE + 36

  lemma PendingStands(s0: Store, id: Id, reserved: int, charged: int) returns (s: Store)
    requires Standing(s0, 4, reserved, charged, 1) && id == Label(4)
    requires reserved + MAX_RESERVATION <= MAX_RESULT_STORE && charged + PENDING_CHARGE <= MAX_INPUT_STORE
    ensures Standing(s, 5, reserved + MAX_RESERVATION, charged + PENDING_CHARGE, 1) && PendingTask(s, id)
  {
    var i := Instruction(4, 35, []);
    PendingCharge();
    s := Started(s0, i, id, 1);
    PendingMade(s0, i, id);
    hide Standing, AcceptableInput, Chargeable, SubmittedCharge, Started, Label, NewTask, Instruction, PendingTask;
    StandingStarts(s0, 4, i, PENDING_CHARGE, reserved, charged, 1);
  }

  lemma PendingMade(s: Store, i: StartInput, id: Id)
    requires i.owner == "owner" && i.sourceData == 35 && SubmittedCharge(i) == PENDING_CHARGE
      && InputOf(i).sourceData == 35
    ensures PendingTask(Started(s, i, id, 1), id)
  {
    hide SubmittedCharge, InputOf;
  }

  lemma PendingCharge()
    ensures var i := Instruction(4, 35, []);
      && InLine(4, i) && i.owner == "owner" && i.sourceData == 35
      && AcceptableInput(i) && Chargeable(i) && SubmittedCharge(i) == PENDING_CHARGE && InputOf(i).sourceData == 35
  {
    assert SumOf([]) == 0;
  }

  /** A running task whose attachments still have to be downloaded. */
  predicate PendingTask(s: Store, id: Id) {
    && Has(s.mem, "owner", id) && s.mem.tasks[id].state == Running && s.mem.tasks[id].inputPending
    && s.mem.tasks[id].payloadBytes == PENDING_CHARGE && id in s.db.inputs && s.db.inputs[id].sourceData == 35
  }

  lemma PreparesLarger(s: Store, id: Id, reserved: int, charged: int)
    requires Standing(s, 5, reserved, charged + PENDING_CHARGE, 1) && PendingTask(s, id) && reserved <= MAX_RESULT_STORE
    requires charged + PENDING_CHARGE <= MAX_INPUT_STORE < charged + 101 * MEGABYTE
    ensures Reaches(Up(s), 1) && Fits(s.mem.tasks, 1)
    ensures exists s': Store :: Step(Up(s), Update("owner", id, LARGER, true), 1, Up(s')) && !Fits(s'.mem.tasks, 1)
  {
    StandingFits(s, 5, reserved, charged + PENDING_CHARGE);
    ReachesInv(Up(s), 1);
    RowsById(s.mem, id);
    assert PayloadBytes(s.mem.tasks, 1) == charged + PENDING_CHARGE;
    hide Reaches, Standing, Fits, Inv, ValidRows;
    LargerSaves(s, id);
    var c := Changed(EntryOf(s.mem.tasks, s.db, id), LARGER, 1).value;
    var s' := After(s, id, LARGER, 1);
    hide Changed, After, ChangeStep, LARGER;
    LargerOverflows(s.mem, c.0, charged);
    UpdateIsStep(s, id, LARGER, 1, s');
    hide Step;
  }

  lemma StandingFits(s: Store, n: nat, reserved: int, charged: int)
    requires Standing(s, n, reserved, charged, 1) && reserved <= MAX_RESULT_STORE && charged <= MAX_INPUT_STORE
    ensures Reaches(Up(s), 1) && Fits(s.mem.tasks, 1)
  {
    hide Reaches, Line, ReservedBytes, PayloadBytes;
  }

  lemma LargerOverflows(mem: Rows, t: Task, charged: int)
    requires t.id in mem.tasks && mem.tasks[t.id].state == Running && mem.tasks[t.id].payloadBytes == PENDING_CHARGE
    requires t.state == Running && t.payloadBytes >= 101 * MEGABYTE
    requires PayloadBytes(mem.tasks, 1) == charged + PENDING_CHARGE && MAX_INPUT_STORE < charged + 101 * MEGABYTE
    ensures !Fits(PutTask(mem, t).tasks, 1)
  {
    ReplacedSums(mem, t, 1);
    hide PayloadBytes, ReservedBytes;
  }

  lemma UpdateIsStep(s: Store, id: Id, change: Change, now: int, s': Store)
    requires PlainChange(change) && ChangeStep(s, "owner", id, change, now, s', true)
    ensures Step(Up(s), Update("owner", id, change, true), now, Up(s'))
  {
    hide PlainChange, ChangeStep, OpenStep;
  }

  lemma LargerSaves(s: Store, id: Id)
    requires Inv(s, 1) && PendingTask(s, id) && s.mem.tasks[id].id == id
    ensures Changed(EntryOf(s.mem.tasks, s.db, id), LARGER, 1).Some?
    ensures var c, s' := Changed(EntryOf(s.mem.tasks, s.db, id), LARGER, 1), After(s, id, LARGER, 1);
      && c.Some? && c.value.0.id == id && c.value.0.state == Running && c.value.0.payloadBytes >= 101 * MEGABYTE
      && s'.mem == PutTask(s.mem, c.value.0) && PlainChange(LARGER) && ChangeStep(s, "owner", id, LARGER, 1, s', true)
  {
    LargerChanges(s, id);
    var c := Changed(EntryOf(s.mem.tasks, s.db, id), LARGER, 1).value;
    hide Changed, Inv, ValidRows, LARGER;
    KeepsRulesAt(s, c.0);
    SavedMem(s, PutTask(s.mem, c.0), c.1);
    PlainLarger();
  }

  lemma PlainLarger()
    ensures PlainChange(LARGER)
  {
  }

  lemma KeepsRulesAt(s: Store, t: Task)
    requires Inv(s, 1) && t.id in s.mem.tasks && ValidTask(t)
    requires var o := s.mem.tasks[t.id];
      t.owner == o.owner && t.source == o.source && KeyOf(t) == KeyOf(o)
        && (!t.state.Terminal() ==> !o.state.Terminal())
    ensures ValidRows(PutTask(s.mem, t))
  {
    KeepsRules(s.mem, t);
  }

  lemma LargerChanges(s: Store, id: Id)
    requires Inv(s, 1) && PendingTask(s, id) && s.mem.tasks[id].id == id
    ensures var c, o := Changed(EntryOf(s.mem.tasks, s.db, id), LARGER, 1), s.mem.tasks[id];
      c.Some? && c.value.0.id == id && ValidTask(c.value.0)
      && c.value.0.owner == o.owner && c.value.0.source == o.source && KeyOf(c.value.0) == KeyOf(o)
      && c.value.0.state == Running && c.value.0.payloadBytes >= 101 * MEGABYTE
  {
    FillerSize();
    assert EntryInv(EntryOf(s.mem.tasks, s.db, id), 1) by { hide EntryInv, DbInv; }
    hide Inv;
    LargerEntry(EntryOf(s.mem.tasks, s.db, id));
  }

  lemma LargerEntry(e: Entry)
    requires EntryInv(e, 1) && e.task.state == Running && e.task.inputPending
    requires e.input.Some? && e.input.value.sourceData <= MAX_SOURCE_DATA
    ensures var c := Changed(e, LARGER, 1);
      c.Some? && c.value.0.id == e.task.id && ValidTask(c.value.0)
      && c.value.0.owner == e.task.owner && c.value.0.source == e.task.source && KeyOf(c.value.0) == KeyOf(e.task)
      && c.value.0.state == Running && c.value.0.payloadBytes >= 101 * MEGABYTE
  {
    FillerSize();
    assert SumOf([]) == 0;
    hide ValidResult, SumOf;
  }

  // ---------------------------------------------------------------- what a crash and a restart do

  /** A completion whose save failed is reported, kept in memory, and gone after a crash: the restart interrupts the
      request, and a retry would be accepted. */
  lemma UnsavedCompletionLost()
    ensures exists s: Store, s': Store, id ::
      && Reaches(Up(s), 1) && id in s.mem.tasks && s.mem.tasks[id].completedAt > 0 && !RetryAccepts(s.mem, "owner", id)
      && Step(Up(s), Crash, 1, Down(s.db)) && Step(Down(s.db), Open({}), 1, Up(s')) && RetryAccepts(s'.mem, "owner", id)
  {
    var s := UnsavedInFlight(Label(0));
    ReachesInv(Up(s), 1);
    hide Inv, Step, Reaches;
    LostAtOpening(s, Label(0));
  }

  lemma UnsavedInFlight(id: Id) returns (s: Store)
    requires id == Label(0)
    ensures Reaches(Up(s), 1) && Has(s.mem, "owner", id) && s.mem.tasks[id].completedAt > 0
    ensures s.mem.tasks[id].state == Running
    ensures s.db.rows.tasks.Keys == {id} && s.db.rows.tasks[id].completedAt == 0 && !s.db.rows.tasks[id].inputPending
  {
    var s0 := Started(NOTHING, PLAIN, id, 1);
    FirstStands(1);
    FirstTask(1);
    assert Reaches(Up(s0), 1);
    hide Standing, Reaches, Started, Label;
    s := UnsavedStands(s0, id);
  }

  lemma UnsavedStands(s0: Store, id: Id) returns (s: Store)
    requires Reaches(Up(s0), 1) && Has(s0.mem, "owner", id) && s0.mem.tasks[id] == NewTask(PLAIN, id, 1, 1)
    ensures Reaches(Up(s), 1) && s.db == s0.db && s.mem == PutTask(s0.mem, CompletedTask(s0.mem.tasks[id], 0, 1))
    ensures Has(s.mem, "owner", id) && s.mem.tasks[id].completedAt > 0 && s.mem.tasks[id].state == Running
  {
    s := s0.(mem := PutTask(s0.mem, CompletedTask(s0.mem.tasks[id], 0, 1)));
    hide Reaches, OpenStep;
    assert Step(Up(s0), Event.CompleteExecution("owner", id, 0, false), 1, Up(s));
    ReachesNext(Up(s0), 1, Event.CompleteExecution("owner", id, 0, false), 1, Up(s));
  }

  lemma LostAtOpening(s: Store, id: Id)
    requires Inv(s, 1) && Has(s.mem, "owner", id) && s.mem.tasks[id].completedAt > 0 && s.mem.tasks[id].state == Running
    requires s.db.rows.tasks.Keys == {id} && s.db.rows.tasks[id].completedAt == 0 && !s.db.rows.tasks[id].inputPending
    ensures !RetryAccepts(s.mem, "owner", id)
    ensures exists s': Store ::
      Step(Up(s), Crash, 1, Down(s.db)) && Step(Down(s.db), Open({}), 1, Up(s')) && RetryAccepts(s'.mem, "owner", id)
  {
    DbOfInv(s, 1);
    hide Inv, DbInv, Opened, Step, OpenStep;
    OneRecovers(s.db, id, 1);
    OpenHappens(s.db, 1);
    CrashHappens(s, 1);
    var s' := Opened(s.db, {}, 1);
    CrashKeepsSaved(s, 1, "owner", id, {}, 1, s'.db, s'.mem);
  }

  lemma OpenHappens(db: Db, now: int)
    requires DbInv(db, now) && AllRecover(db, {}, now)
    ensures var s := Opened(db, {}, now);
      OpenStep(db, {}, now, s.db, Some(s.mem)) && Step(Down(db), Open({}), now, Up(s))
  {
    OpeningSucceeds(db, {}, now);
    hide DbInv, AllRecover, Opened, OpenStep;
  }

  lemma CrashHappens(s: Store, now: int)
    ensures Step(Up(s), Crash, now, Down(s.db))
  {
  }

  lemma OneRecovers(db: Db, id: Id, now: int)
    requires DbInv(db, now) && db.rows.tasks.Keys == {id} && !db.rows.tasks[id].inputPending
    requires db.rows.tasks[id].completedAt == 0 || (id in db.results && db.results[id].artifacts == [])
    ensures AllRecover(db, {}, now)
  {
    assert EntryInv(DbEntry(db, id), now) by { hide EntryInv, ValidRows, OrdersInv; }
    PreparedReads(DbEntry(db, id), now);
    hide DbInv, RecoverTask, EntryInv;
    RecoversExactly(DbEntry(db, id), false, now);
  }

  lemma PreparedReads(e: Entry, now: int)
    requires EntryInv(e, now) && !e.task.inputPending
    ensures e.input.Some? ==> e.input.value.sourceData == 0
    ensures HasPayload(e.task, now) ==> e.input.Some?
  {
  }

  // ---------------------------------------------------------------- freezing late

  const WEEK_LATER := 1 + RESULT_RETENTION

  const LATE := Result(2, 7, false, [], 0, WEEK_LATER, PENDING, [])

  /** A turn completed at the start of a week and archived at its end: a restart reserves the result for a second
      week. */
  lemma LateFreezeGrows()
    ensures exists db: Db, s: Store, id ::
      && Reaches(Down(db), WEEK_LATER) && id in db.rows.tasks && FrozenLate(DbEntry(db, id), WEEK_LATER)
      && Step(Down(db), Open({}), WEEK_LATER, Up(s)) && id in s.mem.tasks
      && Reservation(db.rows.tasks[id], WEEK_LATER) == 0 && Reservation(s.mem.tasks[id], WEEK_LATER) > 0
  {
    var id := Label(0);
    var s0 := Started(NOTHING, PLAIN, id, 1);
    FirstStands(1);
    FirstTask(1);
    assert Reaches(Up(s0), 1);
    hide Standing, Reaches, Started, Label;
    NewReserves(s0.mem.tasks[id], id);
    var s1 := CompletedStands(s0, id);
    var s2 := LateStands(s1, id);
    hide Step;
    CrashHappens(s2, WEEK_LATER);
    ReachesNext(Up(s2), WEEK_LATER, Crash, WEEK_LATER, Down(s2.db));
    ReachesInv(Down(s2.db), WEEK_LATER);
    RestartGrows(s2.db, id);
  }

  /** A running task that completed in the first second. */
  predicate CompletedOnce(s: Store, id: Id) {
    && s.mem.tasks.Keys == {id} && s.mem.tasks[id].owner == "owner" && s.mem.tasks[id].id == id
      && s.mem.tasks[id].state == Running
    && s.mem.tasks[id].startedAt == 1 && s.mem.tasks[id].completedAt == 1
      && s.mem.tasks[id].resultExpiresAt == WEEK_LATER
    && !s.mem.tasks[id].inputPending && s.db.results == map[]
  }

  lemma CompletedStands(s0: Store, id: Id) returns (s: Store)
    requires Reaches(Up(s0), 1) && s0.mem.tasks.Keys == {id} && s0.mem.tasks[id] == NewTask(PLAIN, id, 1, 1)
    requires s0.db.results == map[]
    ensures Reaches(Up(s), 1) && CompletedOnce(s, id)
  {
    NewReserves(s0.mem.tasks[id], id);
    assert Has(s0.mem, "owner", id);
    CompletionChanges(s0, id);
    s := After(s0, id, Complete(0), 1);
    CompletionWritesNoResult(s0, id);
    hide Reaches;
    ChangeHappens(s0, id, Complete(0), 1);
    hide ChangeStep, After, Changed;
    CompleteIsStep(s0, id, s);
    hide Step;
    ReachesNext(Up(s0), 1, Event.CompleteExecution("owner", id, 0, true), 1, Up(s));
  }

  lemma CompletionWritesNoResult(s: Store, id: Id)
    requires id in s.mem.tasks && s.mem.tasks[id].state == Running && s.db.results == map[]
    ensures Changed(EntryOf(s.mem.tasks, s.db, id), Complete(0), 1).Some?
    ensures After(s, id, Complete(0), 1).db.results == map[]
  {
  }

  /** The same task with a result frozen when its week was over. */
  predicate LateOnce(db: Db, id: Id) {
    && db.rows.tasks.Keys == {id} && db.rows.tasks[id].state == Running && db.rows.tasks[id].completedAt == 1
    && db.rows.tasks[id].resultExpiresAt == WEEK_LATER && db.rows.tasks[id].resultBytes == 7
      && !db.rows.tasks[id].archiveFailed
    && !db.rows.tasks[id].inputPending && id in db.results && db.results[id] == LATE
  }

  lemma LateStands(s1: Store, id: Id) returns (s: Store)
    requires Reaches(Up(s1), 1) && CompletedOnce(s1, id)
    ensures Reaches(Up(s), WEEK_LATER) && LateOnce(s.db, id)
  {
    LateFreezes(s1, id);
    var t := s1.mem.tasks[id];
    s := After(s1, id, Freeze(LATE), WEEK_LATER);
    LateSaved(s1, id);
    hide Reaches, Changed, After;
    ReachesLater(Up(s1), 1, WEEK_LATER);
    ChangeHappens(s1, id, Freeze(LATE), WEEK_LATER);
    LateFits(s1, id, s);
    FreezeIsStep(s1, id, LATE, WEEK_LATER, s);
    hide Step;
    ReachesNext(Up(s1), WEEK_LATER, Event.FreezeResult("owner", id, LATE, true), WEEK_LATER, Up(s));
  }

  lemma ReachesLater(w: World, now: int, later: int)
    requires Reaches(w, now) && now <= later
    ensures Reaches(w, later)
  {
    hide Step;
    var worlds: seq<World>, events: seq<Event>, times: seq<int> :|
      IsRun(worlds, events, times) && worlds[|events|] == w && (forall i | 0 <= i < |times| :: times[i] <= now);
  }

  lemma LateFreezes(s: Store, id: Id)
    requires CompletedOnce(s, id)
    ensures Changed(EntryOf(s.mem.tasks, s.db, id), Freeze(LATE), WEEK_LATER)
         == Some((FrozenTask(s.mem.tasks[id], LATE), PutResult(id, LATE)))
    ensures Has(s.mem, "owner", id) && ResultSize(LATE) == 7
  {
    assert SumOf([]) == 0;
    hide Transitioned, Recorded;
  }

  lemma LateSaved(s: Store, id: Id)
    requires CompletedOnce(s, id)
    requires Changed(EntryOf(s.mem.tasks, s.db, id), Freeze(LATE), WEEK_LATER)
         == Some((FrozenTask(s.mem.tasks[id], LATE), PutResult(id, LATE)))
    requires ResultSize(LATE) == 7
    ensures LateOnce(After(s, id, Freeze(LATE), WEEK_LATER).db, id)
  {
    hide Changed, ResultSize, LATE;
  }

  lemma LateFits(s: Store, id: Id, s': Store)
    requires CompletedOnce(s, id) && ResultSize(LATE) == 7
    requires ChangeStep(s, "owner", id, Freeze(LATE), WEEK_LATER, s', true)
    ensures FreezeStep(s, "owner", id, LATE, WEEK_LATER, s', true)
  {
    hide ChangeStep, ResultSize, LATE;
    SingleReserves(s.mem.tasks, id, WEEK_LATER);
    hide ReservedBytes;
  }

  lemma SingleReserves(tasks: map<Id, Task>, id: Id, now: int)
    requires tasks.Keys == {id} && tasks[id].id == id
    ensures ReservedBytes(tasks, now) == Reservation(tasks[id], now)
  {
    NothingHeld(map[], now);
    ReservedUpdate(map[], tasks[id], now);
    assert tasks == map[][id := tasks[id]];
  }

  lemma RestartGrows(db: Db, id: Id)
    requires DbInv(db, WEEK_LATER) && LateOnce(db, id)
    ensures FrozenLate(DbEntry(db, id), WEEK_LATER) && Reservation(db.rows.tasks[id], WEEK_LATER) == 0
    ensures exists s: Store ::
      Step(Down(db), Open({}), WEEK_LATER, Up(s)) && id in s.mem.tasks && Reservation(s.mem.tasks[id], WEEK_LATER) > 0
  {
    var e := DbEntry(db, id);
    LateSize();
    assert EntryInv(e, WEEK_LATER) by { hide EntryInv, ValidRows, OrdersInv; }
    assert FrozenLate(e, WEEK_LATER) && SizeKnown(e) && db.results[id].artifacts == [];
    hide EntryInv, RecoverTask, DbInv, ResultSize, FrozenLate, SizeKnown;
    OneRecovers(db, id, WEEK_LATER);
    assert RecoverTask(e, false, WEEK_LATER).Some?;
    RecoveryFitsExactly(e, false, WEEK_LATER);
    StaysOpened(db, {}, WEEK_LATER, id);
    hide OpenStep, Opened, Recover, Step;
    OpenHappens(db, WEEK_LATER);
  }

  lemma LateSize()
    ensures ResultSize(LATE) == 7
  {
    assert SumOf([]) == 0;
  }
}
