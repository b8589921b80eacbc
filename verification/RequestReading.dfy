/** Inputs over whole runs: when the one stored at a start can be read back, and what one that cannot be does to a
    restart. */
module RequestReading {
  import opened RequestModel
  import opened RequestSpec
  import opened RequestInvariant
  import opened RequestRecovery
  import opened RequestRuns
  import opened RequestSteps
  import opened RequestRetention
  import opened RequestReopening
  import opened RequestTheorems
  import opened RequestCapacity

  /** The input of a request that still waits for its attachments is the one it was started with. */
  predicate AsSubmitted(db: Db, id: Id, i: StartInput, now: int) {
    && id in db.rows.tasks
    && var t := db.rows.tasks[id];
    && (t.inputPending ==>
          && t.payloadBytes == SubmittedCharge(i)
          && (HasPayload(t, now) ==> id in db.inputs && db.inputs[id] == InputOf(i)))
  }

  /** Step `k` of a run started this request, and it is there since. */
  ghost predicate StartedAt(worlds: seq<World>, events: seq<Event>, k: nat, j: nat, id: Id)
    requires j < |worlds| && k < |events|
  {
    && events[k].Start? && events[k].out.Created? && events[k].id == id && k < j
    && forall m | k < m <= j :: id in RowsOf(worlds[m]).tasks
  }

  // ---------------------------------------------------------------- one step

  lemma PreparationEndsWait(s: Store, e: Event, now: int, s': Store, id: Id)
    requires Inv(s, now) && StoreStep(s, e, now, s') && Prepares(e, id)
    ensures id in s'.db.rows.tasks && !s'.db.rows.tasks[id].inputPending
  {
    OwnEntry(s, id, now);
    hide Inv, ValidRows, Changed, Saved;
    PreparedTask(EntryOf(s.mem.tasks, s.db, id), e.change, now);
    var c := Changed(EntryOf(s.mem.tasks, s.db, id), e.change, now).value;
    SavedMem(s, PutTask(s.mem, c.0), c.1);
  }

  lemma PreparedTask(e: Entry, change: Change, now: int)
    requires Changed(e, change, now).Some? && change.Prepare?
    ensures var t := Changed(e, change, now).value.0; t.id == e.task.id && !t.inputPending
  {
    hide AcceptableSizes, Charge;
  }

  lemma StillWaiting(t: Task, t': Task, now: int)
    requires Evolves(t, t', now) && t'.inputPending
    ensures t.inputPending && t'.payloadBytes == t.payloadBytes
    ensures HasPayload(t', now) ==> HasPayload(t, now) && !InputExpired(t, now)
  {
  }

  lemma EvolvesBetween(r: Rows, r': Rows, now: int, id: Id)
    requires RowsStep(r, r', now) && id in r.tasks && id in r'.tasks
    ensures Evolves(r.tasks[id], r'.tasks[id], now)
  {
    hide Evolves;
  }

  lemma AsSubmittedStep(w: World, e: Event, now: int, w': World, id: Id, i: StartInput)
    requires WorldInv(w, now) && Step(w, e, now, w') && RowsStep(RowsOf(w), RowsOf(w'), now)
    requires AsSubmitted(DbOf(w), id, i, now) && id in RowsOf(w').tasks
    ensures AsSubmitted(DbOf(w'), id, i, now)
  {
    EvolvesBetween(RowsOf(w), RowsOf(w'), now, id);
    hide RowsStep, WorldInv, Step, Evolves, SubmittedCharge, InputOf, Prepares, PreparedFrom;
    var t, t' := RowsOf(w).tasks[id], RowsOf(w').tasks[id];
    if t'.inputPending {
      StillWaiting(t, t', now);
      if HasPayload(t', now) {
        if Prepares(e, id) { PreparationEndsHere(w, e, now, w', id); }
        StepKeepsInput(w, e, now, w', id);
      }
    }
  }

  lemma PreparationEndsHere(w: World, e: Event, now: int, w': World, id: Id)
    requires WorldInv(w, now) && Step(w, e, now, w') && Prepares(e, id)
    ensures id in RowsOf(w').tasks && !RowsOf(w').tasks[id].inputPending
  {
    hide Inv, StoreStep, OpenStep;
    PreparationEndsWait(w.store, e, now, w'.store, id);
  }

  lemma CreatedAsSubmitted(w: World, e: Event, now: int, w': World)
    requires e.Start? && e.out.Created? && Step(w, e, now, w')
    ensures AsSubmitted(DbOf(w'), e.id, e.input, now)
  {
    hide Admits, ValidRows, SubmittedCharge, InputOf, OpenStep;
  }

  lemma AsSubmittedLater(db: Db, id: Id, i: StartInput, now: int, later: int)
    requires AsSubmitted(db, id, i, now) && now <= later
    ensures AsSubmitted(db, id, i, later)
  {
    hide SubmittedCharge, InputOf;
  }

  /** Only a start brings a new request. */
  lemma NewMemory(s: Store, e: Event, now: int, s': Store, id: Id)
    requires StoreStep(s, e, now, s') && id in s'.mem.tasks && id !in s.mem.tasks
    requires forall k | k in s.mem.tasks :: s.mem.tasks[k].id == k
    ensures e.Start? && e.out.Created? && e.id == id
  {
    hide ValidRows, Admits, CanRecord, CanRedeliver, RoomToFreeze, Loadable, Changed, NewTask;
    match e
    case Start(i, k, out) => if out.Created? { NewTaskId(i, k, s.mem.nextOrder, now); }
    case Update(_, k, change, ok) => if ok { ChangedId(s, k, change, now); }
    case BeginDelivery(_, k, _, ok) => if ok { ChangedId(s, k, Transition(Delivering, NoReason), now); }
    case CompleteExecution(_, k, reply, ok) => if ok { ChangedId(s, k, Complete(reply), now); }
    case FreezeResult(_, k, r, ok) => if ok { ChangedId(s, k, Freeze(r), now); }
    case RecordDelivery(_, k, receipt, complete, ok) => if ok && complete { ChangedId(s, k, Deliver(receipt), now); }
    case Cleanup(ok) => if gone :| CleanedBy(s, gone, now, s', ok) { }
    case _ =>
  }

  lemma ChangedId(s: Store, id: Id, change: Change, now: int)
    requires id in s.mem.tasks && Changed(EntryOf(s.mem.tasks, s.db, id), change, now).Some?
    ensures Changed(EntryOf(s.mem.tasks, s.db, id), change, now).value.0.id == s.mem.tasks[id].id
  {
    hide Changed;
    ChangedIdentity(EntryOf(s.mem.tasks, s.db, id), change, now);
  }

  lemma NewRow(w: World, e: Event, now: int, w': World, id: Id)
    requires WorldInv(w, now) && Step(w, e, now, w') && id in RowsOf(w').tasks && id !in RowsOf(w).tasks
    ensures e.Start? && e.out.Created? && e.id == id
  {
    hide DbInv, Inv, OpenStep, StoreStep;
    match e
    case Crash =>
    case Open(intact) =>
      OpenedOld(w.down, intact, now, DbOf(w'), if w'.Up? then Some(w'.store.mem) else None, id);
    case _ =>
      NotOnDisk(w.store, id, now);
      MemoryIds(w.store, now);
      RowsWritten(w.store, e, now, w'.store);
      NewMemory(w.store, e, now, w'.store, id);
  }

  lemma MemoryIds(s: Store, now: int)
    requires Inv(s, now)
    ensures forall k | k in s.mem.tasks :: s.mem.tasks[k].id == k
  {
    hide EntriesInv, OrdersInv, DbInv, Agrees, Ahead;
  }

  lemma OpenedOld(db: Db, intact: set<Id>, now: int, db': Db, mem: Option<Rows>, id: Id)
    requires OpenStep(db, intact, now, db', mem) && id in db'.rows.tasks
    ensures id in db.rows.tasks
  {
    hide ValidRows, CleanupStep, AllRecover, RecoverResult, AnyActive;
    if !(mem.None? && StoppedEarly(db, intact, now, db')) {
      var mid: Store, ok: bool :| OpenedThrough(db, intact, now, mid, ok, db', mem);
      CleanedRows(Loaded(db, intact, now), now, mid, ok);
      LoadedRowKeys(db, intact, now);
    }
  }

  // ---------------------------------------------------------------- over a run

  /** Every request of every reachable database was started in the run, and while it waits for its attachments its
      stored input is the one it was started with. */
  lemma {:induction false} HasOrigin(worlds: seq<World>, events: seq<Event>, times: seq<int>, j: nat,
      id: Id) returns (k: nat)
    requires IsRun(worlds, events, times) && 0 < j < |worlds| && |worlds| == |events| + 1 && |times| == |events|
    requires id in RowsOf(worlds[j]).tasks
    ensures k < j && events[k].Start? && StartedAt(worlds, events, k, j, id)
    ensures AsSubmitted(DbOf(worlds[j]), id, events[k].input, times[j - 1])
  {
    hide IsRun, WorldInv, Step, RowsStep, AsSubmitted, StartedAt;
    FirstRow(worlds, events, times);
    RunStep(worlds, events, times, j - 1);
    if id in RowsOf(worlds[j - 1]).tasks {
      k := HasOrigin(worlds, events, times, j - 1, id);
      StillThere(worlds, events, k, j, id);
      AsSubmittedLater(DbOf(worlds[j - 1]), id, events[k].input, times[j - 2], times[j - 1]);
      AsSubmittedStep(worlds[j - 1], events[j - 1], times[j - 1], worlds[j], id, events[k].input);
    } else {
      k := j - 1;
      NewRow(worlds[j - 1], events[j - 1], times[j - 1], worlds[j], id);
      JustStarted(worlds, events, j, id);
      CreatedAsSubmitted(worlds[j - 1], events[j - 1], times[j - 1], worlds[j]);
    }
  }

  lemma StillThere(worlds: seq<World>, events: seq<Event>, k: nat, j: nat, id: Id)
    requires 0 < j < |worlds| && k < |events| && StartedAt(worlds, events, k, j - 1, id)
      && id in RowsOf(worlds[j]).tasks
    ensures StartedAt(worlds, events, k, j, id)
  {
  }

  lemma JustStarted(worlds: seq<World>, events: seq<Event>, j: nat, id: Id)
    requires 0 < j < |worlds| && j <= |events| && id in RowsOf(worlds[j]).tasks
    requires events[j - 1].Start? && events[j - 1].out.Created? && events[j - 1].id == id
    ensures StartedAt(worlds, events, j - 1, j, id)
  {
  }

  lemma FirstRow(worlds: seq<World>, events: seq<Event>, times: seq<int>)
    requires IsRun(worlds, events, times)
    ensures RowsOf(worlds[0]).tasks == map[]
  {
  }

  /** The source data of this instruction reads back as no more than was submitted; a caller can tell before the
      start. */
  predicate ReadsAsSubmitted(i: StartInput) { InputOf(i).sourceData <= i.sourceData }

  /** In any run, at any time while a request is live, its input can be read back exactly when its attachments are
      already prepared or the source data it was started with reads back as no more than was submitted. */
  lemma ReadsExactly(worlds: seq<World>, events: seq<Event>, times: seq<int>, j: nat, owner: string, id: Id, now: int)
    requires IsRun(worlds, events, times) && 0 < j <= |events| && worlds[j].Up? && now >= times[j - 1]
    requires Has(worlds[j].store.mem, owner, id) && HasPayload(worlds[j].store.mem.tasks[id], now)
    ensures exists k: nat ::
      && k < |events| && StartedAt(worlds, events, k, j, id)
      && (InputOnFile(worlds[j].store, owner, id, now).Some?
          <==> !worlds[j].store.mem.tasks[id].inputPending || ReadsAsSubmitted(events[k].input))
  {
    hide IsRun, Inv, StartedAt, AsSubmitted, InputOnFile, ReadsAsSubmitted;
    RunLength(worlds, events, times);
    UpInv(worlds, events, times, j);
    SameOnDisk(worlds[j].store, times[j - 1], id);
    var k := HasOrigin(worlds, events, times, j, id);
    AsSubmittedLater(worlds[j].store.db, id, events[k].input, times[j - 1], now);
    InvLater(worlds[j].store, times[j - 1], now);
    ReadsOne(worlds[j].store, owner, id, events[k].input, now);
  }

  lemma ReadsOne(s: Store, owner: string, id: Id, i: StartInput, now: int)
    requires Inv(s, now) && Has(s.mem, owner, id) && HasPayload(s.mem.tasks[id], now) && AsSubmitted(s.db, id, i, now)
    ensures InputOnFile(s, owner, id, now).Some? <==> !s.mem.tasks[id].inputPending || ReadsAsSubmitted(i)
  {
    SameOnDisk(s, now, id);
    LiveInputReads(s, owner, id, now);
    InputMatchesIndex(s, now, id);
    hide Inv, InputOnFile, HasPayload;
    if s.mem.tasks[id].inputPending { WaitsAsSubmitted(s.mem.tasks[id], i); }
    hide SubmittedCharge, SubmittedSize, InputOf;
  }

  lemma SameOnDisk(s: Store, now: int, id: Id)
    requires Inv(s, now) && id in s.mem.tasks
    ensures id in s.db.rows.tasks
    ensures var m, d := s.mem.tasks[id], s.db.rows.tasks[id];
      m.inputPending == d.inputPending && m.payloadBytes == d.payloadBytes
        && (HasPayload(m, now) <==> HasPayload(d, now))
  {
    hide ValidRows, OrdersInv, EntriesInv;
    assert AgreesTask(s.mem.tasks[id], s.db.rows.tasks[id]);
  }

  lemma WaitsAsSubmitted(t: Task, i: StartInput)
    requires t.payloadBytes == SubmittedCharge(i)
    ensures i.sourceData > 0 ==> SubmittedSize(t, InputOf(i)) == i.sourceData
    ensures i.sourceData == 0 ==> InputOf(i).sourceData == 0
  {
  }

  // ---------------------------------------------------------------- what an unreadable input does to a restart

  /** A request in flight whose stored source data reads back as more than the limit of a stored input. */
  predicate Blocked(db: Db, id: Id) {
    && id in db.rows.tasks && !db.rows.tasks[id].state.Terminal()
    && id in db.inputs && db.inputs[id].sourceData > MAX_SOURCE_DATA
  }

  lemma BlockedEntry(e: Entry, intact: bool, now: int)
    requires EntryInv(e, now) && !e.task.state.Terminal() && e.input.Some? && e.input.value.sourceData > MAX_SOURCE_DATA
    ensures RecoverTask(e, intact, now).None?
  {
    RecoversExactly(e, intact, now);
    hide RecoverTask, EntryInv;
  }

  lemma BlockedOpening(db: Db, intact: set<Id>, now: int, db': Db, mem: Option<Rows>, id: Id)
    requires DbInv(db, now) && Blocked(db, id) && OpenStep(db, intact, now, db', mem)
    ensures mem.None? && Blocked(db', id)
  {
    hide EntryInv, ValidRows, OrdersInv, OpenedThrough, RecoverTask, RecoverResult;
    assert EntryInv(DbEntry(db, id), now);
    BlockedEntry(DbEntry(db, id), id in intact, now);
    assert !AllRecover(db, intact, now);
  }

  lemma BlockedStep(w: World, e: Event, now: int, w': World, id: Id)
    requires WorldInv(w, now) && Step(w, e, now, w') && w.Down? && Blocked(w.down, id)
    ensures w'.Down? && Blocked(w'.down, id)
  {
    hide DbInv, OpenStep, Blocked;
    match e
    case Open(intact) => BlockedOpening(w.down, intact, now, DbOf(w'), if w'.Up? then Some(w'.store.mem) else None, id);
    case _ =>
  }

  /** Once a process ends with such a request in flight, no later process comes up over this database. */
  lemma {:induction false} BlockedForGood(worlds: seq<World>, events: seq<Event>, times: seq<int>, i: nat, j: nat,
      id: Id)
    requires IsRun(worlds, events, times) && i <= j < |worlds| && worlds[i].Down? && Blocked(worlds[i].down, id)
    ensures worlds[j].Down? && Blocked(worlds[j].down, id)
  {
    hide Blocked, WorldInv, Step, RowsStep;
    if i < j {
      BlockedForGood(worlds, events, times, i, j - 1, id);
      RunStep(worlds, events, times, j - 1);
      BlockedStep(worlds[j - 1], events[j - 1], times[j - 1], worlds[j], id);
    }
  }

  /** Every start so far was of an instruction that reads back as submitted. */
  ghost predicate AllReadAsSubmitted(events: seq<Event>, j: nat)
    requires j <= |events|
  {
    forall k | 0 <= k < j && events[k].Start? :: ReadsAsSubmitted(events[k].input)
  }

  /** When every instruction reads back as submitted, no input ever stands in the way of an opening: only a finished,
      archived result whose files no longer verify does. */
  lemma OpensUnlessDamaged(worlds: seq<World>, events: seq<Event>, times: seq<int>, j: nat, intact: set<Id>, now: int)
    requires IsRun(worlds, events, times) && 0 < j <= |events| && worlds[j].Down? && now >= times[j - 1]
    requires AllReadAsSubmitted(events, j)
    ensures AllRecover(worlds[j].down, intact, now) <==>
      forall id | id in worlds[j].down.rows.tasks :: !Damaged(DbEntry(worlds[j].down, id), id in intact)
  {
    ReachedDb(worlds, events, times, j, now);
    var db := worlds[j].down;
    forall id | id in db.rows.tasks
      ensures RecoverTask(DbEntry(db, id), id in intact, now).Some? <==> !Damaged(DbEntry(db, id), id in intact)
    {
      EachUnlessDamaged(worlds, events, times, j, intact, now, id);
    }
    hide IsRun, DbInv, RecoverTask, Damaged;
  }

  lemma ReachedDb(worlds: seq<World>, events: seq<Event>, times: seq<int>, j: nat, now: int)
    requires IsRun(worlds, events, times) && 0 < j <= |events| && worlds[j].Down? && now >= times[j - 1]
    ensures DbInv(worlds[j].down, now)
  {
    hide IsRun, DbInv;
    RunLength(worlds, events, times);
    RunInvariant(worlds, events, times, j - 1);
    DbLater(worlds[j].down, times[j - 1], now);
  }

  lemma EachUnlessDamaged(worlds: seq<World>, events: seq<Event>, times: seq<int>, j: nat, intact: set<Id>, now: int,
      id: Id)
    requires IsRun(worlds, events, times) && 0 < j <= |events| && worlds[j].Down? && now >= times[j - 1]
    requires AllReadAsSubmitted(events, j) && id in worlds[j].down.rows.tasks && DbInv(worlds[j].down, now)
    ensures var e := DbEntry(worlds[j].down, id);
      RecoverTask(e, id in intact, now).Some? <==> !Damaged(e, id in intact)
  {
    var k := HasOrigin(worlds, events, times, j, id);
    hide IsRun, DbInv, RecoverTask, Damaged, AsSubmitted, ReadsAsSubmitted;
    AsSubmittedLater(worlds[j].down, id, events[k].input, times[j - 1], now);
    RecoversUnlessDamaged(worlds[j].down, id, events[k].input, intact, now);
  }

  /** Source data that was accepted and reads back as more than the limit of a stored input. */
  predicate TooLarge(e: Entry, now: int) {
    HasPayload(e.task, now) && e.input.Some? && e.input.value.sourceData > MAX_SOURCE_DATA
  }

  /** Exactly when the store opens: when no request in flight has an archived result that no longer verifies and no live
      input reads back as more than the limit. */
  lemma OpensExactly(db: Db, intact: set<Id>, now: int)
    requires DbInv(db, now)
    ensures (exists db', mem :: OpenStep(db, intact, now, db', Some(mem))) <==>
      forall id | id in db.rows.tasks :: !Damaged(DbEntry(db, id), id in intact) && !TooLarge(DbEntry(db, id), now)
  {
    OpeningSucceeds(db, intact, now);
    hide EntryInv, OpenStep, RecoverTask, Damaged, TooLarge, ValidRows, OrdersInv;
    forall id | id in db.rows.tasks
      ensures RecoverTask(DbEntry(db, id), id in intact, now).Some?
         <==> !Damaged(DbEntry(db, id), id in intact) && !TooLarge(DbEntry(db, id), now)
    {
      assert EntryInv(DbEntry(db, id), now);
      EntryRecovers(DbEntry(db, id), id in intact, now);
    }
  }

  lemma EntryRecovers(e: Entry, intact: bool, now: int)
    requires EntryInv(e, now)
    ensures RecoverTask(e, intact, now).Some? <==> !Damaged(e, intact) && !TooLarge(e, now)
  {
    ResultThere(e, now);
    InputThere(e, now);
    RecoversExactly(e, intact, now);
    hide RecoverTask, EntryInv;
  }

  lemma InputThere(e: Entry, now: int)
    requires EntryInv(e, now)
    ensures HasPayload(e.task, now) ==> e.input.Some?
  {
  }

  predicate Damaged(e: Entry, intact: bool) {
    && !e.task.state.Terminal() && e.task.completedAt > 0 && !e.task.archiveFailed
    && e.result.Some? && e.result.value.artifacts != [] && !intact
  }

  lemma RecoversUnlessDamaged(db: Db, id: Id, i: StartInput, intact: set<Id>, now: int)
    requires DbInv(db, now) && id in db.rows.tasks && AsSubmitted(db, id, i, now) && ReadsAsSubmitted(i)
    ensures RecoverTask(DbEntry(db, id), id in intact, now).Some? <==> !Damaged(DbEntry(db, id), id in intact)
  {
    var e := DbEntry(db, id);
    assert EntryInv(e, now) by { hide EntryInv, ValidRows, OrdersInv; }
    hide DbInv;
    ResultThere(e, now);
    WaitsAsSubmittedHere(e, i, now);
    RecoversExactly(e, id in intact, now);
    hide EntryInv, RecoverTask;
  }

  lemma ResultThere(e: Entry, now: int)
    requires EntryInv(e, now)
    ensures !e.task.state.Terminal() && e.task.completedAt > 0 && !e.task.archiveFailed ==> e.result.Some?
  {
  }

  lemma WaitsAsSubmittedHere(e: Entry, i: StartInput, now: int)
    requires EntryInv(e, now) && ReadsAsSubmitted(i)
    requires e.task.inputPending && HasPayload(e.task, now) ==>
      e.task.payloadBytes == SubmittedCharge(i) && e.input == Some(InputOf(i))
    ensures HasPayload(e.task, now) ==> e.input.Some? && e.input.value.sourceData <= MAX_SOURCE_DATA
  {
    if e.task.inputPending && HasPayload(e.task, now) { WaitsAsSubmitted(e.task, i); }
    hide Charge, ValidResult, ResultInv, CompletionInv, TaskInv;
  }
}
