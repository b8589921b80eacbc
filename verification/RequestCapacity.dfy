/** The space limits of the store over whole runs, and exactly which calls can break them. */
module RequestCapacity {
  import opened Sums
  import opened RequestModel
  import opened RequestSpec
  import opened RequestInvariant
  import opened RequestRecovery
  import opened RequestRuns

  ghost predicate Fits(tasks: map<Id, Task>, now: int) {
    ReservedBytes(tasks, now) <= MAX_RESULT_STORE && PayloadBytes(tasks, now) <= MAX_INPUT_STORE
  }

  /** The index knows the real size of every frozen result. */
  predicate SizeKnown(e: Entry) {
    e.result.Some? ==> !e.task.archiveFailed && e.task.resultBytes == ResultSize(e.result.value)
  }

  ghost predicate SizesKnown(tasks: map<Id, Task>, db: Db) {
    forall id | id in tasks :: SizeKnown(EntryOf(tasks, db, id))
  }

  ghost predicate SpaceInv(w: World, now: int) {
    && Fits(RowsOf(w).tasks, now) && SizesKnown(RowsOf(w).tasks, DbOf(w))
    && (w.Up? ==> Fits(w.store.mem.tasks, now) && SizesKnown(w.store.mem.tasks, w.store.db))
  }

  /** A result frozen after the retention counted from its completion had already ended. */
  predicate FrozenLate(e: Entry, now: int) {
    && !e.task.state.Terminal() && e.result.Some? && ResultSize(e.result.value) > 0
    && e.task.resultExpiresAt <= now < e.result.value.frozenAt + RESULT_RETENTION
  }

  /** What the callers of the store do: complete a task once, prepare an input no longer than the stored one,
      and restart while no late-frozen result is in flight. */
  ghost predicate Careful(w: World, e: Event, now: int) {
    match e
    case CompleteExecution(owner, id, _, _) =>
      w.Up? && id in w.store.mem.tasks ==> w.store.mem.tasks[id].completedAt == 0
    case Update(_, id, Prepare(text, _, _, _), _) =>
      w.Up? && id in w.store.db.inputs ==> text <= w.store.db.inputs[id].text
    case Open(_) => forall id | id in RowsOf(w).tasks :: !FrozenLate(DbEntry(DbOf(w), id), now)
    case _ => true
  }

  predicate Lighter(t: Task, t': Task, now: int) {
    Reservation(t', now) <= Reservation(t, now) && LivePayload(t', now) <= LivePayload(t, now)
  }

  // ---------------------------------------------------------------- exact conditions, task by task

  /** Completing again can raise a reservation: it does not exactly when the first completion is still unfrozen or
      the second asks for no more than the first holds. */
  lemma CompletionFitsExactly(t: Task, reply: nat, now: int)
    requires TaskInv(t, now) && t.state == Running && reply <= MAX_REPLY
    ensures Reservation(CompletedTask(t, reply, now), now) <= Reservation(t, now)
       <==> t.completedAt == 0 || (t.resultExpiresAt > now && MAX_TASK + reply <= t.resultBytes)
  {
  }

  /** Recovery counts retention from the freeze instead of the completion, and only a late freeze gains by it. */
  lemma RecoveryFitsExactly(e: Entry, intact: bool, now: int)
    requires EntryInv(e, now) && SizeKnown(e) && RecoverTask(e, intact, now).Some?
    ensures Reservation(Recover(e, intact, now).task, now) <= Reservation(e.task, now) <==> !FrozenLate(e, now)
    ensures LivePayload(Recover(e, intact, now).task, now) == LivePayload(e.task, now)
    ensures SizeKnown(Recover(e, intact, now))
  {
    if e.result.Some? { FrozenSize(e.result.value, e.task.startedAt); }
    RecoveredResultValid(e, intact, now);
    hide ValidResult, Charge, RecoverResult;
  }

  /** Replacing the reservation by the downloaded input is free exactly when the new text and files fit the old
      charge. */
  lemma PreparationFitsExactly(e: Entry, text: nat, images: seq<nat>, files: seq<nat>, now: int)
    requires EntryInv(e, now) && e.task.state == Running && e.task.inputPending && e.input.Some?
    ensures var i := e.input.value;
      LivePayload(Prepared(e.task, i.token, text, images, files), now) <= LivePayload(e.task, now)
      <==> text + SumOf(images) + SumOf(files)
           <= i.text + SubmittedSize(e.task, i) + MAX_TASK + SumOf(i.images) + SumOf(i.files)
    ensures var i := e.input.value;
      text <= i.text && SumOf(images) + SumOf(files) <= MAX_TASK ==>
        LivePayload(Prepared(e.task, i.token, text, images, files), now) <= LivePayload(e.task, now)
  {
  }

  /** The stored input matches the index in everything but the size of its source data: every other check of reading it
      back passes, and so does that one once the input is prepared. */
  lemma InputMatchesIndex(s: Store, now: int, id: Id)
    requires Inv(s, now) && id in s.mem.tasks && HasPayload(s.mem.tasks[id], now)
    ensures id in s.db.inputs
    ensures var t, i := s.mem.tasks[id], s.db.inputs[id];
      && AcceptableSizes(i.text, i.blank, i.token, 0, i.images, i.files)
      && i.source == t.source && |i.images| == t.images && |i.files| == t.files
      && (InputCharge(i) <= t.payloadBytes <==> t.inputPending ==> i.sourceData <= SubmittedSize(t, i))
      && (t.inputPending ==> 0 < SubmittedSize(t, i) <= MAX_SOURCE_DATA)
      && (!t.inputPending ==> i.sourceData == 0 && InputCharge(i) == t.payloadBytes)
  {
    hide DbInv, ValidRows, OrdersInv, Ahead, Agrees, ResultInv, CompletionInv, TaskInv, AcceptableSizes;
    assert EntryInv(EntryOf(s.mem.tasks, s.db, id), now);
  }

  // ---------------------------------------------------------------- sums

  lemma LighterFits(small: map<Id, Task>, large: map<Id, Task>, now: int)
    requires Fits(large, now) && small.Keys <= large.Keys
    requires forall id | id in small :: Lighter(large[id], small[id], now)
    requires forall id | id in large :: large[id].resultBytes >= 0 && large[id].payloadBytes >= 0
    ensures Fits(small, now)
  {
    ReservedMonotone(small, large, now, now);
    PayloadMonotone(small, large, now, now);
  }

  lemma FitsLater(tasks: map<Id, Task>, now: int, later: int)
    requires Fits(tasks, now) && now <= later
    requires forall id | id in tasks :: tasks[id].resultBytes >= 0 && tasks[id].payloadBytes >= 0
    ensures Fits(tasks, later)
  {
    ReservedMonotone(tasks, tasks, later, now);
    PayloadMonotone(tasks, tasks, later, now);
  }

  lemma SizesPositive(mem: Rows)
    requires ValidRows(mem)
    ensures forall id | id in mem.tasks :: mem.tasks[id].resultBytes >= 0 && mem.tasks[id].payloadBytes >= 0
  {
  }

  // ---------------------------------------------------------------- the steps

  lemma ChangeLighter(e: Entry, change: Change, now: int)
    requires EntryInv(e, now) && Changed(e, change, now).Some? && !change.Freeze?
    requires change.Complete? ==> e.task.completedAt == 0
    requires change.Prepare? ==> change.text <= e.input.value.text
    ensures Lighter(e.task, Changed(e, change, now).value.0, now)
  {
    match change
    case Prepare(text, _, images, files) =>
      PreparationFitsExactly(e, text, images, files, now);
      hide ValidResult, Charge;
    case Transition(next, reason) => MoveLighter(e, next, reason, now);
    case Deliver(_) =>
      MoveLighter(e, Succeeded, NoReason, now);
      hide EntryInv, ValidResult, Recorded, Transitioned, Lighter;
    case _ =>
      hide ValidResult, Charge, AcceptableSizes, Recorded, Transitioned;
  }

  lemma MoveLighter(e: Entry, next: State, reason: Reason, now: int)
    requires EntryInv(e, now)
    ensures var moved := Transitioned(e.task, next, reason, now); moved.Some? ==> Lighter(e.task, moved.value, now)
  {
    hide ValidResult, Charge, AcceptableSizes;
  }

  lemma ChangeSize(e: Entry, change: Change, now: int)
    requires EntryInv(e, now) && SizeKnown(e) && Changed(e, change, now).Some?
    requires change.Complete? ==> e.task.completedAt == 0
    ensures SizeKnown(EntryAfter(e, Changed(e, change, now).value.0, Changed(e, change, now).value.1))
  {
    match change
    case Deliver(receipt) => DeliverSize(e, receipt, now);
    case Complete(reply) => Uncompleted(e, now);
    case _ => hide EntryInv, ValidResult, Charge, AcceptableSizes;
  }

  lemma DeliverSize(e: Entry, receipt: Receipt, now: int)
    requires SizeKnown(e) && Changed(e, Deliver(receipt), now).Some?
    ensures SizeKnown(EntryAfter(e, Changed(e, Deliver(receipt), now).value.0,
        Changed(e, Deliver(receipt), now).value.1))
  {
    if e.result.Some? && Recorded(e.result.value, receipt).Some? { RecordedShape(e.result.value, receipt); }
    hide ValidResult, Recorded;
  }

  lemma Uncompleted(e: Entry, now: int)
    requires EntryInv(e, now) && e.task.completedAt == 0
    ensures e.result.None?
  {
    hide ValidResult, Charge;
  }

  lemma ReplacedSizes(s: Store, t: Task, extra: Extra)
    requires t.id in s.mem.tasks && SizesKnown(s.mem.tasks, s.db)
    requires extra.NoExtra? || extra.id == t.id
    requires SizeKnown(EntryAfter(EntryOf(s.mem.tasks, s.db, t.id), t, extra))
    ensures var s' := Saved(s, PutTask(s.mem, t), extra); SizesKnown(s'.mem.tasks, s'.db)
  {
    hide SizeKnown, Saved, EntryAfter;
    var mem := PutTask(s.mem, t);
    var s' := Saved(s, mem, extra);
    SavedMem(s, mem, extra);
    forall id | id in mem.tasks ensures SizeKnown(EntryOf(mem.tasks, s'.db, id)) {
      EntryOfSaved(s, mem, extra, id);
      if id != t.id {
        SameEntry(EntryOf(s.mem.tasks, s.db, id));
        assert !Touches(extra, id) && mem.tasks[id] == s.mem.tasks[id];
      }
    }
  }

  lemma SavedSubset(s: Store, mem: Rows, now: int)
    requires LoadedInv(s, now) && Fits(s.mem.tasks, now) && SizesKnown(s.mem.tasks, s.db)
    requires forall id | id in mem.tasks :: id in s.mem.tasks && mem.tasks[id] == s.mem.tasks[id]
    ensures var s' := Saved(s, mem, NoExtra); SpaceInv(Up(s'), now)
  {
    hide DbInv, EntriesInv, OrdersInv, Ahead, Fits, SizeKnown, Lighter;
    SizesPositive(s.mem);
    hide ValidRows;
    forall id | id in mem.tasks ensures Lighter(s.mem.tasks[id], mem.tasks[id], now) {
      LighterItself(s.mem.tasks[id], now);
    }
    LighterFits(mem.tasks, s.mem.tasks, now);
    var s' := Saved(s, mem, NoExtra);
    SavedMem(s, mem, NoExtra);
    hide Saved;
    forall id | id in mem.tasks ensures SizeKnown(EntryOf(mem.tasks, s'.db, id)) {
      EntryOfSaved(s, mem, NoExtra, id);
      SameEntry(EntryOf(s.mem.tasks, s.db, id));
    }
  }

  lemma LighterItself(t: Task, now: int)
    ensures Lighter(t, t, now)
  {
  }

  lemma ReplacedFits(mem: Rows, t: Task, now: int)
    requires ValidRows(mem) && Fits(mem.tasks, now) && t.id in mem.tasks && Lighter(mem.tasks[t.id], t, now)
    ensures Fits(PutTask(mem, t).tasks, now)
  {
    hide Lighter, Fits;
    SizesPositive(mem);
    hide ValidRows;
    var tasks := PutTask(mem, t).tasks;
    forall id | id in tasks ensures Lighter(mem.tasks[id], tasks[id], now) {
      if id != t.id { LighterItself(mem.tasks[id], now); }
    }
    LighterFits(tasks, mem.tasks, now);
  }

  lemma ChangeSpace(s: Store, owner: string, id: Id, change: Change, now: int, s': Store, ok: bool)
    requires Inv(s, now) && SpaceInv(Up(s), now) && ChangeStep(s, owner, id, change, now, s', ok)
    requires change.Complete? ==> id in s.mem.tasks ==> s.mem.tasks[id].completedAt == 0
    requires change.Prepare? ==> id in s.db.inputs ==> change.text <= s.db.inputs[id].text
    requires change.Freeze? && ok ==> RoomToFreeze(s.mem, s.mem.tasks[id], change.result, now)
    ensures SpaceInv(Up(s'), now)
  {
    hide EntryInv, DbInv, OrdersInv, Ahead, Agrees, Saved, Changed, Fits, SizeKnown, Lighter;
    if ok {
      var e := EntryOf(s.mem.tasks, s.db, id);
      RowsById(s.mem, id);
      var c := Changed(e, change, now).value;
      ChangedIdentity(e, change, now);
      ChangeSize(e, change, now);
      ReplacedSizes(s, c.0, c.1);
      SavedMem(s, PutTask(s.mem, c.0), c.1);
      if change.Freeze? {
        StartedStamp(e, now);
        FreezeFits(s.mem, e, change.result, now);
      } else {
        if change.Prepare? { PreparesStored(e, change, now); }
        ChangeLighter(e, change, now);
        hide ChangeStep;
        ReplacedFits(s.mem, c.0, now);
      }
    }
  }

  lemma StartedStamp(e: Entry, now: int)
    requires EntryInv(e, now)
    ensures e.task.startedAt >= 1
  {
  }

  lemma PreparesStored(e: Entry, change: Change, now: int)
    requires Changed(e, change, now).Some? && change.Prepare?
    ensures e.input.Some?
  {
  }

  /** A freeze replaces what the task held by the real size, which was checked against the rest. */
  lemma FreezeFits(mem: Rows, e: Entry, r: Result, now: int)
    requires ValidRows(mem) && Fits(mem.tasks, now) && e.task.id in mem.tasks && mem.tasks[e.task.id] == e.task
    requires Changed(e, Freeze(r), now).Some? && RoomToFreeze(mem, e.task, r, now) && e.task.startedAt >= 1
    ensures Fits(PutTask(mem, Changed(e, Freeze(r), now).value.0).tasks, now)
  {
    hide ValidRows, ValidResult;
    var t := Changed(e, Freeze(r), now).value.0;
    FrozenSize(r, e.task.startedAt);
    ReservedUpdate(mem.tasks, t, now);
    PayloadUpdate(mem.tasks, t, now);
    assert Reservation(t, now) <= ResultSize(r);
    assert LivePayload(t, now) == LivePayload(e.task, now);
    hide ReservedBytes, PayloadBytes, Reservation, LivePayload, Changed;
  }

  lemma StartSpace(s: Store, i: StartInput, id: Id, now: int)
    requires Inv(s, now) && SpaceInv(Up(s), now) && id !in s.mem.tasks
    requires RoomForResult(s.mem, now) && RoomForInput(s.mem, i, now)
    ensures SpaceInv(Up(Started(s, i, id, now)), now)
  {
    hide EntryInv, OrdersInv, Ahead, ValidRows, EntriesInv;
    assert s.db.results.Keys <= s.mem.tasks.Keys;
    hide Agrees, DbInv;
    var t := NewTask(i, id, s.mem.nextOrder, now);
    NewTaskId(i, id, s.mem.nextOrder, now);
    var mem := WithNewTask(s.mem, t);
    assert Reservation(t, now) == MAX_RESERVATION && LivePayload(t, now) == SubmittedCharge(i);
    hide NewTask, Reservation, LivePayload, SubmittedCharge;
    ReservedUpdate(s.mem.tasks, t, now);
    PayloadUpdate(s.mem.tasks, t, now);
    var s' := Started(s, i, id, now);
    SavedMem(s, mem, PutInput(id, InputOf(i)));
    NoOldResult(s, mem, i, id);
    hide Saved, SizeKnown, ReservedBytes, PayloadBytes;
    forall k | k in mem.tasks ensures SizeKnown(EntryOf(mem.tasks, s'.db, k)) {
      if k != id {
        EntryOfSaved(s, mem, PutInput(id, InputOf(i)), k);
        SameEntry(EntryOf(s.mem.tasks, s.db, k));
      }
    }
  }

  lemma NoOldResult(s: Store, mem: Rows, i: StartInput, id: Id)
    requires s.db.results.Keys <= s.mem.tasks.Keys && id !in s.mem.tasks && id in mem.tasks
    ensures SizeKnown(EntryOf(mem.tasks, Saved(s, mem, PutInput(id, InputOf(i))).db, id))
  {
  }

  lemma ReceiptSpace(s: Store, id: Id, r: Result, now: int)
    requires SpaceInv(Up(s), now) && id in s.db.results
    requires r == s.db.results[id].(receipt := r.receipt, attempts := r.attempts)
    ensures SpaceInv(Up(s.(db := Apply(s.db, PutReceipts(id, r)))), now)
  {
    hide Fits;
    var db := Apply(s.db, PutReceipts(id, r));
    forall k | k in s.mem.tasks ensures SizeKnown(EntryOf(s.mem.tasks, db, k)) {
      assert SizeKnown(EntryOf(s.mem.tasks, s.db, k));
    }
    forall k | k in s.db.rows.tasks ensures SizeKnown(EntryOf(s.db.rows.tasks, db, k)) {
      assert SizeKnown(EntryOf(s.db.rows.tasks, s.db, k));
    }
  }

  lemma MemoryCompletionSpace(s: Store, id: Id, reply: nat, now: int)
    requires Inv(s, now) && SpaceInv(Up(s), now) && id in s.mem.tasks && s.mem.tasks[id].state == Running
    requires reply <= MAX_REPLY
    requires s.mem.tasks[id].completedAt == 0
    ensures SpaceInv(Up(s.(mem := PutTask(s.mem, CompletedTask(s.mem.tasks[id], reply, now)))), now)
  {
    hide DbInv, OrdersInv, Ahead, Agrees, Fits;
    RowsById(s.mem, id);
    var e := EntryOf(s.mem.tasks, s.db, id);
    var t := CompletedTask(e.task, reply, now);
    CompletionFitsExactly(e.task, reply, now);
    assert e.result.None?;
    assert Lighter(e.task, t, now);
    ReplacedFits(s.mem, t, now);
    hide EntryInv, ValidRows, SizeKnown;
    var mem := PutTask(s.mem, t);
    forall k | k in mem.tasks ensures SizeKnown(EntryOf(mem.tasks, s.db, k)) {
      if k != id { assert EntryOf(mem.tasks, s.db, k) == EntryOf(s.mem.tasks, s.db, k); }
      else { Unfrozen(EntryOf(mem.tasks, s.db, k)); }
    }
  }

  lemma Unfrozen(e: Entry)
    ensures e.result.None? ==> SizeKnown(e)
  {
  }

  lemma PurgedSpace(s: Store, now: int)
    requires SpaceInv(Up(s), now)
    ensures SpaceInv(Up(s.(db := Purged(s.db, now))), now)
  {
    hide Fits;
    var db := Purged(s.db, now);
    forall k | k in s.mem.tasks ensures SizeKnown(EntryOf(s.mem.tasks, db, k)) {
      assert SizeKnown(EntryOf(s.mem.tasks, s.db, k));
    }
    forall k | k in s.db.rows.tasks ensures SizeKnown(EntryOf(s.db.rows.tasks, db, k)) {
      assert SizeKnown(EntryOf(s.db.rows.tasks, s.db, k));
    }
  }

  lemma CleanupSpace(s: Store, now: int, s': Store, ok: bool)
    requires LoadedInv(s, now) && SpaceInv(Up(s), now) && CleanupStep(s, now, s', ok)
    ensures SpaceInv(Up(s'), now)
  {
    PurgedSpace(s, now);
    PurgePreserves(s, now);
    if gone :| CleanedBy(s, gone, now, s', ok) {
      hide EntriesInv, ValidRows, OrdersInv, DbInv, Ahead, Fits, SizesKnown;
      var rest := ForgetReceipts(s.mem, now).(tasks := s.mem.tasks - gone);
      if rest != s.mem { SavedSubset(s.(db := Purged(s.db, now)), rest, now); }
    }
  }

  lemma StoreSpace(s: Store, e: Event, now: int, s': Store)
    requires Inv(s, now) && SpaceInv(Up(s), now) && StoreStep(s, e, now, s') && Careful(Up(s), e, now)
    ensures SpaceInv(Up(s'), now)
  {
    hide DbInv, EntriesInv, ValidRows, OrdersInv, Ahead, Agrees, ChangeStep, CleanupStep, WithNewTask, Saved, Fits,
      SizesKnown, ReleaseStep, RejectStep;
    match e
    case Start(i, id, out) =>
      if out.Created? { StartSpace(s, i, id, now); }
      else if out.SessionBusy? {
        var busy: Id :| busy in s.mem.tasks && RejectStep(s, BusyReceipt(i, s.mem.tasks[busy]), now, s', true);
        RejectSpace(s, BusyReceipt(i, s.mem.tasks[busy]), now, s', true);
      }
    case Reject(r, ok) => RejectSpace(s, r, now, s', ok);
    case Release(owner, id, ok) => ReleaseSpace(s, owner, id, now, s', ok);
    case Update(owner, id, change, ok) => ChangeSpace(s, owner, id, change, now, s', ok);
    case BeginDelivery(owner, id, _, ok) => ChangeSpace(s, owner, id, Transition(Delivering, NoReason), now, s', ok);
    case CompleteExecution(owner, id, reply, ok) =>
      if ok { ChangeSpace(s, owner, id, Complete(reply), now, s', true); }
      else if CanComplete(s.mem, owner, id, reply) { MemoryCompletionSpace(s, id, reply, now); }
    case FreezeResult(owner, id, r, ok) => ChangeSpace(s, owner, id, Freeze(r), now, s', ok);
    case RecordDelivery(owner, id, receipt, complete, ok) =>
      if ok && complete { ChangeSpace(s, owner, id, Deliver(receipt), now, s', true); }
      else if ok {
        RecordedShape(s.db.results[id], receipt);
        ReceiptSpace(s, id, Recorded(s.db.results[id], receipt).value, now);
      }
    case BeginRedelivery(owner, id, operation, intact, out) =>
      if out == Fresh { ReceiptSpace(s, id, Redelivered(s.db.results[id], operation, now), now); }
    case Cleanup(ok) => CleanupSpace(s, now, s', ok);
  }

  lemma RejectSpace(s: Store, r: Rejection, now: int, s': Store, ok: bool)
    requires Inv(s, now) && SpaceInv(Up(s), now) && RejectStep(s, r, now, s', ok)
    ensures SpaceInv(Up(s'), now)
  {
    hide EntriesInv, ValidRows, OrdersInv, DbInv, Ahead, Fits, SizesKnown;
    if s' != s { SavedSubset(s, WithRejection(s.mem, r, now), now); }
  }

  lemma ReleaseSpace(s: Store, owner: string, id: Id, now: int, s': Store, ok: bool)
    requires Inv(s, now) && SpaceInv(Up(s), now) && ReleaseStep(s, owner, id, s', ok)
    ensures SpaceInv(Up(s'), now)
  {
    hide EntriesInv, ValidRows, OrdersInv, DbInv, Ahead, Fits, SizesKnown;
    if ok { SavedSubset(s, WithoutTask(s.mem, id), now); }
  }

  // ---------------------------------------------------------------- restart

  lemma PassSpace(db: Db, done: set<Id>, intact: set<Id>, now: int)
    requires DbInv(db, now) && SpaceInv(Down(db), now)
    ensures SpaceInv(Down(PassDone(db, done, intact, now)), now)
  {
    hide Fits, EntryInv, ValidRows, OrdersInv;
    var db' := PassDone(db, done, intact, now);
    forall k | k in db.rows.tasks ensures SizeKnown(DbEntry(db', k)) {
      assert SizeKnown(DbEntry(db, k));
      RecoveredResultValid(DbEntry(db, k), k in intact, now);
    }
  }

  lemma LoadedSpace(db: Db, intact: set<Id>, now: int)
    requires DbInv(db, now) && SpaceInv(Down(db), now) && AllRecover(db, intact, now)
    requires forall id | id in db.rows.tasks :: !FrozenLate(DbEntry(db, id), now)
    ensures SpaceInv(Up(Loaded(db, intact, now)), now)
  {
    PassSpace(db, db.rows.tasks.Keys, intact, now);
    var s := Loaded(db, intact, now);
    SizesPositive(db.rows);
    hide EntryInv, ValidRows, OrdersInv, Fits, SizeKnown, FrozenLate, Recover, RecoverTask, Reservation, LivePayload;
    forall id | id in s.mem.tasks
      ensures Lighter(db.rows.tasks[id], s.mem.tasks[id], now) && SizeKnown(EntryOf(s.mem.tasks, s.db, id))
    {
      RecoveryFitsExactly(DbEntry(db, id), id in intact, now);
      LoadedEntry(db, intact, now, id);
    }
    LighterFits(s.mem.tasks, db.rows.tasks, now);
  }

  lemma OpenSpace(db: Db, intact: set<Id>, now: int, db': Db, mem: Option<Rows>)
    requires DbInv(db, now) && SpaceInv(Down(db), now) && OpenStep(db, intact, now, db', mem)
    requires forall id | id in db.rows.tasks :: !FrozenLate(DbEntry(db, id), now)
    ensures SpaceInv(if mem.Some? then Up(Store(mem.value, db')) else Down(db'), now)
  {
    hide EntriesInv, ValidRows, OrdersInv, Fits, SizesKnown, CleanupStep, AllRecover, FrozenLate;
    if mem.None? && StoppedEarly(db, intact, now, db') {
      if db' != db {
        var done: set<Id> :| db' == PassDone(db, done, intact, now);
        PassSpace(db, done, intact, now);
      }
    } else {
      var mid: Store, ok: bool :| OpenedThrough(db, intact, now, mid, ok, db', mem);
      var s := Loaded(db, intact, now);
      LoadedSpace(db, intact, now);
      LoadedPreserves(db, intact, now);
      CleanupSpace(s, now, mid, ok);
      CleanupPreserves(s, now, mid, ok);
      if mem.Some? && AnyActive(db.rows) { SavedSubset(mid, mid.mem, now); }
    }
  }

  lemma StepSpace(w: World, e: Event, now: int, w': World)
    requires WorldInv(w, now) && SpaceInv(w, now) && Step(w, e, now, w') && Careful(w, e, now)
    ensures SpaceInv(w', now)
  {
    hide DbInv, Inv, OpenStep, StoreStep, Fits, SizesKnown;
    match e
    case Crash =>
    case Open(intact) => OpenSpace(w.down, intact, now, DbOf(w'), if w'.Up? then Some(w'.store.mem) else None);
    case _ => StoreSpace(w.store, e, now, w'.store);
  }

  lemma SpaceLater(w: World, now: int, later: int)
    requires WorldInv(w, now) && SpaceInv(w, now) && now <= later
    ensures SpaceInv(w, later)
  {
    hide Fits, SizesKnown, EntriesInv, OrdersInv, Ahead, Agrees;
    SizesPositive(RowsOf(w));
    FitsLater(RowsOf(w).tasks, now, later);
    if w.Up? {
      SizesPositive(w.store.mem);
      FitsLater(w.store.mem.tasks, now, later);
    }
  }

  /** Over any run whose callers are careful, neither limit is ever exceeded, in memory or on disk. */
  lemma {:induction false} SpaceIsBounded(worlds: seq<World>, events: seq<Event>, times: seq<int>, k: nat)
    requires IsRun(worlds, events, times) && k < |events|
    requires forall i | 0 <= i <= k :: Careful(worlds[i], events[i], times[i])
    ensures SpaceInv(worlds[k], times[k]) && SpaceInv(worlds[k + 1], times[k])
  {
    hide WorldInv, Step, SpaceInv, RowsStep;
    RunStep(worlds, events, times, k);
    if k == 0 {
      EmptySpace(times[0]);
    } else {
      SpaceIsBounded(worlds, events, times, k - 1);
      RunStep(worlds, events, times, k - 1);
      SpaceLater(worlds[k], times[k - 1], times[k]);
    }
    StepSpace(worlds[k], events[k], times[k], worlds[k + 1]);
  }

  lemma EmptySpace(now: int)
    ensures SpaceInv(Down(EMPTY_DB), now)
  {
    NothingHeld(EMPTY_ROWS.tasks, now);
  }

  // ---------------------------------------------------------------- the bytes that are really there

  function StoredResult(db: Db, id: Id): nat { if id in db.results then ResultSize(db.results[id]) else 0 }

  function StoredInput(db: Db, id: Id): nat {
    if id in db.inputs then
      var i := db.inputs[id]; i.text + i.token + SumOf(i.images) + SumOf(i.files)
    else 0
  }

  lemma ResultWithin(e: Entry, now: int)
    requires EntryInv(e, now) && SizeKnown(e)
    ensures e.result.Some? && e.task.resultExpiresAt > now ==> ResultSize(e.result.value) <= Reservation(e.task, now)
    ensures Reservation(e.task, now) >= 0 && LivePayload(e.task, now) >= 0
  {
    hide ValidResult, ResultSize, Charge;
  }

  lemma InputWithin(e: Entry, now: int)
    requires EntryInv(e, now) && e.input.Some? && HasPayload(e.task, now)
    ensures var i := e.input.value; i.text + i.token + SumOf(i.images) + SumOf(i.files) <= LivePayload(e.task, now)
  {
    hide ValidResult, ResultInv, CompletionInv, NeedsResult;
  }

  /** The space limits are about real bytes: the retained results on disk take no more than 1 GiB, beside the greatest
      result of every request that has not completed, and the texts and files of live inputs no more than 500 MiB. */
  lemma StoredFits(db: Db, now: int)
    requires DbInv(db, now) && SpaceInv(Down(db), now)
    ensures Total(map id | id in db.rows.tasks ::
                    if !db.rows.tasks[id].state.Terminal() && db.rows.tasks[id].completedAt == 0
                    then MAX_TASK + MAX_REPLY
                    else if db.rows.tasks[id].resultExpiresAt > now then StoredResult(db, id)
                    else 0) <= 1024 * 1024 * 1024
    ensures Total(map id | id in db.rows.tasks ::
                    if HasPayload(db.rows.tasks[id], now) then StoredInput(db, id) else 0) <= 500 * 1024 * 1024
  {
    var rows := db.rows.tasks;
    var results := map id | id in rows ::
      if !rows[id].state.Terminal() && rows[id].completedAt == 0 then MAX_TASK + MAX_REPLY
      else if rows[id].resultExpiresAt > now then StoredResult(db, id) else 0;
    var inputs := map id | id in rows :: if HasPayload(rows[id], now) then StoredInput(db, id) else 0;
    var reserved := map id | id in rows :: Reservation(rows[id], now);
    var charged := map id | id in rows :: LivePayload(rows[id], now);
    hide EntryInv, ValidRows, OrdersInv, StoredResult, StoredInput;
    forall id | id in rows
      ensures results[id] <= reserved[id] && inputs[id] <= charged[id] && reserved[id] >= 0 && charged[id] >= 0
    {
      assert EntryInv(DbEntry(db, id), now) && SizeKnown(DbEntry(db, id));
      RowWithin(db, id, now);
    }
    TotalMonotone(results, reserved);
    TotalMonotone(inputs, charged);
  }

  lemma RowWithin(db: Db, id: Id, now: int)
    requires id in db.rows.tasks && EntryInv(DbEntry(db, id), now) && SizeKnown(DbEntry(db, id))
    ensures var t := db.rows.tasks[id];
      && (t.resultExpiresAt > now ==> StoredResult(db, id) <= Reservation(t, now))
      && (HasPayload(t, now) ==> StoredInput(db, id) <= LivePayload(t, now))
      && Reservation(t, now) >= 0 && LivePayload(t, now) >= 0
      && (!t.state.Terminal() && t.completedAt == 0 ==> Reservation(t, now) == MAX_TASK + MAX_REPLY)
  {
    var e := DbEntry(db, id);
    ResultWithin(e, now);
    if e.input.Some? && HasPayload(e.task, now) { InputWithin(e, now); }
    hide EntryInv, ResultSize, SumOf, SizeKnown;
  }
}
