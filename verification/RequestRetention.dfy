/** Retained inputs and completion checkpoints over whole runs: only the operation that owns such a row changes it. */
module RequestRetention {
  import opened RequestModel
  import opened RequestSpec
  import opened RequestInvariant
  import opened RequestRecovery
  import opened RequestRuns
  import opened RequestTheorems

  /** Among the tasks that stay, every retained input and checkpoint stays, and stays equal, unless `extra` writes it.
      */
  ghost predicate KeptTables(db: Db, db': Db, extra: Extra, now: int) {
    forall id | id in db.rows.tasks && id in db'.rows.tasks ::
      KeptInput(db, db', extra, now, id) && KeptCheckpoint(db, db', extra, now, id)
  }

  predicate KeptInput(db: Db, db': Db, extra: Extra, now: int, id: Id)
    requires id in db.rows.tasks
  {
    id in db.inputs && !InputExpired(db.rows.tasks[id], now) ==>
      id in db'.inputs && db'.inputs[id] == if extra.PutInput? && extra.id == id then extra.input else db.inputs[id]
  }

  predicate KeptCheckpoint(db: Db, db': Db, extra: Extra, now: int, id: Id)
    requires id in db.rows.tasks
  {
    id in db.completions && !ResultExpired(db.rows.tasks[id], now) && !(extra.PutResult? && extra.id == id) ==>
      && id in db'.completions
      && db'.completions[id] == if extra.PutCompletion? && extra.id == id then extra.completion else db.completions[id]
  }

  /** What an event writes beside the index row of an existing task. */
  function WriteOf(s: Store, e: Event, now: int): Extra {
    match e
    case Update(_, id, change, true) => ChangeWrite(s, id, change, now)
    case CompleteExecution(_, id, reply, true) => ChangeWrite(s, id, Complete(reply), now)
    case FreezeResult(_, id, r, true) => PutResult(id, r)
    case _ => NoExtra
  }

  function ChangeWrite(s: Store, id: Id, change: Change, now: int): Extra {
    if id in s.mem.tasks && Changed(EntryOf(s.mem.tasks, s.db, id), change, now).Some?
    then Changed(EntryOf(s.mem.tasks, s.db, id), change, now).value.1 else NoExtra
  }

  // ---------------------------------------------------------------- one step

  lemma SavedTables(s: Store, mem: Rows, extra: Extra, now: int)
    ensures KeptTables(s.db, Saved(s, mem, extra).db, extra, now)
  {
  }

  lemma SameTables(db: Db, db': Db, extra: Extra, now: int)
    requires db'.inputs == db.inputs && db'.completions == db.completions && (extra.NoExtra? || extra.PutReceipts?)
    ensures KeptTables(db, db', extra, now)
  {
  }

  lemma NewInputOnly(db: Db, db': Db, id: Id, input: Input, now: int)
    requires KeptTables(db, db', PutInput(id, input), now) && id !in db.rows.tasks
    ensures KeptTables(db, db', NoExtra, now)
  {
  }

  lemma ReceiptsOnly(db: Db, db': Db, id: Id, r: Result, now: int)
    requires KeptTables(db, db', PutReceipts(id, r), now)
    ensures KeptTables(db, db', NoExtra, now)
  {
  }

  lemma ChangeTables(s: Store, owner: string, id: Id, change: Change, now: int, s': Store)
    requires ChangeStep(s, owner, id, change, now, s', true)
    ensures KeptTables(s.db, s'.db, ChangeWrite(s, id, change, now), now)
  {
    hide KeptTables, Changed, ValidRows, Saved;
    var c := Changed(EntryOf(s.mem.tasks, s.db, id), change, now).value;
    SavedTables(s, PutTask(s.mem, c.0), c.1, now);
  }

  lemma CleanupTables(s: Store, now: int, s': Store, ok: bool)
    requires CleanupStep(s, now, s', ok)
    ensures KeptTables(s.db, s'.db, NoExtra, now)
  {
    if gone :| CleanedBy(s, gone, now, s', ok) {
      hide ValidRows;
    }
  }

  /** The writes each kind of change makes of its own. */
  lemma WritesOwn(s: Store, id: Id, change: Change, now: int)
    requires id in s.mem.tasks && Changed(EntryOf(s.mem.tasks, s.db, id), change, now).Some?
    ensures change.Transition? ==> ChangeWrite(s, id, change, now) == NoExtra
    ensures change.Freeze? ==> ChangeWrite(s, id, change, now) == PutResult(s.mem.tasks[id].id, change.result)
    ensures change.Deliver? ==> ChangeWrite(s, id, change, now).PutReceipts?
  {
    hide Recorded, ValidResult, Transitioned;
  }

  lemma StoreTables(s: Store, e: Event, now: int, s': Store)
    requires Inv(s, now) && StoreStep(s, e, now, s')
    ensures KeptTables(s.db, s'.db, WriteOf(s, e, now), now)
  {
    hide Inv, CleanupStep, Admits, KeptTables, Saved, ValidRows, Changed, ChangeWrite, WithNewTask, NewTask;
    match e
    case Start(i, id, out) =>
      if out.Created? {
        SavedTables(s, WithNewTask(s.mem, NewTask(i, id, s.mem.nextOrder, now)), PutInput(id, InputOf(i)), now);
        NotOnDisk(s, id, now);
        NewInputOnly(s.db, s'.db, id, InputOf(i), now);
      } else if out.SessionBusy? {
        var busy: Id :| busy in s.mem.tasks && RejectStep(s, BusyReceipt(i, s.mem.tasks[busy]), now, s', true);
        RejectTables(s, BusyReceipt(i, s.mem.tasks[busy]), now, s', true);
      } else { SameTables(s.db, s'.db, NoExtra, now); }
    case Reject(r, ok) => RejectTables(s, r, now, s', ok);
    case Release(owner, id, ok) =>
      if ok { SavedTables(s, WithoutTask(s.mem, id), NoExtra, now); } else { SameTables(s.db, s'.db, NoExtra, now); }
    case Update(owner, id, change, ok) =>
      if ok { ChangeTables(s, owner, id, change, now, s'); } else { SameTables(s.db, s'.db, NoExtra, now); }
    case BeginDelivery(owner, id, _, ok) =>
      if ok {
        ChangeTables(s, owner, id, Transition(Delivering, NoReason), now, s');
        WritesOwn(s, id, Transition(Delivering, NoReason), now);
      } else { SameTables(s.db, s'.db, NoExtra, now); }
    case CompleteExecution(owner, id, reply, ok) =>
      if ok { ChangeTables(s, owner, id, Complete(reply), now, s'); } else { SameTables(s.db, s'.db, NoExtra, now); }
    case FreezeResult(owner, id, r, ok) =>
      if ok {
        ChangeTables(s, owner, id, Freeze(r), now, s');
        WritesOwn(s, id, Freeze(r), now);
        OwnId(s, id, now);
      } else { SameTables(s.db, s'.db, NoExtra, now); }
    case RecordDelivery(owner, id, receipt, complete, ok) => RecordTables(s, owner, id, receipt, complete, now, s', ok);
    case BeginRedelivery(owner, id, operation, intact, out) => SameTables(s.db, s'.db, NoExtra, now);
    case Cleanup(ok) => CleanupTables(s, now, s', ok);
  }

  lemma NotOnDisk(s: Store, id: Id, now: int)
    requires Inv(s, now)
    ensures id in s.mem.tasks <==> id in s.db.rows.tasks
  {
    hide ValidRows, OrdersInv, EntriesInv;
  }

  lemma OwnId(s: Store, id: Id, now: int)
    requires Inv(s, now) && id in s.mem.tasks
    ensures s.mem.tasks[id].id == id
  {
    RowsById(s.mem, id);
  }

  lemma RejectTables(s: Store, r: Rejection, now: int, s': Store, ok: bool)
    requires RejectStep(s, r, now, s', ok)
    ensures KeptTables(s.db, s'.db, NoExtra, now)
  {
    hide KeptTables, Saved, ValidRows;
    if s' == s {
      SameTables(s.db, s'.db, NoExtra, now);
    } else {
      SavedTables(s, WithRejection(s.mem, r, now), NoExtra, now);
    }
  }

  lemma RecordTables(s: Store, owner: string, id: Id, receipt: Receipt, complete: bool, now: int, s': Store, ok: bool)
    requires RecordStep(s, owner, id, receipt, complete, now, s', ok)
    ensures KeptTables(s.db, s'.db, NoExtra, now)
  {
    hide KeptTables, Saved, ValidRows, Changed, ChangeWrite, CanRecord;
    if ok && complete {
      ChangeTables(s, owner, id, Deliver(receipt), now, s');
      WritesOwn(s, id, Deliver(receipt), now);
      var extra := ChangeWrite(s, id, Deliver(receipt), now);
      ReceiptsOnly(s.db, s'.db, extra.id, extra.receipts, now);
    } else {
      SameTables(s.db, s'.db, NoExtra, now);
    }
  }

  lemma OpenTables(db: Db, intact: set<Id>, now: int, db': Db, mem: Option<Rows>)
    requires OpenStep(db, intact, now, db', mem)
    ensures KeptTables(db, db', NoExtra, now)
  {
    hide ValidRows, CleanupStep, AllRecover, RecoverResult, Recover, AnyActive, KeptTables;
    if mem.None? && StoppedEarly(db, intact, now, db') {
      SameTables(db, db', NoExtra, now);
    } else {
      var mid: Store, ok: bool :| OpenedThrough(db, intact, now, mid, ok, db', mem);
      var s := Loaded(db, intact, now);
      CleanupTables(s, now, mid, ok);
      CleanedRows(s, now, mid, ok);
      LoadedRowKeys(db, intact, now);
      FromLoaded(db, s.db, mid.db, db', mid, now);
    }
  }

  lemma LoadedRowKeys(db: Db, intact: set<Id>, now: int)
    ensures var s := Loaded(db, intact, now);
      s.mem.tasks.Keys == db.rows.tasks.Keys && s.db == db.(results := s.db.results)
  {
    hide RecoverResult, RecoverTask;
  }

  lemma FromLoaded(db: Db, loaded: Db, cleaned: Db, db': Db, mid: Store, now: int)
    requires loaded == db.(results := loaded.results) && cleaned == mid.db
    requires KeptTables(loaded, cleaned, NoExtra, now)
    requires db' == cleaned || db' == Saved(mid, mid.mem, NoExtra).db
    requires db' != cleaned ==> mid.mem.tasks.Keys <= cleaned.rows.tasks.Keys
    ensures KeptTables(db, db', NoExtra, now)
  {
  }

  lemma StepTables(w: World, e: Event, now: int, w': World)
    requires WorldInv(w, now) && Step(w, e, now, w')
    ensures KeptTables(DbOf(w), DbOf(w'), StepWrite(w, e, now), now)
  {
    hide DbInv, Inv, OpenStep, StoreStep, KeptTables, ChangeWrite;
    match e
    case Crash => SameTables(DbOf(w), DbOf(w'), NoExtra, now);
    case Open(intact) => OpenTables(w.down, intact, now, DbOf(w'), if w'.Up? then Some(w'.store.mem) else None);
    case _ => StoreTables(w.store, e, now, w'.store);
  }

  // ---------------------------------------------------------------- who writes what

  /** A preparation of this task was saved. */
  predicate Prepares(e: Event, id: Id) { e.Update? && e.ok && e.id == id && e.change.Prepare? }

  /** A completion of this task was saved. */
  predicate Completes(e: Event, id: Id) { e.CompleteExecution? && e.ok && e.id == id }

  predicate Freezes(e: Event, id: Id) { e.FreezeResult? && e.ok && e.id == id }

  /** The input as a preparation leaves it: source and token stay, the downloaded parts take the place of the data. */
  predicate PreparedFrom(i: Input, change: Change, i': Input)
    requires change.Prepare?
  {
    i' == i.(text := change.text, blank := change.blank, sourceData := 0, images := change.images,
        files := change.files)
  }

  lemma PlainWrites(s: Store, id: Id, change: Change, now: int)
    requires id in s.mem.tasks && Changed(EntryOf(s.mem.tasks, s.db, id), change, now).Some? && PlainChange(change)
    requires EntryInv(EntryOf(s.mem.tasks, s.db, id), now)
    ensures if change.Prepare? then
              id in s.db.inputs && ChangeWrite(s, id, change, now).PutInput?
              && PreparedFrom(s.db.inputs[id], change, ChangeWrite(s, id, change, now).input)
            else ChangeWrite(s, id, change, now) == NoExtra
  {
    hide ValidResult, Transitioned, AcceptableSizes, Charge;
  }

  lemma CompletionWrites(s: Store, id: Id, reply: nat, now: int)
    requires id in s.mem.tasks && Changed(EntryOf(s.mem.tasks, s.db, id), Complete(reply), now).Some?
    ensures ChangeWrite(s, id, Complete(reply), now)
         == PutCompletion(s.mem.tasks[id].id, Completion(1, reply, CompletionTime(s.mem.tasks[id], now)))
  {
  }

  /** The write of an event names its own task, and is an input exactly in a saved preparation, a checkpoint exactly
      in a saved completion and a result exactly in a saved freeze. */
  lemma WriteIsOwn(s: Store, e: Event, now: int, s': Store, id: Id)
    requires Inv(s, now) && StoreStep(s, e, now, s')
    ensures var x := WriteOf(s, e, now);
      && (x.PutInput? && x.id == id <==> Prepares(e, id))
      && (Prepares(e, id) ==> id in s.db.inputs && PreparedFrom(s.db.inputs[id], e.change, x.input))
      && (x.PutCompletion? && x.id == id <==> Completes(e, id))
      && (Completes(e, id) ==> x.completion.version == 1 && x.completion.reply == e.reply)
      && (x.PutResult? && x.id == id <==> Freezes(e, id))
  {
    hide Inv, Changed, ChangeWrite, ValidRows, Saved, CompletionTime, PreparedFrom;
    match e
    case Update(_, k, change, true) =>
      OwnEntry(s, k, now);
      PlainWrites(s, k, change, now);
      ChangedIdentity(EntryOf(s.mem.tasks, s.db, k), change, now);
      WriteUnfolds(s, k, change, now);
    case CompleteExecution(_, k, reply, true) =>
      OwnEntry(s, k, now);
      CompletionWrites(s, k, reply, now);
    case _ =>
  }

  lemma WriteUnfolds(s: Store, id: Id, change: Change, now: int)
    requires id in s.mem.tasks && Changed(EntryOf(s.mem.tasks, s.db, id), change, now).Some?
    ensures ChangeWrite(s, id, change, now) == Changed(EntryOf(s.mem.tasks, s.db, id), change, now).value.1
  {
  }

  lemma OwnEntry(s: Store, id: Id, now: int)
    requires Inv(s, now) && id in s.mem.tasks
    ensures s.mem.tasks[id].id == id && EntryInv(EntryOf(s.mem.tasks, s.db, id), now)
  {
    RowsById(s.mem, id);
    hide EntryInv;
  }

  /** In any step of any kind, crashes and restarts included, the retained input of a request that stays is the same
      input, unless this step prepares it. */
  lemma StepKeepsInput(w: World, e: Event, now: int, w': World, id: Id)
    requires WorldInv(w, now) && Step(w, e, now, w') && id in RowsOf(w).tasks && id in RowsOf(w').tasks
    requires id in DbOf(w).inputs && !InputExpired(RowsOf(w).tasks[id], now)
    ensures id in DbOf(w').inputs
    ensures if Prepares(e, id) then PreparedFrom(DbOf(w).inputs[id], e.change, DbOf(w').inputs[id])
            else DbOf(w').inputs[id] == DbOf(w).inputs[id]
  {
    StepTables(w, e, now, w');
    StepWrites(w, e, now, w', id);
    hide WorldInv, Step, WriteOf, Prepares, Completes, Freezes, PreparedFrom, KeptCheckpoint;
    assert KeptInput(DbOf(w), DbOf(w'), StepWrite(w, e, now), now, id);
  }

  /** In any step the checkpoint of a completion is the same checkpoint, until its result is frozen or it expires,
      unless this step completes the request again. */
  lemma StepKeepsCheckpoint(w: World, e: Event, now: int, w': World, id: Id)
    requires WorldInv(w, now) && Step(w, e, now, w') && id in RowsOf(w).tasks && id in RowsOf(w').tasks
    requires id in DbOf(w).completions && !ResultExpired(RowsOf(w).tasks[id], now) && !Freezes(e, id)
    ensures id in DbOf(w').completions
    ensures if Completes(e, id) then DbOf(w').completions[id].reply == e.reply
            else DbOf(w').completions[id] == DbOf(w).completions[id]
  {
    StepTables(w, e, now, w');
    StepWrites(w, e, now, w', id);
    hide WorldInv, Step, WriteOf, Prepares, Completes, Freezes, PreparedFrom, KeptInput;
    assert KeptCheckpoint(DbOf(w), DbOf(w'), StepWrite(w, e, now), now, id);
  }

  function StepWrite(w: World, e: Event, now: int): Extra { if w.Up? then WriteOf(w.store, e, now) else NoExtra }

  lemma StepWrites(w: World, e: Event, now: int, w': World, id: Id)
    requires WorldInv(w, now) && Step(w, e, now, w')
    ensures var x := StepWrite(w, e, now);
      && (x.PutInput? && x.id == id <==> Prepares(e, id))
      && (Prepares(e, id) ==> id in DbOf(w).inputs && PreparedFrom(DbOf(w).inputs[id], e.change, x.input))
      && (x.PutCompletion? && x.id == id <==> Completes(e, id))
      && (Completes(e, id) ==> x.completion.version == 1 && x.completion.reply == e.reply)
      && (x.PutResult? && x.id == id <==> Freezes(e, id))
  {
    hide DbInv, Inv, StoreStep, OpenStep, PreparedFrom, ChangeWrite;
    if !e.Crash? && !e.Open? { WriteIsOwn(w.store, e, now, w'.store, id); }
  }

  // ---------------------------------------------------------------- over a run

  /** Through these steps the input of the task is retained, and nobody prepares it. */
  ghost predicate Untouched(worlds: seq<World>, events: seq<Event>, times: seq<int>, i: nat, j: nat, id: Id)
    requires j < |worlds| && j <= |events| && j <= |times|
  {
    && (forall k | i <= k <= j :: id in RowsOf(worlds[k]).tasks)
    && (forall k | i <= k < j :: !InputExpired(RowsOf(worlds[k]).tasks[id], times[k]) && !Prepares(events[k], id))
  }

  /** What is stored for a request when it starts, or when its attachments were prepared, is what a delivery or a retry
      reads back at any later time, through all failed saves, crashes and restarts, until it expires. */
  lemma {:induction false} InputStays(worlds: seq<World>, events: seq<Event>, times: seq<int>, i: nat, j: nat, id: Id)
    requires IsRun(worlds, events, times) && |worlds| == |events| + 1 && |times| == |events| && i <= j <= |events|
    requires Untouched(worlds, events, times, i, j, id) && id in DbOf(worlds[i]).inputs
    ensures id in DbOf(worlds[j]).inputs && DbOf(worlds[j]).inputs[id] == DbOf(worlds[i]).inputs[id]
  {
    hide IsRun, WorldInv, Step, Prepares, InputExpired, RowsStep;
    if i < j {
      InputStays(worlds, events, times, i, j - 1, id);
      RunStep(worlds, events, times, j - 1);
      assert id in RowsOf(worlds[j - 1]).tasks && id in RowsOf(worlds[j]).tasks;
      StepKeepsInput(worlds[j - 1], events[j - 1], times[j - 1], worlds[j], id);
    }
  }

  /** The same for the checkpoint of a completion whose result is not frozen yet. */
  ghost predicate Unfrozen(worlds: seq<World>, events: seq<Event>, times: seq<int>, i: nat, j: nat, id: Id)
    requires j < |worlds| && j <= |events| && j <= |times|
  {
    && (forall k | i <= k <= j :: id in RowsOf(worlds[k]).tasks)
    && (forall k | i <= k < j ::
          !ResultExpired(RowsOf(worlds[k]).tasks[id], times[k]) && !Completes(events[k], id) && !Freezes(events[k], id))
  }

  lemma {:induction false} CheckpointStays(worlds: seq<World>, events: seq<Event>, times: seq<int>, i: nat, j: nat,
                                           id: Id)
    requires IsRun(worlds, events, times) && |worlds| == |events| + 1 && |times| == |events| && i <= j <= |events|
    requires Unfrozen(worlds, events, times, i, j, id) && id in DbOf(worlds[i]).completions
    ensures id in DbOf(worlds[j]).completions && DbOf(worlds[j]).completions[id] == DbOf(worlds[i]).completions[id]
  {
    hide IsRun, WorldInv, Step, Completes, Freezes, ResultExpired, RowsStep;
    if i < j {
      CheckpointStays(worlds, events, times, i, j - 1, id);
      RunStep(worlds, events, times, j - 1);
      assert id in RowsOf(worlds[j - 1]).tasks && id in RowsOf(worlds[j]).tasks;
      StepKeepsCheckpoint(worlds[j - 1], events[j - 1], times[j - 1], worlds[j], id);
    }
  }
}
