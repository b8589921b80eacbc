/** Frozen results over whole runs: their content never changes and each redelivery operation is sent at most once. */
module RequestDelivery {
  import opened RequestModel
  import opened RequestSpec
  import opened RequestInvariant
  import opened RequestRecovery
  import opened RequestRuns

  /** The frozen answer is the same and every registered operation is still registered. */
  predicate Extends(r: Result, r': Result) {
    && r == r'.(receipt := r.receipt, attempts := r.attempts)
    && Operations(r.attempts) <= Operations(r'.attempts)
  }

  /** A result row survives with its content until its task leaves or its retention ends. */
  ghost predicate ResultsStep(db: Db, db': Db, now: int) {
    forall id | id in db.results && id in db.rows.tasks && id in db'.rows.tasks
      && !ResultExpired(db.rows.tasks[id], now) ::
      id in db'.results && Extends(db.results[id], db'.results[id])
  }

  lemma ResultsStay(db: Db, db': Db, now: int)
    requires db'.results == db.results
    ensures ResultsStep(db, db', now)
  {
  }

  lemma RecordedExtends(r: Result, receipt: Receipt)
    requires Recorded(r, receipt).Some?
    ensures Extends(r, Recorded(r, receipt).value)
  {
    var r' := Recorded(r, receipt).value;
    forall i | 0 <= i < |r.attempts| ensures r.attempts[i].operation in Operations(r'.attempts) {
      assert r'.attempts[i].operation == r.attempts[i].operation;
    }
  }

  lemma AppendedExtends(r: Result, receipt: Receipt)
    ensures Extends(r, r.(attempts := r.attempts + [receipt], receipt := receipt))
    ensures receipt.operation in Operations(r.attempts + [receipt])
  {
    var attempts := r.attempts + [receipt];
    forall i | 0 <= i < |r.attempts| ensures r.attempts[i].operation in Operations(attempts) {
      assert attempts[i].operation == r.attempts[i].operation;
    }
    assert attempts[|r.attempts|] == receipt;
  }

  lemma ReceiptsWrite(s: Store, id: Id, r: Result, now: int)
    requires id in s.db.results && Extends(s.db.results[id], r)
    ensures ResultsStep(s.db, Apply(s.db, PutReceipts(id, r)), now)
  {
  }

  lemma SavedResults(s: Store, mem: Rows, extra: Extra, now: int)
    requires mem.tasks.Keys <= s.db.rows.tasks.Keys || extra.PutInput?
    requires extra.PutResult? ==> extra.id !in s.db.results
    requires extra.PutReceipts? ==> extra.id in s.db.results && Extends(s.db.results[extra.id], extra.receipts)
    ensures ResultsStep(s.db, Saved(s, mem, extra).db, now)
  {
  }

  lemma ChangeResults(s: Store, owner: string, id: Id, change: Change, now: int, s': Store, ok: bool)
    requires Inv(s, now) && ChangeStep(s, owner, id, change, now, s', ok)
    requires change.Freeze? && ok ==> id !in s.db.results
    ensures ResultsStep(s.db, s'.db, now)
  {
    hide EntriesInv, EntryInv, DbInv, ValidRows, OrdersInv, ValidResult;
    if ok {
      var e := EntryOf(s.mem.tasks, s.db, id);
      RowsById(s.mem, id);
      var c := Changed(e, change, now).value;
      if change.Deliver? { RecordedExtends(e.result.value, change.receipt); }
      ChangedIdentity(e, change, now);
      hide Saved, ResultsStep;
      SavedResults(s, PutTask(s.mem, c.0), c.1, now);
    } else {
      ResultsStay(s.db, s'.db, now);
    }
  }

  lemma CleanupResults(s: Store, now: int, s': Store, ok: bool)
    requires CleanupStep(s, now, s', ok)
    ensures ResultsStep(s.db, s'.db, now)
  {
    if gone :| CleanedBy(s, gone, now, s', ok) {
      hide ValidRows;
    }
  }

  lemma StoreResults(s: Store, e: Event, now: int, s': Store)
    requires Inv(s, now) && StoreStep(s, e, now, s')
    ensures ResultsStep(s.db, s'.db, now)
  {
    hide DbInv, EntriesInv, ValidRows, OrdersInv, Ahead, ChangeStep, RedeliverStep, CleanupStep, Admits, ResultsStep,
      WithNewTask, Saved, ReleaseStep, RejectStep;
    match e
    case Start(i, id, out) =>
      if out.Created? {
        SavedResults(s, WithNewTask(s.mem, NewTask(i, id, s.mem.nextOrder, now)), PutInput(id, InputOf(i)), now);
      } else if out.SessionBusy? {
        var busy: Id :| busy in s.mem.tasks && RejectStep(s, BusyReceipt(i, s.mem.tasks[busy]), now, s', true);
        RejectResults(s, BusyReceipt(i, s.mem.tasks[busy]), now, s', true);
      } else { ResultsStay(s.db, s'.db, now); }
    case Reject(r, ok) => RejectResults(s, r, now, s', ok);
    case Release(owner, id, ok) => ReleaseResults(s, owner, id, now, s', ok);
    case Update(owner, id, change, ok) => ChangeResults(s, owner, id, change, now, s', ok);
    case BeginDelivery(owner, id, _, ok) => ChangeResults(s, owner, id, Transition(Delivering, NoReason), now, s', ok);
    case CompleteExecution(owner, id, reply, ok) =>
      if ok { ChangeResults(s, owner, id, Complete(reply), now, s', true); } else { ResultsStay(s.db, s'.db, now); }
    case FreezeResult(owner, id, r, ok) => ChangeResults(s, owner, id, Freeze(r), now, s', ok);
    case RecordDelivery(owner, id, receipt, complete, ok) =>
      if ok && complete { ChangeResults(s, owner, id, Deliver(receipt), now, s', true); }
      else if ok {
        RecordedExtends(s.db.results[id], receipt);
        ReceiptsWrite(s, id, Recorded(s.db.results[id], receipt).value, now);
      } else { ResultsStay(s.db, s'.db, now); }
    case BeginRedelivery(owner, id, operation, intact, out) =>
      RedeliverResults(s, owner, id, operation, now, intact, s', out);
    case Cleanup(ok) => CleanupResults(s, now, s', ok);
  }

  lemma RejectResults(s: Store, r: Rejection, now: int, s': Store, ok: bool)
    requires Inv(s, now) && RejectStep(s, r, now, s', ok)
    ensures ResultsStep(s.db, s'.db, now)
  {
    hide ResultsStep, EntriesInv, ValidRows, OrdersInv, Saved, DbInv;
    if s' == s { ResultsStay(s.db, s'.db, now); } else { SavedResults(s, WithRejection(s.mem, r, now), NoExtra, now); }
  }

  lemma ReleaseResults(s: Store, owner: string, id: Id, now: int, s': Store, ok: bool)
    requires Inv(s, now) && ReleaseStep(s, owner, id, s', ok)
    ensures ResultsStep(s.db, s'.db, now)
  {
    hide ResultsStep, EntriesInv, ValidRows, OrdersInv, Saved, DbInv;
    if ok { SavedResults(s, WithoutTask(s.mem, id), NoExtra, now); } else { ResultsStay(s.db, s'.db, now); }
  }

  lemma RedeliverResults(s: Store, owner: string, id: Id, operation: string, now: int, intact: set<Id>, s': Store,
                         out: Redelivery)
    requires RedeliverStep(s, owner, id, operation, now, intact, s', out)
    ensures ResultsStep(s.db, s'.db, now)
    ensures out == Fresh ==> id in s'.db.results && operation in Operations(s'.db.results[id].attempts)
  {
    if out == Fresh {
      var r := s.db.results[id];
      AppendedExtends(r, Redelivered(r, operation, now).receipt);
      ReceiptsWrite(s, id, Redelivered(r, operation, now), now);
    } else {
      ResultsStay(s.db, s'.db, now);
    }
  }

  lemma RecoveredExtends(e: Entry, intact: bool, now: int)
    requires EntryInv(e, now) && e.result.Some?
    ensures RecoverResult(e, intact, now).Some? && Extends(e.result.value, RecoverResult(e, intact, now).value)
  {
    RecoveredResultValid(e, intact, now);
    AppendedExtends(e.result.value, RestartReceipt(e.result.value, now));
    hide EntryInv, ValidResult;
  }

  lemma OpenResults(db: Db, intact: set<Id>, now: int, db': Db, mem: Option<Rows>)
    requires DbInv(db, now) && OpenStep(db, intact, now, db', mem)
    ensures ResultsStep(db, db', now)
  {
    hide EntryInv, ValidRows, OrdersInv, CleanupStep, AllRecover, RecoverResult, Recover;
    forall id | id in db.rows.tasks && id in db.results
      ensures RecoverResult(DbEntry(db, id), id in intact, now).Some?
      ensures Extends(db.results[id], RecoverResult(DbEntry(db, id), id in intact, now).value)
      ensures Extends(db.results[id], db.results[id])
    {
      RecoveredExtends(DbEntry(db, id), id in intact, now);
    }
    if mem.None? && StoppedEarly(db, intact, now, db') {
      hide Extends;
    } else {
      var mid: Store, ok: bool :| OpenedThrough(db, intact, now, mid, ok, db', mem);
      CleanupResults(Loaded(db, intact, now), now, mid, ok);
      CleanedRows(Loaded(db, intact, now), now, mid, ok);
      ExtendsThrough(db, Loaded(db, intact, now).db, mid.db, now);
      if mem.Some? && AnyActive(db.rows) {
        KeptResults(db, mid, now);
      }
    }
  }

  lemma ExtendsThrough(db: Db, loaded: Db, db': Db, now: int)
    requires loaded.rows == db.rows && ResultsStep(loaded, db', now)
    requires forall id | id in db.rows.tasks && id in db.results ::
      id in loaded.results && Extends(db.results[id], loaded.results[id])
    ensures ResultsStep(db, db', now)
  {
  }

  lemma KeptResults(db: Db, mid: Store, now: int)
    requires ResultsStep(db, mid.db, now)
    requires mid.mem.tasks.Keys <= mid.db.rows.tasks.Keys
    ensures ResultsStep(db, Saved(mid, mid.mem, NoExtra).db, now)
  {
    hide Extends;
  }

  lemma StepResults(w: World, e: Event, now: int, w': World)
    requires WorldInv(w, now) && Step(w, e, now, w')
    ensures ResultsStep(DbOf(w), DbOf(w'), now)
  {
    hide DbInv, Inv, OpenStep, StoreStep, ResultsStep;
    match e
    case Crash => ResultsStay(DbOf(w), DbOf(w'), now);
    case Open(intact) => OpenResults(w.down, intact, now, DbOf(w'), if w'.Up? then Some(w'.store.mem) else None);
    case _ => StoreResults(w.store, e, now, w'.store);
  }

  // ---------------------------------------------------------------- redelivery

  /** Once sent, an operation stays registered for as long as its result can still be redelivered. */
  predicate Registered(db: Db, id: Id, operation: string, now: int) {
    id in db.rows.tasks ==>
      && db.rows.tasks[id].state == Succeeded
      && (db.rows.tasks[id].resultExpiresAt <= now
          || (id in db.results && operation in Operations(db.results[id].attempts)))
  }

  lemma RegisteredStep(db: Db, db': Db, id: Id, operation: string, now: int)
    requires RowsStep(db.rows, db'.rows, now) && ResultsStep(db, db', now)
    requires Registered(db, id, operation, now) && id in db.rows.tasks
    ensures Registered(db', id, operation, now)
  {
  }

  lemma RegisteredLater(db: Db, id: Id, operation: string, now: int, later: int)
    requires Registered(db, id, operation, now) && now <= later
    ensures Registered(db, id, operation, later)
  {
  }

  predicate FreshFor(e: Event, id: Id, operation: string) {
    e.BeginRedelivery? && e.id == id && e.operation == operation && e.redelivery == Fresh
  }

  lemma FreshRegisters(w: World, e: Event, now: int, w': World, id: Id, operation: string)
    requires WorldInv(w, now) && Step(w, e, now, w') && FreshFor(e, id, operation)
    ensures !Registered(DbOf(w), id, operation, now) && Registered(DbOf(w'), id, operation, now)
  {
    hide DbInv, LoadedInv;
    RedeliverResults(w.store, e.owner, id, operation, now, e.intact, w'.store, e.redelivery);
    assert AgreesTask(w.store.mem.tasks[id], w.store.db.rows.tasks[id]);
  }

  lemma {:induction false} StaysRegistered(worlds: seq<World>, events: seq<Event>, times: seq<int>, i: nat, j: nat,
                                           id: Id, operation: string)
    requires IsRun(worlds, events, times) && i < j <= |events|
    requires forall k | i < k <= j :: id in RowsOf(worlds[k]).tasks
    requires FreshFor(events[i], id, operation)
    ensures Registered(DbOf(worlds[j]), id, operation, times[j - 1])
  {
    hide WorldInv, Step, RowsStep, ResultsStep, Registered;
    RunStep(worlds, events, times, j - 1);
    if j == i + 1 {
      FreshRegisters(worlds[i], events[i], times[i], worlds[j], id, operation);
    } else {
      StaysRegistered(worlds, events, times, i, j - 1, id, operation);
      StepResults(worlds[j - 1], events[j - 1], times[j - 1], worlds[j]);
      RegisteredLater(DbOf(worlds[j - 1]), id, operation, times[j - 2], times[j - 1]);
      RegisteredStep(DbOf(worlds[j - 1]), DbOf(worlds[j]), id, operation, times[j - 1]);
    }
  }

  /** While a task exists, each operation number leads to at most one send, across replays and restarts. */
  lemma RedeliveredAtMostOnce(worlds: seq<World>, events: seq<Event>, times: seq<int>, i: nat, j: nat, id: Id,
                              operation: string)
    requires IsRun(worlds, events, times) && i < j < |events|
    requires forall k | i < k <= j :: id in RowsOf(worlds[k]).tasks
    requires FreshFor(events[i], id, operation)
    ensures !FreshFor(events[j], id, operation)
  {
    hide WorldInv, Step, Registered;
    StaysRegistered(worlds, events, times, i, j, id, operation);
    RunStep(worlds, events, times, j);
    RegisteredLater(DbOf(worlds[j]), id, operation, times[j - 1], times[j]);
    if FreshFor(events[j], id, operation) {
      FreshRegisters(worlds[j], events[j], times[j], worlds[j + 1], id, operation);
    }
  }

  /** In every reachable state attempts are distinct, at most 50, never pending, and a pending result has none. */
  lemma ReceiptsConsistent(worlds: seq<World>, events: seq<Event>, times: seq<int>, k: nat, id: Id)
    requires IsRun(worlds, events, times) && k < |events| && id in DbOf(worlds[k + 1]).results
    ensures var r := DbOf(worlds[k + 1]).results[id];
      && |r.attempts| <= MAX_ATTEMPTS
      && (forall i, j | 0 <= i < j < |r.attempts| :: r.attempts[i].operation != r.attempts[j].operation)
      && (forall i | 0 <= i < |r.attempts| :: r.attempts[i].outcome != Pending)
      && (r.receipt.outcome == Pending ==> r.attempts == [])
  {
    hide Step, ValidRows, OrdersInv, Ahead, Agrees;
    RunStep(worlds, events, times, k);
    var db := DbOf(worlds[k + 1]);
    assert EntryInv(EntryOf(db.rows.tasks, db, id), times[k]);
  }
}
