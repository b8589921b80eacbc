/** The attempts of a result over whole runs: what is on file for an operation is what was last recorded for it. */
module RequestAttempts {
  import opened RequestModel
  import opened RequestSpec
  import opened RequestInvariant
  import opened RequestRecovery
  import opened RequestRuns
  import opened RequestMeaning
  import opened RequestDelivery

  /** The operation number whose attempt this event replaces on this request. */
  function Rewritten(e: Event, id: Id): Option<string> {
    if e.RecordDelivery? && e.ok && e.id == id && e.receipt.operation != "" then Some(e.receipt.operation) else None
  }

  /** Every attempt but that of the excepted operation is still there, as it was. */
  predicate Carries(r: Result, r': Result, except: Option<string>) {
    forall a | a in r.attempts && except != Some(a.operation) :: a in r'.attempts
  }

  /** The request stays, and its result has not expired. */
  predicate Retained(db: Db, db': Db, now: int, id: Id) {
    id in db.rows.tasks && id in db'.rows.tasks && !ResultExpired(db.rows.tasks[id], now)
  }

  /** The attempts of a retained result stay, except the one the event replaces. */
  ghost predicate AttemptsStep(db: Db, db': Db, e: Event, now: int) {
    forall id | id in db.results && Retained(db, db', now, id) ::
      id in db'.results && Carries(db.results[id], db'.results[id], Rewritten(e, id))
  }

  lemma AttemptsStay(db: Db, db': Db, e: Event, now: int)
    requires db'.results == db.results
    ensures AttemptsStep(db, db', e, now)
  {
  }

  lemma ReceiptCarries(r: Result, receipt: Receipt)
    requires Recorded(r, receipt).Some?
    ensures Carries(r, Recorded(r, receipt).value, if receipt.operation != "" then Some(receipt.operation) else None)
  {
    RecordedMeans(r, receipt);
    var r' := Recorded(r, receipt).value;
    hide Recorded;
    if receipt.operation != "" {
      var i :| 0 <= i < |r.attempts| && r.attempts[i].operation == receipt.operation
        && OthersKept(r.attempts, r'.attempts, i) && r'.attempts[i] == receipt;
      forall a | a in r.attempts && a.operation != receipt.operation ensures a in r'.attempts {
        var k :| 0 <= k < |r.attempts| && r.attempts[k] == a;
        assert r'.attempts[k] == a;
      }
    }
  }

  lemma ReceiptsWritten(s: Store, id: Id, r: Result, e: Event, now: int)
    requires id in s.db.results && Carries(s.db.results[id], r, Rewritten(e, id))
    ensures AttemptsStep(s.db, Apply(s.db, PutReceipts(id, r)), e, now)
  {
  }

  lemma SavedAttempts(s: Store, mem: Rows, extra: Extra, e: Event, now: int)
    requires extra.PutResult? ==> extra.id !in s.db.results
    requires extra.PutReceipts? ==>
      extra.id in s.db.results && Carries(s.db.results[extra.id], extra.receipts, Rewritten(e, extra.id))
    ensures AttemptsStep(s.db, Saved(s, mem, extra).db, e, now)
  {
  }

  lemma ChangeAttempts(s: Store, owner: string, id: Id, change: Change, now: int, s': Store, ok: bool, e: Event)
    requires ChangeStep(s, owner, id, change, now, s', ok)
    requires change.Freeze? && ok ==> id !in s.db.results && s.mem.tasks[id].id == id
    requires change.Deliver? && ok ==>
      && s.mem.tasks[id].id == id
      && Rewritten(e, id) == if change.receipt.operation != "" then Some(change.receipt.operation) else None
    ensures AttemptsStep(s.db, s'.db, e, now)
  {
    hide ValidRows, AttemptsStep, Carries, Changed;
    if ok {
      var en := EntryOf(s.mem.tasks, s.db, id);
      var c := Changed(en, change, now).value;
      ChangeWritesAttempts(en, change, now);
      if change.Deliver? { ReceiptCarries(en.result.value, change.receipt); }
      hide Saved, Rewritten;
      SavedAttempts(s, PutTask(s.mem, c.0), c.1, e, now);
    } else {
      AttemptsStay(s.db, s'.db, e, now);
    }
  }

  lemma ChangeWritesAttempts(e: Entry, change: Change, now: int)
    requires Changed(e, change, now).Some?
    ensures var x := Changed(e, change, now).value.1;
      && (x.PutResult? ==> change.Freeze? && x.id == e.task.id)
      && (x.PutReceipts? ==>
            && change.Deliver? && x.id == e.task.id && e.result.Some? && Recorded(e.result.value, change.receipt).Some?
            && x.receipts == Recorded(e.result.value, change.receipt).value)
      && (change.Deliver? ==> x.PutReceipts?)
  {
    hide Recorded, ValidResult, Transitioned, AcceptableSizes;
  }

  lemma CleanupAttempts(s: Store, now: int, s': Store, ok: bool, e: Event)
    requires CleanupStep(s, now, s', ok)
    ensures AttemptsStep(s.db, s'.db, e, now)
  {
    hide Rewritten;
    if gone :| CleanedBy(s, gone, now, s', ok) {
      hide ValidRows;
    }
  }

  lemma RedeliveredCarries(r: Result, operation: string, now: int)
    ensures Carries(r, Redelivered(r, operation, now), None)
  {
  }

  lemma RejectAttempts(s: Store, r: Rejection, now: int, s': Store, ok: bool, e: Event)
    requires RejectStep(s, r, now, s', ok)
    ensures AttemptsStep(s.db, s'.db, e, now)
  {
    hide AttemptsStep, ValidRows, Saved;
    if s' == s {
      AttemptsStay(s.db, s'.db, e, now);
    } else {
      SavedAttempts(s, WithRejection(s.mem, r, now), NoExtra, e, now);
    }
  }

  lemma StartAttempts(s: Store, i: StartInput, id: Id, now: int, s': Store, out: StartOutcome, e: Event)
    requires StartStep(s, i, id, now, s', out)
    ensures AttemptsStep(s.db, s'.db, e, now)
  {
    hide Admits, AttemptsStep, WithNewTask, NewTask, Saved, RejectStep, ValidRows, InputOf;
    if out.Created? {
      SavedAttempts(s, WithNewTask(s.mem, NewTask(i, id, s.mem.nextOrder, now)), PutInput(id, InputOf(i)), e, now);
    } else if out.SessionBusy? {
      var busy: Id :| busy in s.mem.tasks && RejectStep(s, BusyReceipt(i, s.mem.tasks[busy]), now, s', true);
      RejectAttempts(s, BusyReceipt(i, s.mem.tasks[busy]), now, s', true, e);
    } else {
      AttemptsStay(s.db, s'.db, e, now);
    }
  }

  lemma ReleaseAttempts(s: Store, owner: string, id: Id, now: int, s': Store, ok: bool, e: Event)
    requires ReleaseStep(s, owner, id, s', ok)
    ensures AttemptsStep(s.db, s'.db, e, now)
  {
    hide AttemptsStep, ValidRows, Saved;
    if ok { SavedAttempts(s, WithoutTask(s.mem, id), NoExtra, e, now); } else { AttemptsStay(s.db, s'.db, e, now); }
  }

  lemma FreezeAttempts(s: Store, owner: string, id: Id, r: Result, now: int, s': Store, ok: bool, e: Event)
    requires FreezeStep(s, owner, id, r, now, s', ok) && forall k | k in s.mem.tasks :: s.mem.tasks[k].id == k
    ensures AttemptsStep(s.db, s'.db, e, now)
  {
    hide AttemptsStep, ChangeStep, RoomToFreeze;
    if ok { HasId(s, owner, id, Freeze(r), now, s'); }
    ChangeAttempts(s, owner, id, Freeze(r), now, s', ok, e);
  }

  lemma BeginAttempts(s: Store, owner: string, id: Id, intact: set<Id>, now: int, s': Store, ok: bool, e: Event)
    requires BeginDeliveryStep(s, owner, id, intact, now, s', ok)
    ensures AttemptsStep(s.db, s'.db, e, now)
  {
    hide AttemptsStep, ChangeStep, Loadable;
    ChangeAttempts(s, owner, id, Transition(Delivering, NoReason), now, s', ok, e);
  }

  lemma CompleteAttempts(s: Store, owner: string, id: Id, reply: nat, now: int, s': Store, ok: bool, e: Event)
    requires CompleteStep(s, owner, id, reply, now, s', ok)
    ensures AttemptsStep(s.db, s'.db, e, now)
  {
    hide AttemptsStep, ChangeStep;
    if ok {
      ChangeAttempts(s, owner, id, Complete(reply), now, s', true, e);
    } else {
      AttemptsStay(s.db, s'.db, e, now);
    }
  }

  lemma RedeliverAttempts(s: Store, owner: string, id: Id, operation: string, now: int, intact: set<Id>, s': Store,
                          out: Redelivery, e: Event)
    requires RedeliverStep(s, owner, id, operation, now, intact, s', out) && !e.RecordDelivery?
    ensures AttemptsStep(s.db, s'.db, e, now)
  {
    hide AttemptsStep, Carries, Redelivered, ValidResult;
    if out == Fresh {
      RedeliveredCarries(s.db.results[id], operation, now);
      ReceiptsWritten(s, id, Redelivered(s.db.results[id], operation, now), e, now);
    } else {
      AttemptsStay(s.db, s'.db, e, now);
    }
  }

  lemma StoreAttempts(s: Store, e: Event, now: int, s': Store)
    requires Inv(s, now) && StoreStep(s, e, now, s')
    ensures AttemptsStep(s.db, s'.db, e, now)
  {
    hide Inv, ChangeStep, CleanupStep, StartStep, AttemptsStep, RejectStep, RecordStep, RedeliverStep, ReleaseStep,
      CompleteStep, FreezeStep, BeginDeliveryStep, Rewritten;
    MemoryIds(s, now);
    match e
    case Start(i, id, out) =>
      StartAttempts(s, i, id, now, s', out, e);
    case Reject(r, ok) => RejectAttempts(s, r, now, s', ok, e);
    case Release(owner, id, ok) => ReleaseAttempts(s, owner, id, now, s', ok, e);
    case Update(owner, id, change, ok) => ChangeAttempts(s, owner, id, change, now, s', ok, e);
    case BeginDelivery(owner, id, intact, ok) =>
      BeginAttempts(s, owner, id, intact, now, s', ok, e);
    case CompleteExecution(owner, id, reply, ok) =>
      CompleteAttempts(s, owner, id, reply, now, s', ok, e);
    case FreezeResult(owner, id, r, ok) =>
      FreezeAttempts(s, owner, id, r, now, s', ok, e);
    case RecordDelivery(owner, id, receipt, complete, ok) =>
      RecordAttempts(s, owner, id, receipt, complete, now, s', ok, e);
    case BeginRedelivery(owner, id, operation, intact, out) =>
      RedeliverAttempts(s, owner, id, operation, now, intact, s', out, e);
    case Cleanup(ok) => CleanupAttempts(s, now, s', ok, e);
  }

  lemma HasId(s: Store, owner: string, id: Id, change: Change, now: int, s': Store)
    requires ChangeStep(s, owner, id, change, now, s', true)
    ensures id in s.mem.tasks
  {
  }

  lemma MemoryIds(s: Store, now: int)
    requires Inv(s, now)
    ensures forall k | k in s.mem.tasks :: s.mem.tasks[k].id == k
  {
    hide EntriesInv, OrdersInv, DbInv, Agrees, Ahead;
  }

  lemma RecordAttempts(s: Store, owner: string, id: Id, receipt: Receipt, complete: bool, now: int, s': Store, ok: bool,
                       e: Event)
    requires RecordStep(s, owner, id, receipt, complete, now, s', ok)
    requires e == RecordDelivery(owner, id, receipt, complete, ok)
    requires forall k | k in s.mem.tasks :: s.mem.tasks[k].id == k
    ensures AttemptsStep(s.db, s'.db, e, now)
  {
    hide AttemptsStep, Carries, Recorded, ValidResult, ChangeStep;
    if ok && complete {
      HasId(s, owner, id, Deliver(receipt), now, s');
      ChangeAttempts(s, owner, id, Deliver(receipt), now, s', true, e);
    } else if ok {
      ReceiptCarries(s.db.results[id], receipt);
      ReceiptsWritten(s, id, Recorded(s.db.results[id], receipt).value, e, now);
    } else {
      AttemptsStay(s.db, s'.db, e, now);
    }
  }

  lemma RecoveredCarries(e: Entry, intact: bool, now: int)
    requires EntryInv(e, now) && e.result.Some?
    ensures RecoverResult(e, intact, now).Some? && Carries(e.result.value, RecoverResult(e, intact, now).value, None)
  {
    RecoveredResultValid(e, intact, now);
    hide EntryInv, ValidResult;
  }

  lemma OpenAttempts(db: Db, intact: set<Id>, now: int, db': Db, mem: Option<Rows>, e: Event)
    requires DbInv(db, now) && OpenStep(db, intact, now, db', mem) && e.Open?
    ensures AttemptsStep(db, db', e, now)
  {
    hide EntryInv, ValidRows, OrdersInv, CleanupStep, AllRecover, RecoverResult, Recover, Carries;
    forall id | id in db.rows.tasks && id in db.results
      ensures RecoverResult(DbEntry(db, id), id in intact, now).Some?
      ensures Carries(db.results[id], RecoverResult(DbEntry(db, id), id in intact, now).value, None)
      ensures Carries(db.results[id], db.results[id], None)
    {
      assert EntryInv(DbEntry(db, id), now);
      RecoveredCarries(DbEntry(db, id), id in intact, now);
      CarriesItself(db.results[id]);
    }
    if !(mem.None? && StoppedEarly(db, intact, now, db')) {
      var mid: Store, ok: bool :| OpenedThrough(db, intact, now, mid, ok, db', mem);
      CleanupAttempts(Loaded(db, intact, now), now, mid, ok, e);
      CleanedRows(Loaded(db, intact, now), now, mid, ok);
      CarriesThrough(db, Loaded(db, intact, now).db, mid.db, e, now);
      if mem.Some? && AnyActive(db.rows) { KeptAttempts(db, mid, e, now); }
    }
  }

  lemma CarriesItself(r: Result)
    ensures Carries(r, r, None)
  {
  }

  lemma CarriesThrough(db: Db, loaded: Db, db': Db, e: Event, now: int)
    requires loaded.rows == db.rows && AttemptsStep(loaded, db', e, now) && e.Open?
    requires forall id | id in db.rows.tasks && id in db.results ::
      id in loaded.results && Carries(db.results[id], loaded.results[id], None)
    ensures AttemptsStep(db, db', e, now)
  {
  }

  lemma KeptAttempts(db: Db, mid: Store, e: Event, now: int)
    requires AttemptsStep(db, mid.db, e, now) && mid.mem.tasks.Keys <= mid.db.rows.tasks.Keys
    ensures AttemptsStep(db, Saved(mid, mid.mem, NoExtra).db, e, now)
  {
    hide Carries, Rewritten;
  }

  /** In any step every attempt of a retained result stays as it was, except the one for which this step records a
      receipt. */
  lemma StepAttempts(w: World, e: Event, now: int, w': World)
    requires WorldInv(w, now) && Step(w, e, now, w')
    ensures AttemptsStep(DbOf(w), DbOf(w'), e, now)
  {
    hide DbInv, Inv, OpenStep, StoreStep, AttemptsStep;
    match e
    case Crash => AttemptsStay(DbOf(w), DbOf(w'), e, now);
    case Open(intact) => OpenAttempts(w.down, intact, now, DbOf(w'), if w'.Up? then Some(w'.store.mem) else None, e);
    case _ => StoreAttempts(w.store, e, now, w'.store);
  }

  // ---------------------------------------------------------------- over a run

  /** What is on file for an operation of this request. */
  ghost predicate OnFileAs(db: Db, id: Id, a: Receipt) { id in db.results && a in db.results[id].attempts }

  /** This step puts the attempt of an operation on file: a new registration, which is ambiguous until the send is
      reported, or a recorded receipt. */
  predicate PutsOnFile(e: Event, id: Id, operation: string) {
    || FreshFor(e, id, operation)
    || (e.RecordDelivery? && e.ok && e.id == id && e.receipt.operation == operation && operation != "")
  }

  /** The outcome such a step leaves. */
  function OutcomeOf(e: Event): Outcome
    requires e.BeginRedelivery? || e.RecordDelivery?
  {
    if e.BeginRedelivery? then Ambiguous else e.receipt.outcome
  }

  lemma PutOnFile(w: World, e: Event, now: int, w': World, id: Id, operation: string) returns (a: Receipt)
    requires WorldInv(w, now) && Step(w, e, now, w') && PutsOnFile(e, id, operation)
    ensures OnFileAs(DbOf(w'), id, a) && a.operation == operation && a.outcome == OutcomeOf(e)
    ensures e.RecordDelivery? ==> a == e.receipt
  {
    MemoryIds(w.store, now);
    hide Inv, RedeliverStep, RecordStep;
    if e.RecordDelivery? {
      a := e.receipt;
      RecordPuts(w.store, e.owner, id, e.receipt, e.complete, now, w'.store);
    } else {
      RedeliveryMeans(w.store, e.owner, id, operation, now, e.intact, w'.store);
      a := w'.store.db.results[id].receipt;
    }
  }

  lemma RecordPuts(s: Store, owner: string, id: Id, receipt: Receipt, complete: bool, now: int, s': Store)
    requires RecordStep(s, owner, id, receipt, complete, now, s', true) && receipt.operation != ""
    requires forall k | k in s.mem.tasks :: s.mem.tasks[k].id == k
    ensures OnFileAs(s'.db, id, receipt)
  {
    RecordedGuard(s, owner, id, receipt, complete, now, s');
    hide RecordStep;
    DeliveryMeans(s, owner, id, receipt, complete, now, s');
  }

  /** Between two moments nothing was recorded for the operation, the request stayed and its result was retained. */
  ghost predicate Unrecorded(worlds: seq<World>, events: seq<Event>, times: seq<int>, i: nat, j: nat, id: Id,
                             operation: string)
    requires j < |worlds| && j <= |events| && j <= |times|
  {
    && (forall k | i <= k <= j :: id in RowsOf(worlds[k]).tasks)
    && (forall k | i <= k < j ::
          !ResultExpired(RowsOf(worlds[k]).tasks[id], times[k]) && !PutsOnFile(events[k], id, operation))
  }

  lemma StaysOnFile(w: World, e: Event, now: int, w': World, id: Id, a: Receipt)
    requires WorldInv(w, now) && Step(w, e, now, w') && OnFileAs(DbOf(w), id, a) && !PutsOnFile(e, id, a.operation)
    requires id in RowsOf(w).tasks && id in RowsOf(w').tasks && !ResultExpired(RowsOf(w).tasks[id], now)
    ensures OnFileAs(DbOf(w'), id, a)
  {
    StepAttempts(w, e, now, w');
    hide WorldInv, Step, ResultExpired;
    assert Retained(DbOf(w), DbOf(w'), now, id);
  }

  /** What is on file for an operation stays what the last step put there, through all replays, failed saves, crashes
      and restarts, while its result is retained. */
  lemma {:induction false} LastRecordStands(worlds: seq<World>, events: seq<Event>, times: seq<int>, i: nat, j: nat,
                                            id: Id, operation: string) returns (a: Receipt)
    requires IsRun(worlds, events, times) && |worlds| == |events| + 1 && |times| == |events| && i < j <= |events|
    requires PutsOnFile(events[i], id, operation) && Unrecorded(worlds, events, times, i + 1, j, id, operation)
    ensures OnFileAs(DbOf(worlds[j]), id, a) && a.operation == operation && a.outcome == OutcomeOf(events[i])
    ensures events[i].RecordDelivery? ==> a == events[i].receipt
  {
    hide IsRun, WorldInv, Step, RowsStep, PutsOnFile, OnFileAs, ResultExpired;
    RunStep(worlds, events, times, j - 1);
    if j == i + 1 {
      a := PutOnFile(worlds[i], events[i], times[i], worlds[j], id, operation);
    } else {
      a := LastRecordStands(worlds, events, times, i, j - 1, id, operation);
      assert id in RowsOf(worlds[j - 1]).tasks && id in RowsOf(worlds[j]).tasks;
      StaysOnFile(worlds[j - 1], events[j - 1], times[j - 1], worlds[j], id, a);
    }
  }

  /** The one attempt with this number was sent. */
  ghost predicate SentOnFile(db: Db, id: Id, operation: string) {
    id in db.results && exists a :: a in db.results[id].attempts && a.operation == operation && a.outcome == Sent
  }

  lemma OneAttempt(attempts: seq<Receipt>, a: Receipt)
    requires a in attempts
    requires forall i, j | 0 <= i < j < |attempts| :: attempts[i].operation != attempts[j].operation
    ensures (exists b :: b in attempts && b.operation == a.operation && b.outcome == Sent) <==> a.outcome == Sent
  {
    if b :| b in attempts && b.operation == a.operation && b.outcome == Sent {
      var i :| 0 <= i < |attempts| && attempts[i] == a;
      var j :| 0 <= j < |attempts| && attempts[j] == b;
      assert i == j;
    }
  }

  /** A repeated operation is answered as sent exactly when the last thing recorded for it was that it was sent. */
  lemma SentExactly(worlds: seq<World>, events: seq<Event>, times: seq<int>, i: nat, j: nat, id: Id, operation: string)
    requires IsRun(worlds, events, times) && |worlds| == |events| + 1 && |times| == |events| && i < j <= |events|
    requires PutsOnFile(events[i], id, operation) && Unrecorded(worlds, events, times, i + 1, j, id, operation)
    ensures events[i].BeginRedelivery? || events[i].RecordDelivery?
    ensures SentOnFile(DbOf(worlds[j]), id, operation) <==> OutcomeOf(events[i]) == Sent
  {
    var a := LastRecordStands(worlds, events, times, i, j, id, operation);
    hide IsRun, Unrecorded;
    ReceiptsConsistent(worlds, events, times, j - 1, id);
    OneAttempt(DbOf(worlds[j]).results[id].attempts, a);
  }
}
