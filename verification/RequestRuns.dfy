/** Whole runs of the store: every interleaving of operations, failed saves, crashes and restarts. */
module RequestRuns {
  import opened RequestModel
  import opened RequestSpec
  import opened RequestInvariant
  import opened RequestRecovery

  /** Down: only the database is left. Up: a process is running over it. */
  datatype World = Down(down: Db) | Up(store: Store)

  function DbOf(w: World): Db { if w.Down? then w.down else w.store.db }

  function RowsOf(w: World): Rows { DbOf(w).rows }

  /** One operation with its arguments and its outcome. */
  datatype Event =
    | Start(input: StartInput, id: Id, out: StartOutcome)
    | Reject(rejection: Rejection, ok: bool)
    | Release(owner: string, id: Id, ok: bool)
    | Update(owner: string, id: Id, change: Change, ok: bool)
    | BeginDelivery(owner: string, id: Id, intact: set<Id>, ok: bool)
    | CompleteExecution(owner: string, id: Id, reply: nat, ok: bool)
    | FreezeResult(owner: string, id: Id, result: Result, ok: bool)
    | RecordDelivery(owner: string, id: Id, receipt: Receipt, complete: bool, ok: bool)
    | BeginRedelivery(owner: string, id: Id, operation: string, intact: set<Id>, redelivery: Redelivery)
    | Cleanup(ok: bool)
    | Crash
    | Open(intact: set<Id>)

  /** Changes offered on their own: finishing, attaching a thread or a turn, preparing input, refreshing a stage. */
  predicate PlainChange(c: Change) {
    || (c.Transition? && c.next.Terminal())
    || c.SetThread? || c.SetTurn? || c.Refresh? || c.Prepare?
  }

  ghost predicate StoreStep(s: Store, e: Event, now: int, s': Store) {
    match e
    case Start(i, id, out) => StartStep(s, i, id, now, s', out)
    case Reject(r, ok) => RejectStep(s, r, now, s', ok)
    case Release(owner, id, ok) => ReleaseStep(s, owner, id, s', ok)
    case Update(owner, id, change, ok) => PlainChange(change) && ChangeStep(s, owner, id, change, now, s', ok)
    case BeginDelivery(owner, id, intact, ok) => BeginDeliveryStep(s, owner, id, intact, now, s', ok)
    case CompleteExecution(owner, id, reply, ok) => CompleteStep(s, owner, id, reply, now, s', ok)
    case FreezeResult(owner, id, r, ok) => FreezeStep(s, owner, id, r, now, s', ok)
    case RecordDelivery(owner, id, receipt, complete, ok) => RecordStep(s, owner, id, receipt, complete, now, s', ok)
    case BeginRedelivery(owner, id, operation, intact, out) =>
      operation != "" && RedeliverStep(s, owner, id, operation, now, intact, s', out)
    case Cleanup(ok) => CleanupStep(s, now, s', ok)
    case Crash => false
    case Open(_) => false
  }

  ghost predicate Step(w: World, e: Event, now: int, w': World) {
    match e
    case Crash => w' == Down(DbOf(w))
    case Open(intact) =>
      w.Down? && OpenStep(w.down, intact, now, DbOf(w'), if w'.Up? then Some(w'.store.mem) else None)
    case _ => w.Up? && w'.Up? && StoreStep(w.store, e, now, w'.store)
  }

  /** A run from the empty database, with a clock that never goes back. */
  ghost predicate IsRun(worlds: seq<World>, events: seq<Event>, times: seq<int>) {
    && |worlds| == |events| + 1 && |times| == |events|
    && worlds[0] == Down(EMPTY_DB)
    && (forall i | 0 < i < |times| :: times[i - 1] <= times[i])
    && (forall i | 0 <= i < |events| :: Step(worlds[i], events[i], times[i], worlds[i + 1]))
  }

  ghost predicate WorldInv(w: World, now: int) {
    match w
    case Down(db) => DbInv(db, now)
    case Up(s) => Inv(s, now)
  }

  /** The invariant at the moment of each step, before and after it. */
  lemma {:induction false} RunInvariant(worlds: seq<World>, events: seq<Event>, times: seq<int>, k: nat)
    requires IsRun(worlds, events, times) && k < |events|
    ensures WorldInv(worlds[k], times[k]) && WorldInv(worlds[k + 1], times[k])
  {
    hide DbInv, Inv, Step;
    if k == 0 {
      EmptyInv(times[0]);
    } else {
      RunInvariant(worlds, events, times, k - 1);
      WorldLater(worlds[k], times[k - 1], times[k]);
    }
    StepPreserves(worlds[k], events[k], times[k], worlds[k + 1]);
  }

  lemma EmptyInv(now: int)
    ensures DbInv(EMPTY_DB, now)
  {
    forall owner: string ensures |OwnedIds(EMPTY_ROWS.tasks, owner)| <= MAX_RECORDS {
      assert OwnedIds(EMPTY_ROWS.tasks, owner) == {};
    }
  }

  lemma WorldLater(w: World, now: int, later: int)
    requires WorldInv(w, now) && now <= later
    ensures WorldInv(w, later)
  {
    hide EntryInv, ValidRows, OrdersInv, EntriesInv, Ahead, Agrees;
    match w
    case Down(db) => EntriesLater(db.rows.tasks, db, now, later);
    case Up(s) => InvLater(s, now, later);
  }

  lemma StepPreserves(w: World, e: Event, now: int, w': World)
    requires WorldInv(w, now) && Step(w, e, now, w')
    ensures WorldInv(w', now)
  {
    hide DbInv, Inv, OpenStep, StoreStep;
    match e
    case Crash => CrashPreserves(w, now);
    case Open(intact) => OpenPreserves(w.down, intact, now, DbOf(w'), if w'.Up? then Some(w'.store.mem) else None);
    case _ => StoreStepPreserves(w.store, e, now, w'.store);
  }

  lemma CrashPreserves(w: World, now: int)
    requires WorldInv(w, now)
    ensures DbInv(DbOf(w), now)
  {
  }

  lemma StoreStepPreserves(s: Store, e: Event, now: int, s': Store)
    requires Inv(s, now) && StoreStep(s, e, now, s')
    ensures Inv(s', now)
  {
    hide DbInv, EntriesInv, ValidRows, OrdersInv, Ahead, Agrees, ChangeStep, RejectStep, ReleaseStep, CompleteStep,
      RecordStep, RedeliverStep, CleanupStep, Started, Admits, WithNewTask;
    match e
    case Start(i, id, out) =>
      if out.Created? { StartPreserves(s, i, id, now); }
      else if out.SessionBusy? {
        var busy: Id :| busy in s.mem.tasks && RejectStep(s, BusyReceipt(i, s.mem.tasks[busy]), now, s', true);
        RejectPreserves(s, BusyReceipt(i, s.mem.tasks[busy]), now, s', true);
      }
    case Reject(r, ok) => RejectPreserves(s, r, now, s', ok);
    case Release(owner, id, ok) => ReleasePreserves(s, owner, id, now, s', ok);
    case Update(owner, id, change, ok) => ChangeStepPreserves(s, owner, id, change, now, s', ok);
    case BeginDelivery(owner, id, _, ok) =>
      ChangeStepPreserves(s, owner, id, Transition(Delivering, NoReason), now, s', ok);
    case CompleteExecution(owner, id, reply, ok) => CompletePreserves(s, owner, id, reply, now, s', ok);
    case FreezeResult(owner, id, r, ok) => ChangeStepPreserves(s, owner, id, Freeze(r), now, s', ok);
    case RecordDelivery(owner, id, receipt, complete, ok) =>
      RecordPreserves(s, owner, id, receipt, complete, now, s', ok);
    case BeginRedelivery(owner, id, operation, intact, out) =>
      RedeliverPreserves(s, owner, id, operation, now, intact, s', out);
    case Cleanup(ok) => CleanupPreserves(s, now, s', ok);
  }

  // ---------------------------------------------------------------- what one step may do to the rows

  /** How one task may change in a step. */
  predicate Evolves(t: Task, t': Task, now: int) {
    && t'.id == t.id && t'.source == t.source && t'.owner == t.owner && t'.startedAt == t.startedAt
    && (t.completedAt > 0 ==> t'.completedAt > 0)
    && (t.thread != "" ==> t'.thread == t.thread)
    && (t'.inputPending ==> t.inputPending && t'.payloadBytes == t.payloadBytes)
    && (if t.state.Terminal()
        then && t'.state == t.state && t'.finishedAt == t.finishedAt
             && t'.payloadExpiresAt == t.payloadExpiresAt && t'.resultExpiresAt == t.resultExpiresAt
        else t'.state.Terminal() ==> t'.finishedAt >= now)
  }

  predicate ClearedFor(rows: Rows, t: Task) {
    t.source in rows.cleared && rows.cleared[t.source].at == t.finishedAt
  }

  /** Tasks evolve; they leave only when finished, against a receipt or after the history period;
      receipts leave only after that period. */
  ghost predicate RowsStep(r: Rows, r': Rows, now: int) {
    && (forall id | id in r.tasks && id in r'.tasks :: Evolves(r.tasks[id], r'.tasks[id], now))
    && (forall id | id in r.tasks && id !in r'.tasks ::
          r.tasks[id].state.Terminal() && (ClearedFor(r', r.tasks[id]) || HistoryExpired(r.tasks[id], now)))
    && (forall k | k in r.cleared ::
      if k in r'.cleared then r'.cleared[k] == r.cleared[k] else !Recent(r.cleared[k].at, now))
    && (forall k | k in r.rejected ::
      if k in r'.rejected then r'.rejected[k] == r.rejected[k] else !Recent(r.rejected[k].at, now))
  }

  lemma ChangeEvolves(e: Entry, change: Change, now: int)
    requires EntryInv(e, now) && Changed(e, change, now).Some?
    ensures Evolves(e.task, Changed(e, change, now).value.0, now)
  {
    hide ValidResult, Charge, Recorded, ValidReceipt;
  }

  lemma MemoryCompletionEvolves(t: Task, reply: nat, now: int)
    requires t.state == Running && t.startedAt >= 1
    ensures Evolves(t, CompletedTask(t, reply, now), now)
  {
  }

  lemma RecoveryEvolves(e: Entry, intact: bool, now: int)
    requires EntryInv(e, now) && RecoverTask(e, intact, now).Some?
    ensures Evolves(e.task, Recover(e, intact, now).task, now)
  {
    RecoveryKeepsCompletion(e, intact, now);
    RecoveryIdentity(e, intact, now);
    hide EntryInv, RecoverTask;
  }

  lemma Stays(r: Rows, now: int)
    ensures RowsStep(r, r, now)
  {
  }

  /** Replacing one task by an evolved form of it. */
  lemma ReplacedRows(mem: Rows, t: Task, now: int)
    requires t.id in mem.tasks && Evolves(mem.tasks[t.id], t, now)
    ensures RowsStep(mem, PutTask(mem, t), now)
  {
    hide Evolves;
    forall id | id in mem.tasks ensures Evolves(mem.tasks[id], PutTask(mem, t).tasks[id], now) {
      if id != t.id { EvolvesToItself(mem.tasks[id], now); }
    }
  }

  lemma EvolvesToItself(t: Task, now: int)
    ensures Evolves(t, t, now)
  {
  }

  lemma ChangeStepRows(s: Store, owner: string, id: Id, change: Change, now: int, s': Store, ok: bool)
    requires Inv(s, now) && ChangeStep(s, owner, id, change, now, s', ok)
    ensures RowsStep(s.mem, s'.mem, now)
  {
    hide EntryInv, DbInv, Agrees, Ahead, OrdersInv, Saved, Changed, Evolves, RowsStep;
    if ok {
      var e := EntryOf(s.mem.tasks, s.db, id);
      RowsById(s.mem, id);
      hide ValidRows;
      ChangedIdentity(e, change, now);
      ChangeEvolves(e, change, now);
      ReplacedRows(s.mem, Changed(e, change, now).value.0, now);
      SavedMem(s, PutTask(s.mem, Changed(e, change, now).value.0), Changed(e, change, now).value.1);
    } else {
      Stays(s.mem, now);
    }
  }

  lemma SavedMem(s: Store, mem: Rows, extra: Extra)
    ensures Saved(s, mem, extra).mem == mem
    ensures Saved(s, mem, extra).db.rows == mem
  {
  }

  lemma MemoryRows(s: Store, e: Event, now: int, s': Store)
    requires Inv(s, now) && StoreStep(s, e, now, s')
    ensures RowsStep(s.mem, s'.mem, now)
  {
    hide DbInv, EntriesInv, EntryInv, ValidRows, OrdersInv, Ahead, Agrees, ChangeStep, RejectStep, ReleaseStep,
      CompleteStep, RecordStep, RedeliverStep, CleanupStep, Admits, RowsStep, WithNewTask, NewTask;
    match e
    case Start(i, id, out) =>
      if out.Created? { StartRows(s, i, id, now); }
      else if out.SessionBusy? {
        var busy: Id :| busy in s.mem.tasks && RejectStep(s, BusyReceipt(i, s.mem.tasks[busy]), now, s', true);
        RejectRows(s, BusyReceipt(i, s.mem.tasks[busy]), now, s', true);
      } else { Stays(s.mem, now); }
    case Reject(r, ok) => RejectRows(s, r, now, s', ok);
    case Release(owner, id, ok) => ReleaseRows(s, owner, id, now, s', ok);
    case Update(owner, id, change, ok) => ChangeStepRows(s, owner, id, change, now, s', ok);
    case BeginDelivery(owner, id, _, ok) => ChangeStepRows(s, owner, id, Transition(Delivering, NoReason), now, s', ok);
    case CompleteExecution(owner, id, reply, ok) => CompleteRows(s, owner, id, reply, now, s', ok);
    case FreezeResult(owner, id, r, ok) => ChangeStepRows(s, owner, id, Freeze(r), now, s', ok);
    case RecordDelivery(owner, id, receipt, complete, ok) => RecordRows(s, owner, id, receipt, complete, now, s', ok);
    case BeginRedelivery(owner, id, operation, intact, out) =>
      RedeliverRows(s, owner, id, operation, now, intact, s', out);
    case Cleanup(ok) => CleanupRows(s, now, s', ok);
  }

  lemma StartRows(s: Store, i: StartInput, id: Id, now: int)
    requires id !in s.mem.tasks
    ensures RowsStep(s.mem, Started(s, i, id, now).mem, now)
  {
    hide NewTask;
    var mem := WithNewTask(s.mem, NewTask(i, id, s.mem.nextOrder, now));
    assert NewTask(i, id, s.mem.nextOrder, now).id == id by { NewTaskId(i, id, s.mem.nextOrder, now); }
    SavedMem(s, mem, PutInput(id, InputOf(i)));
  }

  lemma NewTaskId(i: StartInput, id: Id, order: int, now: int)
    ensures NewTask(i, id, order, now).id == id
  {
  }

  lemma RejectRows(s: Store, r: Rejection, now: int, s': Store, ok: bool)
    requires RejectStep(s, r, now, s', ok)
    ensures RowsStep(s.mem, s'.mem, now)
  {
    hide ValidRows, Saved;
    SavedMem(s, WithRejection(s.mem, r, now), NoExtra);
  }

  lemma ReleaseRows(s: Store, owner: string, id: Id, now: int, s': Store, ok: bool)
    requires Inv(s, now) && ReleaseStep(s, owner, id, s', ok)
    ensures RowsStep(s.mem, s'.mem, now)
  {
    hide EntryInv, DbInv, Agrees, Ahead, OrdersInv, Saved, ValidTask, Compatible;
    if ok { SavedMem(s, WithoutTask(s.mem, id), NoExtra); }
  }

  lemma CompleteRows(s: Store, owner: string, id: Id, reply: nat, now: int, s': Store, ok: bool)
    requires Inv(s, now) && CompleteStep(s, owner, id, reply, now, s', ok)
    ensures RowsStep(s.mem, s'.mem, now)
  {
    hide EntryInv, DbInv, Agrees, Ahead, OrdersInv, RowsStep, ChangeStep;
    if ok {
      ChangeStepRows(s, owner, id, Complete(reply), now, s', true);
    } else if CanComplete(s.mem, owner, id, reply) {
      RowsById(s.mem, id);
      MemoryCompletionEntry(EntryOf(s.mem.tasks, s.db, id), reply, now);
      MemoryCompletionEvolves(s.mem.tasks[id], reply, now);
      ReplacedRows(s.mem, CompletedTask(s.mem.tasks[id], reply, now), now);
    } else {
      Stays(s.mem, now);
    }
  }

  lemma RecordRows(s: Store, owner: string, id: Id, receipt: Receipt, complete: bool, now: int, s': Store, ok: bool)
    requires Inv(s, now) && RecordStep(s, owner, id, receipt, complete, now, s', ok)
    ensures RowsStep(s.mem, s'.mem, now)
  {
    hide Inv, RowsStep, ChangeStep, CanRecord;
    if ok && complete {
      ChangeStepRows(s, owner, id, Deliver(receipt), now, s', true);
    } else {
      Stays(s.mem, now);
    }
  }

  lemma RedeliverRows(s: Store, owner: string, id: Id, operation: string, now: int, intact: set<Id>, s': Store,
                      out: Redelivery)
    requires RedeliverStep(s, owner, id, operation, now, intact, s', out)
    ensures s'.mem == s.mem && RowsStep(s.mem, s'.mem, now)
  {
    hide CanRedeliver;
  }

  lemma CleanupRows(s: Store, now: int, s': Store, ok: bool)
    requires CleanupStep(s, now, s', ok)
    ensures RowsStep(s.mem, s'.mem, now)
  {
    if gone :| CleanedBy(s, gone, now, s', ok) {
      hide ValidRows;
    }
  }

  /** The committed rows step like memory does: a save writes memory, anything else leaves them alone. */
  lemma StoreRows(s: Store, e: Event, now: int, s': Store)
    requires Inv(s, now) && StoreStep(s, e, now, s')
    ensures RowsStep(s.db.rows, s'.db.rows, now)
  {
    hide EntryInv, ValidRows, OrdersInv, StoreStep, EntriesInv, Evolves, AgreesTask;
    MemoryRows(s, e, now, s');
    RowsWritten(s, e, now, s');
    if s'.db.rows == s.db.rows {
      Stays(s.db.rows, now);
    } else {
      var r, m, m' := s.db.rows, s.mem, s'.mem;
      forall id | id in r.tasks && id in m'.tasks ensures Evolves(r.tasks[id], m'.tasks[id], now) {
        AgreeingEvolves(r.tasks[id], m.tasks[id], m'.tasks[id], now);
      }
      forall id | id in r.tasks && id !in m'.tasks ensures r.tasks[id] == m.tasks[id] {
        AgreeingTerminal(r.tasks[id], m.tasks[id]);
      }
    }
  }

  lemma AgreeingEvolves(d: Task, m: Task, m': Task, now: int)
    requires AgreesTask(m, d) && Evolves(m, m', now)
    ensures Evolves(d, m', now)
  {
  }

  lemma AgreeingTerminal(d: Task, m: Task)
    requires AgreesTask(m, d) && m.state.Terminal()
    ensures d == m
  {
  }

  lemma RowsWritten(s: Store, e: Event, now: int, s': Store)
    requires StoreStep(s, e, now, s')
    ensures s'.db.rows == s.db.rows || s'.db.rows == s'.mem
  {
    hide ValidRows, Admits, CanRecord, CanRedeliver, RoomToFreeze, Loadable, CanComplete, ChangeStep, CleanupStep;
    match e
    case Update(owner, id, change, ok) => ChangeWritten(s, owner, id, change, now, s', ok);
    case BeginDelivery(owner, id, _, ok) => ChangeWritten(s, owner, id, Transition(Delivering, NoReason), now, s', ok);
    case CompleteExecution(owner, id, reply, ok) =>
      if ok { ChangeWritten(s, owner, id, Complete(reply), now, s', ok); }
    case FreezeResult(owner, id, r, ok) => ChangeWritten(s, owner, id, Freeze(r), now, s', ok);
    case RecordDelivery(owner, id, receipt, complete, ok) =>
      if ok && complete { ChangeWritten(s, owner, id, Deliver(receipt), now, s', ok); }
    case Cleanup(ok) => CleanedRows(s, now, s', ok);
    case _ =>
  }

  lemma ChangeWritten(s: Store, owner: string, id: Id, change: Change, now: int, s': Store, ok: bool)
    requires ChangeStep(s, owner, id, change, now, s', ok)
    ensures s'.db.rows == s.db.rows || s'.db.rows == s'.mem
  {
    hide ValidRows, Changed;
  }

  /** Every step of every kind, crashes and restarts included, is a rows step. */
  lemma StepRows(w: World, e: Event, now: int, w': World)
    requires WorldInv(w, now) && Step(w, e, now, w')
    ensures RowsStep(RowsOf(w), RowsOf(w'), now)
  {
    hide DbInv, Inv, RowsStep, OpenStep, StoreStep;
    match e
    case Crash => Stays(RowsOf(w), now);
    case Open(intact) => OpenRows(w.down, intact, now, DbOf(w'), if w'.Up? then Some(w'.store.mem) else None);
    case _ => StoreRows(w.store, e, now, w'.store);
  }

  lemma OpenRows(db: Db, intact: set<Id>, now: int, db': Db, mem: Option<Rows>)
    requires DbInv(db, now) && OpenStep(db, intact, now, db', mem)
    ensures RowsStep(db.rows, db'.rows, now)
  {
    hide DbInv, ValidRows, CleanupStep, Evolves, HistoryExpired, RowsStep, AllRecover, Loaded;
    if db'.rows == db.rows {
      Stays(db.rows, now);
    } else {
      var mid: Store, ok: bool :| OpenedThrough(db, intact, now, mid, ok, db', mem);
      var s := Loaded(db, intact, now);
      CleanupRows(s, now, mid, ok);
      CleanedRows(s, now, mid, ok);
      LoadedEvolves(db, intact, now);
      EndedAreKept(db, intact, now, mid);
      SavedMem(mid, mid.mem, NoExtra);
      ThroughLoaded(db.rows, s.mem, mid.mem, now);
    }
  }

  lemma LoadedEvolves(db: Db, intact: set<Id>, now: int)
    requires DbInv(db, now) && AllRecover(db, intact, now)
    ensures var m := Loaded(db, intact, now).mem;
      && m == db.rows.(tasks := m.tasks) && m.tasks.Keys == db.rows.tasks.Keys
      && Loaded(db, intact, now).db.rows == db.rows
      && forall id | id in db.rows.tasks :: Evolves(db.rows.tasks[id], m.tasks[id], now)
  {
    hide EntryInv, ValidRows, OrdersInv, Recover, Evolves, RecoverTask;
    forall id | id in db.rows.tasks ensures Evolves(db.rows.tasks[id], Loaded(db, intact, now).mem.tasks[id], now) {
      RecoveryEvolves(DbEntry(db, id), id in intact, now);
    }
  }

  lemma ThroughLoaded(r: Rows, m: Rows, m': Rows, now: int)
    requires m == r.(tasks := m.tasks) && m.tasks.Keys == r.tasks.Keys
    requires forall id | id in r.tasks :: Evolves(r.tasks[id], m.tasks[id], now)
    requires forall id | id in m'.tasks :: id in m.tasks && m'.tasks[id] == m.tasks[id]
    requires forall id | id in r.tasks && id !in m'.tasks ::
      r.tasks[id].state.Terminal() && HistoryExpired(r.tasks[id], now)
    requires RowsStep(m, m', now)
    ensures RowsStep(r, m', now)
  {
    hide Evolves, HistoryExpired;
  }

  lemma CleanedRows(s: Store, now: int, s': Store, ok: bool)
    requires CleanupStep(s, now, s', ok)
    ensures s'.db.rows == s.db.rows || s'.db.rows == s'.mem
    ensures forall id | id in s'.mem.tasks :: id in s.mem.tasks && s'.mem.tasks[id] == s.mem.tasks[id]
    ensures forall id | id in s.mem.tasks && id !in s'.mem.tasks :: HistoryExpired(s.mem.tasks[id], now)
  {
    if gone :| CleanedBy(s, gone, now, s', ok) {
      hide ValidRows;
    }
  }

  /** A task that recovery has just ended cannot be old enough to be dropped. */
  lemma EndedAreKept(db: Db, intact: set<Id>, now: int, mid: Store)
    requires DbInv(db, now) && AllRecover(db, intact, now)
    requires forall id | id in Loaded(db, intact, now).mem.tasks && id !in mid.mem.tasks ::
      HistoryExpired(Loaded(db, intact, now).mem.tasks[id], now)
    ensures forall id | id in db.rows.tasks && id !in mid.mem.tasks ::
      db.rows.tasks[id].state.Terminal() && HistoryExpired(db.rows.tasks[id], now)
  {
    hide EntryInv, ValidRows, OrdersInv, RecoverTask;
    forall id | id in db.rows.tasks && id !in mid.mem.tasks
      ensures db.rows.tasks[id].state.Terminal() && HistoryExpired(db.rows.tasks[id], now)
    {
      RecoveryKeepsCompletion(DbEntry(db, id), id in intact, now);
      RecoveryIdentity(DbEntry(db, id), id in intact, now);
    }
  }

  /** What every step of a run gives: the invariant on both sides and a rows step between. */
  lemma RunStep(worlds: seq<World>, events: seq<Event>, times: seq<int>, k: nat)
    requires IsRun(worlds, events, times) && k < |events|
    ensures WorldInv(worlds[k], times[k]) && WorldInv(worlds[k + 1], times[k])
    ensures Step(worlds[k], events[k], times[k], worlds[k + 1])
    ensures RowsStep(RowsOf(worlds[k]), RowsOf(worlds[k + 1]), times[k])
    ensures k > 0 ==> times[k - 1] <= times[k]
  {
    hide Step, WorldInv, RowsStep;
    RunInvariant(worlds, events, times, k);
    StepRows(worlds[k], events[k], times[k], worlds[k + 1]);
  }
}
