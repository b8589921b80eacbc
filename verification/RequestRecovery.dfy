/** Opening the store: loading, the recovery pass over every task, and what a crash during it can change. */
module RequestRecovery {
  import opened Sums
  import opened RequestModel
  import opened RequestSpec
  import opened RequestInvariant

  // ---------------------------------------------------------------- one task

  /** A completion checkpoint that never reached the index still counts. */
  function Checkpointed(e: Entry): Task {
    var t := e.task;
    if t.completedAt == 0 && !t.state.Terminal() && e.completion.Some?
       && e.completion.value.version == 1 && e.completion.value.at >= t.startedAt
    then
      var at := e.completion.value.at;
      t.(completedAt := at, resultExpiresAt := at + RESULT_RETENTION, archiveFailed := true,
          resultBytes := MAX_TASK + e.completion.value.reply)
    else t
  }

  predicate Verified(e: Entry, intact: bool) {
    && e.result.Some? && ValidResult(e.result.value, e.task.startedAt)
    && (e.result.value.artifacts == [] || intact)
  }

  function EndedAt(t: Task, state: State, reason: Reason, now: int): Task {
    var finished := Max(now, t.startedAt);
    t.(state := state, reason := reason, finishedAt := finished, payloadExpiresAt := finished + PAYLOAD_RETENTION)
  }

  function Archived(t: Task, r: Result): Task {
    t.(completedAt := r.frozenAt, resultExpiresAt := r.frozenAt + RESULT_RETENTION, resultBytes := ResultSize(r),
        archiveFailed := false)
  }

  /** Whether the pass must read the stored result of an already finished task. */
  predicate AwaitsReceipt(t: Task, now: int) { t.state == Succeeded && !t.archiveFailed && t.resultExpiresAt > now }

  function RecoverState(e: Entry, intact: bool, now: int): Option<Task> {
    var t := Checkpointed(e);
    if t.state.Terminal() then
      if AwaitsReceipt(t, now) && !(e.result.Some? && ValidResult(e.result.value, t.startedAt)) then None else Some(t)
    else if Verified(e, intact) then Some(EndedAt(Archived(t, e.result.value), Succeeded, NoReason, now))
    else if t.completedAt > 0 && t.archiveFailed then Some(EndedAt(t, Succeeded, ResultFreezeFailed, now))
    else if t.completedAt > 0 || t.state == Delivering then None
    else Some(EndedAt(t, Interrupted, RestartRunning, now))
  }

  /** The stored input is there and within the limits of a stored input. */
  predicate InputReads(e: Entry) { e.input.Some? && AcceptableStored(e.input.value) }

  /** The task after the pass; None when the pass must stop with an error. */
  function RecoverTask(e: Entry, intact: bool, now: int): Option<Task> {
    match RecoverState(e, intact, now)
    case None => None
    case Some(t) => if HasPayload(t, now) && !InputReads(e) then None else Some(t)
  }

  function RestartReceipt(r: Result, now: int): Receipt {
    Receipt("", Ambiguous, Max(now, r.frozenAt), 0, false, "restart_delivery")
  }

  /** A delivery in flight at the crash becomes ambiguous; a finished task also gets it as its first attempt. */
  function RecoverResult(e: Entry, intact: bool, now: int): Option<Result> {
    if e.result.None? || e.result.value.receipt.outcome != Pending then e.result
    else
      var r := e.result.value;
      var receipt := RestartReceipt(r, now);
      if e.task.state.Terminal() then
        if AwaitsReceipt(e.task, now) then Some(r.(receipt := receipt, attempts := r.attempts + [receipt]))
        else e.result
      else if Verified(e, intact) then Some(r.(receipt := receipt))
      else e.result
  }

  function Recover(e: Entry, intact: bool, now: int): Entry {
    e.(task := match RecoverTask(e, intact, now) case None => e.task case Some(t) => t,
        result := RecoverResult(e, intact, now))
  }

  // ---------------------------------------------------------------- the whole index

  function DbEntry(db: Db, id: Id): Entry
    requires id in db.rows.tasks
  {
    EntryOf(db.rows.tasks, db, id)
  }

  predicate AllRecover(db: Db, intact: set<Id>, now: int) {
    forall id | id in db.rows.tasks :: RecoverTask(DbEntry(db, id), id in intact, now).Some?
  }

  function RecoveredRows(db: Db, intact: set<Id>, now: int): Rows {
    db.rows.(tasks := map id | id in db.rows.tasks :: Recover(DbEntry(db, id), id in intact, now).task)
  }

  /** Receipts are written one task at a time, so a stop in the middle leaves those of `done` only. */
  function PassDone(db: Db, done: set<Id>, intact: set<Id>, now: int): Db {
    db.(results := map id | id in db.results ::
          if id in done && id in db.rows.tasks && RecoverResult(DbEntry(db, id), id in intact, now).Some?
          then RecoverResult(DbEntry(db, id), id in intact, now).value else db.results[id])
  }

  ghost predicate AnyActive(rows: Rows) { exists id :: id in rows.tasks && !rows.tasks[id].state.Terminal() }

  /** Opening after a crash or a shutdown: the database before and after, and the index when it succeeds. */
  ghost predicate OpenStep(db: Db, intact: set<Id>, now: int, db': Db, mem: Option<Rows>) {
    || (mem.None? && StoppedEarly(db, intact, now, db'))
    || (&& ValidRows(db.rows) && AllRecover(db, intact, now)
        && exists mid: Store, ok: bool :: OpenedThrough(db, intact, now, mid, ok, db', mem))
  }

  ghost predicate StoppedEarly(db: Db, intact: set<Id>, now: int, db': Db) {
    || db' == db
    || (ValidRows(db.rows) && exists done: set<Id> :: db' == PassDone(db, done, intact, now))
  }

  function Loaded(db: Db, intact: set<Id>, now: int): Store {
    Store(RecoveredRows(db, intact, now), PassDone(db, db.rows.tasks.Keys, intact, now))
  }

  ghost predicate OpenedThrough(db: Db, intact: set<Id>, now: int, mid: Store, ok: bool, db': Db, mem: Option<Rows>) {
    && CleanupStep(Loaded(db, intact, now), now, mid, ok)
    && match mem
       case None => db' == mid.db
       case Some(rows) =>
         && ok
         && if AnyActive(db.rows) then ValidRows(mid.mem) && Store(rows, db') == Saved(mid, mid.mem, NoExtra)
            else Store(rows, db') == mid
  }

  // ---------------------------------------------------------------- what the pass does to one task

  /** Exactly when the pass stops: at a finished, archived result whose files no longer verify, or at a live input whose
      source data reads back as more than the limit. */
  lemma RecoversExactly(e: Entry, intact: bool, now: int)
    requires EntryInv(e, now)
    ensures RecoverTask(e, intact, now).None?
       <==> || (&& !e.task.state.Terminal() && e.task.completedAt > 0 && !e.task.archiveFailed
                && e.result.value.artifacts != [] && !intact)
            || (HasPayload(e.task, now) && e.input.value.sourceData > MAX_SOURCE_DATA)
  {
    hide ValidReceipt, Charge;
  }

  /** A restart neither forgets a recorded completion nor invents one. */
  lemma RecoveryKeepsCompletion(e: Entry, intact: bool, now: int)
    requires EntryInv(e, now) && RecoverTask(e, intact, now).Some?
    ensures var t := RecoverTask(e, intact, now).value;
      && t.state.Terminal()
      && (e.task.state.Terminal() ==> t == e.task)
      && (!e.task.state.Terminal() ==>
            && (t.state == Succeeded <==> e.task.completedAt > 0)
            && (t.state == Interrupted <==> e.task.completedAt == 0)
            && t.finishedAt >= now)
      && (t.completedAt > 0 <==> e.task.completedAt > 0)
  {
    if e.result.Some? { FrozenSize(e.result.value, e.task.startedAt); }
    hide ValidResult, Charge;
  }

  /** Retention is promised from the completion on. A restart keeps that date exactly unless it finds a result in
      flight that was frozen at another time than the turn completed: then it counts from the freeze. */
  lemma RecoveryKeepsExpiryExactly(e: Entry, intact: bool, now: int)
    requires EntryInv(e, now) && RecoverTask(e, intact, now).Some? && e.task.completedAt > 0
    ensures Recover(e, intact, now).task.resultExpiresAt != e.task.resultExpiresAt
       <==> !e.task.state.Terminal() && Verified(e, intact) && e.result.value.frozenAt != e.task.completedAt
    ensures !e.task.state.Terminal() && Verified(e, intact) ==>
      Recover(e, intact, now).task.resultExpiresAt == e.result.value.frozenAt + RESULT_RETENTION
  {
    hide ValidResult, Charge;
  }

  /** The pass keeps every rule that relates a task to its rows. */
  lemma RecoveryPreservesEntry(e: Entry, intact: bool, now: int)
    requires EntryInv(e, now)
    ensures EntryInv(e.(result := RecoverResult(e, intact, now)), now)
    ensures RecoverTask(e, intact, now).Some? ==> EntryInv(Recover(e, intact, now), now)
  {
    RecoveredResultValid(e, intact, now);
    if e.result.Some? { FrozenSize(e.result.value, e.task.startedAt); }
    hide ValidResult, Charge, AcceptableSizes, RecoverResult;
  }

  lemma RecoveredResultValid(e: Entry, intact: bool, now: int)
    requires EntryInv(e, now)
    ensures RecoverResult(e, intact, now).Some? <==> e.result.Some?
    ensures e.result.Some? ==>
      var r := RecoverResult(e, intact, now).value;
      && ResultInv(e.task, r, now)
      && r == e.result.value.(receipt := r.receipt, attempts := r.attempts)
  {
    hide Charge;
  }

  /** What recovery never touches: who a task is, where it came from and which session it holds. */
  predicate SameIdentity(a: Task, b: Task) {
    && a.id == b.id && a.source == b.source && a.owner == b.owner && a.order == b.order
    && a.target == b.target && a.thread == b.thread && a.startedAt == b.startedAt
  }

  lemma StepsKeepIdentity(e: Entry, t: Task, r: Result, state: State, reason: Reason, now: int)
    ensures SameIdentity(Checkpointed(e), e.task) && (e.task.state.Terminal() ==> Checkpointed(e) == e.task)
    ensures SameIdentity(EndedAt(t, state, reason, now), t) && SameIdentity(Archived(t, r), t)
    ensures Checkpointed(e).state == e.task.state
  {
  }

  lemma RecoveryIdentity(e: Entry, intact: bool, now: int)
    ensures SameIdentity(Recover(e, intact, now).task, e.task)
    ensures e.task.state.Terminal() ==> Recover(e, intact, now).task == e.task
  {
    var t := Checkpointed(e);
    StepsKeepIdentity(e, t, FrozenResult(t, 0, true, [], 0, now), Interrupted, RestartRunning, now);
    StepsKeepIdentity(e, t, FrozenResult(t, 0, true, [], 0, now), Succeeded, ResultFreezeFailed, now);
    if e.result.Some? {
      StepsKeepIdentity(e, t, e.result.value, Succeeded, NoReason, now);
      StepsKeepIdentity(e, Archived(t, e.result.value), e.result.value, Succeeded, NoReason, now);
    }
    hide ValidResult, RecoverResult, Verified, Checkpointed, EndedAt, Archived;
  }

  /** Running the pass on its own outcome, at any later time, changes nothing. */
  lemma RecoveryIdempotent(e: Entry, intact: bool, now: int, intact': bool, later: int)
    requires EntryInv(e, now) && RecoverTask(e, intact, now).Some? && now <= later
    ensures Recover(Recover(e, intact, now), intact', later) == Recover(e, intact, now)
    ensures RecoverTask(Recover(e, intact, now), intact', later).Some?
  {
    RecoveryPreservesEntry(e, intact, now);
    EntryLater(Recover(e, intact, now), now, later);
    hide ValidResult, Charge;
  }

  /** Two results that differ only in when their restart receipt was stamped. */
  predicate SameButTimes(a: Option<Result>, b: Option<Result>) {
    || a == b
    || (&& a.Some? && b.Some? && |a.value.attempts| == |b.value.attempts| <= 1
        && var stamp := b.value.receipt.attemptedAt;
        && b.value.receipt == a.value.receipt.(attemptedAt := stamp)
        && b.value == a.value.(receipt := b.value.receipt, attempts := b.value.attempts)
        && (forall i | 0 <= i < |a.value.attempts| ::
              a.value.attempts[i] == a.value.receipt && b.value.attempts[i] == b.value.receipt))
  }

  /** A crash after the receipt write of a task, followed by another recovery, reaches the state a single
      recovery at that later time reaches, up to receipt times, unless the result expired in between. */
  lemma InterruptedRecoveryAgrees(e: Entry, first: bool, now: int, intact: bool, later: int)
    requires EntryInv(e, now) && now <= later
    ensures var halfway := e.(result := RecoverResult(e, first, now));
      && RecoverTask(halfway, intact, later) == RecoverTask(e, intact, later)
      && (!ResultExpired(e.task, later) && (first ==> intact)
          ==> SameButTimes(RecoverResult(halfway, intact, later), RecoverResult(e, intact, later)))
  {
    RecoveredResultValid(e, first, now);
    hide ValidResult, Charge;
  }

  // ---------------------------------------------------------------- what opening does to the index

  lemma RecoveredTasks(db: Db, intact: set<Id>, now: int, id: Id)
    requires DbInv(db, now) && AllRecover(db, intact, now) && id in db.rows.tasks
    ensures var t := RecoveredRows(db, intact, now).tasks[id];
      t.id == id && ValidTask(t) && t.state.Terminal() && SameIdentity(t, db.rows.tasks[id])
  {
    RecoveryPreservesEntry(DbEntry(db, id), id in intact, now);
    RecoveryKeepsCompletion(DbEntry(db, id), id in intact, now);
    RecoveryIdentity(DbEntry(db, id), id in intact, now);
  }

  lemma EndingKeepsRules(rows: Rows, tasks: map<Id, Task>)
    requires ValidRows(rows) && OrdersInv(rows) && tasks.Keys == rows.tasks.Keys
    requires forall id | id in tasks :: tasks[id].id == id && ValidTask(tasks[id]) && tasks[id].state.Terminal()
    requires forall id | id in tasks :: SameIdentity(tasks[id], rows.tasks[id])
    ensures ValidRows(rows.(tasks := tasks)) && OrdersInv(rows.(tasks := tasks))
  {
    hide ValidTask, KeyOf;
    forall a, b | a in tasks && b in tasks && a != b ensures Apart(tasks, a, b) && OrdersDiffer(tasks, a, b) {
      assert Apart(rows.tasks, a, b) && OrdersDiffer(rows.tasks, a, b);
    }
    forall owner: string ensures |OwnedIds(tasks, owner)| <= MAX_RECORDS {
      assert OwnedIds(tasks, owner) == OwnedIds(rows.tasks, owner);
    }
  }

  /** Recovery only ends tasks, so it keeps the index valid: no later save is refused because of it. */
  lemma RecoveredRowsValid(db: Db, intact: set<Id>, now: int)
    requires DbInv(db, now) && AllRecover(db, intact, now)
    ensures ValidRows(RecoveredRows(db, intact, now)) && OrdersInv(RecoveredRows(db, intact, now))
    ensures forall id | id in db.rows.tasks :: RecoveredRows(db, intact, now).tasks[id].state.Terminal()
  {
    hide EntryInv, EntriesInv, ValidTask, Recover, AllRecover, ValidRows, OrdersInv;
    var rows := RecoveredRows(db, intact, now);
    forall id | id in rows.tasks
      ensures rows.tasks[id].id == id && ValidTask(rows.tasks[id]) && rows.tasks[id].state.Terminal()
      ensures SameIdentity(rows.tasks[id], db.rows.tasks[id])
    {
      RecoveredTasks(db, intact, now, id);
    }
    EndingKeepsRules(db.rows, rows.tasks);
  }

  lemma PassPreservesDb(db: Db, done: set<Id>, intact: set<Id>, now: int)
    requires DbInv(db, now)
    ensures DbInv(PassDone(db, done, intact, now), now)
  {
    hide EntryInv, ValidRows, OrdersInv;
    var db' := PassDone(db, done, intact, now);
    forall id | id in db.rows.tasks ensures EntryInv(DbEntry(db', id), now) {
      var e := DbEntry(db, id);
      RecoveryPreservesEntry(e, id in intact, now);
      RecoveredResultValid(e, id in intact, now);
      assert DbEntry(db', id) == e || DbEntry(db', id) == e.(result := RecoverResult(e, id in intact, now));
    }
  }

  lemma LoadedEntry(db: Db, intact: set<Id>, now: int, id: Id)
    requires DbInv(db, now) && AllRecover(db, intact, now) && id in db.rows.tasks
    ensures var s := Loaded(db, intact, now);
      EntryOf(s.mem.tasks, s.db, id) == Recover(DbEntry(db, id), id in intact, now)
  {
    hide EntryInv, ValidRows, OrdersInv, RecoverResult, RecoverTask;
    RecoveredResultValid(DbEntry(db, id), id in intact, now);
  }

  lemma LoadedEntries(db: Db, intact: set<Id>, now: int)
    requires DbInv(db, now) && AllRecover(db, intact, now)
    ensures EntriesInv(Loaded(db, intact, now).mem.tasks, Loaded(db, intact, now).db, now)
  {
    hide EntryInv, ValidRows, OrdersInv, Recover, PassDone;
    var s := Loaded(db, intact, now);
    forall id | id in s.mem.tasks ensures EntryInv(EntryOf(s.mem.tasks, s.db, id), now) {
      RecoveryPreservesEntry(DbEntry(db, id), id in intact, now);
      LoadedEntry(db, intact, now, id);
    }
  }

  lemma LoadedAhead(db: Db, intact: set<Id>, now: int)
    ensures Ahead(Loaded(db, intact, now).mem, Loaded(db, intact, now).db.rows)
  {
    hide Recover;
    forall id | id in db.rows.tasks
      ensures db.rows.tasks[id].state.Terminal() ==>
        Recover(DbEntry(db, id), id in intact, now).task == db.rows.tasks[id]
    {
      RecoveryIdentity(DbEntry(db, id), id in intact, now);
    }
  }

  lemma LoadedPreserves(db: Db, intact: set<Id>, now: int)
    requires DbInv(db, now) && AllRecover(db, intact, now)
    ensures LoadedInv(Loaded(db, intact, now), now)
  {
    RecoveredRowsValid(db, intact, now);
    PassPreservesDb(db, db.rows.tasks.Keys, intact, now);
    LoadedEntries(db, intact, now);
    LoadedAhead(db, intact, now);
    hide DbInv, AllRecover, ValidRows, OrdersInv, Ahead, EntriesInv, PassDone, RecoveredRows;
  }

  /** Opening a consistent database leaves it consistent however far it gets, and a store that opens is sound. */
  lemma OpenPreserves(db: Db, intact: set<Id>, now: int, db': Db, mem: Option<Rows>)
    requires DbInv(db, now) && OpenStep(db, intact, now, db', mem)
    ensures DbInv(db', now)
    ensures mem.Some? ==> Inv(Store(mem.value, db'), now)
  {
    hide EntryInv, ValidRows, OrdersInv, EntriesInv, CleanupStep, AllRecover;
    if mem.None? && StoppedEarly(db, intact, now, db') {
      if db' != db {
        var done: set<Id> :| db' == PassDone(db, done, intact, now);
        PassPreservesDb(db, done, intact, now);
      }
    } else {
      var mid: Store, ok: bool :| OpenedThrough(db, intact, now, mid, ok, db', mem);
      LoadedPreserves(db, intact, now);
      if !AnyActive(db.rows) { NothingToRecover(db, intact, now); }
      CleanupPreserves(Loaded(db, intact, now), now, mid, ok);
      if mem.Some? && AnyActive(db.rows) {
        SavePreserves(mid, mid.mem, now);
      }
    }
  }

  lemma NothingToRecover(db: Db, intact: set<Id>, now: int)
    requires !AnyActive(db.rows)
    ensures RecoveredRows(db, intact, now) == db.rows
    ensures Agrees(RecoveredRows(db, intact, now), db.rows)
  {
    forall id | id in db.rows.tasks ensures Recover(DbEntry(db, id), id in intact, now).task == db.rows.tasks[id] {
      RecoveryIdentity(DbEntry(db, id), id in intact, now);
    }
  }

  /** A store that opened has no task in flight. */
  lemma OpenLeavesNothingActive(db: Db, intact: set<Id>, now: int, db': Db, mem: Rows)
    requires DbInv(db, now) && OpenStep(db, intact, now, db', Some(mem))
    ensures !AnyActive(mem) && db'.rows == mem
  {
    hide EntryInv, ValidRows, OrdersInv, EntriesInv, AllRecover;
    var mid: Store, ok: bool :| OpenedThrough(db, intact, now, mid, ok, db', Some(mem));
    RecoveredRowsValid(db, intact, now);
    var s := Loaded(db, intact, now);
    var gone :| CleanedBy(s, gone, now, mid, ok);
    forall id | id in mem.tasks ensures mem.tasks[id].state.Terminal() {
      assert id in s.mem.tasks && mem.tasks[id] == s.mem.tasks[id];
    }
    if !AnyActive(db.rows) { NothingToRecover(db, intact, now); }
  }
}
