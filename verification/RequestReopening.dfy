/** Opening the whole store again: after a success, and after an opening that stopped anywhere. */
module RequestReopening {
  import opened RequestModel
  import opened RequestSpec
  import opened RequestInvariant
  import opened RequestRecovery
  import opened RequestSteps

  // ---------------------------------------------------------------- what a successful opening leaves

  /** The recovered rows after cleanup. */
  function OpenedRows(db: Db, intact: set<Id>, now: int): Rows {
    var rows := RecoveredRows(db, intact, now);
    Dropped(ForgetReceipts(rows, now), ExpiredIds(rows, now))
  }

  function Opened(db: Db, intact: set<Id>, now: int): Store {
    var mem := OpenedRows(db, intact, now);
    Store(mem, Flush(Purged(PassDone(db, db.rows.tasks.Keys, intact, now), now), mem))
  }

  /** A successful opening is a function of the database, the files that verify and the clock, however many saves
      its cleanup and its recovery needed. */
  lemma OpeningIsDetermined(db: Db, intact: set<Id>, now: int, db': Db, mem: Rows)
    requires DbInv(db, now) && OpenStep(db, intact, now, db', Some(mem))
    ensures Store(mem, db') == Opened(db, intact, now)
  {
    hide EntryInv, ValidRows, OrdersInv, EntriesInv, AllRecover, Purged, RecoveredRows, PassDone, RecentCleared,
      RecentRejections;
    var mid: Store, ok: bool :| OpenedThrough(db, intact, now, mid, ok, db', Some(mem));
    var s := Loaded(db, intact, now);
    var gone :| CleanedBy(s, gone, now, mid, ok);
    var rest := OpenedRows(db, intact, now);
    assert ForgetReceipts(s.mem, now).tasks == s.mem.tasks;
    var purged := Purged(s.db, now);
    if rest != s.mem {
      FlushTwice(purged, rest, rest);
    } else if !AnyActive(db.rows) {
      NothingToRecover(db, intact, now);
      PassPreservesDb(db, db.rows.tasks.Keys, intact, now);
      LoadedRows(db, intact, now);
      PurgedFlush(s.db, now);
    }
  }

  /** Opening is possible exactly when every request recovers, and then there is one outcome it can have. */
  lemma OpeningSucceeds(db: Db, intact: set<Id>, now: int)
    requires DbInv(db, now)
    ensures AllRecover(db, intact, now) <==> exists db', mem :: OpenStep(db, intact, now, db', Some(mem))
    ensures AllRecover(db, intact, now) ==>
      OpenStep(db, intact, now, Opened(db, intact, now).db, Some(Opened(db, intact, now).mem))
  {
    hide DbInv, AllRecover, Opened;
    if AllRecover(db, intact, now) {
      var mid := FullCleanup(db, intact, now);
      ValidDbRows(db, now);
      hide CleanupStep, ValidRows, Loaded, AnyActive;
      var end := if AnyActive(db.rows) then Saved(mid, mid.mem, NoExtra) else mid;
      SavedMemory(mid);
      assert OpenedThrough(db, intact, now, mid, true, end.db, Some(end.mem));
      assert OpenStep(db, intact, now, end.db, Some(end.mem));
      OpeningIsDetermined(db, intact, now, end.db, end.mem);
    }
    hide OpenedThrough;
  }

  lemma SavedMemory(s: Store)
    ensures Saved(s, s.mem, NoExtra).mem == s.mem
  {
  }

  lemma ValidDbRows(db: Db, now: int)
    requires DbInv(db, now)
    ensures ValidRows(db.rows)
  {
  }

  lemma FullCleanup(db: Db, intact: set<Id>, now: int) returns (mid: Store)
    requires DbInv(db, now) && AllRecover(db, intact, now)
    ensures CleanupStep(Loaded(db, intact, now), now, mid, true) && ValidRows(mid.mem)
  {
    hide EntryInv, ValidRows, OrdersInv, EntriesInv, AllRecover, RecoveredRows, PassDone;
    var s := Loaded(db, intact, now);
    var gone := ExpiredIds(s.mem, now);
    RecoveredRowsValid(db, intact, now);
    SubsetValid(s.mem, gone, now);
    mid := Cleaned(s, gone, now);
    assert CleanedBy(s, gone, now, mid, true);
  }

  /** Purging a consistent database leaves nothing for a save of its own rows to delete. */
  lemma PurgedFlush(db: Db, now: int)
    requires DbInv(db, now)
    ensures Flush(Purged(db, now), db.rows) == Purged(db, now)
  {
    hide ValidRows, OrdersInv, EntriesInv;
  }

  // ---------------------------------------------------------------- opening an opened store

  /** Recovery finds nothing to do in a database that was opened before. */
  predicate AtRest(db: Db, intact: set<Id>, now: int) {
    && RecoveredRows(db, intact, now) == db.rows
    && forall id | id in db.rows.tasks && id in db.results ::
      RecoverResult(DbEntry(db, id), id in intact, now) == Some(db.results[id])
  }

  lemma AtRestPass(db: Db, done: set<Id>, intact: set<Id>, now: int)
    requires AtRest(db, intact, now)
    ensures PassDone(db, done, intact, now) == db
  {
    hide RecoverResult, RecoverTask;
  }

  /** One entry of an opened database: the recovered one, without the rows cleanup purged. */
  lemma OpenedEntry(db: Db, intact: set<Id>, now: int, id: Id)
    requires DbInv(db, now) && id in Opened(db, intact, now).db.rows.tasks && id in db.rows.tasks
    ensures var e', r := DbEntry(Opened(db, intact, now).db, id), Recover(DbEntry(db, id), id in intact, now);
      e'.task == r.task && (e'.result.None? || e'.result == r.result)
  {
    RecoveredResultValid(DbEntry(db, id), id in intact, now);
    hide RecoverTask, RecoverResult, EntryInv, ValidRows, OrdersInv, InputExpired, ResultExpired;
  }

  lemma OpenedIds(db: Db, intact: set<Id>, now: int, id: Id)
    requires id in Opened(db, intact, now).db.rows.tasks
    ensures id in db.rows.tasks
  {
  }

  lemma OpenedAtRest(db: Db, intact: set<Id>, now: int, intact': set<Id>, later: int)
    requires DbInv(db, now) && AllRecover(db, intact, now) && now <= later
    ensures var db' := Opened(db, intact, now).db; AtRest(db', intact', later) && !AnyActive(db'.rows)
  {
    hide EntryInv, ValidRows, OrdersInv, RecoverTask, RecoverResult, Opened, Recover;
    var db' := Opened(db, intact, now).db;
    forall id | id in db'.rows.tasks
      ensures db'.rows.tasks[id].state.Terminal()
      ensures id in db'.results ==> RecoverResult(DbEntry(db', id), id in intact', later) == Some(db'.results[id])
    {
      OpenedIds(db, intact, now, id);
      assert EntryInv(DbEntry(db, id), now);
      OpenedEntry(db, intact, now, id);
      assert RecoverTask(DbEntry(db, id), id in intact, now).Some?;
      RecoveryKeepsCompletion(DbEntry(db, id), id in intact, now);
      RecoveryIdempotent(DbEntry(db, id), id in intact, now, id in intact', later);
      RecoveredTask(DbEntry(db, id), id in intact, now);
      if id in db'.results {
        SameResult(DbEntry(db', id), Recover(DbEntry(db, id), id in intact, now), id in intact', later);
      }
    }
    NothingToRecover(db', intact', later);
  }

  lemma RecoveredTask(e: Entry, intact: bool, now: int)
    requires RecoverTask(e, intact, now).Some?
    ensures Recover(e, intact, now).task == RecoverTask(e, intact, now).value
  {
  }

  lemma SameResult(e: Entry, r: Entry, intact: bool, now: int)
    requires e.task == r.task && e.task.state.Terminal() && e.result == r.result
    requires Recover(r, intact, now) == r
    ensures RecoverResult(e, intact, now) == e.result
  {
  }

  /** The database and the index are what this cleanup left. */
  predicate LeftBy(mid: Store, ok: bool, db: Db, mem: Option<Rows>) {
    db == mid.db && (mem.Some? ==> ok && mem.value == mid.mem)
  }

  /** Opening a store that was opened before changes nothing beyond one more cleanup, however far it gets. */
  lemma ReopeningOnlyCleans(db: Db, intact: set<Id>, now: int, db': Db, mem: Rows, intact': set<Id>, later: int,
                            db2: Db, mem2: Option<Rows>)
    requires DbInv(db, now) && OpenStep(db, intact, now, db', Some(mem)) && now <= later
    requires OpenStep(db', intact', later, db2, mem2)
    ensures exists mid, ok :: CleanupStep(Store(mem, db'), later, mid, ok) && LeftBy(mid, ok, db2, mem2)
  {
    hide EntryInv, ValidRows, OrdersInv, EntriesInv, AllRecover, Opened, AtRest, PassDone, CleanupStep, RecoveredRows;
    OpeningIsDetermined(db, intact, now, db', mem);
    OpenedAtRest(db, intact, now, intact', later);
    OpenedRowsSaved(db, intact, now);
    var s := Store(mem, db');
    RestLoaded(db', intact', later);
    if mem2.None? && StoppedEarly(db', intact', later, db2) {
      if db2 != db' {
        var done: set<Id> :| db2 == PassDone(db', done, intact', later);
        AtRestPass(db', done, intact', later);
      }
      FailedCleanup(s, later);
    } else {
      var mid: Store, ok: bool :| OpenedThrough(db', intact', later, mid, ok, db2, mem2);
      assert CleanupStep(s, later, mid, ok);
    }
  }

  lemma OpenedRowsSaved(db: Db, intact: set<Id>, now: int)
    ensures Opened(db, intact, now).db.rows == Opened(db, intact, now).mem
  {
  }

  lemma RestLoaded(db: Db, intact: set<Id>, now: int)
    requires AtRest(db, intact, now)
    ensures Loaded(db, intact, now) == Store(db.rows, db)
  {
    AtRestPass(db, db.rows.tasks.Keys, intact, now);
    hide PassDone, RecoverResult, RecoverTask;
  }
  // ---------------------------------------------------------------- opening after an opening that stopped

  /** Receipts written by a pass that stopped do not change what a later pass makes of the index. */
  lemma PartialPassRecovers(db: Db, done: set<Id>, first: set<Id>, now: int, intact: set<Id>, later: int)
    requires DbInv(db, now) && now <= later
    ensures RecoveredRows(PassDone(db, done, first, now), intact, later) == RecoveredRows(db, intact, later)
    ensures AllRecover(PassDone(db, done, first, now), intact, later) <==> AllRecover(db, intact, later)
  {
    hide EntryInv, ValidRows, OrdersInv, RecoverTask, RecoverResult;
    var db1 := PassDone(db, done, first, now);
    forall id | id in db.rows.tasks
      ensures RecoverTask(DbEntry(db1, id), id in intact, later) == RecoverTask(DbEntry(db, id), id in intact, later)
      ensures DbEntry(db1, id).task == DbEntry(db, id).task
    {
      assert EntryInv(DbEntry(db, id), now);
      PassEntry(db, done, first, now, id);
      InterruptedRecoveryAgrees(DbEntry(db, id), id in first, now, id in intact, later);
    }
  }

  lemma PassEntry(db: Db, done: set<Id>, intact: set<Id>, now: int, id: Id)
    requires id in db.rows.tasks && EntryInv(DbEntry(db, id), now)
    ensures var e, e' := DbEntry(db, id), DbEntry(PassDone(db, done, intact, now), id);
      e' == e || e' == e.(result := RecoverResult(e, id in intact, now))
  {
    hide RecoverTask, ValidRows;
    RecoveredResultValid(DbEntry(db, id), id in intact, now);
    hide RecoverResult, EntryInv;
  }

  /** The same end, possibly stamped at another time. */
  predicate SameEnd(a: Task, b: Task) {
    && a.state.Terminal() && b.state.Terminal()
    && b == a.(finishedAt := b.finishedAt, payloadExpiresAt := b.payloadExpiresAt)
  }

  /** One original task and its recovered forms on both ways. */
  predicate EndedAlike(o: Task, t: Task, t1: Task, now: int, later: int) {
    && SameEnd(t, t1) && (o.state.Terminal() ==> t1 == t == o)
    && (!o.state.Terminal() ==> t.finishedAt >= later && t1.finishedAt >= now)
  }

  /** One entry as a stopped opening may leave it: untouched, with its receipt settled, purged, or recovered and
      saved. */
  predicate LeftBehind(e: Entry, intact: bool, now: int, e1: Entry) {
    && (e1.task == e.task || (RecoverTask(e, intact, now) == Some(e1.task) && !e.task.state.Terminal()))
    && (|| e1.result == RecoverResult(e, intact, now)
        || (e1.result == e.result && e1.task == e.task)
        || (e1.result.None? && ResultExpired(e1.task, now)))
    && (e1.input == e.input || (e1.input.None? && InputExpired(e1.task, now)))
    && (e1.completion == e.completion || (e1.completion.None? && ResultExpired(e1.task, now)))
  }

  /** What the next opening makes of such an entry is what it would have made of the original. */
  lemma LeftBehindRecovers(e: Entry, intact: bool, now: int, e1: Entry, later: int)
    requires EntryInv(e, now) && now <= later && LeftBehind(e, intact, now, e1) && RecoverTask(e1, intact, later).Some?
    ensures RecoverTask(e, intact, later).Some?
    ensures var t, t1 := RecoverTask(e, intact, later).value, RecoverTask(e1, intact, later).value;
      EndedAlike(e.task, t, t1, now, later)
  {
    if e.task.state.Terminal() {
      FinishedRecovers(e, intact, now, e1, later);
    } else if e1.task == e.task {
      assert e1 == e || e1 == e.(result := RecoverResult(e, intact, now));
      InterruptedRecoveryAgrees(e, intact, now, intact, later);
      EntryLater(e, now, later);
      RecoveryKeepsCompletion(e, intact, later);
      hide RecoverTask, RecoverResult, EntryInv;
    } else {
      EntryLater(e, now, later);
      RecoversExactly(e, intact, now);
      RecoversExactly(e, intact, later);
      RecoveryKeepsCompletion(e, intact, now);
      RecoveryKeepsCompletion(e, intact, later);
      EndsAlike(e, intact, now, later);
      RecoveredStays(e1, intact, later);
      hide RecoverTask, RecoverResult, EntryInv;
    }
  }

  lemma FinishedRecovers(e: Entry, intact: bool, now: int, e1: Entry, later: int)
    requires EntryInv(e, now) && now <= later && LeftBehind(e, intact, now, e1) && e.task.state.Terminal()
    requires RecoverTask(e1, intact, later).Some?
    ensures RecoverTask(e, intact, later) == Some(e.task) == RecoverTask(e1, intact, later)
  {
    hide ValidResult, Charge, RecoverResult;
  }

  lemma EndsAlike(e: Entry, intact: bool, now: int, later: int)
    requires EntryInv(e, now) && RecoverTask(e, intact, now).Some? && RecoverTask(e, intact, later).Some?
    requires !e.task.state.Terminal()
    ensures SameEnd(RecoverTask(e, intact, later).value, RecoverTask(e, intact, now).value)
  {
    hide ValidResult, Charge;
  }

  lemma RecoveredStays(e: Entry, intact: bool, now: int)
    requires e.task.state.Terminal() && RecoverTask(e, intact, now).Some?
    ensures RecoverTask(e, intact, now).value == e.task
  {
  }

  lemma LeftBehindResult(e: Entry, intact: bool, now: int, e1: Entry, later: int)
    requires EntryInv(e, now) && now <= later && LeftBehind(e, intact, now, e1)
    requires RecoverTask(e, intact, later).Some? && RecoverTask(e, intact, later).value.resultExpiresAt > later
    ensures SameButTimes(RecoverResult(e1, intact, later), RecoverResult(e, intact, later))
  {
    RecoveredResultValid(e, intact, now);
    hide ValidResult, Charge;
  }

  /** What a stopped opening leaves of the index: the requests it may already have dropped were due at that time. */
  ghost predicate RowsLeft(db: Db, now: int, db1: Db) {
    && db1.rows.nextOrder == db.rows.nextOrder && db1.rows.tasks.Keys <= db.rows.tasks.Keys
    && (forall id | id in db.rows.tasks && id !in db1.rows.tasks :: HistoryExpired(db.rows.tasks[id], now))
    && (db1.rows.cleared == db.rows.cleared || db1.rows.cleared == RecentCleared(db.rows.cleared, now))
    && (db1.rows.rejected == db.rows.rejected || db1.rows.rejected == RecentRejections(db.rows.rejected, now))
  }

  ghost predicate EntriesLeft(db: Db, intact: set<Id>, now: int, db1: Db)
    requires db1.rows.tasks.Keys <= db.rows.tasks.Keys
  {
    forall id | id in db1.rows.tasks :: LeftBehind(DbEntry(db, id), id in intact, now, DbEntry(db1, id))
  }

  lemma PassLeaves(db: Db, done: set<Id>, intact: set<Id>, now: int)
    requires DbInv(db, now)
    ensures var db1 := PassDone(db, done, intact, now); RowsLeft(db, now, db1) && EntriesLeft(db, intact, now, db1)
  {
    hide EntryInv, ValidRows, OrdersInv, RecoverTask, RecoverResult;
    forall id | id in db.rows.tasks
      ensures LeftBehind(DbEntry(db, id), id in intact, now, DbEntry(PassDone(db, done, intact, now), id))
    {
      assert EntryInv(DbEntry(db, id), now);
      PassEntry(db, done, intact, now, id);
    }
  }

  lemma FullPassEntry(db: Db, intact: set<Id>, now: int, id: Id)
    requires id in db.rows.tasks && EntryInv(DbEntry(db, id), now)
    ensures DbEntry(PassDone(db, db.rows.tasks.Keys, intact, now), id)
         == DbEntry(db, id).(result := RecoverResult(DbEntry(db, id), id in intact, now))
  {
    RecoveredResultValid(DbEntry(db, id), id in intact, now);
    hide RecoverResult, EntryInv;
  }

  lemma PurgeLeaves(db: Db, intact: set<Id>, now: int)
    requires DbInv(db, now)
    ensures var db1 := Purged(PassDone(db, db.rows.tasks.Keys, intact, now), now);
      RowsLeft(db, now, db1) && EntriesLeft(db, intact, now, db1)
  {
    hide EntryInv, ValidRows, OrdersInv, RecoverTask, RecoverResult, InputExpired, ResultExpired;
    var db1 := Purged(PassDone(db, db.rows.tasks.Keys, intact, now), now);
    forall id | id in db.rows.tasks ensures LeftBehind(DbEntry(db, id), id in intact, now, DbEntry(db1, id)) {
      assert EntryInv(DbEntry(db, id), now);
      FullPassEntry(db, intact, now, id);
    }
  }

  /** A save during the cleanup of an opening writes the recovered requests. */
  lemma CleanupLeaves(db: Db, intact: set<Id>, now: int, gone: set<Id>)
    requires DbInv(db, now) && AllRecover(db, intact, now) && gone <= ExpiredIds(RecoveredRows(db, intact, now), now)
    ensures var db1 := CleanedDb(db, intact, now, gone); RowsLeft(db, now, db1) && EntriesLeft(db, intact, now, db1)
  {
    hide EntryInv, ValidRows, OrdersInv, RecoverTask, RecoverResult, HistoryExpired, RecentCleared, RecentRejections,
      Recover, LeftBehind;
    forall id | id in db.rows.tasks
      ensures id in CleanedDb(db, intact, now, gone).rows.tasks ==>
        LeftBehind(DbEntry(db, id), id in intact, now, DbEntry(CleanedDb(db, intact, now, gone), id))
      ensures id in gone ==> HistoryExpired(db.rows.tasks[id], now)
    {
      assert EntryInv(DbEntry(db, id), now) && RecoverTask(DbEntry(db, id), id in intact, now).Some?;
      CleanupLeavesOne(db, intact, now, gone, id);
    }
  }

  /** The database after a cleanup of the recovered index dropped `gone`. */
  function CleanedDb(db: Db, intact: set<Id>, now: int, gone: set<Id>): Db {
    Flush(Purged(PassDone(db, db.rows.tasks.Keys, intact, now), now),
        Dropped(ForgetReceipts(RecoveredRows(db, intact, now), now), gone))
  }

  lemma CleanupLeavesOne(db: Db, intact: set<Id>, now: int, gone: set<Id>, id: Id)
    requires id in db.rows.tasks && EntryInv(DbEntry(db, id), now)
    requires RecoverTask(DbEntry(db, id), id in intact, now).Some?
    requires gone <= ExpiredIds(RecoveredRows(db, intact, now), now)
    ensures id in CleanedDb(db, intact, now, gone).rows.tasks ==>
      LeftBehind(DbEntry(db, id), id in intact, now, DbEntry(CleanedDb(db, intact, now, gone), id))
    ensures id in gone ==> HistoryExpired(db.rows.tasks[id], now)
  {
    hide EntryInv, RecoverTask, RecoverResult, InputExpired, ResultExpired, HistoryExpired, RecentCleared,
      RecentRejections, Recover, LeftBehind;
    FullPassEntry(db, intact, now, id);
    RecoveryKeepsCompletion(DbEntry(db, id), id in intact, now);
    RecoveredTask(DbEntry(db, id), id in intact, now);
    NotYetOld(DbEntry(db, id), id in intact, now);
    if id in CleanedDb(db, intact, now, gone).rows.tasks {
      SavedLeft(db, intact, now, CleanedDb(db, intact, now, gone), id);
    }
  }

  lemma NotYetOld(e: Entry, intact: bool, now: int)
    requires EntryInv(e, now) && RecoverTask(e, intact, now).Some?
    ensures HistoryExpired(Recover(e, intact, now).task, now) ==> HistoryExpired(e.task, now)
  {
    RecoveryKeepsCompletion(e, intact, now);
    hide RecoverTask, RecoverResult, EntryInv;
    RecoveredTask(e, intact, now);
  }

  lemma SavedLeft(db: Db, intact: set<Id>, now: int, db1: Db, id: Id)
    requires id in db.rows.tasks && id in db1.rows.tasks
    requires var e, p := DbEntry(db, id), DbEntry(PassDone(db, db.rows.tasks.Keys, intact, now), id);
      && RecoverTask(e, id in intact, now).Some? && p == e.(result := RecoverResult(e, id in intact, now))
      && (e.task.state.Terminal() ==> Recover(e, id in intact, now).task == e.task)
      && db1.rows.tasks[id] == Recover(e, id in intact, now).task
      && Lookup(db1.inputs, id) == (if InputExpired(e.task, now) then None else p.input)
      && Lookup(db1.completions, id) == (if ResultExpired(e.task, now) then None else p.completion)
      && Lookup(db1.results, id) == (if ResultExpired(e.task, now) then None else p.result)
    ensures LeftBehind(DbEntry(db, id), id in intact, now, DbEntry(db1, id))
  {
    hide RecoverTask, RecoverResult, PassDone;
    RecoveredTask(DbEntry(db, id), id in intact, now);
  }

  lemma StoppedLeaves(db: Db, intact: set<Id>, now: int, db1: Db)
    requires DbInv(db, now) && OpenStep(db, intact, now, db1, None)
    ensures RowsLeft(db, now, db1) && EntriesLeft(db, intact, now, db1)
  {
    hide DbInv, ValidRows, AllRecover, RowsLeft, EntriesLeft, PassDone, Purged, RecoveredRows, ExpiredIds,
      RecentCleared, RecentRejections;
    if StoppedEarly(db, intact, now, db1) {
      if db1 == db {
        PassLeaves(db, {}, intact, now);
        NothingPassed(db, intact, now);
      } else {
        var done: set<Id> :| db1 == PassDone(db, done, intact, now);
        PassLeaves(db, done, intact, now);
      }
    } else {
      var mid: Store, ok: bool :| OpenedThrough(db, intact, now, mid, ok, db1, None);
      var s := Loaded(db, intact, now);
      PassLeaves(db, db.rows.tasks.Keys, intact, now);
      PurgeLeaves(db, intact, now);
      if gone :| CleanedBy(s, gone, now, mid, ok) {
        CleanupLeaves(db, intact, now, gone);
        assert ForgetReceipts(s.mem, now).tasks == s.mem.tasks;
      }
    }
  }

  lemma NothingPassed(db: Db, intact: set<Id>, now: int)
    ensures PassDone(db, {}, intact, now) == db
  {
    hide RecoverResult;
  }

  lemma DbLater(db: Db, now: int, later: int)
    requires DbInv(db, now) && now <= later
    ensures DbInv(db, later)
  {
    hide EntriesInv, ValidRows, OrdersInv;
    EntriesLater(db.rows.tasks, db, now, later);
  }

  /** One request after a stopped opening and a second one, beside a single opening at the later time. */
  ghost predicate ResumesAs(db: Db, intact: set<Id>, now: int, db1: Db, later: int, id: Id)
    requires id in db.rows.tasks && id in db1.rows.tasks
  {
    var e, e1, i := DbEntry(db, id), DbEntry(db1, id), id in intact;
    && RecoverTask(e, i, later).Some? && RecoverTask(e1, i, later).Some?
    && var t, t1 := RecoverTask(e, i, later).value, RecoverTask(e1, i, later).value;
    && EndedAlike(e.task, t, t1, now, later)
    && (t.resultExpiresAt > later ==> SameButTimes(RecoverResult(e1, i, later), RecoverResult(e, i, later)))
  }

  lemma EachResumes(db: Db, intact: set<Id>, now: int, db1: Db, later: int)
    requires DbInv(db, now) && now <= later && OpenStep(db, intact, now, db1, None) && AllRecover(db1, intact, later)
    ensures RowsLeft(db, now, db1) && AllRecover(db, intact, later)
    ensures forall id | id in db1.rows.tasks :: ResumesAs(db, intact, now, db1, later, id)
  {
    StoppedLeaves(db, intact, now, db1);
    hide EntryInv, ValidRows, OrdersInv, LeftBehind, RecoverTask, RecoverResult, OpenStep, ResumesAs;
    forall id | id in db1.rows.tasks ensures ResumesAs(db, intact, now, db1, later, id) {
      OneResumes(db, intact, now, db1, later, id);
    }
    forall id | id in db.rows.tasks ensures RecoverTask(DbEntry(db, id), id in intact, later).Some? {
      assert EntryInv(DbEntry(db, id), now);
      if id in db1.rows.tasks {
        OneResumes(db, intact, now, db1, later, id);
      } else {
        EntryLater(DbEntry(db, id), now, later);
        RecoversExactly(DbEntry(db, id), id in intact, later);
      }
    }
  }

  lemma OneResumes(db: Db, intact: set<Id>, now: int, db1: Db, later: int, id: Id)
    requires id in db.rows.tasks && id in db1.rows.tasks && EntryInv(DbEntry(db, id), now) && now <= later
    requires LeftBehind(DbEntry(db, id), id in intact, now, DbEntry(db1, id))
    requires RecoverTask(DbEntry(db1, id), id in intact, later).Some?
    ensures ResumesAs(db, intact, now, db1, later, id) && RecoverTask(DbEntry(db, id), id in intact, later).Some?
  {
    hide EntryInv, LeftBehind, RecoverTask, RecoverResult;
    LeftBehindRecovers(DbEntry(db, id), id in intact, now, DbEntry(db1, id), later);
    if RecoverTask(DbEntry(db, id), id in intact, later).value.resultExpiresAt > later {
      LeftBehindResult(DbEntry(db, id), id in intact, now, DbEntry(db1, id), later);
    }
  }

  /** What the rows of the resumed opening are, beside those of the direct one. */
  ghost predicate SameIndex(orig: Rows, direct: Rows, resumed: Rows, now: int, later: int) {
    && resumed == direct.(tasks := resumed.tasks)
    && (forall id | id in resumed.tasks ::
          && id in orig.tasks && id in direct.tasks && SameEnd(direct.tasks[id], resumed.tasks[id])
          && (orig.tasks[id].state.Terminal() ==> resumed.tasks[id] == direct.tasks[id] == orig.tasks[id]))
    && (forall id | id in direct.tasks && id !in resumed.tasks ::
          id in orig.tasks && !orig.tasks[id].state.Terminal() && now + HISTORY_RETENTION <= later)
  }

  /** An opening that stopped anywhere, between receipts, in a cleanup or before its last save, followed by one that
      succeeds, leaves the index and the results one opening at the later time would have left: the same requests in
      the same states, with the same completions and retention. Only stamps differ: when an interrupted request was
      ended, and when a delivery in flight was found ambiguous. */
  lemma StoppedOpeningAgrees(db: Db, intact: set<Id>, now: int, db1: Db, later: int, db2: Db, mem: Rows)
    requires DbInv(db, now) && now <= later
    requires OpenStep(db, intact, now, db1, None) && OpenStep(db1, intact, later, db2, Some(mem))
    ensures AllRecover(db, intact, later)
    ensures SameIndex(db.rows, Opened(db, intact, later).mem, mem, now, later)
    ensures forall id | id in mem.tasks && mem.tasks[id].resultExpiresAt > later ::
      SameButTimes(Lookup(db2.results, id), Lookup(Opened(db, intact, later).db.results, id))
  {
    OpenPreserves(db, intact, now, db1, None);
    DbLater(db1, now, later);
    DbLater(db, now, later);
    OpeningIsDetermined(db1, intact, later, db2, mem);
    assert AllRecover(db1, intact, later) by { hide CleanupStep; }
    EachResumes(db, intact, now, db1, later);
    hide DbInv, OpenStep, AllRecover, ResumesAs, Opened, SameIndex, RowsLeft;
    IndexAgrees(db, intact, now, db1, later);
    forall id | id in mem.tasks && mem.tasks[id].resultExpiresAt > later
      ensures SameButTimes(Lookup(db2.results, id), Lookup(Opened(db, intact, later).db.results, id))
    {
      ResultAgrees(db, intact, now, db1, later, id);
    }
  }

  lemma IndexAgrees(db: Db, intact: set<Id>, now: int, db1: Db, later: int)
    requires RowsLeft(db, now, db1) && now <= later
    requires forall id | id in db1.rows.tasks :: ResumesAs(db, intact, now, db1, later, id)
    requires AllRecover(db, intact, later) && DbInv(db, later)
    ensures SameIndex(db.rows, Opened(db, intact, later).mem, Opened(db1, intact, later).mem, now, later)
  {
    hide DbInv, RecoverTask, RecoverResult, Purged, PassDone, ResumesAs, SameIndex, SameEnd;
    var l, l1 := RecoveredRows(db, intact, later), RecoveredRows(db1, intact, later);
    ReceiptsAgree(db.rows, db1.rows, now, later);
    forall id | id in l1.tasks ensures EndedAlike(db.rows.tasks[id], l.tasks[id], l1.tasks[id], now, later) {
      TaskResumes(db, intact, now, db1, later, id);
    }
    forall id | id in l.tasks && id !in l1.tasks ensures HistoryExpired(l.tasks[id], later) {
      RecoveryIdentity(DbEntry(db, id), id in intact, later);
    }
    hide RecentCleared, RecentRejections, RecoveredRows, AllRecover, HistoryExpired;
    assert l.tasks.Keys == db.rows.tasks.Keys && l1.tasks.Keys == db1.rows.tasks.Keys by {
      RecoveredKeys(db, intact, later); RecoveredKeys(db1, intact, later);
    }
    assert l.cleared == db.rows.cleared && l.rejected == db.rows.rejected && l.nextOrder == db.rows.nextOrder by {
      RecoveredKeys(db, intact, later);
    }
    assert l1.cleared == db1.rows.cleared && l1.rejected == db1.rows.rejected && l1.nextOrder == db1.rows.nextOrder by {
      RecoveredKeys(db1, intact, later);
    }
    AlikeAfterCleanup(db.rows, l, l1, now, later);
  }

  lemma RecoveredKeys(db: Db, intact: set<Id>, now: int)
    ensures var l := RecoveredRows(db, intact, now);
      l == db.rows.(tasks := l.tasks) && l.tasks.Keys == db.rows.tasks.Keys
  {
    hide RecoverTask, RecoverResult;
  }

  lemma AlikeAfterCleanup(o: Rows, l: Rows, l1: Rows, now: int, later: int)
    requires l.nextOrder == l1.nextOrder && l1.tasks.Keys <= l.tasks.Keys == o.tasks.Keys
    requires RecentCleared(l1.cleared, later) == RecentCleared(l.cleared, later)
    requires RecentRejections(l1.rejected, later) == RecentRejections(l.rejected, later)
    requires forall id | id in l1.tasks :: EndedAlike(o.tasks[id], l.tasks[id], l1.tasks[id], now, later)
    requires forall id | id in l.tasks && id !in l1.tasks :: HistoryExpired(l.tasks[id], later)
    ensures SameIndex(o, Dropped(ForgetReceipts(l, later), ExpiredIds(l, later)),
        Dropped(ForgetReceipts(l1, later), ExpiredIds(l1, later)), now, later)
  {
    hide SameEnd, RecentCleared, RecentRejections;
    forall id | id in l1.tasks
      ensures HistoryExpired(l.tasks[id], later) ==> HistoryExpired(l1.tasks[id], later)
      ensures !HistoryExpired(l.tasks[id], later) && HistoryExpired(l1.tasks[id], later) ==>
        !o.tasks[id].state.Terminal() && now + HISTORY_RETENTION <= later
    {
      assert EndedAlike(o.tasks[id], l.tasks[id], l1.tasks[id], now, later);
    }
  }

  lemma TaskResumes(db: Db, intact: set<Id>, now: int, db1: Db, later: int, id: Id)
    requires id in db.rows.tasks && id in db1.rows.tasks && ResumesAs(db, intact, now, db1, later, id)
    ensures var t, t1 := RecoveredRows(db, intact, later).tasks[id], RecoveredRows(db1, intact, later).tasks[id];
      && EndedAlike(db.rows.tasks[id], t, t1, now, later)
      && (t.resultExpiresAt > later ==>
            SameButTimes(RecoverResult(DbEntry(db1, id), id in intact, later),
                RecoverResult(DbEntry(db, id), id in intact, later)))
  {
    hide RecoverTask, RecoverResult, SameButTimes;
    RecoveredTask(DbEntry(db, id), id in intact, later);
    RecoveredTask(DbEntry(db1, id), id in intact, later);
  }

  lemma ReceiptsAgree(rows: Rows, rows1: Rows, now: int, later: int)
    requires rows1.cleared == rows.cleared || rows1.cleared == RecentCleared(rows.cleared, now)
    requires rows1.rejected == rows.rejected || rows1.rejected == RecentRejections(rows.rejected, now)
    requires now <= later
    ensures RecentCleared(rows1.cleared, later) == RecentCleared(rows.cleared, later)
    ensures RecentRejections(rows1.rejected, later) == RecentRejections(rows.rejected, later)
  {
  }

  lemma ResultAgrees(db: Db, intact: set<Id>, now: int, db1: Db, later: int, id: Id)
    requires RowsLeft(db, now, db1) && now <= later && DbInv(db, later) && DbInv(db1, later)
    requires id in Opened(db1, intact, later).mem.tasks
    requires Opened(db1, intact, later).mem.tasks[id].resultExpiresAt > later
    requires id in db1.rows.tasks && id in db.rows.tasks && ResumesAs(db, intact, now, db1, later, id)
    requires id in Opened(db, intact, later).mem.tasks
    ensures SameButTimes(Lookup(Opened(db1, intact, later).db.results, id),
        Lookup(Opened(db, intact, later).db.results, id))
  {
    TaskResumes(db, intact, now, db1, later, id);
    OpenedResult(db, intact, later, id);
    OpenedResult(db1, intact, later, id);
    hide RecoverTask, RecoverResult, SameButTimes, PassDone, Purged, DbInv, RowsLeft;
  }

  lemma OpenedResult(db: Db, intact: set<Id>, now: int, id: Id)
    requires DbInv(db, now) && id in db.rows.tasks && id in Opened(db, intact, now).mem.tasks
    requires Opened(db, intact, now).mem.tasks[id].resultExpiresAt > now
    ensures Opened(db, intact, now).mem.tasks[id] == RecoveredRows(db, intact, now).tasks[id]
    ensures Lookup(Opened(db, intact, now).db.results, id) == RecoverResult(DbEntry(db, id), id in intact, now)
  {
    assert EntryInv(DbEntry(db, id), now);
    FullPassEntry(db, intact, now, id);
    RecoveryIdentity(DbEntry(db, id), id in intact, now);
    hide RecoverTask, RecoverResult, EntryInv, ValidRows, OrdersInv, EntriesInv;
  }

  // ---------------------------------------------------------------- what a crash forgets

  lemma InterruptedReason(e: Entry, intact: bool, now: int)
    requires RecoverTask(e, intact, now).Some? && !e.task.state.Terminal()
    requires RecoverTask(e, intact, now).value.state == Interrupted
    ensures RecoverTask(e, intact, now).value.reason == RestartRunning
  {
    hide ValidResult;
  }

  /** A completion of a request in flight survives a crash exactly when it was saved. One that only memory knew is gone:
      the restart interrupts the request and a retry of it is accepted. */
  lemma CrashKeepsSaved(s: Store, now: int, owner: string, id: Id, intact: set<Id>, later: int, db': Db, mem: Rows)
    requires Inv(s, now) && now <= later && Has(s.mem, owner, id) && !s.mem.tasks[id].state.Terminal()
    requires OpenStep(s.db, intact, later, db', Some(mem))
    ensures id in s.db.rows.tasks && Has(mem, owner, id)
    ensures mem.tasks[id].completedAt > 0 <==> s.db.rows.tasks[id].completedAt > 0
    ensures RetryAccepts(mem, owner, id) <==> s.db.rows.tasks[id].completedAt == 0
  {
    var d := OnDisk(s, now, id);
    DbOfInv(s, now);
    hide Inv, OpenStep;
    DbLater(s.db, now, later);
    OpeningIsDetermined(s.db, intact, later, db', mem);
    OpenedAll(s.db, intact, later, db', mem);
    RecoveredInFlight(s.db, intact, later, owner, id);
  }

  lemma DbOfInv(s: Store, now: int)
    requires Inv(s, now)
    ensures DbInv(s.db, now)
  {
  }

  lemma OpenedAll(db: Db, intact: set<Id>, now: int, db': Db, mem: Rows)
    requires OpenStep(db, intact, now, db', Some(mem))
    ensures AllRecover(db, intact, now)
  {
    hide OpenedThrough, AllRecover;
  }

  lemma RecoveredInFlight(db: Db, intact: set<Id>, now: int, owner: string, id: Id)
    requires DbInv(db, now) && AllRecover(db, intact, now)
    requires id in db.rows.tasks && db.rows.tasks[id].owner == owner && !db.rows.tasks[id].state.Terminal()
    ensures var mem := Opened(db, intact, now).mem;
      && Has(mem, owner, id) && (mem.tasks[id].completedAt > 0 <==> db.rows.tasks[id].completedAt > 0)
      && (RetryAccepts(mem, owner, id) <==> db.rows.tasks[id].completedAt == 0)
  {
    var e := DbEntry(db, id);
    assert RecoverTask(e, id in intact, now).Some? && EntryInv(e, now);
    StaysOpened(db, intact, now, id);
    hide RecoverTask, RecoverResult, Opened, EntryInv, DbInv, AllRecover;
    RecoveryKeepsCompletion(e, id in intact, now);
    RecoveryIdentity(e, id in intact, now);
    RecoveredTask(e, id in intact, now);
    if RecoverTask(e, id in intact, now).value.state == Interrupted { InterruptedReason(e, id in intact, now); }
    StoredCompletion(e, now);
  }

  lemma StoredCompletion(e: Entry, now: int)
    requires EntryInv(e, now)
    ensures e.task.completedAt >= 0
  {
  }

  lemma OnDisk(s: Store, now: int, id: Id) returns (d: Task)
    requires Inv(s, now) && id in s.mem.tasks
    ensures id in s.db.rows.tasks && d == s.db.rows.tasks[id] && d.owner == s.mem.tasks[id].owner
    ensures d.state.Terminal() <==> s.mem.tasks[id].state.Terminal()
  {
    hide ValidRows, OrdersInv, EntriesInv;
    d := s.db.rows.tasks[id];
  }

  lemma StaysOpened(db: Db, intact: set<Id>, now: int, id: Id)
    requires DbInv(db, now) && AllRecover(db, intact, now) && id in db.rows.tasks && !db.rows.tasks[id].state.Terminal()
    ensures id in Opened(db, intact, now).mem.tasks
    ensures Opened(db, intact, now).mem.tasks[id] == Recover(DbEntry(db, id), id in intact, now).task
  {
    hide EntryInv, ValidRows, OrdersInv, RecoverTask, RecoverResult, Recover, PassDone, Purged;
    assert EntryInv(DbEntry(db, id), now);
    NotYetOld(DbEntry(db, id), id in intact, now);
  }
}
