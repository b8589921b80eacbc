/** The invariant that relates the index, the tables and the clock, and its preservation by every operation. */
module RequestInvariant {
  import opened Sums
  import opened RequestModel
  import opened RequestSpec

  /** The times and flags of one task; a stamp never lies after the clock (stamps are at least 1). */
  predicate TaskInv(t: Task, now: int) {
    var clock := Max(now, 1);
    && ValidTask(t)
    && t.createdAt == t.startedAt <= clock
    && t.resultBytes <= MAX_RESERVATION
    && (if t.completedAt > 0
        then t.completedAt <= clock && t.resultExpiresAt == t.completedAt + RESULT_RETENTION
        else t.resultExpiresAt == 0)
    && (t.state.Terminal() ==>
          && t.completedAt <= t.finishedAt <= clock
          && t.payloadExpiresAt == t.finishedAt + PAYLOAD_RETENTION)
    && (t.state == Delivering || t.state == Succeeded ==> t.completedAt > 0)
  }

  /** The size of the source data a task was charged for, recovered from its charge. */
  function SubmittedSize(t: Task, i: Input): int {
    t.payloadBytes - MAX_TASK - Charge(i.text, i.token, 0, i.images, i.files)
  }

  /** A pending input may read back as another size than it was submitted with; a prepared one has no source data. */
  predicate InputInv(t: Task, i: Input) {
    && i.source == t.source && |i.images| == t.images && |i.files| == t.files
    && AcceptableSizes(i.text, i.blank, i.token, 0, i.images, i.files)
    && (if t.inputPending then 0 < SubmittedSize(t, i) <= MAX_SOURCE_DATA
        else i.sourceData == 0 && InputCharge(i) == t.payloadBytes)
  }

  predicate CompletionInv(t: Task, c: Completion, now: int) {
    && c.version == 1 && c.reply <= MAX_REPLY
    && t.startedAt <= c.at <= Max(now, 1) && t.completedAt > 0
  }

  predicate ResultInv(t: Task, r: Result, now: int) {
    && ValidResult(r, t.startedAt) && r.frozenAt <= Max(now, 1) && t.completedAt > 0
    && (r.receipt.outcome == Pending ==> r.attempts == [])
  }

  /** When the result row of a task must still be there. */
  predicate NeedsResult(t: Task, now: int) {
    || t.state == Delivering
    || (t.completedAt > 0 && !t.archiveFailed && (!t.state.Terminal() || t.resultExpiresAt > now))
  }

  predicate EntryInv(e: Entry, now: int) {
    && TaskInv(e.task, now)
    && (HasPayload(e.task, now) ==> e.input.Some?)
    && (e.input.Some? ==> InputInv(e.task, e.input.value))
    && (e.completion.Some? ==> CompletionInv(e.task, e.completion.value, now))
    && (e.result.Some? ==> ResultInv(e.task, e.result.value, now))
    && (NeedsResult(e.task, now) ==> e.result.Some?)
  }

  predicate OrdersDiffer(tasks: map<Id, Task>, a: Id, b: Id)
    requires a in tasks && b in tasks
  {
    tasks[a].order != tasks[b].order
  }

  ghost predicate OrdersInv(r: Rows) {
    && (forall id | id in r.tasks :: r.tasks[id].order < r.nextOrder)
    && (forall a, b {:trigger OrdersDiffer(r.tasks, a, b)} | a in r.tasks && b in r.tasks && a != b ::
      OrdersDiffer(r.tasks, a, b))
  }

  ghost predicate EntriesInv(tasks: map<Id, Task>, db: Db, now: int) {
    forall id | id in tasks :: EntryInv(EntryOf(tasks, db, id), now)
  }

  ghost predicate DbInv(db: Db, now: int) {
    && ValidRows(db.rows) && OrdersInv(db.rows)
    && db.inputs.Keys <= db.rows.tasks.Keys
    && db.completions.Keys <= db.rows.tasks.Keys
    && db.results.Keys <= db.rows.tasks.Keys
    && EntriesInv(db.rows.tasks, db, now)
  }

  /** Memory runs ahead of the database only by a completion whose save failed. */
  predicate AgreesTask(m: Task, d: Task) {
    || m == d
    || (&& d.state == Running && m.completedAt > 0
        && m == d.(completedAt := m.completedAt, resultExpiresAt := m.resultExpiresAt, archiveFailed := true,
            resultBytes := m.resultBytes))
  }

  ghost predicate Agrees(mem: Rows, rows: Rows) {
    && mem == rows.(tasks := mem.tasks)
    && mem.tasks.Keys == rows.tasks.Keys
    && (forall id | id in mem.tasks :: AgreesTask(mem.tasks[id], rows.tasks[id]))
  }

  /** Memory may also hold the recovered form of a task whose row is still active. */
  ghost predicate Ahead(mem: Rows, rows: Rows) {
    && mem == rows.(tasks := mem.tasks)
    && mem.tasks.Keys == rows.tasks.Keys
    && (forall id | id in mem.tasks :: mem.tasks[id] == rows.tasks[id] || !rows.tasks[id].state.Terminal())
  }

  /** What holds while recovery is still unsaved: memory and tables are both consistent, memory may be ahead. */
  ghost predicate LoadedInv(s: Store, now: int) {
    && ValidRows(s.mem) && OrdersInv(s.mem)
    && EntriesInv(s.mem.tasks, s.db, now)
    && DbInv(s.db, now)
    && Ahead(s.mem, s.db.rows)
  }

  /** The invariant of a running store. */
  ghost predicate Inv(s: Store, now: int) { LoadedInv(s, now) && Agrees(s.mem, s.db.rows) }

  lemma EntryLater(e: Entry, now: int, later: int)
    requires EntryInv(e, now) && now <= later
    ensures EntryInv(e, later)
  {
  }

  lemma EntriesLater(tasks: map<Id, Task>, db: Db, now: int, later: int)
    requires EntriesInv(tasks, db, now) && now <= later
    ensures EntriesInv(tasks, db, later)
  {
    hide EntryInv;
    forall id | id in tasks ensures EntryInv(EntryOf(tasks, db, id), later) {
      EntryLater(EntryOf(tasks, db, id), now, later);
    }
  }

  lemma InvLater(s: Store, now: int, later: int)
    requires Inv(s, now) && now <= later
    ensures Inv(s, later)
  {
    hide EntryInv, ValidRows, OrdersInv;
    EntriesLater(s.mem.tasks, s.db, now, later);
    EntriesLater(s.db.rows.tasks, s.db, now, later);
  }

  // ---------------------------------------------------------------- saving

  /** After any committed save memory and rows are one, so only the entries are left to check. */
  lemma SavedInv(s: Store, mem: Rows, extra: Extra, now: int)
    requires ValidRows(mem) && OrdersInv(mem)
    requires extra.NoExtra? || extra.id in mem.tasks
    requires EntriesInv(mem.tasks, Saved(s, mem, extra).db, now)
    ensures Inv(Saved(s, mem, extra), now)
  {
    hide EntryInv, ValidRows, OrdersInv;
    var s' := Saved(s, mem, extra);
    assert s'.db.rows == mem;
  }

  /** Saving a part of the index, without other writes. */
  lemma SavePreserves(s: Store, mem: Rows, now: int)
    requires LoadedInv(s, now) && ValidRows(mem)
    requires mem.nextOrder == s.mem.nextOrder
    requires forall id | id in mem.tasks :: id in s.mem.tasks && mem.tasks[id] == s.mem.tasks[id]
    ensures Inv(Saved(s, mem, NoExtra), now)
  {
    hide EntryInv, ValidRows;
    forall a, b | a in mem.tasks && b in mem.tasks && a != b ensures OrdersDiffer(mem.tasks, a, b) {
      assert OrdersDiffer(s.mem.tasks, a, b);
    }
    var s' := Saved(s, mem, NoExtra);
    forall id | id in mem.tasks ensures EntryInv(EntryOf(mem.tasks, s'.db, id), now) {
      EntryOfSaved(s, mem, NoExtra, id);
    }
    SavedInv(s, mem, NoExtra, now);
  }

  /** The entry of a replaced task once the save with `extra` is committed. */
  function EntryAfter(e: Entry, t: Task, extra: Extra): Entry {
    match extra
    case NoExtra => e.(task := t)
    case PutInput(_, i) => e.(task := t, input := Some(i))
    case PutCompletion(_, c) => e.(task := t, completion := Some(c))
    case PutResult(_, r) => e.(task := t, result := Some(r), completion := None)
    case PutReceipts(_, r) =>
      if e.result.Some? then e.(task := t,
          result := Some(e.result.value.(receipt := r.receipt, attempts := r.attempts)))
      else e.(task := t)
  }

  lemma SameEntry(e: Entry)
    ensures EntryAfter(e, e.task, NoExtra) == e
  {
  }

  predicate Touches(extra: Extra, id: Id) { !extra.NoExtra? && extra.id == id }

  lemma EntryOfSaved(s: Store, mem: Rows, extra: Extra, id: Id)
    requires id in mem.tasks && id in s.mem.tasks
    ensures EntryOf(mem.tasks, Saved(s, mem, extra).db, id)
         == EntryAfter(EntryOf(s.mem.tasks, s.db, id), mem.tasks[id], if Touches(extra, id) then extra else NoExtra)
  {
  }

  /** Replacing one task together with the rows of that task alone. */
  lemma ReplacePreserves(s: Store, t: Task, extra: Extra, now: int)
    requires Inv(s, now) && t.id in s.mem.tasks && t.order == s.mem.tasks[t.id].order
    requires ValidRows(PutTask(s.mem, t))
    requires extra.NoExtra? || extra.id == t.id
    requires EntryInv(EntryAfter(EntryOf(s.mem.tasks, s.db, t.id), t, extra), now)
    ensures Inv(Saved(s, PutTask(s.mem, t), extra), now)
  {
    hide EntryInv, ValidRows;
    var mem := PutTask(s.mem, t);
    var s' := Saved(s, mem, extra);
    OrdersOfReplaced(s.mem, t);
    hide Saved, EntryAfter, OrdersInv;
    forall id | id in mem.tasks ensures EntryInv(EntryOf(mem.tasks, s'.db, id), now) {
      EntryOfSaved(s, mem, extra, id);
      if id != t.id {
        SameEntry(EntryOf(s.mem.tasks, s.db, id));
        assert !Touches(extra, id) && mem.tasks[id] == s.mem.tasks[id];
      }
    }
    SavedInv(s, mem, extra, now);
  }

  /** Writing receipts beside an existing result changes no other row. */
  lemma ReceiptsPreserve(s: Store, id: Id, r: Result, now: int)
    requires Inv(s, now) && id in s.db.results && id in s.mem.tasks
    requires ValidResult(r, s.mem.tasks[id].startedAt) && r.receipt.outcome != Pending
    requires r == s.db.results[id].(receipt := r.receipt, attempts := r.attempts)
    ensures Inv(s.(db := Apply(s.db, PutReceipts(id, r))), now)
  {
    hide ValidRows, ValidResult, EntryInv, OrdersInv;
    ReceiptsOfEntries(s.mem.tasks, s.db, id, r, now);
    assert AgreesTask(s.mem.tasks[id], s.db.rows.tasks[id]);
    ReceiptsOfEntries(s.db.rows.tasks, s.db, id, r, now);
  }

  lemma ReceiptsOfEntries(tasks: map<Id, Task>, db: Db, id: Id, r: Result, now: int)
    requires EntriesInv(tasks, db, now) && id in db.results && id in tasks
    requires ValidResult(r, tasks[id].startedAt) && r.receipt.outcome != Pending
    requires r == db.results[id].(receipt := r.receipt, attempts := r.attempts)
    ensures EntriesInv(tasks, Apply(db, PutReceipts(id, r)), now)
  {
    hide TaskInv, ValidResult;
    var db' := Apply(db, PutReceipts(id, r));
    forall k | k in tasks ensures EntryInv(EntryOf(tasks, db', k), now) {
      var e := EntryOf(tasks, db, k);
      assert EntryOf(tasks, db', k) == if k == id then e.(result := Some(r)) else e;
    }
  }

  /** A replacement that keeps owner, source, session and activity cannot break the pairwise rules. */
  lemma KeepsRules(mem: Rows, t: Task)
    requires ValidRows(mem) && t.id in mem.tasks && ValidTask(t)
    requires var o := mem.tasks[t.id];
      t.owner == o.owner && t.source == o.source && KeyOf(t) == KeyOf(o)
        && (!t.state.Terminal() ==> !o.state.Terminal())
    ensures ValidRows(PutTask(mem, t))
  {
    hide KeyOf, ValidTask;
    var mem' := PutTask(mem, t);
    forall a, b | a in mem'.tasks && b in mem'.tasks && a != b ensures Apart(mem'.tasks, a, b) {
      assert Apart(mem.tasks, a, b);
    }
    forall owner: string ensures |OwnedIds(mem'.tasks, owner)| <= MAX_RECORDS {
      assert OwnedIds(mem'.tasks, owner) == OwnedIds(mem.tasks, owner);
    }
  }

  // ---------------------------------------------------------------- one lemma for each operation

  lemma NewEntry(i: StartInput, id: Id, order: int, now: int)
    requires ValidTask(NewTask(i, id, order, now)) && AcceptableInput(i)
    ensures EntryInv(Entry(NewTask(i, id, order, now), Some(InputOf(i)), None, None), now)
    ensures NewTask(i, id, order, now).order == order && NewTask(i, id, order, now).id == id
  {
  }

  lemma AdmittedAcceptable(mem: Rows, i: StartInput, now: int)
    requires Admits(mem, i, now)
    ensures AcceptableInput(i)
  {
  }

  lemma OrdersOfNew(mem: Rows, t: Task)
    requires OrdersInv(mem) && t.id !in mem.tasks && t.order == mem.nextOrder
    ensures OrdersInv(WithNewTask(mem, t))
  {
    var mem' := WithNewTask(mem, t);
    forall a, b | a in mem'.tasks && b in mem'.tasks && a != b ensures OrdersDiffer(mem'.tasks, a, b) {
      if a != t.id && b != t.id { assert OrdersDiffer(mem.tasks, a, b); }
    }
  }

  lemma EntriesOfNew(s: Store, t: Task, input: Input, now: int)
    requires EntriesInv(s.mem.tasks, s.db, now) && t.id !in s.mem.tasks
    requires s.db.completions.Keys + s.db.results.Keys <= s.mem.tasks.Keys
    requires EntryInv(Entry(t, Some(input), None, None), now)
    ensures var mem := WithNewTask(s.mem, t); EntriesInv(mem.tasks, Saved(s, mem, PutInput(t.id, input)).db, now)
  {
    hide EntryInv;
    var mem := WithNewTask(s.mem, t);
    var db := Saved(s, mem, PutInput(t.id, input)).db;
    forall k | k in mem.tasks ensures EntryInv(EntryOf(mem.tasks, db, k), now) {
      if k != t.id {
        EntryOfSaved(s, mem, PutInput(t.id, input), k);
        SameEntry(EntryOf(s.mem.tasks, s.db, k));
      } else {
        assert EntryOf(mem.tasks, db, k) == Entry(t, Some(input), None, None);
      }
    }
  }

  lemma StartPreserves(s: Store, i: StartInput, id: Id, now: int)
    requires Inv(s, now) && id !in s.mem.tasks && Admits(s.mem, i, now)
    requires ValidRows(WithNewTask(s.mem, NewTask(i, id, s.mem.nextOrder, now)))
    ensures Inv(Started(s, i, id, now), now)
  {
    AdmittedAcceptable(s.mem, i, now);
    hide EntryInv, Admits, OrdersInv, EntriesInv;
    var t := NewTask(i, id, s.mem.nextOrder, now);
    var mem := WithNewTask(s.mem, t);
    assert ValidTask(t) by { assert mem.tasks[id] == t; }
    hide ValidRows;
    NewEntry(i, id, s.mem.nextOrder, now);
    hide NewTask;
    OrdersOfNew(s.mem, t);
    EntriesOfNew(s, t, InputOf(i), now);
    SavedInv(s, mem, PutInput(id, InputOf(i)), now);
  }

  lemma RejectPreserves(s: Store, r: Rejection, now: int, s': Store, ok: bool)
    requires Inv(s, now) && RejectStep(s, r, now, s', ok)
    ensures Inv(s', now)
  {
    hide EntryInv, ValidRows;
    if s' != s {
      SavePreserves(s, WithRejection(s.mem, r, now), now);
    }
  }

  lemma ReleasePreserves(s: Store, owner: string, id: Id, now: int, s': Store, ok: bool)
    requires Inv(s, now) && ReleaseStep(s, owner, id, s', ok)
    ensures Inv(s', now)
  {
    hide EntryInv, ValidRows;
    if ok {
      SavePreserves(s, WithoutTask(s.mem, id), now);
    }
  }

  lemma FrozenSize(r: Result, startedAt: int)
    requires ValidResult(r, startedAt)
    ensures ResultSize(r) <= MAX_RESERVATION && r.frozenAt >= startedAt
  {
  }

  lemma RecordedShape(r: Result, receipt: Receipt)
    requires Recorded(r, receipt).Some?
    ensures var r' := Recorded(r, receipt).value;
      r' == r.(receipt := receipt, attempts := r'.attempts)
  {
  }

  lemma FreezeEntry(e: Entry, r: Result, now: int)
    requires EntryInv(e, now) && Changed(e, Freeze(r), now).Some? && ValidTask(FrozenTask(e.task, r))
    ensures EntryInv(EntryAfter(e, FrozenTask(e.task, r), PutResult(e.task.id, r)), now)
  {
    FrozenSize(r, e.task.startedAt);
    hide ValidResult, Charge, ResultSize;
  }

  lemma DeliverEntry(e: Entry, receipt: Receipt, now: int)
    requires EntryInv(e, now) && Changed(e, Deliver(receipt), now).Some?
    requires ValidTask(Changed(e, Deliver(receipt), now).value.0)
    ensures EntryInv(EntryAfter(e, Changed(e, Deliver(receipt), now).value.0,
        Changed(e, Deliver(receipt), now).value.1), now)
  {
    hide ValidResult, Charge;
    var r := Recorded(e.result.value, receipt).value;
    RecordedShape(e.result.value, receipt);
    hide Recorded;
    assert Transitioned(e.task, Succeeded, NoReason, now).Some?;
  }

  lemma MovedEntry(e: Entry, next: State, reason: Reason, now: int)
    requires EntryInv(e, now) && Changed(e, Transition(next, reason), now).Some?
    requires ValidTask(Changed(e, Transition(next, reason), now).value.0)
    ensures EntryInv(e.(task := Changed(e, Transition(next, reason), now).value.0), now)
  {
    hide ValidResult, Charge, AcceptableSizes;
  }

  lemma CompletedEntry(e: Entry, reply: nat, now: int)
    requires EntryInv(e, now) && Changed(e, Complete(reply), now).Some?
    requires ValidTask(Changed(e, Complete(reply), now).value.0)
    ensures EntryInv(EntryAfter(e, Changed(e, Complete(reply), now).value.0,
        Changed(e, Complete(reply), now).value.1), now)
  {
    hide ValidResult, Charge, AcceptableSizes;
  }

  lemma PreparedEntry(e: Entry, text: nat, blank: bool, images: seq<nat>, files: seq<nat>, now: int)
    requires EntryInv(e, now) && Changed(e, Prepare(text, blank, images, files), now).Some?
    requires ValidTask(Changed(e, Prepare(text, blank, images, files), now).value.0)
    ensures var c := Changed(e, Prepare(text, blank, images, files), now).value; EntryInv(EntryAfter(e, c.0, c.1), now)
  {
    hide ValidResult, Charge;
  }

  /** The heart of the invariant: no change of one task breaks the consistency of its own rows. */
  lemma ChangePreservesEntry(e: Entry, change: Change, now: int)
    requires EntryInv(e, now) && Changed(e, change, now).Some?
    requires ValidTask(Changed(e, change, now).value.0)
    ensures EntryInv(EntryAfter(e, Changed(e, change, now).value.0, Changed(e, change, now).value.1), now)
  {
    match change
    case Freeze(r) => FreezeEntry(e, r, now);
    case Deliver(receipt) => DeliverEntry(e, receipt, now);
    case Transition(next, reason) => MovedEntry(e, next, reason, now);
    case Complete(reply) => CompletedEntry(e, reply, now);
    case Prepare(text, blank, images, files) => PreparedEntry(e, text, blank, images, files, now);
    case _ =>
      hide ValidResult, Charge, AcceptableSizes;
  }

  lemma ChangeStepPreserves(s: Store, owner: string, id: Id, change: Change, now: int, s': Store, ok: bool)
    requires Inv(s, now) && ChangeStep(s, owner, id, change, now, s', ok)
    ensures Inv(s', now)
  {
    hide EntryInv, DbInv, Agrees, EntriesInv, Saved, Changed;
    if ok {
      ChangePreserves(s, id, change, now);
    }
  }

  lemma ChangePreserves(s: Store, id: Id, change: Change, now: int)
    requires Inv(s, now) && id in s.mem.tasks
    requires Changed(EntryOf(s.mem.tasks, s.db, id), change, now).Some?
    requires ValidRows(PutTask(s.mem, Changed(EntryOf(s.mem.tasks, s.db, id), change, now).value.0))
    ensures var c := Changed(EntryOf(s.mem.tasks, s.db, id), change, now).value;
      Inv(Saved(s, PutTask(s.mem, c.0), c.1), now)
  {
    var e := EntryOf(s.mem.tasks, s.db, id);
    var c := Changed(e, change, now).value;
    ChangedIdentity(e, change, now);
    assert ValidTask(c.0) by { assert PutTask(s.mem, c.0).tasks[c.0.id] == c.0; }
    assert s.mem.tasks[id].id == id;
    hide Changed, EntryInv, ValidRows;
    ChangePreservesEntry(e, change, now);
    ReplacePreserves(s, c.0, c.1, now);
  }

  /** A change never touches who a task is, where it came from or where it stands in the order. */
  lemma ChangedIdentity(e: Entry, change: Change, now: int)
    requires Changed(e, change, now).Some?
    ensures var c := Changed(e, change, now).value;
      && c.0.id == e.task.id && c.0.order == e.task.order && c.0.source == e.task.source && c.0.owner == e.task.owner
      && (c.1.NoExtra? || c.1.id == e.task.id)
      && (e.task.state.Terminal() ==> c.0.state.Terminal() && c.0.finishedAt == e.task.finishedAt)
  {
  }

  lemma RowsById(mem: Rows, id: Id)
    requires ValidRows(mem) && id in mem.tasks
    ensures mem.tasks[id].id == id
  {
  }

  lemma CompletePreserves(s: Store, owner: string, id: Id, reply: nat, now: int, s': Store, ok: bool)
    requires Inv(s, now) && CompleteStep(s, owner, id, reply, now, s', ok)
    ensures Inv(s', now)
  {
    hide EntryInv, DbInv, Agrees, EntriesInv, ValidRows, ChangeStep;
    if ok {
      ChangeStepPreserves(s, owner, id, Complete(reply), now, s', true);
    } else if CanComplete(s.mem, owner, id, reply) {
      MemoryCompletionPreserves(s, id, reply, now);
    }
  }

  lemma MemoryCompletionEntry(e: Entry, reply: nat, now: int)
    requires EntryInv(e, now) && e.task.state == Running && reply <= MAX_REPLY
    ensures EntryInv(e.(task := CompletedTask(e.task, reply, now)), now) && ValidTask(CompletedTask(e.task, reply, now))
    ensures e.task.startedAt >= 1
  {
    hide ValidResult, Charge;
  }

  /** The completion that only memory knows keeps every rule, so later saves are not refused. */
  lemma MemoryCompletionPreserves(s: Store, id: Id, reply: nat, now: int)
    requires Inv(s, now) && id in s.mem.tasks && s.mem.tasks[id].state == Running && reply <= MAX_REPLY
    ensures Inv(s.(mem := PutTask(s.mem, CompletedTask(s.mem.tasks[id], reply, now))), now)
  {
    hide EntryInv, DbInv, ValidTask;
    RowsById(s.mem, id);
    hide ValidRows;
    var e := EntryOf(s.mem.tasks, s.db, id);
    var t := CompletedTask(e.task, reply, now);
    MemoryCompletionEntry(e, reply, now);
    KeepsRules(s.mem, t);
    MemoryCompletionAgrees(e.task, s.db.rows.tasks[id], reply, now);
    hide CompletedTask, AgreesTask;
    EntriesOfReplaced(s.mem.tasks, s.db, t, now);
    OrdersOfReplaced(s.mem, t);
    AgreesReplaced(s.mem, s.db.rows, t);
    hide EntriesInv, OrdersInv, Ahead, Agrees;
  }

  lemma AgreesReplaced(mem: Rows, rows: Rows, t: Task)
    requires Agrees(mem, rows) && Ahead(mem, rows) && t.id in mem.tasks
    requires AgreesTask(t, rows.tasks[t.id]) && !rows.tasks[t.id].state.Terminal()
    ensures Agrees(PutTask(mem, t), rows) && Ahead(PutTask(mem, t), rows)
  {
    hide AgreesTask;
  }

  lemma EntriesOfReplaced(tasks: map<Id, Task>, db: Db, t: Task, now: int)
    requires EntriesInv(tasks, db, now) && t.id in tasks
    requires EntryInv(EntryOf(tasks, db, t.id).(task := t), now)
    ensures EntriesInv(tasks[t.id := t], db, now)
  {
    hide EntryInv;
    var tasks' := tasks[t.id := t];
    forall k | k in tasks' ensures EntryInv(EntryOf(tasks', db, k), now) {
      assert EntryOf(tasks', db, k) == if k == t.id then EntryOf(tasks, db, k).(task := t) else EntryOf(tasks, db, k);
    }
  }

  lemma OrdersOfReplaced(mem: Rows, t: Task)
    requires OrdersInv(mem) && t.id in mem.tasks && t.order == mem.tasks[t.id].order
    ensures OrdersInv(PutTask(mem, t))
  {
    var mem' := PutTask(mem, t);
    forall a, b | a in mem'.tasks && b in mem'.tasks && a != b ensures OrdersDiffer(mem'.tasks, a, b) {
      assert OrdersDiffer(mem.tasks, a, b);
    }
  }

  lemma MemoryCompletionAgrees(m: Task, d: Task, reply: nat, now: int)
    requires AgreesTask(m, d) && m.state == Running
    requires now >= 1 || m.startedAt >= 1
    ensures var t := CompletedTask(m, reply, now);
      AgreesTask(t, d) && t.id == m.id && t.order == m.order && !d.state.Terminal()
  {
  }

  lemma DeliveryReceiptPreserves(s: Store, id: Id, receipt: Receipt, now: int)
    requires Inv(s, now) && id in s.mem.tasks && Readable(s.db, id, s.mem.tasks[id].startedAt)
    requires receipt.outcome != Pending && Recorded(s.db.results[id], receipt).Some?
    requires ValidResult(Recorded(s.db.results[id], receipt).value, s.mem.tasks[id].startedAt)
    ensures Inv(s.(db := Apply(s.db, PutReceipts(id, Recorded(s.db.results[id], receipt).value))), now)
  {
    hide EntryInv, ValidRows, ValidResult, DbInv, Agrees;
    RecordedShape(s.db.results[id], receipt);
    ReceiptsPreserve(s, id, Recorded(s.db.results[id], receipt).value, now);
  }

  lemma RecordPreserves(s: Store, owner: string, id: Id, receipt: Receipt, complete: bool, now: int, s': Store,
                        ok: bool)
    requires Inv(s, now) && RecordStep(s, owner, id, receipt, complete, now, s', ok)
    ensures Inv(s', now)
  {
    hide EntryInv, ValidResult, Recorded, DbInv, Agrees, EntriesInv, ChangeStep, ValidRows;
    if ok && complete {
      ChangeStepPreserves(s, owner, id, Deliver(receipt), now, s', true);
    } else if ok {
      DeliveryReceiptPreserves(s, id, receipt, now);
    }
  }

  lemma RedeliverPreserves(s: Store, owner: string, id: Id, operation: string, now: int, intact: set<Id>, s': Store,
                           out: Redelivery)
    requires Inv(s, now) && RedeliverStep(s, owner, id, operation, now, intact, s', out)
    ensures Inv(s', now)
  {
    if out == Fresh {
      RedeliveredValid(s.db.results[id], operation, s.mem.tasks[id].startedAt, now);
      hide EntryInv, ValidRows;
      ReceiptsPreserve(s, id, Redelivered(s.db.results[id], operation, now), now);
    }
  }

  /** Registering a new operation keeps the attempts distinct, bounded and never pending. */
  lemma RedeliveredValid(r: Result, operation: string, startedAt: int, now: int)
    requires ValidResult(r, startedAt) && |r.attempts| < MAX_ATTEMPTS && operation !in Operations(r.attempts)
    requires r.frozenAt >= 0
    ensures ValidResult(Redelivered(r, operation, now), startedAt)
  {
    var r' := Redelivered(r, operation, now);
    forall i, j | 0 <= i < j < |r'.attempts| ensures r'.attempts[i].operation != r'.attempts[j].operation {
      assert r'.attempts[i] == r.attempts[i];
      assert r.attempts[i].operation in Operations(r.attempts);
    }
  }

  // ---------------------------------------------------------------- cleanup

  /** Dropping tasks and receipts from a valid index leaves it valid: cleanup is never refused by validation. */
  lemma SubsetValid(mem: Rows, gone: set<Id>, now: int)
    requires ValidRows(mem)
    ensures ValidRows(ForgetReceipts(mem, now).(tasks := mem.tasks - gone))
  {
    hide ValidTask, Compatible;
    var rest := mem.tasks - gone;
    forall a, b | a in rest && b in rest && a != b ensures Apart(rest, a, b) {
      assert Apart(mem.tasks, a, b);
    }
    forall owner: string ensures |OwnedIds(rest, owner)| <= MAX_RECORDS {
      SubsetSize(OwnedIds(rest, owner), OwnedIds(mem.tasks, owner));
    }
  }

  lemma {:induction false} SubsetSize<T>(a: set<T>, b: set<T>)
    requires a <= b
    ensures |a| <= |b|
  {
    if a != {} {
      var x :| x in a;
      SubsetSize(a - {x}, b - {x});
    }
  }

  /** Purging deletes only rows that no consistency rule asks for any more. */
  lemma PurgedEntry(e: Entry, d: Task, now: int)
    requires EntryInv(e, now) && (e.task == d || !d.state.Terminal())
    ensures EntryInv(e.(input := if InputExpired(d, now) then None else e.input,
                        completion := if ResultExpired(d, now) then None else e.completion,
                        result := if ResultExpired(d, now) then None else e.result), now)
  {
  }

  lemma PurgedEntries(tasks: map<Id, Task>, db: Db, now: int)
    requires EntriesInv(tasks, db, now) && tasks.Keys == db.rows.tasks.Keys
    requires forall id | id in tasks :: tasks[id] == db.rows.tasks[id] || !db.rows.tasks[id].state.Terminal()
    ensures EntriesInv(tasks, Purged(db, now), now)
  {
    hide EntryInv;
    forall id | id in tasks ensures EntryInv(EntryOf(tasks, Purged(db, now), id), now) {
      PurgedEntry(EntryOf(tasks, db, id), db.rows.tasks[id], now);
    }
  }

  lemma PurgePreserves(s: Store, now: int)
    requires LoadedInv(s, now)
    ensures LoadedInv(s.(db := Purged(s.db, now)), now)
  {
    hide EntryInv, ValidRows, OrdersInv;
    PurgedEntries(s.mem.tasks, s.db, now);
    PurgedEntries(s.db.rows.tasks, s.db, now);
  }

  lemma CleanedPreserves(s: Store, gone: set<Id>, now: int, s': Store, ok: bool)
    requires LoadedInv(s, now) && CleanedBy(s, gone, now, s', ok)
    ensures LoadedInv(s', now)
    ensures Agrees(s.mem, s.db.rows) ==> Agrees(s'.mem, s'.db.rows)
  {
    hide EntryInv, ValidRows, OrdersInv, EntriesInv;
    PurgePreserves(s, now);
    var purged := s.(db := Purged(s.db, now));
    var forgotten := ForgetReceipts(s.mem, now);
    var rest := forgotten.(tasks := forgotten.tasks - gone);
    if rest != s.mem {
      SavePreserves(purged, rest, now);
    }
  }

  /** Cleanup keeps the invariant wherever it stops, also when it runs over a freshly recovered index. */
  lemma CleanupPreserves(s: Store, now: int, s': Store, ok: bool)
    requires LoadedInv(s, now) && CleanupStep(s, now, s', ok)
    ensures LoadedInv(s', now)
    ensures Agrees(s.mem, s.db.rows) ==> Agrees(s'.mem, s'.db.rows)
  {
    hide EntryInv, ValidRows, CleanedBy, OrdersInv, EntriesInv;
    PurgePreserves(s, now);
    if gone :| CleanedBy(s, gone, now, s', ok) {
      CleanedPreserves(s, gone, now, s', ok);
    }
  }
}
