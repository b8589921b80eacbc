/** What each operation of the request store does, as functions and relations on rows and tables. */
module RequestSpec {
  import opened Sums
  import opened RequestModel

  /** The running store: the index in memory and the database below it. */
  datatype Store = Store(mem: Rows, db: Db)

  // ---------------------------------------------------------------- transactions

  /** The row writes an operation adds to the transaction that saves the index. */
  datatype Extra =
    | NoExtra
    | PutInput(id: Id, input: Input)
    | PutCompletion(id: Id, completion: Completion)
    | PutResult(id: Id, result: Result)
    | PutReceipts(id: Id, receipts: Result)

  function Keep<V>(table: map<Id, V>, ids: set<Id>): map<Id, V> {
    map id | id in table && id in ids :: table[id]
  }

  /** Rewrites the index rows; deleting a request row cascades to the tables that refer to it. */
  function Flush(db: Db, rows: Rows): Db {
    var ids := rows.tasks.Keys;
    Db(rows, Keep(db.inputs, ids), Keep(db.completions, ids), Keep(db.results, ids))
  }

  /** Receipt rows refer to a result row, so they can only be written beside one. */
  function WithReceipts(results: map<Id, Result>, id: Id, r: Result): map<Id, Result> {
    if id in results then results[id := results[id].(receipt := r.receipt, attempts := r.attempts)] else results
  }

  function Apply(db: Db, extra: Extra): Db {
    match extra
    case NoExtra => db
    case PutInput(id, input) => db.(inputs := db.inputs[id := input])
    case PutCompletion(id, c) => db.(completions := db.completions[id := c])
    case PutResult(id, r) => db.(results := db.results[id := r], completions := db.completions - {id})
    case PutReceipts(id, r) => db.(results := WithReceipts(db.results, id, r))
  }

  /** A committed save of the index `mem` together with `extra`. */
  function Saved(s: Store, mem: Rows, extra: Extra): Store { Store(mem, Apply(Flush(s.db, mem), extra)) }

  function PutTask(mem: Rows, t: Task): Rows { mem.(tasks := mem.tasks[t.id := t]) }

  predicate Has(mem: Rows, owner: string, id: Id) { id in mem.tasks && mem.tasks[id].owner == owner }

  /** The task was replaced and the index saved with `extra`. */
  ghost predicate Replaces(s: Store, t: Task, extra: Extra, s': Store) {
    ValidRows(PutTask(s.mem, t)) && s' == Saved(s, PutTask(s.mem, t), extra)
  }

  // ---------------------------------------------------------------- admission

  ghost predicate SourceTaken(mem: Rows, source: string) {
    exists id :: id in mem.tasks && mem.tasks[id].source == source
  }

  predicate Holds(t: Task, key: string) { !t.state.Terminal() && KeyOf(t) == key }

  ghost predicate SessionTaken(mem: Rows, key: string) { exists id :: id in mem.tasks && Holds(mem.tasks[id], key) }

  /** No source data, or source data the tables can hold. */
  predicate Storable(i: StartInput) { i.sourceData == 0 || i.reread.Some? }

  /** The stored input, by what it reads back as. */
  function InputOf(i: StartInput): Input {
    Input(i.source, i.text, i.blank, i.token, if i.sourceData > 0 && i.reread.Some? then i.reread.value else 0,
          i.images, i.files)
  }

  ghost predicate RoomForResult(mem: Rows, now: int) {
    ReservedBytes(mem.tasks, now) + MAX_RESERVATION <= MAX_RESULT_STORE
  }

  ghost predicate RoomForInput(mem: Rows, i: StartInput, now: int) {
    PayloadBytes(mem.tasks, now) + SubmittedCharge(i) <= MAX_INPUT_STORE
  }

  /** Every check a new instruction must pass before it becomes a task. */
  ghost predicate Admits(mem: Rows, i: StartInput, now: int) {
    && AcceptableInput(i)
    && !SourceTaken(mem, i.source)
    && i.source !in mem.cleared
    && |OwnedIds(mem.tasks, i.owner)| < MAX_RECORDS
    && i.source !in mem.rejected
    && !SessionTaken(mem, SessionKey(i.owner, i.target, i.thread))
    && RoomForResult(mem, now)
    && RoomForInput(mem, i, now)
  }

  function NewTask(i: StartInput, id: Id, order: int, now: int): Task {
    Task(id, i.source, i.owner, i.target, i.thread, "", i.retryOf,
         Running, NoReason, i.sourceData > 0, false, 0, 0, 0,
         order, Max(now, 1), Max(now, 1), 0, 0, |i.images|, |i.files|, SubmittedCharge(i))
  }

  function WithNewTask(mem: Rows, t: Task): Rows { PutTask(mem, t).(nextOrder := mem.nextOrder + 1) }

  function Started(s: Store, i: StartInput, id: Id, now: int): Store {
    Saved(s, WithNewTask(s.mem, NewTask(i, id, s.mem.nextOrder, now)), PutInput(id, InputOf(i)))
  }

  datatype StartOutcome =
    | Created(task: Task)
    | Existing(task: Task)
    | AlreadyCleared
    | AlreadyRejected
    | SessionBusy
    | NoCapacity
    | Refused

  /** Admission after expired records were cleaned up. */
  ghost predicate StartStep(s: Store, i: StartInput, id: Id, now: int, s': Store, out: StartOutcome) {
    match out
    case Created(t) =>
      && Admits(s.mem, i, now) && Storable(i) && id !in s.mem.tasks
      && t == NewTask(i, id, s.mem.nextOrder, now) && ValidRows(WithNewTask(s.mem, t))
      && s' == Started(s, i, id, now)
    case Existing(t) => s' == s && t.id in s.mem.tasks && s.mem.tasks[t.id] == t && t.source == i.source
    case AlreadyCleared => s' == s && i.source in s.mem.cleared
    case AlreadyRejected => s' == s && i.source in s.mem.rejected
    case SessionBusy =>
      && !SourceTaken(s.mem, i.source) && i.source !in s.mem.cleared && i.source !in s.mem.rejected
      && exists busy: Id :: busy in s.mem.tasks
           && Holds(s.mem.tasks[busy], SessionKey(i.owner, i.target, i.thread))
           && RejectStep(s, BusyReceipt(i, s.mem.tasks[busy]), now, s', true)
    case NoCapacity => s' == s
    case Refused => s' == s
  }

  /** The order of the checks after the cleanup, and the one answer each of them gives. Only a session that is taken,
      whose receipt may not be saved, and a start that passed every check, whose files or rows may not be saved, leave
      two answers. */
  ghost predicate Answers(mem: Rows, i: StartInput, now: int, out: StartOutcome) {
    if SourceTaken(mem, i.source) then out.Existing?
    else if i.source in mem.cleared then out == AlreadyCleared
    else if |OwnedIds(mem.tasks, i.owner)| >= MAX_RECORDS then out == NoCapacity
    else if i.source in mem.rejected then out == AlreadyRejected
    else if SessionTaken(mem, SessionKey(i.owner, i.target, i.thread)) then out == SessionBusy || out == Refused
    else if !RoomForResult(mem, now) || !RoomForInput(mem, i, now) then out == NoCapacity
    else out.Created? || out == Refused
  }

  // ---------------------------------------------------------------- rejection and clearing

  function BusyReceipt(i: StartInput, running: Task): Rejection {
    Rejection(i.source, i.owner, i.target, running.thread, running.id, "", 0)
  }

  predicate Recent(at: int, now: int) { at > now - HISTORY_RETENTION }

  function RecentRejections(rejected: map<string, Rejection>, now: int): map<string, Rejection> {
    map k | k in rejected && Recent(rejected[k].at, now) :: rejected[k]
  }

  function RecentCleared(cleared: map<string, Cleared>, now: int): map<string, Cleared> {
    map k | k in cleared && Recent(cleared[k].at, now) :: cleared[k]
  }

  function WithRejection(mem: Rows, r: Rejection, now: int): Rows {
    mem.(rejected := RecentRejections(mem.rejected, now)[r.source := r.(at := now)])
  }

  ghost predicate RejectStep(s: Store, r: Rejection, now: int, s': Store, ok: bool) {
    if r.source in s.mem.rejected then s' == s && ok
    else if ok then ValidRows(WithRejection(s.mem, r, now)) && s' == Saved(s, WithRejection(s.mem, r, now), NoExtra)
    else s' == s
  }

  function WithoutTask(mem: Rows, id: Id): Rows
    requires id in mem.tasks
  {
    var t := mem.tasks[id];
    mem.(tasks := mem.tasks - {id},
         cleared := mem.cleared[t.source := Cleared(t.owner, id, t.state, t.completedAt, t.finishedAt)])
  }

  ghost predicate ReleaseStep(s: Store, owner: string, id: Id, s': Store, ok: bool) {
    if ok then
      && Has(s.mem, owner, id) && s.mem.tasks[id].state.Terminal()
      && ValidRows(WithoutTask(s.mem, id)) && s' == Saved(s, WithoutTask(s.mem, id), NoExtra)
    else s' == s
  }

  // ---------------------------------------------------------------- lifecycle

  predicate AllowedTransition(current: State, next: State) {
    match current
    case Running => next == Delivering || next == Failed || next == Interrupted || next == State.Cancelled
    case Delivering => next == Succeeded || next == Failed || next == Interrupted
    case _ => false
  }

  /** A recorded completion turns every terminal request into success, except a cancel, which it refuses. */
  function Resolve(t: Task, next: State, reason: Reason): Option<(State, Reason)> {
    if t.completedAt > 0 && next.Terminal() then
      if next == State.Cancelled || t.state.Terminal() then None
      else Some((Succeeded, if t.archiveFailed then ResultFreezeFailed else NoReason))
    else if AllowedTransition(t.state, next) then Some((next, reason))
    else None
  }

  function Moved(t: Task, next: State, reason: Reason, now: int): Task {
    var t' := t.(state := next, reason := reason);
    if next.Terminal() then
      var finished := Max(now, Max(t.startedAt, t.createdAt));
      t'.(finishedAt := finished, payloadExpiresAt := finished + PAYLOAD_RETENTION)
    else t'
  }

  function Transitioned(t: Task, next: State, reason: Reason, now: int): Option<Task> {
    match Resolve(t, next, reason)
    case None => None
    case Some(target) => Some(Moved(t, target.0, target.1, now))
  }

  function TaskAt(mem: Rows, owner: string, id: Id): Option<Task> {
    if Has(mem, owner, id) then Some(mem.tasks[id]) else None
  }

  function WithTurn(t: Task, turn: string): Option<Task> {
    if t.turn != "" || turn == "" then None else Some(t.(turn := turn))
  }

  function WithThread(t: Task, thread: string): Option<Task> {
    if t.state == Running && thread != "" && (t.thread == "" || t.thread == thread) then Some(t.(thread := thread))
    else None
  }

  /** Downloaded attachments replace the reserved charge by the real one. */
  function Prepared(t: Task, token: nat, text: nat, images: seq<nat>, files: seq<nat>): Task {
    t.(inputPending := false, images := |images|, files := |files|,
       payloadBytes := Charge(text, token, 0, images, files))
  }

  predicate CanPrepare(t: Task, text: nat, blank: bool, images: seq<nat>, files: seq<nat>) {
    && t.state == Running && t.inputPending
    && AcceptableSizes(text, blank, 0, 0, images, files)
    && SumOf(images) + SumOf(files) <= MAX_TASK
  }

  // ---------------------------------------------------------------- completion and result

  predicate CanComplete(mem: Rows, owner: string, id: Id, reply: nat) {
    Has(mem, owner, id) && mem.tasks[id].state == Running && reply <= MAX_REPLY
  }

  function CompletionTime(t: Task, now: int): int { Max(now, t.startedAt) }

  function CompletedTask(t: Task, reply: nat, now: int): Task {
    var at := CompletionTime(t, now);
    t.(completedAt := at, resultExpiresAt := at + RESULT_RETENTION, archiveFailed := true,
        resultBytes := MAX_TASK + reply)
  }

  function FrozenResult(t: Task, reply: nat, blank: bool, artifacts: seq<nat>, urls: nat, now: int): Result {
    Result(2, reply, blank, artifacts, urls, Max(now, t.startedAt), PENDING, [])
  }

  function FrozenTask(t: Task, r: Result): Task {
    var at := if t.completedAt == 0 then r.frozenAt else t.completedAt;
    t.(completedAt := at, archiveFailed := false, resultExpiresAt := at + RESULT_RETENTION,
        resultBytes := ResultSize(r),
       reason := if t.state == Succeeded then NoReason else t.reason)
  }

  /** A stored result that passes its checks; `intact` names the tasks whose artifact files still verify. */
  predicate Readable(db: Db, id: Id, startedAt: int) { id in db.results && ValidResult(db.results[id], startedAt) }

  predicate Loadable(db: Db, id: Id, startedAt: int, intact: set<Id>) {
    Readable(db, id, startedAt) && (db.results[id].artifacts == [] || id in intact)
  }

  // ---------------------------------------------------------------- delivery receipts

  /** The place of the registered attempt with this operation number. */
  function AttemptIndex(attempts: seq<Receipt>, operation: string): (i: Option<nat>)
    ensures i.Some? ==> i.value < |attempts| && attempts[i.value].operation == operation
    ensures i.None? ==> operation !in Operations(attempts)
  {
    if attempts == [] then None
    else if attempts[0].operation == operation then Some(0)
    else match AttemptIndex(attempts[1..], operation)
      case Some(i) => Some(i + 1)
      case None =>
        assert attempts == [attempts[0]] + attempts[1..];
        None
  }

  function Recorded(r: Result, receipt: Receipt): Option<Result> {
    if receipt.operation != "" then
      match AttemptIndex(r.attempts, receipt.operation)
      case Some(i) => Some(r.(attempts := r.attempts[i := receipt], receipt := receipt))
      case None => None
    else if r.attempts == [] then Some(r.(attempts := [receipt], receipt := receipt))
    else Some(r.(receipt := receipt))
  }

  predicate CanRecord(s: Store, owner: string, id: Id, receipt: Receipt, complete: bool, now: int) {
    && Has(s.mem, owner, id)
    && var t := s.mem.tasks[id];
    && t.completedAt != 0 && t.resultExpiresAt > now
    && (complete ==> t.state == Delivering && receipt.operation == "")
    && Readable(s.db, id, t.startedAt)
    && receipt.outcome != Pending && receipt.attemptedAt != 0
    && Recorded(s.db.results[id], receipt).Some?
    && ValidResult(Recorded(s.db.results[id], receipt).value, t.startedAt)
  }

  function Redelivered(r: Result, operation: string, now: int): Result {
    var receipt := Receipt(operation, Ambiguous, Max(now, r.frozenAt), 0, false, "delivery_ambiguous");
    r.(attempts := r.attempts + [receipt], receipt := receipt)
  }

  predicate CanRedeliver(s: Store, owner: string, id: Id, now: int, intact: set<Id>) {
    && Has(s.mem, owner, id)
    && var t := s.mem.tasks[id];
    && t.state == Succeeded && t.resultExpiresAt > now && Loadable(s.db, id, t.startedAt, intact)
  }

  datatype Redelivery = Fresh | Duplicate | Unavailable

  ghost predicate RedeliverStep(s: Store, owner: string, id: Id, operation: string, now: int, intact: set<Id>,
                                s': Store, out: Redelivery) {
    match out
    case Unavailable => s' == s
    case Duplicate =>
      s' == s && CanRedeliver(s, owner, id, now, intact) && operation in Operations(s.db.results[id].attempts)
    case Fresh =>
      && CanRedeliver(s, owner, id, now, intact)
      && operation !in Operations(s.db.results[id].attempts)
      && |s.db.results[id].attempts| < MAX_ATTEMPTS
      && s' == s.(db := Apply(s.db, PutReceipts(id, Redelivered(s.db.results[id], operation, now))))
  }

  /** The guard of a retry: only a failure whose execution is known not to have completed. */
  predicate RetryAccepts(mem: Rows, owner: string, id: Id) {
    && Has(mem, owner, id)
    && var t := mem.tasks[id];
    && t.completedAt == 0 && t.reason != InterruptUnconfirmed && (t.state == Failed || t.state == Interrupted)
  }

  // ---------------------------------------------------------------- changes of one task

  /** One task together with the rows the tables hold for it. */
  datatype Entry = Entry(task: Task, input: Option<Input>, completion: Option<Completion>, result: Option<Result>)

  function Lookup<V>(table: map<Id, V>, id: Id): Option<V> { if id in table then Some(table[id]) else None }

  function EntryOf(tasks: map<Id, Task>, db: Db, id: Id): Entry
    requires id in tasks
  {
    Entry(tasks[id], Lookup(db.inputs, id), Lookup(db.completions, id), Lookup(db.results, id))
  }

  /** Every change of a single task that the store saves, at the level of the task's own rows. */
  datatype Change =
    | Transition(next: State, reason: Reason)
    | SetThread(thread: string)
    | SetTurn(turn: string)
    | Refresh
    | Prepare(text: nat, blank: bool, images: seq<nat>, files: seq<nat>)
    | Complete(reply: nat)
    | Freeze(result: Result)
    | Deliver(receipt: Receipt)

  /** The task and the extra row a change writes; None when the operation refuses. */
  function Changed(e: Entry, change: Change, now: int): Option<(Task, Extra)> {
    var t := e.task;
    match change
    case Transition(next, reason) =>
      (match Transitioned(t, next, reason, now)
       case None => None
       case Some(t') => if next == Running || (next == Delivering && e.result.None?) then None else Some((t', NoExtra)))
    case SetThread(thread) => (match WithThread(t, thread) case None => None case Some(t') => Some((t', NoExtra)))
    case SetTurn(turn) => (match WithTurn(t, turn) case None => None case Some(t') => Some((t', NoExtra)))
    case Refresh => if t.state.Terminal() then None else Some((t, NoExtra))
    case Prepare(text, blank, images, files) =>
      if e.input.None? || !AcceptableStored(e.input.value) || !CanPrepare(t, text, blank, images, files) then None
      else
        var token := e.input.value.token;
        Some((Prepared(t, token, text, images, files),
            PutInput(t.id, Input(t.source, text, blank, token, 0, images, files))))
    case Complete(reply) =>
      if t.state != Running || reply > MAX_REPLY then None
      else Some((CompletedTask(t, reply, now), PutCompletion(t.id, Completion(1, reply, CompletionTime(t, now)))))
    case Freeze(r) =>
      if !(t.state == Running || (t.state == Succeeded && t.archiveFailed)) || !ValidResult(r, t.startedAt)
         || r.frozenAt != Max(now, t.startedAt) || r.receipt != PENDING || r.attempts != [] then None
      else Some((FrozenTask(t, r), PutResult(t.id, r)))
    case Deliver(receipt) =>
      if t.state != Delivering || e.result.None? || receipt.outcome == Pending then None
      else
        match Recorded(e.result.value, receipt)
        case None => None
        case Some(r) =>
          if !ValidResult(r, t.startedAt) then None
          else match Transitioned(t, Succeeded, NoReason, now)
            case None => None
            case Some(t') => Some((t', PutReceipts(t.id, r)))
  }

  /** A refused or failed change leaves the store as it was. */
  ghost predicate ChangeStep(s: Store, owner: string, id: Id, change: Change, now: int, s': Store, ok: bool) {
    if !ok then s' == s
    else
      && Has(s.mem, owner, id)
      && var c := Changed(EntryOf(s.mem.tasks, s.db, id), change, now);
      && c.Some? && Replaces(s, c.value.0, c.value.1, s')
  }

  /** A save that fails still keeps the completion in memory. */
  ghost predicate CompleteStep(s: Store, owner: string, id: Id, reply: nat, now: int, s': Store, ok: bool) {
    if !CanComplete(s.mem, owner, id, reply) then !ok && s' == s
    else if ok then ChangeStep(s, owner, id, Complete(reply), now, s', true)
    else s' == s.(mem := PutTask(s.mem, CompletedTask(s.mem.tasks[id], reply, now)))
  }

  ghost predicate RoomToFreeze(mem: Rows, t: Task, r: Result, now: int) {
    ReservedBytes(mem.tasks, now) - Reservation(t, now) + ResultSize(r) <= MAX_RESULT_STORE
  }

  /** A result is frozen once, and only when its real size fits beside what the others hold. */
  ghost predicate FreezeStep(s: Store, owner: string, id: Id, r: Result, now: int, s': Store, ok: bool) {
    && ChangeStep(s, owner, id, Freeze(r), now, s', ok)
    && (ok ==> id !in s.db.results && RoomToFreeze(s.mem, s.mem.tasks[id], r, now))
  }

  ghost predicate BeginDeliveryStep(s: Store, owner: string, id: Id, intact: set<Id>, now: int, s': Store, ok: bool) {
    && ChangeStep(s, owner, id, Transition(Delivering, NoReason), now, s', ok)
    && (ok ==> s.mem.tasks[id].state == Running && Loadable(s.db, id, s.mem.tasks[id].startedAt, intact))
  }

  /** The first delivery commits its receipt and the task's end together; later ones write receipts only. */
  ghost predicate RecordStep(s: Store, owner: string, id: Id, receipt: Receipt, complete: bool, now: int, s': Store,
                             ok: bool) {
    if !ok then s' == s
    else
      && CanRecord(s, owner, id, receipt, complete, now)
      && if complete then ChangeStep(s, owner, id, Deliver(receipt), now, s', true)
         else s' == s.(db := Apply(s.db, PutReceipts(id, Recorded(s.db.results[id], receipt).value)))
  }

  // ---------------------------------------------------------------- retention

  predicate InputExpired(t: Task, now: int) { t.state.Terminal() && t.payloadExpiresAt <= now }
  predicate ResultExpired(t: Task, now: int) { t.state.Terminal() && t.resultExpiresAt <= now }
  predicate HistoryExpired(t: Task, now: int) { t.state.Terminal() && t.finishedAt + HISTORY_RETENTION <= now }

  /** The rows the first cleanup transaction deletes, chosen by the committed request rows. */
  function Purged(db: Db, now: int): Db {
    var t := db.rows.tasks;
    db.(inputs := map id | id in db.inputs && !(id in t && InputExpired(t[id], now)) :: db.inputs[id],
        completions := map id | id in db.completions && !(id in t && ResultExpired(t[id], now)) :: db.completions[id],
        results := map id | id in db.results && !(id in t && ResultExpired(t[id], now)) :: db.results[id])
  }

  function ForgetReceipts(mem: Rows, now: int): Rows {
    mem.(cleared := RecentCleared(mem.cleared, now), rejected := RecentRejections(mem.rejected, now))
  }

  function ExpiredIds(mem: Rows, now: int): set<Id> { set id | id in mem.tasks && HistoryExpired(mem.tasks[id], now) }

  /** Each stage saves only when it dropped something, so an index that lost nothing is not written. */
  function Cleaned(s: Store, gone: set<Id>, now: int): Store {
    var purged := Store(s.mem, Purged(s.db, now));
    var forgotten := ForgetReceipts(s.mem, now);
    var rest := forgotten.(tasks := forgotten.tasks - gone);
    if rest == s.mem then purged else Saved(purged, rest, NoExtra)
  }

  /** Cleanup may stop after any of its stages; when it succeeds it removed everything expired. */
  ghost predicate CleanupStep(s: Store, now: int, s': Store, ok: bool) {
    || (!ok && s' == s)
    || (!ok && s' == s.(db := Purged(s.db, now)))
    || exists gone :: CleanedBy(s, gone, now, s', ok)
  }

  ghost predicate CleanedBy(s: Store, gone: set<Id>, now: int, s': Store, ok: bool) {
    && gone <= ExpiredIds(s.mem, now)
    && (ok ==> gone == ExpiredIds(s.mem, now))
    && s' == Cleaned(s, gone, now)
    && (s'.mem != s.mem ==> ValidRows(s'.mem))
  }
}
