/** The entities of the request store and the validity rules every save checks. */
module RequestModel {
  import opened Sums

  type Id = string

  const PAYLOAD_RETENTION := 24 * 3600
  const RESULT_RETENTION := 7 * 24 * 3600
  const HISTORY_RETENTION := 30 * 24 * 3600

  const MAX_RECORDS := 1000
  const MAX_RESULT_STORE := 0x4000_0000
  const MAX_INPUT_STORE := 500 * 0x10_0000
  const MAX_IMAGE := 20 * 0x10_0000
  const MAX_FILE := 50 * 0x10_0000
  const MAX_TASK := 100 * 0x10_0000
  const MAX_TEXT := 0x10_0000
  const MAX_TOKEN := 64 * 1024
  const MAX_SOURCE_DATA := 128 * 1024
  const MAX_REPLY := 5 * 0x10_0000
  const MAX_ARTIFACTS := 8
  const MAX_URLS := 8
  const MAX_ATTEMPTS := 50

  /** What an active, uncompleted task may still produce in the worst case. */
  const MAX_RESERVATION := MAX_TASK + MAX_REPLY

  datatype Option<+T> = None | Some(value: T)

  datatype State = Running | Delivering | Succeeded | Failed | Interrupted | Cancelled {
    predicate Terminal() { !Running? && !Delivering? }
  }

  datatype Reason =
    | NoReason
    | InterruptUnconfirmed
    | UserCancelled
    | RestartRunning
    | ResultFreezeFailed
    | DeliveryAmbiguous
    | Other(code: string)

  datatype Task = Task(
    id: Id, source: string, owner: string, target: string, thread: string, turn: string, retryOf: Id,
    state: State, reason: Reason, inputPending: bool, archiveFailed: bool,
    completedAt: int, resultExpiresAt: int, resultBytes: int,
    order: int, createdAt: int, startedAt: int, finishedAt: int, payloadExpiresAt: int,
    images: nat, files: nat, payloadBytes: int)

  /** The receipt of a refused instruction. */
  datatype Rejection = Rejection(source: string, owner: string, target: string, thread: string, task: Id,
      turn: string, at: int)

  /** What stays of a task the user cleared. */
  datatype Cleared = Cleared(owner: string, task: Id, state: State, completedAt: int, at: int)

  /** Sizes of one stored request as it is read back; attachment and text bytes themselves are not modelled. */
  datatype Input = Input(source: string, text: nat, blank: bool, token: nat, sourceData: nat, images: seq<nat>,
      files: seq<nat>)

  /** An instruction by sizes. Its source data is stored as rows and encoded again when it is read: `reread` is the size
      it then has, None when it does not decode or holds too many references, so that the save fails. */
  datatype StartInput = StartInput(
    source: string, owner: string, target: string, thread: string, retryOf: Id, wellFormed: bool,
    text: nat, blank: bool, token: nat, sourceData: nat, reread: Option<nat>, images: seq<nat>, files: seq<nat>)

  /** The checkpoint a finished turn leaves before its result is archived. */
  datatype Completion = Completion(version: int, reply: nat, at: int)

  datatype Outcome = Pending | Sent | ExplicitFailure | Ambiguous

  datatype Receipt = Receipt(operation: string, outcome: Outcome, attemptedAt: int, mediaSent: int, textSent: bool,
      failure: string)

  const PENDING := Receipt("", Pending, 0, 0, false, "")

  datatype Result = Result(
    version: int, reply: nat, blank: bool, artifacts: seq<nat>, urls: nat, frozenAt: int,
    receipt: Receipt, attempts: seq<Receipt>)

  /** The index by rows: what one save writes and what the committed baseline holds. */
  datatype Rows = Rows(
    tasks: map<Id, Task>, nextOrder: int, rejected: map<string, Rejection>, cleared: map<string, Cleared>)

  /** The database: index rows and the three tables keyed by a request. */
  datatype Db = Db(rows: Rows, inputs: map<Id, Input>, completions: map<Id, Completion>, results: map<Id, Result>)

  const EMPTY_ROWS := Rows(map[], 1, map[], map[])
  const EMPTY_DB := Db(EMPTY_ROWS, map[], map[], map[])

  function Max(a: int, b: int): int { if a < b then b else a }

  /** Sessions exclude each other by native thread once they have one, by intent before that. */
  function SessionKey(owner: string, target: string, thread: string): string {
    if thread != "" then "thread:" + thread else "intent:" + owner + ":" + target
  }

  function KeyOf(t: Task): string { SessionKey(t.owner, t.target, t.thread) }

  function Charge(text: nat, token: nat, sourceData: nat, images: seq<nat>, files: seq<nat>): nat {
    text + token + sourceData + (if sourceData > 0 then MAX_TASK else 0) + SumOf(images) + SumOf(files)
  }

  function InputCharge(i: Input): nat { Charge(i.text, i.token, i.sourceData, i.images, i.files) }

  /** What a start is charged for, by the source data as submitted. */
  function SubmittedCharge(i: StartInput): nat { Charge(i.text, i.token, i.sourceData, i.images, i.files) }

  function ResultSize(r: Result): nat { r.reply + SumOf(r.artifacts) }

  predicate HasPayload(t: Task, now: int) { !t.state.Terminal() || t.payloadExpiresAt > now }

  function Reservation(t: Task, now: int): int {
    if !t.state.Terminal() && t.completedAt == 0 then MAX_RESERVATION
    else if t.resultExpiresAt > now then t.resultBytes
    else 0
  }

  function LivePayload(t: Task, now: int): int { if HasPayload(t, now) then t.payloadBytes else 0 }

  /** The result space all tasks hold or reserve at this moment. */
  ghost function ReservedBytes(tasks: map<Id, Task>, now: int): int {
    Total(map id | id in tasks :: Reservation(tasks[id], now))
  }

  /** The input space all live tasks are charged for. */
  ghost function PayloadBytes(tasks: map<Id, Task>, now: int): int {
    Total(map id | id in tasks :: LivePayload(tasks[id], now))
  }

  predicate Within(sizes: seq<nat>, limit: nat) { forall i | 0 <= i < |sizes| :: 0 < sizes[i] <= limit }

  /** The limits shared by a submitted request and a stored one. */
  predicate AcceptableSizes(text: nat, blank: bool, token: nat, sourceData: nat, images: seq<nat>, files: seq<nat>) {
    && text <= MAX_TEXT && token <= MAX_TOKEN && sourceData <= MAX_SOURCE_DATA
    && |images| <= 4 && |files| <= 8
    && Within(images, MAX_IMAGE) && Within(files, MAX_FILE)
    && !(blank && images == [] && files == [])
  }

  /** What every reading of a stored input checks. */
  predicate AcceptableStored(i: Input) { AcceptableSizes(i.text, i.blank, i.token, i.sourceData, i.images, i.files) }

  predicate AcceptableInput(i: StartInput) {
    && i.wellFormed
    && AcceptableSizes(i.text, i.blank, i.token, i.sourceData, i.images, i.files)
    && SumOf(i.images) + SumOf(i.files) <= MAX_TASK
  }

  /** One task's own consistency, as checked before every save and on every load. */
  predicate ValidTask(t: Task) {
    && t.completedAt >= 0 && t.resultExpiresAt >= 0 && t.resultBytes >= 0
    && (t.archiveFailed ==> t.completedAt != 0)
    && (t.completedAt > 0 ==> t.completedAt >= t.startedAt && (t.state.Succeeded? || !t.state.Terminal()))
    && (t.resultExpiresAt > 0 ==> t.completedAt != 0 && t.resultExpiresAt >= t.completedAt)
    && (t.resultBytes > 0 ==> t.resultExpiresAt != 0)
    && t.createdAt > 0 && t.startedAt >= 0 && t.finishedAt >= 0 && t.payloadExpiresAt >= 0
    && t.images <= 4 && t.files <= 8
    && 0 <= t.payloadBytes <= MAX_TASK + MAX_TEXT + MAX_TOKEN + MAX_SOURCE_DATA
    && match t.state
       case Running | Delivering => t.startedAt >= t.createdAt && t.finishedAt == 0 && t.payloadExpiresAt == 0
       case Cancelled => t.finishedAt >= t.createdAt && t.payloadExpiresAt >= t.finishedAt
       case _ => t.startedAt >= t.createdAt && t.finishedAt >= t.startedAt && t.payloadExpiresAt >= t.finishedAt
  }

  /** Two tasks that may stand in one index: different sources, and not both active in one session. */
  predicate Compatible(a: Task, b: Task) {
    && a.source != b.source
    && (!a.state.Terminal() && !b.state.Terminal() ==> KeyOf(a) != KeyOf(b))
  }

  predicate Apart(tasks: map<Id, Task>, a: Id, b: Id)
    requires a in tasks && b in tasks
  {
    Compatible(tasks[a], tasks[b])
  }

  ghost function OwnedIds(tasks: map<Id, Task>, owner: string): set<Id> {
    set id | id in tasks && tasks[id].owner == owner
  }

  predicate ValidReceipts(rejected: map<string, Rejection>, cleared: map<string, Cleared>) {
    && (forall k | k in cleared :: cleared[k].state.Terminal() && cleared[k].at > 0)
    && (forall k | k in rejected :: rejected[k].source == k && rejected[k].at > 0 && k !in cleared)
  }

  /** The whole index, by rows. */
  ghost predicate ValidRows(r: Rows) {
    && r.nextOrder >= 1
    && (forall id | id in r.tasks :: r.tasks[id].id == id && ValidTask(r.tasks[id]))
    && (forall a, b {:trigger Apart(r.tasks, a, b)} | a in r.tasks && b in r.tasks && a != b :: Apart(r.tasks, a, b))
    && (forall owner: string :: |OwnedIds(r.tasks, owner)| <= MAX_RECORDS)
    && ValidReceipts(r.rejected, r.cleared)
    && (forall id | id in r.tasks :: r.tasks[id].source !in r.cleared && r.tasks[id].source !in r.rejected)
  }

  predicate ValidReceipt(r: Receipt, frozenAt: int) {
    && r.attemptedAt >= 0 && 0 <= r.mediaSent <= MAX_ARTIFACTS + MAX_URLS + 16
    && (if r.outcome == Pending
        then r.attemptedAt == 0 && r.mediaSent == 0 && !r.textSent && r.failure == ""
        else r.attemptedAt >= frozenAt)
    && (r.outcome == Sent ==> r.failure == "")
    && (r.outcome == ExplicitFailure || r.outcome == Ambiguous ==> r.failure != "")
  }

  predicate ValidResult(r: Result, startedAt: int) {
    && |r.attempts| <= MAX_ATTEMPTS
    && r.version == 2 && r.reply <= MAX_REPLY && |r.artifacts| <= MAX_ARTIFACTS && r.urls <= MAX_URLS
    && r.frozenAt >= startedAt
    && !(r.blank && r.artifacts == [] && r.urls == 0)
    && Within(r.artifacts, MAX_FILE) && SumOf(r.artifacts) <= MAX_TASK
    && (forall i, j | 0 <= i < j < |r.attempts| :: r.attempts[i].operation != r.attempts[j].operation)
    && (forall i | 0 <= i < |r.attempts| :: r.attempts[i].outcome != Pending && ValidReceipt(r.attempts[i], r.frozenAt))
    && ValidReceipt(r.receipt, r.frozenAt)
  }

  function Operations(attempts: seq<Receipt>): set<string> {
    set i | 0 <= i < |attempts| :: attempts[i].operation
  }

  lemma ReservedUpdate(tasks: map<Id, Task>, t: Task, now: int)
    ensures ReservedBytes(tasks[t.id := t], now)
         == ReservedBytes(tasks, now) - (if t.id in tasks then Reservation(tasks[t.id], now) else 0)
            + Reservation(t, now)
  {
    var weights := map id | id in tasks :: Reservation(tasks[id], now);
    TotalUpdate(weights, t.id, Reservation(t, now));
    var after := tasks[t.id := t];
    assert (map id | id in after :: Reservation(after[id], now)) == weights[t.id := Reservation(t, now)];
  }

  lemma PayloadUpdate(tasks: map<Id, Task>, t: Task, now: int)
    ensures PayloadBytes(tasks[t.id := t], now)
         == PayloadBytes(tasks, now) - (if t.id in tasks then LivePayload(tasks[t.id], now) else 0)
            + LivePayload(t, now)
  {
    var weights := map id | id in tasks :: LivePayload(tasks[id], now);
    TotalUpdate(weights, t.id, LivePayload(t, now));
    var after := tasks[t.id := t];
    assert (map id | id in after :: LivePayload(after[id], now)) == weights[t.id := LivePayload(t, now)];
  }

  lemma ReservedMonotone(small: map<Id, Task>, large: map<Id, Task>, later: int, now: int)
    requires small.Keys <= large.Keys
    requires forall id | id in small :: Reservation(small[id], later) <= Reservation(large[id], now)
    requires forall id | id in large :: large[id].resultBytes >= 0
    ensures ReservedBytes(small, later) <= ReservedBytes(large, now)
  {
    TotalMonotone(map id | id in small :: Reservation(small[id], later),
                  map id | id in large :: Reservation(large[id], now));
  }

  lemma PayloadMonotone(small: map<Id, Task>, large: map<Id, Task>, later: int, now: int)
    requires small.Keys <= large.Keys
    requires forall id | id in small :: LivePayload(small[id], later) <= LivePayload(large[id], now)
    requires forall id | id in large :: large[id].payloadBytes >= 0
    ensures PayloadBytes(small, later) <= PayloadBytes(large, now)
  {
    TotalMonotone(map id | id in small :: LivePayload(small[id], later),
                  map id | id in large :: LivePayload(large[id], now));
  }

  lemma NothingHeld(tasks: map<Id, Task>, now: int)
    ensures tasks.Keys == {} ==> ReservedBytes(tasks, now) == 0 && PayloadBytes(tasks, now) == 0
  {
    var reserved := map id | id in tasks :: Reservation(tasks[id], now);
    var charged := map id | id in tasks :: LivePayload(tasks[id], now);
    if tasks.Keys == {} {
      assert reserved.Keys == {} && charged.Keys == {};
    }
  }
}
