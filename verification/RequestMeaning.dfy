/** What each step leaves behind, said of the rows and their fields: the outcome a caller can look up afterwards. */
module RequestMeaning {
  import opened Sums
  import opened RequestModel
  import opened RequestSpec
  import opened RequestInvariant
  import opened RequestRecovery
  import opened RequestRuns
  import opened RequestSteps

  // ---------------------------------------------------------------- sessions

  /** What holds a session: a thread, whoever works on it, or before there is one the target of an owner. */
  lemma SessionKeyMeans(a: Task, b: Task)
    ensures a.thread != "" && b.thread != "" ==> (KeyOf(a) == KeyOf(b) <==> a.thread == b.thread)
    ensures a.thread == "" && b.thread == "" && a.owner == b.owner ==> (KeyOf(a) == KeyOf(b) <==> a.target == b.target)
    ensures (a.thread == "") != (b.thread == "") ==> KeyOf(a) != KeyOf(b)
  {
    if a.thread != "" && b.thread != "" {
      ThreadKey(a);
      ThreadKey(b);
    } else if a.thread == "" && b.thread == "" {
      IntentKey(a);
      IntentKey(b);
    } else if a.thread != "" {
      ThreadKey(a);
      IntentKey(b);
    } else {
      IntentKey(a);
      ThreadKey(b);
    }
  }

  lemma ThreadKey(t: Task)
    requires t.thread != ""
    ensures |KeyOf(t)| >= 7 && KeyOf(t)[7..] == t.thread && KeyOf(t)[0] == 't'
  {
    assert |"thread:"| == 7 && KeyOf(t) == "thread:" + t.thread;
  }

  lemma IntentKey(t: Task)
    requires t.thread == ""
    ensures |KeyOf(t)| >= |t.owner| + 8 && KeyOf(t)[|t.owner| + 8..] == t.target && KeyOf(t)[0] == 'i'
  {
    var prefix := "intent:" + t.owner + ":";
    assert |prefix| == |t.owner| + 8 && KeyOf(t) == prefix + t.target && prefix[0] == 'i';
  }

  // ---------------------------------------------------------------- what a step leaves alone

  /** Nothing but the request `id` and its own rows changed, in memory and on disk. */
  ghost predicate TouchesOnly(s: Store, s': Store, id: Id) {
    && s'.mem == s.mem.(tasks := s'.mem.tasks) && s'.mem.tasks.Keys == s.mem.tasks.Keys
    && (forall k | k in s.mem.tasks && k != id ::
          && s'.mem.tasks[k] == s.mem.tasks[k]
          && Lookup(s'.db.inputs, k) == Lookup(s.db.inputs, k)
          && Lookup(s'.db.completions, k) == Lookup(s.db.completions, k)
          && Lookup(s'.db.results, k) == Lookup(s.db.results, k))
  }

  /** A saved change of one request touches no other one, and memory and disk agree afterwards. */
  lemma ChangeTouchesOne(s: Store, owner: string, id: Id, change: Change, now: int, s': Store)
    requires ChangeStep(s, owner, id, change, now, s', true) && s.mem.tasks[id].id == id
    ensures TouchesOnly(s, s', id) && s'.db.rows == s'.mem && Has(s'.mem, owner, id)
  {
    hide ValidRows, Changed;
    ChangedIdentity(EntryOf(s.mem.tasks, s.db, id), change, now);
    var c := Changed(EntryOf(s.mem.tasks, s.db, id), change, now).value;
    hide Saved, TouchesOnly;
    PutTouchesOne(s, c.0, c.1);
  }

  lemma KeysAgree(s: Store, now: int)
    requires Inv(s, now)
    ensures s.db.inputs.Keys + s.db.completions.Keys + s.db.results.Keys <= s.mem.tasks.Keys
    ensures s.mem.tasks.Keys == s.db.rows.tasks.Keys
  {
    hide ValidRows, OrdersInv, EntriesInv;
  }

  lemma PutTouchesOne(s: Store, t: Task, extra: Extra)
    requires t.id in s.mem.tasks && (extra.NoExtra? || extra.id == t.id)
    ensures var s' := Saved(s, PutTask(s.mem, t), extra);
      TouchesOnly(s, s', t.id) && s'.db.rows == s'.mem == PutTask(s.mem, t)
  {
    var s' := Saved(s, PutTask(s.mem, t), extra);
    SavedMem(s, PutTask(s.mem, t), extra);
    forall k | k in s.mem.tasks && k != t.id
      ensures Lookup(s'.db.inputs, k) == Lookup(s.db.inputs, k)
      ensures Lookup(s'.db.completions, k) == Lookup(s.db.completions, k)
      ensures Lookup(s'.db.results, k) == Lookup(s.db.results, k)
    {
      EntryOfSaved(s, PutTask(s.mem, t), extra, k);
    }
    hide Saved;
  }

  // ---------------------------------------------------------------- refusals and clear receipts

  /** A rejection receipt that was stored at this time: it names the source and is dated now, the recent ones stay as
      they were, the old ones are gone, and nothing else changed. */
  ghost predicate Rejects(s: Store, r: Rejection, now: int, s': Store) {
    && r.source in s'.mem.rejected && s'.mem.rejected[r.source].at == now
    && s'.mem.rejected[r.source] == Rejection(r.source, r.owner, r.target, r.thread, r.task, r.turn, now)
    && (forall k | k in s.mem.rejected && k != r.source ::
          if s.mem.rejected[k].at > now - HISTORY_RETENTION
          then k in s'.mem.rejected && s'.mem.rejected[k] == s.mem.rejected[k] else k !in s'.mem.rejected)
    && (forall k | k in s'.mem.rejected && k != r.source :: k in s.mem.rejected)
    && s'.mem.tasks == s.mem.tasks && s'.mem.cleared == s.mem.cleared && s'.mem.nextOrder == s.mem.nextOrder
    && s'.db.rows == s'.mem
  }

  /** A saved rejection of a source without a receipt leaves one that is dated now. */
  lemma RejectionMeans(s: Store, r: Rejection, now: int, s': Store, ok: bool)
    requires RejectStep(s, r, now, s', ok)
    ensures if r.source in s.mem.rejected then ok && s' == s else if ok then Rejects(s, r, now, s') else s' == s
  {
    hide ValidRows;
  }

  /** A start that meets a busy session leaves such a receipt too: it names the session's holder and is dated now. */
  lemma BusyMeans(s: Store, i: StartInput, id: Id, now: int, s': Store)
    requires StartStep(s, i, id, now, s', SessionBusy)
    ensures exists busy: Id ::
      && busy in s.mem.tasks && !s.mem.tasks[busy].state.Terminal()
      && KeyOf(s.mem.tasks[busy]) == SessionKey(i.owner, i.target, i.thread)
      && var holder := s.mem.tasks[busy];
         Rejects(s, Rejection(i.source, i.owner, i.target, holder.thread, holder.id, "", now), now, s')
    ensures i.source !in s.mem.rejected
  {
    hide RejectStep;
    var busy: Id :| busy in s.mem.tasks && Holds(s.mem.tasks[busy], SessionKey(i.owner, i.target, i.thread))
      && RejectStep(s, BusyReceipt(i, s.mem.tasks[busy]), now, s', true);
    RejectionMeans(s, BusyReceipt(i, s.mem.tasks[busy]), now, s', true);
  }

  /** A released request is gone with all its rows; its source keeps a receipt of who it was and how it ended. */
  lemma ReleasedMeans(s: Store, owner: string, id: Id, s': Store)
    requires ReleaseStep(s, owner, id, s', true)
    ensures Has(s.mem, owner, id) && s.mem.tasks[id].state.Terminal()
    ensures var t := s.mem.tasks[id];
      && s'.mem.tasks == s.mem.tasks - {id} && s'.db.rows == s'.mem
      && id !in s'.db.inputs && id !in s'.db.completions && id !in s'.db.results
      && t.source in s'.mem.cleared
      && s'.mem.cleared[t.source] == Cleared(owner, id, t.state, t.completedAt, t.finishedAt)
      && (forall k | k in s.mem.cleared && k != t.source ::
            k in s'.mem.cleared && s'.mem.cleared[k] == s.mem.cleared[k])
      && s'.mem.rejected == s.mem.rejected && s'.mem.nextOrder == s.mem.nextOrder
  {
    hide ValidRows;
  }

  // ---------------------------------------------------------------- a new request

  /** A request that runs this instruction, stored with its input. */
  ghost predicate Runs(s: Store, id: Id, i: StartInput, now: int) {
    && id in s.mem.tasks && id in s.db.inputs && s.db.rows == s.mem
    && var t, input := s.mem.tasks[id], s.db.inputs[id];
    && t.id == id && t.source == i.source && t.owner == i.owner && t.target == i.target && t.thread == i.thread
    && t.retryOf == i.retryOf && t.turn == "" && t.state == Running && t.reason == NoReason
    && t.completedAt == 0 && !t.archiveFailed && t.createdAt == t.startedAt == (if now > 1 then now else 1)
    && (t.inputPending <==> i.sourceData > 0)
    && t.payloadBytes == i.text + i.token + i.sourceData + (if i.sourceData > 0 then MAX_TASK else 0)
                         + SumOf(i.images) + SumOf(i.files)
    && input.source == i.source && input.text == i.text && input.blank == i.blank && input.token == i.token
    && input.images == i.images && input.files == i.files
    && (if i.sourceData > 0 then Some(input.sourceData) == i.reread else input.sourceData == 0)
  }

  /** A start that answered with a new request left that one, running and on disk, as the last in order. */
  lemma CreatedRuns(s: Store, i: StartInput, id: Id, now: int, s': Store, out: StartOutcome)
    requires StartStep(s, i, id, now, s', out) && out.Created?
    ensures id !in s.mem.tasks && Runs(s', id, i, now) && out.task == s'.mem.tasks[id]
    ensures s'.mem == s.mem.(tasks := s.mem.tasks[id := out.task], nextOrder := s.mem.nextOrder + 1)
    ensures out.task.order == s.mem.nextOrder
  {
    hide Admits, ValidRows, Saved;
    assert out.task == NewTask(i, id, s.mem.nextOrder, now) && out.task.id == id;
    NewRuns(s, i, id, now);
    hide NewTask, Runs, InputOf, Storable;
    SavedMem(s, WithNewTask(s.mem, out.task), PutInput(id, InputOf(i)));
  }

  lemma NewRuns(s: Store, i: StartInput, id: Id, now: int)
    requires Storable(i)
    ensures Runs(Started(s, i, id, now), id, i, now)
  {
    var t := NewTask(i, id, s.mem.nextOrder, now);
    SavedMem(s, WithNewTask(s.mem, t), PutInput(id, InputOf(i)));
    SavedInput(s, WithNewTask(s.mem, t), id, InputOf(i));
    hide Saved;
  }

  lemma SavedInput(s: Store, mem: Rows, id: Id, input: Input)
    ensures var db := Saved(s, mem, PutInput(id, input)).db; id in db.inputs && db.inputs[id] == input
  {
  }

  /** It brought no result and no checkpoint, and the rows of all others are as they were. */
  lemma CreatedTouchesNone(s: Store, i: StartInput, id: Id, now: int, s': Store, out: StartOutcome)
    requires Inv(s, now) && StartStep(s, i, id, now, s', out) && out.Created?
    ensures id !in s'.db.completions && id !in s'.db.results
    ensures forall k | k in s.mem.tasks ::
      && Lookup(s'.db.inputs, k) == Lookup(s.db.inputs, k)
      && Lookup(s'.db.completions, k) == Lookup(s.db.completions, k)
      && Lookup(s'.db.results, k) == Lookup(s.db.results, k)
  {
    KeysAgree(s, now);
    CreatedRuns(s, i, id, now, s', out);
    hide Admits, ValidRows, Inv, InputOf, Storable, Saved, Runs;
    var mem := WithNewTask(s.mem, out.task);
    NewBringsInputOnly(s, mem, id, InputOf(i));
    forall k | k in s.mem.tasks
      ensures Lookup(s'.db.inputs, k) == Lookup(s.db.inputs, k)
      ensures Lookup(s'.db.completions, k) == Lookup(s.db.completions, k)
      ensures Lookup(s'.db.results, k) == Lookup(s.db.results, k)
    {
      EntryOfSaved(s, mem, PutInput(id, InputOf(i)), k);
    }
  }

  lemma NewBringsInputOnly(s: Store, mem: Rows, id: Id, input: Input)
    requires id !in s.db.completions && id !in s.db.results
    ensures var db := Saved(s, mem, PutInput(id, input)).db; id !in db.completions && id !in db.results
  {
  }

  /** What a retry starts: the session, target and owner of the original, its stored text and attachments, and the new
      source and token. */
  predicate RetryOf(t: Task, stored: Input, source: string, token: nat, i: StartInput) {
    && i.source == source && i.token == token && i.retryOf == t.id
    && i.owner == t.owner && i.target == t.target && i.thread == t.thread
    && i.text == stored.text && i.blank == stored.blank && i.images == stored.images && i.files == stored.files
    && i.sourceData == stored.sourceData && i.reread == Some(stored.sourceData)
  }

  /** A retry that created a request left one that runs, with the session of the original and its stored input. */
  lemma RetryMeans(s: Store, t: Task, stored: Input, source: string, token: nat, wellFormed: bool, id: Id, now: int,
                   s': Store, out: StartOutcome)
    requires out.Created?
    requires StartStep(s, RetryInput(t, stored, source, token, wellFormed), id, now, s', out)
    ensures id in s'.mem.tasks && out.task == s'.mem.tasks[id] && id in s'.db.inputs && s'.db.rows == s'.mem
    ensures var n, input := s'.mem.tasks[id], s'.db.inputs[id];
      && n.owner == t.owner && n.target == t.target && n.thread == t.thread && KeyOf(n) == KeyOf(t)
      && n.retryOf == t.id && n.source == source && n.state == Running && n.completedAt == 0
      && input == stored.(source := source, token := token)
  {
    var i := RetryInput(t, stored, source, token, wellFormed);
    assert RetryOf(t, stored, source, token, i);
    hide RetryInput, StartStep;
    CreatedRuns(s, i, id, now, s', out);
  }

  /** A retry whose session is held by an active request is not started but turned away as busy. */
  lemma RetryMeetsHolder(s: Store, t: Task, stored: Input, source: string, token: nat, wellFormed: bool, now: int,
                         out: StartOutcome)
    requires Answers(s.mem, RetryInput(t, stored, source, token, wellFormed), now, out)
    requires SessionTaken(s.mem, KeyOf(t))
    ensures !out.Created?
    ensures (!SourceTaken(s.mem, source) && source !in s.mem.cleared && source !in s.mem.rejected
             && |OwnedIds(s.mem.tasks, t.owner)| < MAX_RECORDS) ==> out == SessionBusy || out == Refused
  {
    hide SessionKey, RoomForResult, RoomForInput, SessionTaken, SourceTaken;
  }

  lemma OnFile(s: Store, owner: string, id: Id, now: int)
    requires InputOnFile(s, owner, id, now).Some?
    ensures id in s.db.inputs && InputOnFile(s, owner, id, now).value == s.db.inputs[id]
  {
  }

  /** A cleanup frees no source, so a start of a free one never answers with a request that was there. */
  lemma NewSourceStays(s: Store, cleanedAt: int, mid: Store, cleanup: bool, i: StartInput, id: Id, now: int, s': Store,
                       out: StartOutcome)
    requires CleanupStep(s, cleanedAt, mid, cleanup) && StartStep(mid, i, id, now, s', out)
    requires !SourceTaken(s.mem, i.source)
    ensures !SourceTaken(mid.mem, i.source) && !out.Existing?
  {
    CleanupBringsNone(s, cleanedAt, mid, cleanup);
    assert !SourceTaken(mid.mem, i.source);
    hide CleanupStep, Admits, RejectStep;
  }

  // ---------------------------------------------------------------- changes of a request

  /** A fixed thread or turn is the given one, and nothing else of the request changed. */
  lemma AttachedMeans(e: Entry, change: Change, now: int)
    requires Changed(e, change, now).Some? && (change.SetThread? || change.SetTurn? || change.Refresh?)
    ensures var c := Changed(e, change, now).value;
      && c.1.NoExtra?
      && (change.SetThread? ==>
            && c.0 == e.task.(thread := change.thread) && change.thread != "" && e.task.state == Running
            && (e.task.thread == "" || e.task.thread == change.thread))
      && (change.SetTurn? ==> c.0 == e.task.(turn := change.turn) && change.turn != "" && e.task.turn == "")
      && (change.Refresh? ==> c.0 == e.task && !e.task.state.Terminal())
  {
  }

  /** Prepared input: the request waits no longer, is charged for what is there, and its input is the downloaded one. */
  lemma PreparedMeans(e: Entry, text: nat, blank: bool, images: seq<nat>, files: seq<nat>, now: int)
    requires Changed(e, Prepare(text, blank, images, files), now).Some?
    ensures e.input.Some? && e.task.state == Running && e.task.inputPending
    ensures var c := Changed(e, Prepare(text, blank, images, files), now).value;
      && c.0 == e.task.(inputPending := false, images := |images|, files := |files|, payloadBytes := c.0.payloadBytes)
      && c.0.payloadBytes == text + e.input.value.token + SumOf(images) + SumOf(files)
      && c.1 == PutInput(e.task.id, Input(e.task.source, text, blank, e.input.value.token, 0, images, files))
  {
  }

  /** A completion is dated when it is recorded, never before the start; it keeps the result for seven days, reserves
      the greatest archive beside the answer, and leaves a checkpoint with the same date and answer. */
  lemma CompletedMeans(e: Entry, reply: nat, now: int)
    requires Changed(e, Complete(reply), now).Some?
    ensures e.task.state == Running && reply <= MAX_REPLY
    ensures var c := Changed(e, Complete(reply), now).value;
      var at := if now > e.task.startedAt then now else e.task.startedAt;
      && c.0 == e.task.(completedAt := at, resultExpiresAt := at + RESULT_RETENTION, archiveFailed := true,
                        resultBytes := MAX_TASK + reply)
      && c.1 == PutCompletion(e.task.id, Completion(1, reply, at))
  {
  }

  /** An archived result is the given one; the request keeps the date of its completion, or takes the freeze for it, and
      is charged for the real size. */
  lemma FrozenMeans(e: Entry, r: Result, now: int)
    requires Changed(e, Freeze(r), now).Some?
    ensures e.task.state == Running || (e.task.state == Succeeded && e.task.archiveFailed)
    ensures r.receipt.outcome == Pending && r.attempts == []
    ensures r.frozenAt == if now > e.task.startedAt then now else e.task.startedAt
    ensures var c := Changed(e, Freeze(r), now).value;
      && c.0.state == e.task.state && !c.0.archiveFailed && c.0.resultBytes == r.reply + SumOf(r.artifacts)
      && c.0.completedAt == (if e.task.completedAt != 0 then e.task.completedAt else r.frozenAt)
      && c.0.resultExpiresAt == c.0.completedAt + RESULT_RETENTION
      && c.0.reason == (if e.task.state == Succeeded then NoReason else e.task.reason)
      && c.0 == e.task.(completedAt := c.0.completedAt, archiveFailed := false, resultExpiresAt := c.0.resultExpiresAt,
                        resultBytes := c.0.resultBytes, reason := c.0.reason)
      && c.1 == PutResult(e.task.id, r)
  {
    hide ValidResult;
  }

  /** A frozen result is on file, once, and its checkpoint is gone. */
  lemma FreezeStores(s: Store, owner: string, id: Id, r: Result, now: int, s': Store)
    requires FreezeStep(s, owner, id, r, now, s', true)
    ensures Has(s.mem, owner, id) && id !in s.db.results
    ensures s.mem.tasks[id].id == id ==> id in s'.db.results && s'.db.results[id] == r && id !in s'.db.completions
  {
    FrozenMeans(EntryOf(s.mem.tasks, s.db, id), r, now);
    var c := Changed(EntryOf(s.mem.tasks, s.db, id), Freeze(r), now).value;
    hide Changed, RoomToFreeze, ValidRows, ValidResult;
    FrozenId(s, id, r, now);
  }

  lemma FrozenId(s: Store, id: Id, r: Result, now: int)
    requires id in s.mem.tasks && Changed(EntryOf(s.mem.tasks, s.db, id), Freeze(r), now).Some?
    ensures Changed(EntryOf(s.mem.tasks, s.db, id), Freeze(r), now).value.0.id == s.mem.tasks[id].id
  {
    hide Changed;
    ChangedIdentity(EntryOf(s.mem.tasks, s.db, id), Freeze(r), now);
  }

  /** The moves a request can make on its own: from running to delivery or an end, from delivery to an end. With a
      recorded completion every end is success, with a note when the archive failed, and a cancel is refused. */
  lemma MovesExactly(t: Task, next: State, reason: Reason, now: int)
    requires next != Running
    ensures Transitioned(t, next, reason, now).Some? <==>
      if t.completedAt > 0 && next.Terminal() then !t.state.Terminal() && next != State.Cancelled
      else || (t.state == Running && next != Succeeded)
           || (t.state == Delivering && next != Delivering && next != State.Cancelled)
    ensures Transitioned(t, next, reason, now).Some? ==>
      var m, done := Transitioned(t, next, reason, now).value, t.completedAt > 0 && next.Terminal();
      && m.state == (if done then Succeeded else next)
      && m.reason == (if !done then reason else if t.archiveFailed then ResultFreezeFailed else NoReason)
      && (next.Terminal() ==>
            && m.finishedAt >= now && m.finishedAt >= t.startedAt && m.finishedAt >= t.createdAt
            && (m.finishedAt == now || m.finishedAt == t.startedAt || m.finishedAt == t.createdAt)
            && m.payloadExpiresAt == m.finishedAt + PAYLOAD_RETENTION)
      && m == t.(state := m.state, reason := m.reason, finishedAt := m.finishedAt,
                 payloadExpiresAt := m.payloadExpiresAt)
      && (!next.Terminal() ==> m.finishedAt == t.finishedAt && m.payloadExpiresAt == t.payloadExpiresAt)
  {
  }

  // ---------------------------------------------------------------- receipts

  /** Every attempt but the one at `i` is as it was. */
  predicate OthersKept(attempts: seq<Receipt>, attempts': seq<Receipt>, i: int) {
    && |attempts'| == |attempts|
    && forall k | 0 <= k < |attempts| && k != i :: attempts'[k] == attempts[k]
  }

  /** What a stored receipt changes of a result: it becomes the receipt of the result. One with an operation number
      takes the place of the attempt with this number, which is there already, and of no other. One without a number is
      the first attempt, or leaves the attempts alone. */
  predicate TakesReceipt(r: Result, receipt: Receipt, r': Result) {
    && r'.receipt == receipt && r' == r.(receipt := r'.receipt, attempts := r'.attempts)
    && (if receipt.operation != "" then
          exists i :: 0 <= i < |r.attempts| && r.attempts[i].operation == receipt.operation
                   && OthersKept(r.attempts, r'.attempts, i) && r'.attempts[i] == receipt
        else r'.attempts == if r.attempts == [] then [receipt] else r.attempts)
  }

  lemma RecordedMeans(r: Result, receipt: Receipt)
    ensures Recorded(r, receipt).Some? ==> TakesReceipt(r, receipt, Recorded(r, receipt).value)
    ensures Recorded(r, receipt).None? <==> receipt.operation != "" && receipt.operation !in Operations(r.attempts)
  {
    if receipt.operation != "" && AttemptIndex(r.attempts, receipt.operation).Some? {
      var i := AttemptIndex(r.attempts, receipt.operation).value;
      assert r.attempts[i].operation in Operations(r.attempts);
    }
  }

  /** A recorded delivery: the stored result has taken the receipt; the first one also ends the request. */
  lemma DeliveryMeans(s: Store, owner: string, id: Id, receipt: Receipt, complete: bool, now: int, s': Store)
    requires RecordStep(s, owner, id, receipt, complete, now, s', true) && s.mem.tasks[id].id == id
    ensures id in s.db.results && id in s'.db.results && TakesReceipt(s.db.results[id], receipt, s'.db.results[id])
    ensures Has(s'.mem, owner, id) && (complete ==> s'.mem.tasks[id].state == Succeeded && s'.db.rows == s'.mem)
    ensures !complete ==> s'.mem == s.mem && s'.db == s.db.(results := s'.db.results)
  {
    hide ChangeStep, ValidResult, TakesReceipt, Recorded;
    RecordedMeans(s.db.results[id], receipt);
    if complete {
      FirstDeliveryMeans(s, owner, id, receipt, now, s');
    } else {
      TakenShape(s.db.results[id], receipt, Recorded(s.db.results[id], receipt).value);
    }
  }

  lemma RecordedGuard(s: Store, owner: string, id: Id, receipt: Receipt, complete: bool, now: int, s': Store)
    requires RecordStep(s, owner, id, receipt, complete, now, s', true)
    ensures Has(s.mem, owner, id) && receipt.outcome != Pending && receipt.attemptedAt != 0
    ensures var t := s.mem.tasks[id];
      && t.completedAt != 0 && t.resultExpiresAt > now && (complete ==> t.state == Delivering)
  {
    hide ChangeStep;
  }

  lemma FirstDeliveryMeans(s: Store, owner: string, id: Id, receipt: Receipt, now: int, s': Store)
    requires ChangeStep(s, owner, id, Deliver(receipt), now, s', true) && s.mem.tasks[id].id == id && id in s.db.results
    requires Recorded(s.db.results[id], receipt).Some?
    requires TakesReceipt(s.db.results[id], receipt, Recorded(s.db.results[id], receipt).value)
    ensures id in s'.db.results && s'.db.results[id] == Recorded(s.db.results[id], receipt).value
    ensures Has(s'.mem, owner, id) && s'.mem.tasks[id].state == Succeeded && s'.db.rows == s'.mem
  {
    ChangeTouchesOne(s, owner, id, Deliver(receipt), now, s');
    DeliverChanges(EntryOf(s.mem.tasks, s.db, id), receipt, now);
    TakenShape(s.db.results[id], receipt, Recorded(s.db.results[id], receipt).value);
    var c := Changed(EntryOf(s.mem.tasks, s.db, id), Deliver(receipt), now).value;
    hide ValidRows, Changed, Recorded, TakesReceipt, TouchesOnly;
    SavedMem(s, PutTask(s.mem, c.0), c.1);
    SavedReceipts(s, PutTask(s.mem, c.0), id, c.1.receipts);
  }

  lemma TakenShape(r: Result, receipt: Receipt, r': Result)
    requires TakesReceipt(r, receipt, r')
    ensures r' == r.(receipt := r'.receipt, attempts := r'.attempts)
  {
  }

  lemma DeliverChanges(e: Entry, receipt: Receipt, now: int)
    requires Changed(e, Deliver(receipt), now).Some?
    ensures e.result.Some? && Recorded(e.result.value, receipt).Some?
    ensures var c := Changed(e, Deliver(receipt), now).value;
      && c.0.id == e.task.id && c.0.state == Succeeded
      && c.1 == PutReceipts(e.task.id, Recorded(e.result.value, receipt).value)
  {
    hide Recorded, ValidResult;
  }

  lemma SavedReceipts(s: Store, mem: Rows, id: Id, r: Result)
    requires id in mem.tasks && id in s.db.results
    ensures var db := Saved(s, mem, PutReceipts(id, r)).db;
      id in db.results && db.results[id] == s.db.results[id].(receipt := r.receipt, attempts := r.attempts)
  {
  }

  /** A newly registered operation is on file as ambiguous before anything is sent: it is the last attempt and the
      receipt of the result, it is not dated before now, and every earlier attempt is as it was. */
  lemma RedeliveryMeans(s: Store, owner: string, id: Id, operation: string, now: int, intact: set<Id>, s': Store)
    requires RedeliverStep(s, owner, id, operation, now, intact, s', Fresh)
    ensures id in s.db.results && id in s'.db.results && s'.mem == s.mem
    ensures var r, r' := s.db.results[id], s'.db.results[id];
      && |r'.attempts| == |r.attempts| + 1 && r'.attempts[..|r.attempts|] == r.attempts
      && var last := r'.attempts[|r.attempts|];
      && r'.receipt == last && last.operation == operation && last.outcome == Ambiguous && last.attemptedAt >= now
      && last.mediaSent == 0 && !last.textSent
      && r' == r.(receipt := r'.receipt, attempts := r'.attempts)
      && (forall k | k in s.db.results && k != id :: k in s'.db.results && s'.db.results[k] == s.db.results[k])
      && s'.db == s.db.(results := s'.db.results)
  {
    hide ValidResult;
    var r, r' := s.db.results[id], s'.db.results[id];
    assert r'.attempts[..|r.attempts|] == r.attempts;
  }

  /** In a consistent store a stored result is valid, so that nothing but its retention and its files decides whether it
      can be sent again. */
  lemma StoredValid(s: Store, id: Id, now: int)
    requires Inv(s, now) && id in s.mem.tasks && id in s.db.results
    ensures ValidResult(s.db.results[id], s.mem.tasks[id].startedAt)
  {
    hide DbInv, ValidRows, OrdersInv, Ahead, Agrees, InputInv, CompletionInv, ValidResult, TaskInv;
    assert EntryInv(EntryOf(s.mem.tasks, s.db, id), now);
  }

  // ---------------------------------------------------------------- cleanup

  /** A request that stays after a cleanup at this time, and the rows it keeps. */
  predicate Stays(t: Task, now: int) { !(t.state.Terminal() && t.finishedAt + HISTORY_RETENTION <= now) }

  predicate KeepsInput(t: Task, now: int) { !(t.state.Terminal() && t.payloadExpiresAt <= now) }

  predicate KeepsResult(t: Task, now: int) { !(t.state.Terminal() && t.resultExpiresAt <= now) }

  ghost predicate KeepsRows<V>(table: map<Id, V>, table': map<Id, V>, gone: set<Id>) {
    && (forall id | id in table' :: id in table && table'[id] == table[id])
    && (forall id | id in table :: id in table' <==> id !in gone)
  }

  /** The requests whose input, and those whose result and checkpoint, are due. */
  function InputsDue(tasks: map<Id, Task>, now: int): set<Id> {
    set id | id in tasks && !(Stays(tasks[id], now) && KeepsInput(tasks[id], now))
  }

  function ResultsDue(tasks: map<Id, Task>, now: int): set<Id> {
    set id | id in tasks && !(Stays(tasks[id], now) && KeepsResult(tasks[id], now))
  }

  /** After a successful cleanup exactly what is due is gone: requests and receipts after thirty days, inputs after a
      day, results and checkpoints after their week; all the rest is as it was. */
  lemma CleanupMeans(s: Store, now: int, s': Store)
    requires Inv(s, now) && CleanupStep(s, now, s', true)
    ensures KeepsRows(s.mem.tasks, s'.mem.tasks, set id | id in s.mem.tasks && !Stays(s.mem.tasks[id], now))
    ensures KeepsRows(s.mem.rejected, s'.mem.rejected,
                      set k | k in s.mem.rejected && s.mem.rejected[k].at <= now - HISTORY_RETENTION)
    ensures KeepsRows(s.mem.cleared, s'.mem.cleared,
                      set k | k in s.mem.cleared && s.mem.cleared[k].at <= now - HISTORY_RETENTION)
    ensures KeepsRows(s.db.inputs, s'.db.inputs, InputsDue(s.mem.tasks, now))
    ensures KeepsRows(s.db.results, s'.db.results, ResultsDue(s.mem.tasks, now))
    ensures KeepsRows(s.db.completions, s'.db.completions, ResultsDue(s.mem.tasks, now))
  {
    AsOnDisk(s, now);
    var gone :| CleanedBy(s, gone, now, s', true);
    hide Inv, ValidRows, CleanupStep, KeepsRows, InputsDue, ResultsDue;
    MemoryCleaned(s, now, s');
    InputsCleaned(s, now, s');
    ResultsCleaned(s, now, s');
    CheckpointsCleaned(s, now, s');
  }

  lemma MemoryCleaned(s: Store, now: int, s': Store)
    requires s' == Cleaned(s, ExpiredIds(s.mem, now), now)
    ensures KeepsRows(s.mem.tasks, s'.mem.tasks, set id | id in s.mem.tasks && !Stays(s.mem.tasks[id], now))
    ensures KeepsRows(s.mem.rejected, s'.mem.rejected,
                      set k | k in s.mem.rejected && s.mem.rejected[k].at <= now - HISTORY_RETENTION)
    ensures KeepsRows(s.mem.cleared, s'.mem.cleared,
                      set k | k in s.mem.cleared && s.mem.cleared[k].at <= now - HISTORY_RETENTION)
  {
    hide Purged;
  }

  /** Due rows are purged by the committed requests, the rest goes with the requests that are dropped. */
  lemma InputsCleaned(s: Store, now: int, s': Store)
    requires s' == Cleaned(s, ExpiredIds(s.mem, now), now) && s.db.inputs.Keys <= s.mem.tasks.Keys
    requires SameDue(s.mem.tasks, s.db.rows.tasks)
    ensures KeepsRows(s.db.inputs, s'.db.inputs, InputsDue(s.mem.tasks, now))
  {
    if s'.mem == s.mem { NothingDropped(s, now); }
  }

  lemma ResultsCleaned(s: Store, now: int, s': Store)
    requires s' == Cleaned(s, ExpiredIds(s.mem, now), now) && s.db.results.Keys <= s.mem.tasks.Keys
    requires SameDue(s.mem.tasks, s.db.rows.tasks)
    ensures KeepsRows(s.db.results, s'.db.results, ResultsDue(s.mem.tasks, now))
  {
    if s'.mem == s.mem { NothingDropped(s, now); }
  }

  lemma CheckpointsCleaned(s: Store, now: int, s': Store)
    requires s' == Cleaned(s, ExpiredIds(s.mem, now), now) && s.db.completions.Keys <= s.mem.tasks.Keys
    requires SameDue(s.mem.tasks, s.db.rows.tasks)
    ensures KeepsRows(s.db.completions, s'.db.completions, ResultsDue(s.mem.tasks, now))
  {
    if s'.mem == s.mem { NothingDropped(s, now); }
  }

  lemma NothingDropped(s: Store, now: int)
    requires Cleaned(s, ExpiredIds(s.mem, now), now).mem == s.mem
    ensures forall id | id in s.mem.tasks :: Stays(s.mem.tasks[id], now)
  {
    hide Purged;
    forall id | id in s.mem.tasks ensures Stays(s.mem.tasks[id], now) {
      assert id in ExpiredIds(s.mem, now) <==> !Stays(s.mem.tasks[id], now);
    }
  }

  predicate SameDue(mem: map<Id, Task>, rows: map<Id, Task>) {
    && mem.Keys == rows.Keys
    && forall id | id in mem :: mem[id] == rows[id] || (!mem[id].state.Terminal() && !rows[id].state.Terminal())
  }

  /** What cleanup looks at is the same in memory and on disk. */
  lemma AsOnDisk(s: Store, now: int)
    requires Inv(s, now)
    ensures SameDue(s.mem.tasks, s.db.rows.tasks)
    ensures s.db.inputs.Keys + s.db.completions.Keys + s.db.results.Keys <= s.mem.tasks.Keys
  {
    hide ValidRows, OrdersInv, EntriesInv;
    assert forall id | id in s.mem.tasks :: AgreesTask(s.mem.tasks[id], s.db.rows.tasks[id]);
  }

  // ---------------------------------------------------------------- a restart

  /** How a restart ends a request in flight: by its archived result, dated from the freeze and without a failure note;
      by its completion, with the note that the archive is missing; or interrupted. It ends when the restart sees it. */
  lemma RecoveryMeans(e: Entry, intact: bool, now: int)
    requires EntryInv(e, now) && RecoverTask(e, intact, now).Some? && !e.task.state.Terminal()
    ensures var t, o := RecoverTask(e, intact, now).value, e.task;
      && t.finishedAt == (if now > o.startedAt then now else o.startedAt)
      && t.payloadExpiresAt == t.finishedAt + PAYLOAD_RETENTION
      && (if e.result.Some? && (e.result.value.artifacts == [] || intact) then
            && t.state == Succeeded && t.reason == NoReason && !t.archiveFailed
            && t.completedAt == e.result.value.frozenAt && t.resultExpiresAt == t.completedAt + RESULT_RETENTION
            && t.resultBytes == e.result.value.reply + SumOf(e.result.value.artifacts)
          else
            && t.completedAt == o.completedAt && t.resultExpiresAt == o.resultExpiresAt
            && t.resultBytes == o.resultBytes && t.archiveFailed == o.archiveFailed
            && (if o.completedAt > 0 then t.state == Succeeded && t.reason == ResultFreezeFailed && o.archiveFailed
                else t.state == Interrupted && t.reason == RestartRunning))
      && t == o.(state := t.state, reason := t.reason, finishedAt := t.finishedAt,
                 payloadExpiresAt := t.payloadExpiresAt, completedAt := t.completedAt,
                 resultExpiresAt := t.resultExpiresAt, resultBytes := t.resultBytes, archiveFailed := t.archiveFailed)
  {
    hide ValidResult, Charge, AcceptableSizes;
  }

  /** A delivery in flight is found ambiguous by a restart, dated no earlier than the restart; a finished request also
      gets it as its first attempt. Every other result is as it was. */
  lemma RestartReceiptMeans(e: Entry, intact: bool, now: int)
    requires EntryInv(e, now) && e.result.Some?
    ensures var r := e.result.value; var out := RecoverResult(e, intact, now);
      && out.Some?
      && var r' := out.value;
      && r' == r.(receipt := r'.receipt, attempts := r'.attempts)
      && (if r.receipt.outcome == Pending
             && (if e.task.state.Terminal()
                 then e.task.state == Succeeded && !e.task.archiveFailed && e.task.resultExpiresAt > now
                 else r.artifacts == [] || intact)
          then && r'.receipt.outcome == Ambiguous && r'.receipt.attemptedAt >= now && r'.receipt.operation == ""
               && r'.attempts == (if e.task.state.Terminal() then [r'.receipt] else [])
          else r' == r)
  {
    hide Charge, AcceptableSizes;
  }
}
