/** One execution from the stored request to its delivered result, with every failure on the way. */
module Runner {
  import opened Sums
  import opened RequestModel
  import opened RequestSpec
  import opened RequestInvariant
  import opened RequestIndex
  import opened RequestSteps
  import opened RequestMeaning
  import opened RequestRuns
  import opened RequestCapacity
  import opened RequestStore
  import opened Coordinator

  /** How a conversation turn came back. */
  datatype Turn = Reply(size: nat) | InterruptUnsettled | Stopped | Broken

  /** What an execution meets before its turn: files that verify, a workspace, a reporter, an output directory, the
      target of the request, an engine that opens a thread, and a target that takes it. */
  datatype Surroundings = Surroundings(
    verified: bool, workspace: bool, reporter: bool, outbox: bool, target: bool, reached: bool, bound: bool,
    thread: string)
  {
    predicate Helpful() { verified && workspace && reporter && outbox && target && reached && bound }
  }

  /** What is collected for the archive of an answer; its text may be longer than the answer. */
  datatype Archive = Archive(size: nat, blank: bool, artifacts: seq<nat>, urls: nat, collected: bool)

  /** The collected archive can be frozen: it is valid, it fits, and there is none yet. */
  ghost predicate CanArchive(s: Store, owner: string, id: Id, a: Archive, now: int) {
    && Has(s.mem, owner, id) && a.collected && id !in s.db.results
    && var r := FrozenResult(s.mem.tasks[id], a.size, a.blank, a.artifacts, a.urls, now);
       CanChange(s, owner, id, Freeze(r), now) && RoomToFreeze(s.mem, s.mem.tasks[id], r, now)
  }

  /** The receipt a channel's report becomes. */
  function ReceiptOf(report: Receipt, frozenAt: int, now: int): Receipt {
    report.(operation := "", attemptedAt := if now < frozenAt then frozenAt else now)
  }

  /** The report can be recorded as the first delivery. */
  ghost predicate CanReport(s: Store, owner: string, id: Id, report: Receipt, now: int) {
    id in s.db.results && CanRecord(s, owner, id, ReceiptOf(report, s.db.results[id].frozenAt, now), true, now)
  }

  /** The stored result is what was collected. */
  predicate HoldsArchive(db: Db, id: Id, a: Archive) {
    && id in db.results
    && var r := db.results[id];
       r.reply == a.size && r.blank == a.blank && r.artifacts == a.artifacts && r.urls == a.urls
  }

  /** The turn is over and recorded, and its answer is not archived yet. */
  ghost predicate AwaitsArchive(s: Store, owner: string, id: Id, now: int) {
    Sound(s, owner, id, now) && s.mem.tasks[id].state == Running && s.mem.tasks[id].completedAt > 0
  }

  /** The archived answer is being delivered and no report is recorded yet. */
  ghost predicate AwaitsReport(s: Store, owner: string, id: Id, a: Archive, now: int) {
    && Sound(s, owner, id, now) && s.mem.tasks[id].state == Delivering && s.mem.tasks[id].completedAt > 0
    && HoldsArchive(s.db, id, a) && s.db.results[id].attempts == []
  }

  /** What happened to an execution outside the store: it never reached a turn, or its turn came back. */
  datatype Fate = NoTurn(cancelled: bool) | HadTurn(turn: Turn, cancelled: bool)

  /** The turn produced an answer the store can hold. */
  predicate Answered(f: Fate) { f.HadTurn? && f.turn.Reply? && f.turn.size <= MAX_REPLY }

  /** The state in which an execution leaves its task when the disk works and no shutdown interrupts it. */
  function EndState(f: Fate): State {
    match f
    case NoTurn(cancelled) => if cancelled then State.Cancelled else Failed
    case HadTurn(Reply(size), _) => if size <= MAX_REPLY then Succeeded else Failed
    case HadTurn(InterruptUnsettled, _) => Failed
    case HadTurn(Stopped, cancelled) => if cancelled then State.Cancelled else Failed
    case HadTurn(Broken, cancelled) => if cancelled then Running else Failed
  }

  /** An execution ends its task in every case but one: a granted cancel whose turn failed for another reason. */
  lemma EndStateTerminal(f: Fate)
    ensures !EndState(f).Terminal() <==> f == HadTurn(Broken, true)
    ensures EndState(f) == Succeeded <==> Answered(f)
  {
    if f.HadTurn? && f.turn == Broken { }
  }

  /** The store is consistent and holds the task. */
  ghost predicate Sound(s: Store, owner: string, id: Id, now: int) { Inv(s, now) && Has(s.mem, owner, id) }

  lemma SoundLater(s: Store, owner: string, id: Id, now: int, later: int)
    requires Sound(s, owner, id, now) && now <= later
    ensures Sound(s, owner, id, later)
  {
    hide Inv;
    InvLater(s, now, later);
  }

  lemma AfterChange(s: Store, owner: string, id: Id, change: Change, now: int, s': Store, ok: bool)
    requires Sound(s, owner, id, now) && ChangeStep(s, owner, id, change, now, s', ok)
    ensures Sound(s', owner, id, now)
    ensures s'.mem.tasks[id] == if ok then Changed(EntryOf(s.mem.tasks, s.db, id), change,
        now).value.0 else s.mem.tasks[id]
    ensures ok ==> Changed(EntryOf(s.mem.tasks, s.db, id), change, now).Some?
  {
    ChangeStepPreserves(s, owner, id, change, now, s', ok);
    RowsById(s.mem, id);
    hide Inv, Changed;
    if ok { ChangedRow(s, owner, id, change, now, s'); }
    hide ChangeStep;
  }

  lemma ChangedRow(s: Store, owner: string, id: Id, change: Change, now: int, s': Store)
    requires Has(s.mem, owner, id) && s.mem.tasks[id].id == id && ChangeStep(s, owner, id, change, now, s', true)
    ensures Changed(EntryOf(s.mem.tasks, s.db, id), change, now).Some? && Has(s'.mem, owner, id)
    ensures s'.mem.tasks[id] == Changed(EntryOf(s.mem.tasks, s.db, id), change, now).value.0
  {
    hide Changed, Saved, ValidRows;
    var e := EntryOf(s.mem.tasks, s.db, id);
    ChangedIdentity(e, change, now);
    SavedTask(s, Changed(e, change, now).value.0, Changed(e, change, now).value.1);
  }

  lemma SavedTask(s: Store, t: Task, extra: Extra)
    ensures Saved(s, PutTask(s.mem, t), extra).mem == PutTask(s.mem, t)
  {
  }

  lemma AfterComplete(s: Store, owner: string, id: Id, reply: nat, now: int, s': Store, ok: bool)
    requires Sound(s, owner, id, now) && CompleteStep(s, owner, id, reply, now, s', ok)
    ensures Sound(s', owner, id, now)
    ensures s'.mem.tasks[id] == if CanComplete(s.mem, owner, id, reply) then CompletedTask(s.mem.tasks[id], reply,
        now) else s.mem.tasks[id]
  {
    CompletePreserves(s, owner, id, reply, now, s', ok);
    RowsById(s.mem, id);
    hide CompletedTask, ValidRows, Inv, ChangeStep;
    if ok {
      AfterChange(s, owner, id, Complete(reply), now, s', true);
      CompletesTo(EntryOf(s.mem.tasks, s.db, id), reply, now);
    } else if CanComplete(s.mem, owner, id, reply) {
      CompletedId(s.mem.tasks[id], reply, now);
    }
  }

  lemma CompletesTo(e: Entry, reply: nat, now: int)
    requires Changed(e, Complete(reply), now).Some?
    ensures Changed(e, Complete(reply), now).value.0 == CompletedTask(e.task, reply, now)
    ensures e.task.state == Running && reply <= MAX_REPLY
  {
  }

  lemma CompletedId(t: Task, reply: nat, now: int)
    ensures var t' := CompletedTask(t, reply, now);
      t'.id == t.id && t'.owner == t.owner && t'.state == t.state && (t.startedAt > 0 ==> t'.completedAt > 0)
  {
  }

  lemma AfterRecord(s: Store, owner: string, id: Id, receipt: Receipt, now: int, s': Store, ok: bool)
    requires Sound(s, owner, id, now) && RecordStep(s, owner, id, receipt, true, now, s', ok)
    ensures Sound(s', owner, id, now)
    ensures ok ==>
      s'.mem.tasks[id].state == Succeeded && s'.mem.tasks[id].completedAt > 0
      && (!s.mem.tasks[id].archiveFailed ==> s'.mem.tasks[id].reason == NoReason)
    ensures !ok ==> s' == s
  {
    hide Inv, Changed, ValidRows, CanRecord, ChangeStep;
    if ok {
      AfterChange(s, owner, id, Deliver(receipt), now, s', true);
      Delivers(s, id, receipt, now);
    }
  }

  lemma Delivers(s: Store, id: Id, receipt: Receipt, now: int)
    requires Inv(s, now) && id in s.mem.tasks && Changed(EntryOf(s.mem.tasks, s.db, id), Deliver(receipt), now).Some?
    ensures var t := Changed(EntryOf(s.mem.tasks, s.db, id), Deliver(receipt), now).value.0;
      && t.state == Succeeded && t.completedAt > 0
      && (!s.mem.tasks[id].archiveFailed ==> t.reason == NoReason)
  {
    hide DbInv, ValidRows, OrdersInv, Ahead, Agrees, InputInv, ResultInv, CompletionInv, Recorded, ValidResult;
    assert EntryInv(EntryOf(s.mem.tasks, s.db, id), now);
  }

  /** Threads, turns, stages and prepared inputs leave state and completion alone. */
  predicate Quiet(c: Change) { c.SetThread? || c.SetTurn? || c.Refresh? || c.Prepare? }

  lemma QuietChange(e: Entry, change: Change, now: int)
    requires Quiet(change) && Changed(e, change, now).Some?
    ensures var t := Changed(e, change, now).value.0;
      && t.state == e.task.state && t.completedAt == e.task.completedAt
      && (if change.SetThread? then t.thread == change.thread != "" else t.thread == e.task.thread)
      && (!change.Prepare? ==> t.inputPending == e.task.inputPending)
  {
    hide AcceptableSizes, Charge;
  }

  lemma AfterQuiet(s: Store, owner: string, id: Id, change: Change, now: int, s': Store, ok: bool)
    requires Sound(s, owner, id, now) && Quiet(change) && ChangeStep(s, owner, id, change, now, s', ok)
    ensures Sound(s', owner, id, now)
    ensures s'.mem.tasks[id].state == s.mem.tasks[id].state
    ensures s'.mem.tasks[id].completedAt == s.mem.tasks[id].completedAt
    ensures if ok && change.SetThread? then s'.mem.tasks[id].thread == change.thread != ""
            else s'.mem.tasks[id].thread == s.mem.tasks[id].thread
    ensures !change.Prepare? ==> s'.mem.tasks[id].inputPending == s.mem.tasks[id].inputPending
  {
    hide Inv, ChangeStep, Changed;
    AfterChange(s, owner, id, change, now, s', ok);
    if ok { QuietChange(EntryOf(s.mem.tasks, s.db, id), change, now); }
  }

  lemma EndsTo(e: Entry, next: State, reason: Reason, now: int)
    requires next.Terminal() && next != Succeeded && !e.task.state.Terminal() && e.task.completedAt >= 0
    ensures Changed(e, Transition(next, reason), now).None? <==>
      next == State.Cancelled && (e.task.completedAt > 0 || e.task.state == Delivering)
    ensures Changed(e, Transition(next, reason), now).Some? ==>
      var t := Changed(e, Transition(next, reason), now).value.0;
      && t.completedAt == e.task.completedAt && t.state == (if e.task.completedAt > 0 then Succeeded else next)
      && (e.task.completedAt == 0 ==> t.reason == reason)
  {
  }

  /** What asking for an end does: with a working disk it ends the task, and a completion turns every end into
      success. */
  lemma AfterEnd(s: Store, owner: string, id: Id, next: State, reason: Reason, now: int, s': Store, ok: bool,
                 reliable: bool)
    requires Sound(s, owner, id, now) && ChangeStep(s, owner, id, Transition(next, reason), now, s', ok)
    requires next.Terminal() && next != Succeeded && !s.mem.tasks[id].state.Terminal()
    requires reliable && CanChange(s, owner, id, Transition(next, reason), now) ==> ok
    requires next == State.Cancelled ==> s.mem.tasks[id].state == Running && s.mem.tasks[id].completedAt == 0
    ensures Sound(s', owner, id, now) && (reliable ==> ok)
    ensures s'.mem.tasks[id].completedAt == s.mem.tasks[id].completedAt
    ensures s'.mem.tasks[id].state ==
      if !ok then s.mem.tasks[id].state else if s.mem.tasks[id].completedAt > 0 then Succeeded else next
    ensures ok && s.mem.tasks[id].completedAt == 0 ==> s'.mem.tasks[id].reason == reason
  {
    hide Inv, ChangeStep, Changed, CanChange;
    AfterChange(s, owner, id, Transition(next, reason), now, s', ok);
    GuardsDecide(s, owner, id, Transition(next, reason), now);
    TaskStamps(s, id, now);
    EndsTo(EntryOf(s.mem.tasks, s.db, id), next, reason, now);
  }

  lemma TaskStamps(s: Store, id: Id, now: int)
    requires Inv(s, now) && id in s.mem.tasks
    ensures s.mem.tasks[id].completedAt >= 0 && s.mem.tasks[id].startedAt > 0
  {
    hide DbInv, ValidRows, OrdersInv, Ahead, Agrees, InputInv, ResultInv, CompletionInv;
    assert EntryInv(EntryOf(s.mem.tasks, s.db, id), now);
  }

  class Runner {
    const requests: RequestStore

    constructor (requests: RequestStore)
      ensures this.requests == requests
    {
      this.requests := requests;
    }

    ghost predicate Ready(owner: string, id: Id, now: int)
      reads requests
    {
      requests.Valid() && Sound(requests.View(), owner, id, now)
    }

    ghost function TaskOf(id: Id): Task
      reads requests
      requires id in requests.View().mem.tasks
    {
      requests.View().mem.tasks[id]
    }

    /** The task is running and nothing is recorded yet. */
    ghost predicate Fresh(owner: string, id: Id, now: int)
      reads requests
    {
      Ready(owner, id, now) && TaskOf(id).state == Running && TaskOf(id).completedAt == 0
    }

    /** The execution stops only by a granted cancel or a shutdown. */
    ghost predicate Watched(a: Admission, shutdown: bool)
      reads a
    {
      a.Valid() && (a.stopped ==> a.cancelRequested || shutdown)
    }

    /** Time passes: stages are shown, and a cancel or a shutdown may arrive. */
    method Meanwhile(a: Admission, owner: string, id: Id, now: int, ghost shutdown: bool)
      returns (later: int, ghost closing: bool)
      requires Ready(owner, id, now) && Watched(a, shutdown)
      modifies requests, a
      ensures now <= later && Ready(owner, id, later) && Watched(a, closing) && (shutdown ==> closing)
      ensures TaskOf(id).state == old(TaskOf(id)).state && TaskOf(id).completedAt == old(TaskOf(id)).completedAt
      ensures TaskOf(id).thread == old(TaskOf(id)).thread && TaskOf(id).inputPending == old(TaskOf(id)).inputPending
      ensures old(a.stopped) ==> a.stopped
      ensures Lookup(requests.View().db.inputs, id) == old(Lookup(requests.View().db.inputs, id))
      ensures a.finalizing == old(a.finalizing) && (old(a.finalizing) ==> a.cancelRequested == old(a.cancelRequested))
    {
      hide Sound, Represents, Placed, ChangeStep;
      later, closing := *, shutdown;
      if later < now {
        later := now;
      }
      SoundLater(requests.View(), owner, id, now, later);
      var cancel: bool := *;
      if cancel && !a.cancelRequested && !a.finalizing {
        a.RequestCancel();
      }
      var close: bool := *;
      if close {
        a.stopped, closing := true, true;
      }
      ghost var s := requests.View();
      SoundHas(s, owner, id, later);
      var ok := requests.UpdateStage(owner, id, later);
      AfterQuiet(s, owner, id, Refresh, later, requests.View(), ok);
      RefreshKeepsInput(s, owner, id, later, requests.View(), ok);
      SoundHas(requests.View(), owner, id, later);
    }

    /** Asks the store to end the task; whatever it answers, the execution goes on. */
    method End(owner: string, id: Id, next: State, reason: Reason, now: int)
      requires Ready(owner, id, now) && next.Terminal() && next != Succeeded && !TaskOf(id).state.Terminal()
      requires next == State.Cancelled ==> TaskOf(id).state == Running && TaskOf(id).completedAt == 0
      modifies requests
      ensures Ready(owner, id, now) && TaskOf(id).completedAt == old(TaskOf(id)).completedAt
      ensures TaskOf(id).state == old(TaskOf(id)).state
           || TaskOf(id).state == (if old(TaskOf(id)).completedAt > 0 then Succeeded else next)
      ensures requests.reliable ==> TaskOf(id).state == (if old(TaskOf(id)).completedAt > 0 then Succeeded else next)
      ensures requests.reliable && TaskOf(id).completedAt == 0 ==> TaskOf(id).reason == reason
      ensures Lookup(requests.db.results, id) == old(Lookup(requests.db.results, id))
    {
      hide Represents, Placed, ChangeStep, CanChange, Inv;
      ghost var s := requests.View();
      var ok := requests.Finish(owner, id, next, reason, now);
      AfterEnd(s, owner, id, next, reason, now, requests.View(), ok, requests.reliable);
      MoveKeepsResult(s, owner, id, next, reason, now, requests.View(), ok);
    }

    /** Everything before the turn: reading the input, preparing attachments, fixing the thread. Any step may fail. */
    method PrepareTurn(a: Admission, env: Surroundings, owner: string, id: Id, start: int, ghost before: bool)
      returns (ready: bool, now: int, ghost shutdown: bool)
      requires Fresh(owner, id, start) && Watched(a, before) && !a.finalizing
      modifies requests, a
      ensures start <= now && Fresh(owner, id, now) && Watched(a, shutdown) && (before ==> shutdown) && !a.finalizing
      ensures ready ==> TaskOf(id).thread != "" && env.Helpful()
      ensures ready && old(TaskOf(id)).thread == "" ==> TaskOf(id).thread == env.thread
      ensures (env.Helpful() && !a.stopped && !old(TaskOf(id)).inputPending && old(TaskOf(id)).thread != "") ==> ready
    {
      hide Sound, Represents, Placed, ChangeStep, Inv, CanChange;
      ready := false;
      now, shutdown := Meanwhile(a, owner, id, start, before);
      var input := ReadInput(owner, id, now);
      if input.None? || !env.verified || !env.workspace || !env.reporter {
        return;
      }
      now, shutdown := Meanwhile(a, owner, id, now, shutdown);
      var prepared, _ := PrepareInput(owner, id, input.value, now);
      if !prepared || a.stopped {
        return;
      }
      if !env.outbox || !env.target || !env.reached || !env.bound {
        return;
      }
      ready := FixThread(owner, id, env.thread, now);
    }

    /** The stored input of the request, when it can be read. */
    method ReadInput(owner: string, id: Id, now: int) returns (input: Option<Input>)
      requires Fresh(owner, id, now)
      ensures input.Some? ==> Lookup(requests.View().db.inputs, id) == input
      ensures !TaskOf(id).inputPending ==> input.Some? && input.value.sourceData == 0
    {
      hide Sound, Represents, Placed, Inv;
      SoundHas(requests.View(), owner, id, now);
      input := requests.InspectRequest(owner, id, now);
      PreparedInputReads(requests.View(), owner, id, now);
      OnFileIs(requests.View(), owner, id, now);
      hide InputOnFile;
    }

    /** The thread of the turn: the one the task has, or a new one that the store accepts. */
    method FixThread(owner: string, id: Id, thread: string, now: int) returns (ok: bool)
      requires Fresh(owner, id, now)
      modifies requests
      ensures Fresh(owner, id, now) && (ok ==> TaskOf(id).thread != "")
      ensures old(TaskOf(id)).thread != "" ==> ok && TaskOf(id).thread == old(TaskOf(id)).thread
      ensures old(TaskOf(id)).thread == "" ==>
        && (ok ==> TaskOf(id).thread == thread)
        && (requests.reliable && CanChange(old(requests.View()), owner, id, SetThread(thread), now) ==> ok)
    {
      hide Sound, Represents, Placed, ChangeStep, CanChange;
      SoundHas(requests.View(), owner, id, now);
      var t := requests.FindTask(owner, id);
      ok := t.value.thread != "";
      if !ok {
        ghost var s := requests.View();
        ok := requests.AttachThread(owner, id, thread, now);
        AfterQuiet(s, owner, id, SetThread(thread), now, requests.View(), ok);
        SoundHas(requests.View(), owner, id, now);
      }
    }

    /** The engine may name the turn while it runs; whether that can be stored does not matter to the execution. */
    method NameTurn(owner: string, id: Id, now: int)
      requires Fresh(owner, id, now)
      modifies requests
      ensures Fresh(owner, id, now) && TaskOf(id).thread == old(TaskOf(id)).thread
    {
      hide Sound, Represents, Placed, ChangeStep;
      var named: bool, turn: string := *, *;
      if named {
        ghost var s := requests.View();
        SoundHas(s, owner, id, now);
        var _ := requests.AttachTurn(owner, id, turn, now);
        if requests.View() != s { AfterQuiet(s, owner, id, SetTurn(turn), now, requests.View(), true); }
        SoundHas(requests.View(), owner, id, now);
      }
    }

    /** The channel fetches attachments, when there are any, and hands them to the store; the text it hands back is the
        stored one, trimmed. So a preparation never asks for more than the space bounds allow it. */
    method PrepareInput(owner: string, id: Id, input: Input, now: int) returns (ok: bool, ghost change: Change)
      requires Fresh(owner, id, now) && Lookup(requests.View().db.inputs, id) == Some(input)
      modifies requests
      ensures Fresh(owner, id, now)
      ensures TaskOf(id).thread == old(TaskOf(id)).thread && (input.sourceData == 0 ==> ok)
      ensures change.Prepare? && Careful(Up(old(requests.View())), Update(owner, id, change, ok), now)
    {
      hide Sound, Represents, Placed, ChangeStep;
      var text: nat, blank: bool, images: seq<nat>, files: seq<nat>, fetched: bool, wellFormed: bool,
          written: bool := *, *, *, *, *, *, *;
      if input.text < text {
        text := input.text;
      }
      change := Prepare(text, blank, images, files);
      ok := input.sourceData == 0;
      if !ok && fetched {
        ghost var s := requests.View();
        ok := requests.AttachInput(owner, id, text, blank, images, files, wellFormed, written, now);
        AfterQuiet(s, owner, id, change, now, requests.View(), ok);
        SoundHas(requests.View(), owner, id, now);
      }
    }

    /** An execution that never reaches its turn: cancelled when the cancel came first, failed unless shutting down. */
    method FailBefore(a: Admission, owner: string, id: Id, reason: Reason, now: int, ghost shutdown: bool)
      returns (cancelled: bool)
      requires Fresh(owner, id, now) && Watched(a, shutdown)
      modifies requests, a
      ensures Ready(owner, id, now) && a.Valid() && a.finalizing && cancelled == a.cancelRequested
      ensures TaskOf(id).completedAt == 0 && a.stopped == old(a.stopped)
      ensures requests.reliable && !shutdown ==>
        && TaskOf(id).state == EndState(NoTurn(cancelled))
        && TaskOf(id).reason == if cancelled then UserCancelled else reason
    {
      hide Sound, Represents, Placed;
      cancelled := a.Finalize();
      if cancelled {
        End(owner, id, State.Cancelled, UserCancelled, now);
      } else if !a.stopped {
        End(owner, id, Failed, reason, now);
      }
    }

    /** Saves, archives and delivers an answer. Once its completion is recorded, no failure undoes it. `atArchive` and
        `atDelivery` are the store and the time at which the archive and the receipt are handed to it. */
    method Conclude(owner: string, id: Id, size: nat, archive: Archive, intact: set<Id>, report: Receipt, start: int)
      returns (now: int, ghost archived: bool, ghost delivered: bool,
               ghost atArchive: (Store, int), ghost atDelivery: (Store, int))
      requires Fresh(owner, id, start)
      modifies requests
      ensures start <= now && Ready(owner, id, now)
      ensures TaskOf(id).completedAt > 0 <==> size <= MAX_REPLY
      ensures size <= MAX_REPLY ==>
        TaskOf(id).state == Running || TaskOf(id).state == Delivering || TaskOf(id).state == Succeeded
      ensures requests.reliable ==> TaskOf(id).state == if size <= MAX_REPLY then Succeeded else Failed
      ensures requests.reliable && size > MAX_REPLY ==> TaskOf(id).reason == ResultFreezeFailed
      ensures archived ==> size <= MAX_REPLY && HoldsArchive(requests.db, id, archive)
      ensures requests.reliable && size <= MAX_REPLY ==>
        && start <= atArchive.1 <= now && AwaitsArchive(atArchive.0, owner, id, atArchive.1)
        && Lookup(atArchive.0.db.results, id) == old(Lookup(requests.db.results, id))
      ensures (requests.reliable && size <= MAX_REPLY
               && CanArchive(atArchive.0, owner, id, archive, atArchive.1)) ==> archived
      ensures delivered ==>
        && archived && TaskOf(id).state == Succeeded && TaskOf(id).reason == NoReason
        && requests.db.results[id].receipt.outcome == report.outcome && requests.db.results[id].attempts != []
      ensures requests.reliable && archived && (archive.artifacts == [] || id in intact) ==>
        && start <= atDelivery.1 <= now && AwaitsReport(atDelivery.0, owner, id, archive, atDelivery.1)
      ensures (requests.reliable && archived && (archive.artifacts == [] || id in intact)
               && CanReport(atDelivery.0, owner, id, report, atDelivery.1)) ==> delivered
    {
      hide Sound, Represents, Placed, CanArchive, CanReport;
      now, archived, delivered := start, false, false;
      atArchive, atDelivery := (requests.View(), now), (requests.View(), now);
      var ok := Complete(owner, id, size, now);
      StampsNotNegative(requests.View(), owner, id, now);
      if !ok {
        End(owner, id, Failed, ResultFreezeFailed, now);
        return;
      }
      now := Later(owner, id, now);
      atArchive := (requests.View(), now);
      ok := ArchiveAnswer(owner, id, archive, now);
      if !ok {
        End(owner, id, Failed, ResultFreezeFailed, now);
        return;
      }
      archived := true;
      now, delivered, atDelivery := HandOver(owner, id, archive, intact, report, now);
    }

    /** Delivers a frozen answer. Whatever fails from here, the request succeeds when it ends. */
    method HandOver(owner: string, id: Id, archive: Archive, intact: set<Id>, report: Receipt, start: int)
      returns (now: int, ghost delivered: bool, ghost atDelivery: (Store, int))
      requires Ready(owner, id, start) && TaskOf(id).state == Running && TaskOf(id).completedAt > 0
      requires !TaskOf(id).archiveFailed && HoldsArchive(requests.db, id, archive)
      requires requests.db.results[id].attempts == []
      modifies requests
      ensures start <= now && Ready(owner, id, now) && TaskOf(id).completedAt > 0
      ensures requests.reliable && (archive.artifacts == [] || id in intact) ==>
        && start <= atDelivery.1 <= now && AwaitsReport(atDelivery.0, owner, id, archive, atDelivery.1)
      ensures TaskOf(id).state == Running || TaskOf(id).state == Delivering || TaskOf(id).state == Succeeded
      ensures requests.reliable ==> TaskOf(id).state == Succeeded
      ensures HoldsArchive(requests.db, id, archive)
      ensures delivered ==>
        && TaskOf(id).state == Succeeded && TaskOf(id).reason == NoReason
        && requests.db.results[id].receipt.outcome == report.outcome && requests.db.results[id].attempts != []
      ensures (requests.reliable && (archive.artifacts == [] || id in intact)
               && CanReport(atDelivery.0, owner, id, report, atDelivery.1)) ==> delivered
    {
      hide Sound, Represents, Placed, CanReport;
      now, delivered, atDelivery := start, false, (requests.View(), start);
      var ok := BeginDelivery(owner, id, archive, intact, now);
      if !ok {
        End(owner, id, Failed, Other("delivery_failed"), now);
        return;
      }
      now := Later(owner, id, now);
      atDelivery := (requests.View(), now);
      ok := Deliver(owner, id, archive, report, now);
      delivered := ok;
      if !ok {
        End(owner, id, Interrupted, DeliveryAmbiguous, now);
      }
    }

    method Later(owner: string, id: Id, now: int) returns (later: int)
      requires Ready(owner, id, now)
      ensures now <= later && Ready(owner, id, later)
    {
      later := *;
      if later < now {
        later := now;
      }
      SoundLater(requests.View(), owner, id, now, later);
    }

    method Complete(owner: string, id: Id, size: nat, now: int) returns (ok: bool)
      requires Fresh(owner, id, now)
      modifies requests
      ensures Ready(owner, id, now) && TaskOf(id).state == Running
      ensures TaskOf(id).completedAt > 0 <==> size <= MAX_REPLY
      ensures ok ==> size <= MAX_REPLY
      ensures requests.reliable && size <= MAX_REPLY ==> ok
      ensures Lookup(requests.db.results, id) == old(Lookup(requests.db.results, id))
      ensures Careful(Up(old(requests.View())), Event.CompleteExecution(owner, id, size, ok), now)
    {
      hide Represents, Placed, ChangeStep, Inv, CompletedTask, ValidRows, CanChange;
      ghost var s := requests.View();
      if size <= MAX_REPLY { CompleteDecides(s, owner, id, size, now); }
      TaskStamps(s, id, now);
      CompletedId(s.mem.tasks[id], size, now);
      ok := requests.CompleteExecution(owner, id, size, now);
      AfterComplete(s, owner, id, size, now, requests.View(), ok);
      CompleteKeepsResult(s, owner, id, size, now, requests.View(), ok);
    }

    /** Collects the outbox and freezes the result. */
    method ArchiveAnswer(owner: string, id: Id, archive: Archive, now: int) returns (ok: bool)
      requires Ready(owner, id, now)
      modifies requests
      ensures Ready(owner, id, now) && TaskOf(id).state == old(TaskOf(id)).state
      ensures TaskOf(id).completedAt == old(TaskOf(id)).completedAt
        || (old(TaskOf(id)).completedAt == 0 && TaskOf(id).completedAt > 0)
      ensures ok ==> !TaskOf(id).archiveFailed && HoldsArchive(requests.db, id, archive)
      ensures ok ==> requests.db.results[id].attempts == []
      ensures requests.reliable && CanArchive(old(requests.View()), owner, id, archive, now) ==> ok
    {
      hide Represents, Placed, ChangeStep, Inv, Changed, CanChange, RoomToFreeze;
      ghost var s := requests.View();
      TaskStamps(s, id, now);
      ghost var r;
      ok, r := requests.FreezeResult(owner, id, archive.size, archive.blank, archive.artifacts, archive.urls,
          archive.collected, now);
      AfterChange(s, owner, id, Freeze(r), now, requests.View(), ok);
      if ok { FreezesTo(EntryOf(s.mem.tasks, s.db, id), r, now); }
    }

    /** Delivery begins when the archive is there with every file intact. */
    method BeginDelivery(owner: string, id: Id, ghost archive: Archive, intact: set<Id>, now: int) returns (ok: bool)
      requires Ready(owner, id, now) && HoldsArchive(requests.db, id, archive)
      modifies requests
      ensures Ready(owner, id, now) && TaskOf(id).completedAt == old(TaskOf(id)).completedAt
      ensures TaskOf(id).state == if ok then Delivering else old(TaskOf(id)).state
      ensures Lookup(requests.db.results, id) == old(Lookup(requests.db.results, id))
      ensures TaskOf(id).archiveFailed == old(TaskOf(id)).archiveFailed
      ensures (requests.reliable && old(TaskOf(id)).state == Running
               && (archive.artifacts == [] || id in intact)) ==> ok
    {
      hide Represents, Placed, ChangeStep, Inv, Changed, CanChange, Loadable;
      ghost var s := requests.View();
      if TaskOf(id).state == Running && (archive.artifacts == [] || id in intact) {
        BeginsWhenLoaded(s, owner, id, archive, intact, now);
      }
      ok := requests.BeginDelivery(owner, id, intact, now);
      AfterChange(s, owner, id, Transition(Delivering, NoReason), now, requests.View(), ok);
      MoveKeepsResult(s, owner, id, Delivering, NoReason, now, requests.View(), ok);
      if ok { DeliversFrom(EntryOf(s.mem.tasks, s.db, id), now); }
    }

    /** The first delivery: what the channel reports is stored with the end of the request. */
    method Deliver(owner: string, id: Id, ghost archive: Archive, report: Receipt, now: int) returns (ok: bool)
      requires Ready(owner, id, now) && TaskOf(id).state == Delivering && !TaskOf(id).archiveFailed
      requires HoldsArchive(requests.db, id, archive)
      modifies requests
      ensures Ready(owner, id, now)
      ensures ok ==> TaskOf(id).state == Succeeded && TaskOf(id).completedAt > 0 && TaskOf(id).reason == NoReason
      ensures ok ==>
        && HoldsArchive(requests.db, id, archive)
        && requests.db.results[id].receipt.outcome == report.outcome && requests.db.results[id].attempts != []
      ensures !ok ==> requests.View() == old(requests.View())
      ensures requests.reliable && CanReport(old(requests.View()), owner, id, report, now) ==> ok
    {
      hide Represents, Placed, ChangeStep, Inv, CanRecord, RecordStep, CanChange;
      ghost var s := requests.View();
      var receipt := ReceiptOf(report, requests.db.results[id].frozenAt, now);
      if CanRecord(s, owner, id, receipt, true, now) { ReportDecides(s, owner, id, receipt, now); }
      ok := requests.RecordDelivery(owner, id, receipt, true, now);
      AfterRecord(s, owner, id, receipt, now, requests.View(), ok);
    }

    /** Archives a completed turn later, from its checkpoint or by reading the turn again; the turn is never run
        again. */
    method RestoreResult(owner: string, id: Id, archive: Archive, readAgain: bool, now: int) returns (ok: bool)
      requires Ready(owner, id, now)
      modifies requests
      ensures Ready(owner, id, now) && TaskOf(id).state == old(TaskOf(id)).state
      ensures TaskOf(id).completedAt == old(TaskOf(id)).completedAt
      ensures ok ==> old(TaskOf(id)).completedAt > 0 && old(TaskOf(id)).archiveFailed && !TaskOf(id).archiveFailed
      ensures ok ==> HoldsArchive(requests.db, id, archive)
      ensures (requests.reliable && old(TaskOf(id)).completedAt > 0 && old(TaskOf(id)).archiveFailed
               && old(TaskOf(id)).resultExpiresAt > now && old(TaskOf(id)).turn != "" && readAgain
               && CanArchive(old(requests.View()), owner, id, archive, now)) ==> ok
    {
      hide Sound, Represents, Placed;
      SoundHas(requests.View(), owner, id, now);
      var t := requests.FindTask(owner, id);
      StampsNotNegative(requests.View(), owner, id, now);
      if t.value.completedAt == 0 || !t.value.archiveFailed || t.value.resultExpiresAt <= now {
        return false;
      }
      var checkpoint := requests.LoadCompletion(owner, id, now);
      if checkpoint.None? && (t.value.turn == "" || !readAgain) {
        return false;
      }
      hide CanArchive;
      ok := ArchiveAnswer(owner, id, archive, now);
    }

    /** One execution. `fate` is what happened outside the store, `shutdown` whether the instance began to close. */
    method Execute(a: Admission, env: Surroundings, turn: Turn, archive: Archive, intact: set<Id>, report: Receipt,
                   owner: string, id: Id, start: int)
      returns (ghost fate: Fate, ghost shutdown: bool, now: int)
      requires Fresh(owner, id, start) && Watched(a, false) && !a.finalizing
      modifies requests, a
      ensures start <= now && Ready(owner, id, now) && a.Valid() && a.finalizing && fate.cancelled == a.cancelRequested
      ensures fate.HadTurn? ==> fate.turn == turn && env.Helpful()
      ensures (env.Helpful() && !a.stopped && !old(TaskOf(id)).inputPending && old(TaskOf(id)).thread != "") ==>
        fate.HadTurn?
      ensures TaskOf(id).completedAt > 0 <==> Answered(fate)
      ensures Answered(fate) ==>
        TaskOf(id).state == Running || TaskOf(id).state == Delivering || TaskOf(id).state == Succeeded
      ensures requests.reliable && (!shutdown || Answered(fate)) ==> TaskOf(id).state == EndState(fate)
      ensures requests.reliable && fate == HadTurn(InterruptUnsettled, true) ==>
        !RetryAccepts(requests.View().mem, owner, id)
      ensures Answered(fate) ==> !RetryAccepts(requests.View().mem, owner, id)
      ensures requests.reliable && fate.HadTurn? && fate.turn.Reply? ==>
        (RetryAccepts(requests.View().mem, owner, id) <==> fate.turn.size > MAX_REPLY)
    {
      hide Sound, Represents, Placed;
      var ready;
      ready, now, shutdown := PrepareTurn(a, env, owner, id, start, false);
      if !ready {
        var reason: Reason := *;
        var stopped := FailBefore(a, owner, id, reason, now, shutdown);
        return NoTurn(stopped), shutdown, now;
      }
      now, shutdown := Meanwhile(a, owner, id, now, shutdown);
      NameTurn(owner, id, now);
      var cancelled := a.Finalize();
      fate := HadTurn(turn, cancelled);
      now := EndTurn(turn, cancelled, a.stopped, archive, intact, report, owner, id, now);
      StampsNotNegative(requests.View(), owner, id, now);
    }

    /** Ends the request as its turn came back; an instance that closes leaves a turn without an answer to recovery. */
    method EndTurn(turn: Turn, cancelled: bool, stopped: bool, archive: Archive, intact: set<Id>, report: Receipt,
                   owner: string, id: Id, start: int)
      returns (now: int)
      requires Fresh(owner, id, start) && (cancelled ==> stopped)
      modifies requests
      ensures start <= now && Ready(owner, id, now)
      ensures TaskOf(id).completedAt > 0 <==> Answered(HadTurn(turn, cancelled))
      ensures Answered(HadTurn(turn, cancelled)) ==>
        TaskOf(id).state == Running || TaskOf(id).state == Delivering || TaskOf(id).state == Succeeded
      ensures requests.reliable && (cancelled || !stopped || turn.Reply?) ==>
        TaskOf(id).state == EndState(HadTurn(turn, cancelled))
      ensures requests.reliable && turn == InterruptUnsettled && cancelled ==>
        TaskOf(id).reason == InterruptUnconfirmed
      ensures requests.reliable && turn.Reply? && turn.size > MAX_REPLY ==> TaskOf(id).reason == ResultFreezeFailed
    {
      hide Sound, Represents, Placed, CanArchive, CanReport, HoldsArchive;
      now := start;
      match turn {
        case Reply(size) =>
          ghost var archived, delivered, atArchive, atDelivery;
          now, archived, delivered, atArchive, atDelivery := Conclude(owner, id, size, archive, intact, report, now);
        case InterruptUnsettled =>
          if cancelled {
            End(owner, id, Failed, InterruptUnconfirmed, now);
          } else if !stopped {
            End(owner, id, Failed, Other("codex_failed"), now);
          }
        case Stopped =>
          if cancelled {
            End(owner, id, State.Cancelled, UserCancelled, now);
          } else if !stopped {
            End(owner, id, Failed, Other("codex_failed"), now);
          }
        case Broken =>
          if !stopped {
            var threadBusy: bool := *;
            End(owner, id, Failed, Other(if threadBusy then "session_busy" else "codex_failed"), now);
          }
      }
    }
  }

  /** Moving a request leaves its result on file. */
  lemma MoveKeepsResult(s: Store, owner: string, id: Id, next: State, reason: Reason, now: int, s': Store, ok: bool)
    requires ChangeStep(s, owner, id, Transition(next, reason), now, s', ok) && Has(s.mem, owner, id)
    ensures Lookup(s'.db.results, id) == Lookup(s.db.results, id)
  {
    hide ValidRows, Transitioned;
  }

  lemma CompleteKeepsResult(s: Store, owner: string, id: Id, size: nat, now: int, s': Store, ok: bool)
    requires CompleteStep(s, owner, id, size, now, s', ok) && Has(s.mem, owner, id)
    ensures Lookup(s'.db.results, id) == Lookup(s.db.results, id)
  {
    hide ValidRows, CompletedTask;
  }

  /** From a consistent store delivery begins whenever the archive is there and its files are intact. */
  lemma BeginsWhenLoaded(s: Store, owner: string, id: Id, archive: Archive, intact: set<Id>, now: int)
    requires Sound(s, owner, id, now) && HoldsArchive(s.db, id, archive)
    requires s.mem.tasks[id].state == Running && (archive.artifacts == [] || id in intact)
    ensures CanChange(s, owner, id, Transition(Delivering, NoReason), now)
    ensures Loadable(s.db, id, s.mem.tasks[id].startedAt, intact)
  {
    hide Inv, CanChange, ValidResult, Changed;
    BeginChanges(EntryOf(s.mem.tasks, s.db, id), now);
    GuardsDecide(s, owner, id, Transition(Delivering, NoReason), now);
    StoredValid(s, id, now);
  }

  lemma CompleteDecides(s: Store, owner: string, id: Id, size: nat, now: int)
    requires Sound(s, owner, id, now) && s.mem.tasks[id].state == Running && size <= MAX_REPLY
    ensures CanChange(s, owner, id, Complete(size), now)
  {
    hide Inv, CanChange;
    GuardsDecide(s, owner, id, Complete(size), now);
  }

  lemma BeginChanges(e: Entry, now: int)
    requires e.task.state == Running && e.result.Some?
    ensures Changed(e, Transition(Delivering, NoReason), now).Some?
  {
  }

  /** A receipt that may be recorded as the first delivery is not refused by validation. */
  lemma ReportDecides(s: Store, owner: string, id: Id, receipt: Receipt, now: int)
    requires Sound(s, owner, id, now) && CanRecord(s, owner, id, receipt, true, now)
    ensures CanChange(s, owner, id, Deliver(receipt), now)
  {
    hide Inv, CanChange, Changed;
    TaskStamps(s, id, now);
    ReportChanges(s, owner, id, receipt, now);
    GuardsDecide(s, owner, id, Deliver(receipt), now);
  }

  lemma ReportChanges(s: Store, owner: string, id: Id, receipt: Receipt, now: int)
    requires CanRecord(s, owner, id, receipt, true, now) && s.mem.tasks[id].completedAt >= 0
    ensures Changed(EntryOf(s.mem.tasks, s.db, id), Deliver(receipt), now).Some?
  {
    hide ValidResult, Recorded;
  }

  lemma RefreshKeepsInput(s: Store, owner: string, id: Id, now: int, s': Store, ok: bool)
    requires ChangeStep(s, owner, id, Refresh, now, s', ok) && Has(s.mem, owner, id)
    ensures Lookup(s'.db.inputs, id) == Lookup(s.db.inputs, id)
  {
    hide ValidRows;
  }

  lemma OnFileIs(s: Store, owner: string, id: Id, now: int)
    ensures InputOnFile(s, owner, id, now).Some? ==> Lookup(s.db.inputs, id) == InputOnFile(s, owner, id, now)
  {
  }

  /** The input of a request that waits for nothing is there to read, and brings nothing to fetch. */
  lemma PreparedInputReads(s: Store, owner: string, id: Id, now: int)
    requires Sound(s, owner, id, now)
    ensures Has(s.mem, owner, id) && !s.mem.tasks[id].inputPending && s.mem.tasks[id].state == Running ==>
      && InputOnFile(s, owner, id, now).Some? && InputOnFile(s, owner, id, now).value.sourceData == 0
  {
    hide Inv, AcceptableSizes, InputCharge, SubmittedSize;
    if !s.mem.tasks[id].inputPending && s.mem.tasks[id].state == Running {
      LiveInputReads(s, owner, id, now);
      InputMatchesIndex(s, now, id);
    }
  }

  lemma StampsNotNegative(s: Store, owner: string, id: Id, now: int)
    requires Sound(s, owner, id, now)
    ensures Has(s.mem, owner, id) && s.mem.tasks[id].completedAt >= 0
  {
    hide Inv;
    TaskStamps(s, id, now);
  }

  lemma SoundHas(s: Store, owner: string, id: Id, now: int)
    requires Sound(s, owner, id, now)
    ensures Has(s.mem, owner, id)
  {
  }

  lemma FreezesTo(e: Entry, r: Result, now: int)
    requires e.task.completedAt >= 0 && e.task.startedAt > 0 && Changed(e, Freeze(r), now).Some?
    ensures var t := Changed(e, Freeze(r), now).value.0;
      t.state == e.task.state && t.completedAt > 0 && !t.archiveFailed
        && (e.task.completedAt > 0 ==> t.completedAt == e.task.completedAt)
  {
    hide ValidReceipt;
  }

  lemma DeliversFrom(e: Entry, now: int)
    requires Changed(e, Transition(Delivering, NoReason), now).Some?
    ensures var t := Changed(e, Transition(Delivering, NoReason), now).value.0;
      t.state == Delivering && t.completedAt == e.task.completedAt && t.archiveFailed == e.task.archiveFailed
  {
  }
}
