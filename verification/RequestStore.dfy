/** The request store as it runs: an index in memory, a committed baseline and the database file. */
module RequestStore {
  import opened Sums
  import opened RequestModel
  import opened RequestSpec
  import opened RequestInvariant
  import opened RequestRecovery
  import opened RequestRuns
  import opened RequestIndex
  import opened RequestPersistence
  import opened RequestSteps
  import opened RequestMeaning

  class RequestStore {
    var owners: Owners
    var nextOrder: int
    var rejected: map<string, Rejection>
    var cleared: map<string, Cleared>
    var persisted: Rows
    var db: Db
    /** When true every transaction and file operation succeeds; otherwise any of them may fail. */
    const reliable: bool
    /** The rows the lists of `owners` hold. */
    ghost var tasks: map<Id, Task>
    /** Whether the rows this process found were numbered apart, below the next number. */
    ghost const numbered: bool

    ghost predicate Valid()
      reads this
    {
      Represents(owners, tasks) && persisted == db.rows && InOrder()
    }

    /** Over such rows every list is sorted and the next task comes last. */
    ghost predicate InOrder()
      reads this
    {
      numbered ==> Placed(owners, nextOrder)
    }

    /** The store as the specification sees it. */
    ghost function View(): Store
      reads this
    {
      Store(Rows(tasks, nextOrder, rejected, cleared), db)
    }

    constructor (db: Db, reliable: bool)
      ensures owners == map[] && View() == Store(EMPTY_ROWS, db) && this.reliable == reliable && persisted == EMPTY_ROWS
      ensures numbered == OrdersInv(db.rows) && InOrder()
    {
      owners, nextOrder, rejected, cleared := map[], 1, map[], map[];
      persisted := EMPTY_ROWS;
      this.db := db;
      this.reliable := reliable;
      numbered := OrdersInv(db.rows);
      tasks := map[];
    }

    // ---------------------------------------------------------------- saving

    /** A transaction or a file operation: with a reliable disk it succeeds, otherwise it may fail. */
    method Attempt() returns (ok: bool)
      ensures reliable ==> ok
    {
      ok := true;
      if !reliable {
        ok := *;
      }
    }

    /** Validates the index, writes the difference to the baseline together with `extra`, and moves the baseline
        only when the transaction commits. */
    method SaveLocked(extra: Extra) returns (ok: bool)
      requires persisted == db.rows
      requires (exists t :: Represents(owners, t)) ==> Represents(owners, tasks)
      modifies this`persisted, this`db
      ensures persisted == db.rows
      ensures ok ==>
        && Represents(owners, tasks) && ValidRows(old(View()).mem)
        && View() == Saved(old(View()), old(View()).mem, extra)
      ensures !ok ==> db == old(db) && persisted == old(persisted)
      ensures reliable && Represents(owners, tasks) && ValidRows(old(View()).mem) ==> ok
    {
      hide IndexValid, ValidRows, Represents, Placed, Flush, Apply, Patched;
      ok := ValidateIndex(owners, nextOrder, rejected, cleared);
      if Represents(owners, tasks) { ValidIffRowsValid(owners, tasks, nextOrder, rejected, cleared); }
      if !ok {
        return;
      }
      UniqueIdsRepresent(owners, nextOrder, rejected, cleared);
      ValidIffRowsValid(owners, tasks, nextOrder, rejected, cleared);
      var next := SnapshotIndex(owners, tasks);
      var requests := SyncRows(db.rows.tasks, persisted.tasks, next);
      var refused := SyncRows(db.rows.rejected, persisted.rejected, rejected);
      var gone := SyncRows(db.rows.cleared, persisted.cleared, cleared);
      var order := if nextOrder != persisted.nextOrder then nextOrder else db.rows.nextOrder;
      SavedMem(View(), View().mem, extra);
      var written := Apply(Flush(db, Rows(requests, order, refused, gone)), extra);
      ok := Attempt();
      if ok {
        db := written;
        persisted := Rows(next, nextOrder, rejected, cleared);
      }
    }

    // ---------------------------------------------------------------- lookups

    /** The place of a task in its owner's list, or -1. */
    method TaskIndex(owner: string, id: Id) returns (i: int)
      requires Valid()
      ensures i >= 0 ==>
        At(owners, owner, i) && owners[owner][i].id == id && Has(View().mem, owner, id) && tasks[id] == owners[owner][i]
      ensures i < 0 <==> !Has(View().mem, owner, id)
    {
      if owner in owners {
        i := 0;
        while i < |owners[owner]|
          invariant 0 <= i <= |owners[owner]|
          invariant forall j | 0 <= j < i :: owners[owner][j].id != id
        {
          assert At(owners, owner, i);
          if owners[owner][i].id == id {
            return;
          }
          i := i + 1;
        }
      }
      i := -1;
      if Has(View().mem, owner, id) {
        var j := PlaceOf(owners, tasks, id);
      }
    }

    method FindTask(owner: string, id: Id) returns (found: Option<Task>)
      requires Valid()
      ensures found == TaskAt(View().mem, owner, id) && (found.Some? ==> found.value.id == id)
    {
      var i := TaskIndex(owner, id);
      found := if i < 0 then None else Some(owners[owner][i]);
    }

    /** Some task of this source, looked up over all owners. */
    method FindBySource(source: string) returns (found: Option<Task>)
      requires Valid()
      ensures found.Some? ==>
        found.value.id in tasks && tasks[found.value.id] == found.value && found.value.source == source
      ensures found.None? <==> !SourceTaken(View().mem, source)
    {
      var rest := owners.Keys;
      while rest != {}
        invariant rest <= owners.Keys
        invariant forall o, i {:trigger At(owners, o, i)} | At(owners, o, i) && o !in rest ::
          owners[o][i].source != source
        decreases |rest|
      {
        var o :| o in rest;
        var i := 0;
        while i < |owners[o]|
          invariant 0 <= i <= |owners[o]|
          invariant forall j {:trigger At(owners, o, j)} | At(owners, o, j) && j < i :: owners[o][j].source != source
        {
          assert At(owners, o, i);
          if owners[o][i].source == source {
            return Some(owners[o][i]);
          }
          i := i + 1;
        }
        rest := rest - {o};
      }
      if SourceTaken(View().mem, source) {
        var id :| id in tasks && tasks[id].source == source;
        var i := PlaceOf(owners, tasks, id);
      }
      found := None;
    }

    /** Some active task that holds the session, looked up over all owners. */
    method FindHolder(key: string) returns (found: Option<Task>)
      requires Valid()
      ensures found.Some? ==> found.value.id in tasks && tasks[found.value.id] == found.value && Holds(found.value, key)
      ensures found.None? <==> !SessionTaken(View().mem, key)
    {
      var rest := owners.Keys;
      while rest != {}
        invariant rest <= owners.Keys
        invariant forall o, i {:trigger At(owners, o, i)} | At(owners, o, i) && o !in rest :: !Holds(owners[o][i], key)
        decreases |rest|
      {
        var o :| o in rest;
        var i := 0;
        while i < |owners[o]|
          invariant 0 <= i <= |owners[o]|
          invariant forall j {:trigger At(owners, o, j)} | At(owners, o, j) && j < i :: !Holds(owners[o][j], key)
        {
          assert At(owners, o, i);
          if !owners[o][i].state.Terminal() && KeyOf(owners[o][i]) == key {
            return Some(owners[o][i]);
          }
          i := i + 1;
        }
        rest := rest - {o};
      }
      if SessionTaken(View().mem, key) {
        var id :| id in tasks && Holds(tasks[id], key);
        var i := PlaceOf(owners, tasks, id);
      }
      found := None;
    }

    /** Both space totals, accumulated over all lists. */
    method Totals(now: int) returns (reserved: int, charged: int)
      requires Valid()
      ensures reserved == ReservedBytes(tasks, now) && charged == PayloadBytes(tasks, now)
    {
      hide ReservedBytes, PayloadBytes, Represents, Placed;
      reserved, charged := 0, 0;
      ghost var seen: map<Id, Task> := map[];
      assert seen.Keys == {};
      NothingHeld(seen, now);
      OwnersListed(owners, tasks);
      var rest := owners.Keys;
      while rest != {}
        invariant rest <= owners.Keys
        invariant reserved == ReservedBytes(seen, now) && charged == PayloadBytes(seen, now)
        invariant forall id :: id in seen <==> id in tasks && tasks[id].owner !in rest
        invariant forall id | id in seen :: seen[id] == tasks[id]
        decreases |rest|
      {
        var o :| o in rest;
        var r, c;
        r, c, seen := OwnerTotals(o, now, seen);
        reserved, charged := reserved + r, charged + c;
        rest := rest - {o};
      }
      assert seen == tasks;
    }

    /** What one list adds to the totals of the rows already `seen`. */
    method OwnerTotals(o: string, now: int, ghost seen: map<Id, Task>)
      returns (reserved: int, charged: int, ghost all: map<Id, Task>)
      requires Valid() && o in owners
      requires forall id | id in seen :: id in tasks && seen[id] == tasks[id] && tasks[id].owner != o
      ensures reserved == ReservedBytes(all, now) - ReservedBytes(seen, now)
      ensures charged == PayloadBytes(all, now) - PayloadBytes(seen, now)
      ensures forall id :: id in all <==> id in seen || (id in tasks && tasks[id].owner == o)
      ensures forall id | id in all :: all[id] == tasks[id]
    {
      hide ReservedBytes, PayloadBytes, Reservation, LivePayload;
      reserved, charged, all := 0, 0, seen;
      var i := 0;
      while i < |owners[o]|
        invariant 0 <= i <= |owners[o]|
        invariant reserved == ReservedBytes(all, now) - ReservedBytes(seen, now)
        invariant charged == PayloadBytes(all, now) - PayloadBytes(seen, now)
        invariant forall id | id in seen :: id in all
        invariant forall id | id in all :: id in tasks && all[id] == tasks[id] && (id in seen || tasks[id].owner == o)
        invariant forall j {:trigger At(owners, o, j)} | At(owners, o, j) :: owners[o][j].id in all <==> j < i
      {
        var t := owners[o][i];
        assert At(owners, o, i);
        reserved := reserved + Reservation(t, now);
        charged := charged + LivePayload(t, now);
        ReservedUpdate(all, t, now);
        PayloadUpdate(all, t, now);
        all := all[t.id := t];
        i := i + 1;
      }
      forall id | id in tasks && tasks[id].owner == o ensures id in all {
        var j := PlaceOf(owners, tasks, id);
      }
    }

    // ---------------------------------------------------------------- changing one task

    /** Swaps one task in its list, saves, and puts the old list back when the save fails. */
    method ReplaceLocked(owner: string, i: int, t: Task, extra: Extra) returns (ok: bool)
      requires Valid() && At(owners, owner, i) && SamePlace(owners[owner][i], t)
      modifies this`owners, this`tasks, this`persisted, this`db
      ensures Valid()
      ensures ok ==> Replaces(old(View()), t, extra, View())
      ensures !ok ==> View() == old(View())
      ensures reliable && ValidRows(PutTask(old(View()).mem, t)) ==> ok
    {
      hide ValidRows, Represents, Placed;
      var previous := owners[owner];
      ghost var before := tasks;
      PlaceHolds(owners, tasks, owner, i);
      ReplaceKeeps(owners, tasks, owner, i, t);
      if numbered { PlacedReplace(owners, owner, i, t, nextOrder); }
      UndoReplace(owners, owner, i, t);
      owners := owners[owner := previous[i := t]];
      tasks := tasks[t.id := t];
      ok := SaveLocked(extra);
      if !ok {
        owners := owners[owner := previous];
        tasks := before;
      }
    }

    method TransitionLocked(owner: string, id: Id, next: State, reason: Reason, now: int) returns (ok: bool)
      requires Valid() && next != Running
      requires next == Delivering ==> id in db.results
      modifies this`owners, this`tasks, this`persisted, this`db
      ensures Valid()
      ensures ChangeStep(old(View()), owner, id, Transition(next, reason), now, View(), ok)
      ensures reliable && CanChange(old(View()), owner, id, Transition(next, reason), now) ==> ok
    {
      hide ValidRows, Represents, Placed, Transitioned;
      var i := TaskIndex(owner, id);
      if i < 0 {
        return false;
      }
      var moved := MoveTask(owners[owner][i], next, reason, now);
      if moved.None? {
        return false;
      }
      MovedTask(owners[owner][i], next, reason, now);
      assert Changed(EntryOf(tasks, db, id), Transition(next, reason), now) == Some((moved.value, NoExtra));
      hide Changed, Transitioned, Saved, PutTask, EntryOf;
      ok := ReplaceLocked(owner, i, moved.value, NoExtra);
    }

    method Finish(owner: string, id: Id, next: State, reason: Reason, now: int) returns (ok: bool)
      requires Valid()
      modifies this`owners, this`tasks, this`persisted, this`db
      ensures Valid()
      ensures ChangeStep(old(View()), owner, id, Transition(next, reason), now, View(), ok)
      ensures !next.Terminal() ==> !ok
      ensures reliable && next.Terminal() && CanChange(old(View()), owner, id, Transition(next, reason), now) ==> ok
    {
      if !next.Terminal() {
        return false;
      }
      ok := TransitionLocked(owner, id, next, reason, now);
    }

    /** A running task fixes its native thread once; the save refuses a thread another active task holds. */
    method AttachThread(owner: string, id: Id, thread: string, now: int) returns (ok: bool)
      requires Valid()
      modifies this`owners, this`tasks, this`persisted, this`db
      ensures Valid()
      ensures ChangeStep(old(View()), owner, id, SetThread(thread), now, View(), ok)
      ensures reliable && CanChange(old(View()), owner, id, SetThread(thread), now) ==> ok
    {
      hide ValidRows, Represents, Placed;
      var i := TaskIndex(owner, id);
      if i < 0 || thread == "" {
        return false;
      }
      var t := owners[owner][i];
      if t.state != Running {
        return false;
      }
      if t.thread != "" && t.thread != thread {
        return false;
      }
      ok := ReplaceLocked(owner, i, t.(thread := thread), NoExtra);
    }

    /** The turn is fixed once; naming it again is accepted without a save. */
    method AttachTurn(owner: string, id: Id, turn: string, now: int) returns (ok: bool)
      requires Valid()
      modifies this`owners, this`tasks, this`persisted, this`db
      ensures Valid()
      ensures View() != old(View()) ==> ChangeStep(old(View()), owner, id, SetTurn(turn), now, View(), true)
      ensures ok ==> Has(View().mem, owner, id) && View().mem.tasks[id].turn == turn
      ensures !ok ==> View() == old(View())
      ensures reliable && CanChange(old(View()), owner, id, SetTurn(turn), now) ==> ok
    {
      hide ValidRows, Represents, Placed;
      var i := TaskIndex(owner, id);
      if i < 0 {
        return false;
      }
      var t := owners[owner][i];
      if t.turn == turn {
        return true;
      }
      if t.turn != "" || turn == "" {
        return false;
      }
      ok := ReplaceLocked(owner, i, t.(turn := turn), NoExtra);
    }

    /** Display updates of an active task save the index and so carry an unsaved completion to disk. */
    method UpdateStage(owner: string, id: Id, now: int) returns (ok: bool)
      requires Valid()
      modifies this`owners, this`tasks, this`persisted, this`db
      ensures Valid()
      ensures ChangeStep(old(View()), owner, id, Refresh, now, View(), ok)
      ensures reliable && CanChange(old(View()), owner, id, Refresh, now) ==> ok
    {
      hide ValidRows, Represents, Placed;
      var i := TaskIndex(owner, id);
      if i < 0 {
        return false;
      }
      if owners[owner][i].state != Running && owners[owner][i].state != Delivering {
        return false;
      }
      ok := ReplaceLocked(owner, i, owners[owner][i], NoExtra);
    }

    method SumSizes(sizes: seq<nat>) returns (total: nat)
      ensures total == SumOf(sizes)
    {
      total := 0;
      var i := 0;
      while i < |sizes|
        invariant 0 <= i <= |sizes|
        invariant total == SumOf(sizes[..i])
      {
        SumOfPrefix(sizes, i);
        total := total + sizes[i];
        i := i + 1;
      }
      assert sizes[..|sizes|] == sizes;
    }

    /** The downloaded attachments take the place of the reserved space, in one transaction with the task. */
    method AttachInput(owner: string, id: Id, text: nat, blank: bool, images: seq<nat>, files: seq<nat>,
                       wellFormed: bool, written: bool, now: int)
      returns (ok: bool)
      requires Valid()
      modifies this`owners, this`tasks, this`persisted, this`db
      ensures Valid()
      ensures ChangeStep(old(View()), owner, id, Prepare(text, blank, images, files), now, View(), ok)
      ensures (reliable && wellFormed && written
               && CanChange(old(View()), owner, id, Prepare(text, blank, images, files), now)) ==> ok
    {
      hide ValidRows, Represents, Placed;
      var i := TaskIndex(owner, id);
      if i < 0 {
        return false;
      }
      var t := owners[owner][i];
      if t.state != Running || !t.inputPending {
        return false;
      }
      var imageBytes := SumSizes(images);
      var fileBytes := SumSizes(files);
      if !wellFormed || !AcceptableSizes(text, blank, 0, 0, images, files) || imageBytes + fileBytes > MAX_TASK {
        return false;
      }
      if id !in db.inputs || !AcceptableStored(db.inputs[id]) || !written {
        return false;
      }
      var token := db.inputs[id].token;
      var charge := text + token + imageBytes + fileBytes;
      var ready := t.(inputPending := false, images := |images|, files := |files|, payloadBytes := charge);
      ok := ReplaceLocked(owner, i, ready, PutInput(id, Input(t.source, text, blank, token, 0, images, files)));
    }

    // ---------------------------------------------------------------- completion and result

    /** The fact of completion is written with its checkpoint; when the disk refuses, memory keeps it. */
    method CompleteExecution(owner: string, id: Id, reply: nat, now: int) returns (ok: bool)
      requires Valid()
      modifies this`owners, this`tasks, this`persisted, this`db
      ensures Valid()
      ensures CompleteStep(old(View()), owner, id, reply, now, View(), ok)
      ensures reliable && CanChange(old(View()), owner, id, Complete(reply), now) ==> ok
    {
      hide ValidRows, Represents, Placed;
      var i := TaskIndex(owner, id);
      if i < 0 || owners[owner][i].state != Running {
        return false;
      }
      var t := owners[owner][i];
      var at := if now < t.startedAt then t.startedAt else now;
      if reply > MAX_REPLY {
        return false;
      }
      var completed := t.(completedAt := at, resultExpiresAt := at + RESULT_RETENTION, archiveFailed := true,
          resultBytes := MAX_TASK + reply);
      ok := ReplaceLocked(owner, i, completed, PutCompletion(id, Completion(1, reply, at)));
      if !ok {
        var j := TaskIndex(owner, id);
        KeepCompletion(owner, j, completed);
      }
    }

    method KeepCompletion(owner: string, i: int, t: Task)
      requires Valid() && At(owners, owner, i) && SamePlace(owners[owner][i], t)
      modifies this`owners, this`tasks
      ensures Valid() && View() == old(View()).(mem := PutTask(old(View()).mem, t))
    {
      PlaceHolds(owners, tasks, owner, i);
      ReplaceKeeps(owners, tasks, owner, i, t);
      if numbered { PlacedReplace(owners, owner, i, t, nextOrder); }
      hide Represents, Placed;
      owners := owners[owner := owners[owner][i := t]];
      tasks := tasks[t.id := t];
    }

    /** The checkpoint of a completed turn while its result is retained. */
    method LoadCompletion(owner: string, id: Id, now: int) returns (completion: Option<Completion>)
      requires Valid()
      ensures completion.Some? <==>
        && Has(View().mem, owner, id) && tasks[id].resultExpiresAt > now
        && id in db.completions && db.completions[id].version == 1 && db.completions[id].at >= tasks[id].startedAt
      ensures completion.Some? ==> completion.value == db.completions[id]
    {
      var t := FindTask(owner, id);
      if t.None? || t.value.resultExpiresAt <= now {
        return None;
      }
      if id !in db.completions || db.completions[id].version != 1 || db.completions[id].at < t.value.startedAt {
        return None;
      }
      completion := Some(db.completions[id]);
    }

    /** Freezes the collected result beside the task, once, when its size fits. */
    method FreezeResult(owner: string, id: Id, reply: nat, blank: bool, artifacts: seq<nat>, urls: nat,
                        collected: bool, now: int)
      returns (ok: bool, ghost result: Result)
      requires Valid()
      modifies this`owners, this`tasks, this`persisted, this`db
      ensures Valid()
      ensures Has(old(View()).mem, owner, id) ==>
        result == FrozenResult(old(View()).mem.tasks[id], reply, blank, artifacts, urls, now)
      ensures FreezeStep(old(View()), owner, id, result, now, View(), ok)
      ensures ok ==>
        && id in db.results && db.results[id] == result && id !in old(db).results
        && result.reply == reply && result.blank == blank && result.artifacts == artifacts && result.urls == urls
        && result.receipt == PENDING && result.attempts == [] && result.frozenAt >= now && id !in db.completions
      ensures (reliable && collected && CanChange(old(View()), owner, id, Freeze(result), now)
               && RoomToFreeze(old(View()).mem, old(View()).mem.tasks[id], result, now)
               && id !in old(db).results) ==> ok
    {
      hide Represents, Placed, ValidRows, FreezeStep, CanChange, RoomToFreeze;
      OwnersListed(owners, tasks);
      ok, result := FreezeLocked(owner, id, reply, blank, artifacts, urls, collected, now);
      if ok { FreezeStores(old(View()), owner, id, result, now, View()); }
    }

    method FreezeLocked(owner: string, id: Id, reply: nat, blank: bool, artifacts: seq<nat>, urls: nat,
                        collected: bool, now: int)
      returns (ok: bool, ghost result: Result)
      requires Valid()
      modifies this`owners, this`tasks, this`persisted, this`db
      ensures Valid()
      ensures Has(old(View()).mem, owner, id) ==>
        result == FrozenResult(old(View()).mem.tasks[id], reply, blank, artifacts, urls, now)
      ensures FreezeStep(old(View()), owner, id, result, now, View(), ok)
      ensures (reliable && collected && CanChange(old(View()), owner, id, Freeze(result), now)
               && RoomToFreeze(old(View()).mem, old(View()).mem.tasks[id], result, now)
               && id !in old(db).results) ==> ok
    {
      hide ValidRows, Represents, Placed, ReservedBytes, FrozenTask, ValidReceipt;
      result := Result(2, reply, blank, artifacts, urls, 0, PENDING, []);
      var i := TaskIndex(owner, id);
      if i < 0 {
        return false, result;
      }
      var t := owners[owner][i];
      var r := Result(2, reply, blank, artifacts, urls, if now < t.startedAt then t.startedAt else now, PENDING, []);
      result := r;
      if t.state != Running && !(t.state == Succeeded && t.archiveFailed) {
        return false, result;
      }
      if reply > MAX_REPLY || |artifacts| > MAX_ARTIFACTS || urls > MAX_URLS || !collected {
        return false, result;
      }
      if !ValidResult(r, t.startedAt) {
        return false, result;
      }
      var reserved, charged := Totals(now);
      var artifactBytes := SumSizes(artifacts);
      if reserved - Reservation(t, now) + reply + artifactBytes > MAX_RESULT_STORE {
        return false, result;
      }
      if id in db.results {
        return false, result;
      }
      assert RoomToFreeze(View().mem, t, r, now);
      var frozen := FreezeTask(t, r, reply + artifactBytes);
      assert Changed(EntryOf(tasks, db, id), Freeze(r), now) == Some((frozen, PutResult(id, r)));
      hide Changed, Transitioned, Saved, PutTask, EntryOf, FrozenTask, RoomToFreeze;
      ok := ReplaceLocked(owner, i, frozen, PutResult(id, r));
    }

    /** Delivery starts only from a running task whose frozen result loads with every file intact. */
    method BeginDelivery(owner: string, id: Id, intact: set<Id>, now: int) returns (ok: bool)
      requires Valid()
      modifies this`owners, this`tasks, this`persisted, this`db
      ensures Valid()
      ensures BeginDeliveryStep(old(View()), owner, id, intact, now, View(), ok)
      ensures (reliable && CanChange(old(View()), owner, id, Transition(Delivering, NoReason), now)
               && Loadable(old(db), id, old(View()).mem.tasks[id].startedAt, intact)
                 && old(View()).mem.tasks[id].state == Running) ==> ok
    {
      hide ValidRows, Represents, Placed, ValidResult;
      var i := TaskIndex(owner, id);
      if i < 0 || owners[owner][i].state != Running {
        return false;
      }
      if !Loadable(db, id, owners[owner][i].startedAt, intact) {
        return false;
      }
      ok := TransitionLocked(owner, id, Delivering, NoReason, now);
    }

    /** Records a delivery receipt; the first delivery commits it together with the end of the task. */
    method RecordDelivery(owner: string, id: Id, receipt: Receipt, complete: bool, now: int) returns (ok: bool)
      requires Valid()
      modifies this`owners, this`tasks, this`persisted, this`db
      ensures Valid()
      ensures RecordStep(old(View()), owner, id, receipt, complete, now, View(), ok)
      ensures ok ==>
        && id in old(db).results && id in db.results && TakesReceipt(old(db).results[id], receipt, db.results[id])
        && (complete ==> Has(View().mem, owner, id) && View().mem.tasks[id].state == Succeeded)
      ensures ok ==>
        && Has(old(View()).mem, owner, id) && receipt.outcome != Pending && receipt.attemptedAt != 0
        && var t := old(View()).mem.tasks[id];
        && t.completedAt != 0 && t.resultExpiresAt > now && (complete ==> t.state == Delivering)
      ensures (reliable && CanRecord(old(View()), owner, id, receipt, complete, now)
               && (complete ==> CanChange(old(View()), owner, id, Deliver(receipt), now))) ==> ok
    {
      hide Represents, Placed, ValidRows, RecordStep, CanRecord, CanChange, TakesReceipt;
      OwnersListed(owners, tasks);
      ok := RecordLocked(owner, id, receipt, complete, now);
      if ok {
        RecordedGuard(old(View()), owner, id, receipt, complete, now, View());
        DeliveryMeans(old(View()), owner, id, receipt, complete, now, View());
      }
    }

    method RecordLocked(owner: string, id: Id, receipt: Receipt, complete: bool, now: int) returns (ok: bool)
      requires Valid()
      modifies this`owners, this`tasks, this`persisted, this`db
      ensures Valid()
      ensures RecordStep(old(View()), owner, id, receipt, complete, now, View(), ok)
      ensures (reliable && CanRecord(old(View()), owner, id, receipt, complete, now)
               && (complete ==> CanChange(old(View()), owner, id, Deliver(receipt), now))) ==> ok
    {
      hide ValidRows, Represents, Placed, ValidResult, Moved;
      var i := TaskIndex(owner, id);
      if i < 0 {
        return false;
      }
      var t := owners[owner][i];
      if t.completedAt == 0 || t.resultExpiresAt <= now {
        return false;
      }
      if complete && (t.state != Delivering || receipt.operation != "") {
        return false;
      }
      if !Readable(db, id, t.startedAt) {
        return false;
      }
      if receipt.outcome == Pending || receipt.attemptedAt == 0 {
        return false;
      }
      var r := db.results[id];
      if receipt.operation != "" {
        var place := AttemptIndex(r.attempts, receipt.operation);
        if place.None? {
          return false;
        }
        r := r.(attempts := r.attempts[place.value := receipt]);
      } else if |r.attempts| == 0 {
        r := r.(attempts := [receipt]);
      }
      r := r.(receipt := receipt);
      assert Recorded(db.results[id], receipt) == Some(r);
      if !ValidResult(r, t.startedAt) {
        return false;
      }
      if complete {
        var ended := MoveTask(t, Succeeded, NoReason, now);
        MovedTask(t, Succeeded, NoReason, now);
        assert Changed(EntryOf(tasks, db, id), Deliver(receipt), now) == Some((ended.value, PutReceipts(id, r)));
        hide Changed, Saved, PutTask, EntryOf, Recorded;
        ok := ReplaceLocked(owner, i, ended.value, PutReceipts(id, r));
      } else {
        ok := Attempt();
        if ok {
          db := Apply(db, PutReceipts(id, r));
        }
      }
    }

    /** Registers an operation before anything is sent; a registered one is never sent again. */
    method BeginRedelivery(owner: string, id: Id, operation: string, intact: set<Id>, now: int)
      returns (out: Redelivery)
      requires Valid() && operation != ""
      modifies this`db
      ensures Valid()
      ensures RedeliverStep(old(View()), owner, id, operation, now, intact, View(), out)
      ensures out == Duplicate <==>
        CanRedeliver(old(View()), owner, id, now, intact) && operation in Operations(old(db).results[id].attempts)
      ensures out != Unavailable ==>
        && Has(old(View()).mem, owner, id) && id in old(db).results
        && var t := old(View()).mem.tasks[id];
        && t.state == Succeeded && t.resultExpiresAt > now && (old(db).results[id].artifacts == [] || id in intact)
      ensures (reliable && Inv(old(View()), now) && Has(old(View()).mem, owner, id) && id in old(db).results
               && var t, r := old(View()).mem.tasks[id], old(db).results[id];
               && t.state == Succeeded && t.resultExpiresAt > now && (r.artifacts == [] || id in intact)
               && |r.attempts| < MAX_ATTEMPTS) ==> out != Unavailable
      ensures reliable ==>
        (out == Fresh <==>
           && CanRedeliver(old(View()), owner, id, now, intact)
           && operation !in Operations(old(db).results[id].attempts)
           && |old(db).results[id].attempts| < MAX_ATTEMPTS)
      ensures out == Fresh ==>
        && id in old(db).results && id in db.results
        && var before, r := old(db).results[id], db.results[id];
        && |r.attempts| == |before.attempts| + 1 && r.attempts[..|before.attempts|] == before.attempts
        && r.receipt == r.attempts[|before.attempts|] && r.receipt.operation == operation
        && r.receipt.outcome == Ambiguous && r.receipt.attemptedAt >= now
    {
      hide Represents, Placed, ValidResult, Inv;
      if Inv(View(), now) && id in View().mem.tasks && id in db.results { StoredValid(View(), id, now); }
      var i := TaskIndex(owner, id);
      if i < 0 || owners[owner][i].state != Succeeded || owners[owner][i].resultExpiresAt <= now {
        return Unavailable;
      }
      if !Loadable(db, id, owners[owner][i].startedAt, intact) {
        return Unavailable;
      }
      var r := db.results[id];
      if AttemptIndex(r.attempts, operation).Some? {
        assert r.attempts[AttemptIndex(r.attempts, operation).value].operation in Operations(r.attempts);
        return Duplicate;
      }
      if |r.attempts| >= MAX_ATTEMPTS {
        return Unavailable;
      }
      var receipt := Receipt(operation, Ambiguous, if now < r.frozenAt then r.frozenAt else now, 0, false,
          "delivery_ambiguous");
      r := r.(attempts := r.attempts + [receipt], receipt := receipt);
      var ok := Attempt();
      if !ok {
        return Unavailable;
      }
      db := Apply(db, PutReceipts(id, r));
      out := Fresh;
      RedeliveryMeans(old(View()), owner, id, operation, now, intact, View());
    }

    // ---------------------------------------------------------------- admission, rejection and clearing

    /** Appends a new task, saves with its input, and undoes both the list and the counter when the save fails. */
    method AppendLocked(t: Task, input: Input) returns (ok: bool)
      requires Valid() && t.order == nextOrder
      modifies this`owners, this`tasks, this`nextOrder, this`persisted, this`db
      ensures Valid()
      ensures ok ==>
        && t.id !in old(tasks) && ValidRows(WithNewTask(old(View()).mem, t))
        && View() == Saved(old(View()), WithNewTask(old(View()).mem, t), PutInput(t.id, input))
      ensures !ok ==> View() == old(View())
      ensures reliable && t.id !in old(tasks) && ValidRows(WithNewTask(old(View()).mem, t)) ==> ok
    {
      hide ValidRows, Represents, Placed;
      var existed := t.owner in owners;
      var previous := if existed then owners[t.owner] else [];
      ghost var before, all := tasks, owners;
      ListAppended(owners, tasks, t);
      UndoAppend(owners, t.owner, previous + [t]);
      owners := owners[t.owner := previous + [t]];
      nextOrder := nextOrder + 1;
      if t.id !in tasks {
        tasks := tasks[t.id := t];
        assert View().mem == WithNewTask(old(View()).mem, t);
        SavedOver(old(View()), View(), View().mem, PutInput(t.id, input));
      }
      hide Saved, WithNewTask;
      ok := SaveLocked(PutInput(t.id, input));
      if !ok {
        if existed {
          owners := owners[t.owner := previous];
        } else {
          owners := owners - {t.owner};
        }
        nextOrder := nextOrder - 1;
        tasks := before;
      }
    }

    /** Keeps the recent receipts, adds this one, and puts the old ones back when the save fails. */
    method RejectLocked(r: Rejection, now: int) returns (ok: bool)
      requires Valid()
      modifies this`rejected, this`persisted, this`db
      ensures Valid()
      ensures RejectStep(old(View()), r, now, View(), ok)
      ensures ok && r.source !in old(rejected) ==> Rejects(old(View()), r, now, View())
      ensures (reliable && ValidRows(old(View()).mem) && now > 0
               && !SourceTaken(old(View()).mem, r.source) && r.source !in old(cleared)) ==> ok
    {
      hide ValidRows, Represents, Placed, SourceTaken, Rejects;
      if ValidRows(View().mem) && now > 0 && !SourceTaken(View().mem, r.source) && r.source !in cleared {
        RejectDecides(View().mem, r, now);
      }
      if r.source in rejected {
        return true;
      }
      var previous := rejected;
      var next: map<string, Rejection> := map[];
      var rest := previous.Keys;
      while rest != {}
        invariant rest <= previous.Keys
        invariant forall k :: k in next <==> k in previous && k !in rest && Recent(previous[k].at, now)
        invariant forall k | k in next :: next[k] == previous[k]
        decreases |rest|
      {
        var k :| k in rest;
        if previous[k].at > now - HISTORY_RETENTION {
          next := next[k := previous[k]];
        }
        rest := rest - {k};
      }
      assert next == RecentRejections(previous, now);
      rejected := next[r.source := r.(at := now)];
      ok := SaveLocked(NoExtra);
      if !ok {
        rejected := previous;
      } else {
        RejectionMeans(old(View()), r, now, View(), true);
      }
    }

    method Others(list: seq<Task>, id: Id) returns (kept: seq<Task>)
      requires forall i, j | 0 <= i < j < |list| :: list[i].id != list[j].id
      ensures Keeps(list, {id}, kept)
    {
      hide Keeps;
      kept := [];
      KeepsNone(list, {id});
      var j := 0;
      while j < |list|
        invariant 0 <= j <= |list|
        invariant Keeps(list[..j], {id}, kept)
      {
        KeepsNext(list, j, {id}, kept);
        if list[j].id != id {
          kept := kept + [list[j]];
        }
        j := j + 1;
      }
      assert list[..j] == list;
    }

    /** Removes a finished task against a receipt for its source, then its files; `ok` also needs the files gone. */
    method Release(owner: string, id: Id) returns (ok: bool, ghost saved: bool)
      requires Valid() && ValidRows(View().mem)
      modifies this`owners, this`tasks, this`cleared, this`persisted, this`db
      ensures Valid()
      ensures ReleaseStep(old(View()), owner, id, View(), saved)
      ensures (ok ==> saved) && (saved && reliable ==> ok)
      ensures reliable ==> (saved <==> Has(old(View()).mem, owner, id) && old(View()).mem.tasks[id].state.Terminal())
    {
      hide Represents, Placed, ValidRows;
      saved := false;
      var i := TaskIndex(owner, id);
      if i < 0 || !owners[owner][i].state.Terminal() {
        return false, saved;
      }
      ok := ReleaseLocked(owner, i);
      saved := ok;
      if ok {
        ok := Attempt();
      }
    }

    method ReleaseLocked(owner: string, i: int) returns (ok: bool)
      requires Valid() && ValidRows(View().mem) && At(owners, owner, i)
      modifies this`owners, this`tasks, this`cleared, this`persisted, this`db
      ensures Valid()
      ensures var id := old(owners)[owner][i].id;
        && Has(old(View()).mem, owner, id)
        && if ok then ValidRows(WithoutTask(old(View()).mem, id))
          && View() == Saved(old(View()), WithoutTask(old(View()).mem, id), NoExtra)
           else View() == old(View())
      ensures reliable && old(owners)[owner][i].state.Terminal() ==> ok
    {
      hide Represents, Placed, ValidRows, Keeps, WithoutTask, Saved;
      var t := owners[owner][i];
      var id := t.id;
      PlaceHolds(owners, tasks, owner, i);
      SourceNotCleared(View().mem, id);
      if t.state.Terminal() { ReleaseDecides(View().mem, id); }
      var previous := owners[owner];
      ghost var before := tasks;
      OwnerIdsDistinct(owners, tasks, owner);
      var next := Others(previous, id);
      var receipt := Cleared.Cleared(owner, id, t.state, t.completedAt, t.finishedAt);
      ListReleased(owners, tasks, owner, id, next, nextOrder);
      UndoRelease(owners, owner, next, cleared, t.source, receipt);
      WithoutTaskRows(View().mem, id);
      cleared := cleared[t.source := receipt];
      owners := owners[owner := next];
      tasks := tasks - {id};
      assert View().mem == WithoutTask(old(View()).mem, id);
      SavedOver(old(View()), View(), View().mem, NoExtra);
      ok := SaveLocked(NoExtra);
      if !ok {
        owners := owners[owner := previous];
        cleared := cleared - {t.source};
        tasks := before;
      }
    }

    // ---------------------------------------------------------------- cleanup

    method ForgetCleared(now: int)
      modifies this`cleared
      ensures cleared == RecentCleared(old(cleared), now)
    {
      var rest := cleared.Keys;
      ghost var before := cleared;
      while rest != {}
        invariant rest <= before.Keys && rest <= cleared.Keys
        invariant forall k :: k in cleared <==> k in before && (k in rest || Recent(before[k].at, now))
        invariant forall k | k in cleared :: cleared[k] == before[k]
        decreases |rest|
      {
        var k :| k in rest;
        if cleared[k].at <= now - HISTORY_RETENTION {
          cleared := cleared - {k};
        }
        rest := rest - {k};
      }
    }

    method ForgetRejected(now: int)
      modifies this`rejected
      ensures rejected == RecentRejections(old(rejected), now)
    {
      var rest := rejected.Keys;
      ghost var before := rejected;
      while rest != {}
        invariant rest <= before.Keys && rest <= rejected.Keys
        invariant forall k :: k in rejected <==> k in before && (k in rest || Recent(before[k].at, now))
        invariant forall k | k in rejected :: rejected[k] == before[k]
        decreases |rest|
      {
        var k :| k in rest;
        if rejected[k].at <= now - HISTORY_RETENTION {
          rejected := rejected - {k};
        }
        rest := rest - {k};
      }
    }

    /** What stays of one owner's list once its old finished tasks are dropped. */
    method KeptOf(list: seq<Task>, now: int) returns (kept: seq<Task>)
      requires forall i, j | 0 <= i < j < |list| :: list[i].id != list[j].id
      ensures Keeps(list, OldIds(list, now), kept)
      ensures |kept| == |list| ==> OldIds(list, now) == {}
      ensures |kept| != |list| ==> OldIds(list, now) != {}
    {
      kept := [];
      var j := 0;
      ghost var dropped := 0;
      hide Keeps, OldIds, OldAmong, HistoryExpired;
      KeepsNone(list, OldIds(list, now));
      OldNone(list, now);
      while j < |list|
        invariant 0 <= j <= |list| && |kept| + dropped == j && dropped >= 0
        invariant Keeps(list[..j], OldIds(list, now), kept)
        invariant dropped > 0 <==> OldAmong(list, j, now)
      {
        KeepsNext(list, j, OldIds(list, now), kept);
        OldNext(list, j, now);
        if !list[j].state.Terminal() || list[j].finishedAt + HISTORY_RETENTION > now {
          kept := kept + [list[j]];
        } else {
          dropped := dropped + 1;
        }
        j := j + 1;
      }
      assert list[..j] == list;
      OldAll(list, now);
    }

    /** Drops one owner's old tasks and saves; the old list comes back when the save fails. */
    method DropOld(o: string, now: int) returns (ok: bool, ghost gone: set<Id>)
      requires Valid() && o in owners
      modifies this`owners, this`tasks, this`persisted, this`db
      ensures Valid() && owners.Keys == old(owners.Keys)
      ensures forall id :: id in gone <==>
        id in old(tasks) && old(tasks)[id].owner == o && HistoryExpired(old(tasks)[id], now)
      ensures ok && gone == {} ==> View() == old(View())
      ensures ok && gone != {} ==>
        ValidRows(Dropped(old(View()).mem, gone))
          && View() == Saved(old(View()), Dropped(old(View()).mem, gone), NoExtra)
      ensures !ok ==> View() == old(View())
      ensures reliable && ValidRows(Dropped(old(View()).mem, gone)) ==> ok
    {
      hide ValidRows, Represents, Placed, Keeps, HistoryExpired;
      var previous := owners[o];
      ghost var before := tasks;
      OwnerIdsDistinct(owners, tasks, o);
      gone := OldIds(previous, now);
      OldIdsOwned(owners, tasks, o, now);
      ok := Attempt();
      if !ok {
        return;
      }
      var kept := KeptOf(previous, now);
      if |kept| != |previous| {
        RemoveKeeps(owners, tasks, o, gone, kept);
        if numbered { KeptPlaced(owners, o, gone, kept, nextOrder); }
        UndoList(owners, o, kept);
        owners := owners[o := kept];
        tasks := tasks - gone;
        assert View().mem == Dropped(old(View()).mem, gone);
        SavedOver(old(View()), View(), View().mem, NoExtra);
        hide Saved, Dropped;
        ok := SaveLocked(NoExtra);
        if !ok {
          owners := owners[o := previous];
          tasks := before;
        }
      }
    }

    /** Purges expired rows, forgets old receipts and drops old tasks; every stage saves on its own. */
    method CleanupExpired(now: int) returns (ok: bool)
      requires Valid()
      modifies this`owners, this`tasks, this`rejected, this`cleared, this`persisted, this`db
      ensures Valid()
      ensures CleanupStep(old(View()), now, View(), ok)
      ensures reliable && ValidRows(old(View()).mem) ==> ok
    {
      hide ValidRows, Represents, Placed, HistoryExpired;
      ghost var s := View();
      ok := Attempt();
      if !ok {
        return;
      }
      db := Purged(db, now);
      assert db.rows == s.db.rows;
      hide Purged;
      if ValidRows(s.mem) { SubsetValid(s.mem, {}, now); }
      CleanedNothing(s, now);
      ok := ForgetOld(now);
      if !ok {
        return;
      }
      assert View() == Cleaned(s, {}, now);
      assert ExpiredIds(View().mem, now) == ExpiredIds(s.mem, now);
      hide Cleaned, Saved, ForgetReceipts, Dropped;
      ghost var gone;
      ok, gone := DropEveryOld(now);
      assert gone <= ExpiredIds(s.mem, now);
      assert gone <= s.mem.tasks.Keys - {};
      if gone != {} { CleanedMore(s, {}, gone, now); }
      assert gone + {} == gone;
      assert CleanedBy(s, gone, now, View(), ok);
    }

    /** Drops the old tasks of one owner after another, until a list cannot be saved. */
    method DropEveryOld(now: int) returns (ok: bool, ghost gone: set<Id>)
      requires Valid()
      modifies this`owners, this`tasks, this`persisted, this`db
      ensures Valid()
      ensures gone <= ExpiredIds(old(View()).mem, now) && (ok ==> gone == ExpiredIds(old(View()).mem, now))
      ensures DroppedFrom(old(View()), gone, View())
      ensures reliable && ValidRows(old(View()).mem) ==> ok
    {
      hide ValidRows, Represents, Placed, HistoryExpired, DroppedFrom, ExpiredOutside;
      ghost var s := View();
      gone := {};
      DroppedNone(s);
      ok := true;
      var rest := owners.Keys;
      OwnersListed(owners, tasks);
      OutsideBounds(s.mem, rest, now);
      while rest != {}
        invariant Valid() && rest <= owners.Keys && DroppedFrom(s, gone, View())
        invariant reliable && ValidRows(s.mem) ==> ValidRows(View().mem)
        invariant gone == ExpiredOutside(s.mem, rest, now)
        decreases |rest|
      {
        var o :| o in rest;
        ghost var v := View();
        DroppedTasks(s, gone, v);
        ghost var more;
        ok, more := DropOld(o, now);
        if ValidRows(v.mem) { DroppedValid(v.mem, more); }
        OutsideBounds(s.mem, rest, now);
        if !ok {
          return;
        }
        OutsideMore(s.mem, rest, o, now, more);
        if more != {} { DropMore(s, gone, v, more); }
        gone := gone + more;
        rest := rest - {o};
      }
      OutsideBounds(s.mem, rest, now);
    }

    /** Forgets old receipts and saves when there were any; both maps come back when the save fails. */
    method ForgetOld(now: int) returns (ok: bool)
      requires Valid()
      modifies this`rejected, this`cleared, this`persisted, this`db
      ensures Valid()
      ensures ok ==> var rest := ForgetReceipts(old(View()).mem, now);
        if rest == old(View()).mem then View() == old(View())
        else ValidRows(rest) && View() == Saved(old(View()), rest, NoExtra)
      ensures !ok ==> View() == old(View())
      ensures reliable && ValidRows(ForgetReceipts(old(View()).mem, now)) ==> ok
    {
      hide ValidRows, Represents, Placed;
      var previousCleared, previousRejected := cleared, rejected;
      ForgetCleared(now);
      ForgetRejected(now);
      SameSize(cleared, previousCleared);
      SameSize(rejected, previousRejected);
      ok := true;
      if |previousCleared| != |cleared| || |previousRejected| != |rejected| {
        ok := SaveLocked(NoExtra);
        if !ok {
          cleared, rejected := previousCleared, previousRejected;
        }
      }
    }

    // ---------------------------------------------------------------- starting

    /** Turns an instruction into a running task; the answer to a repeated or refused one never runs it.
        `mid` is the store after the cleanup every start begins with. */
    method Start(i: StartInput, id: Id, staged: bool, cleanedAt: int, now: int)
      returns (out: StartOutcome, ghost mid: Store, ghost cleanup: bool)
      requires Valid()
      modifies this
      ensures Valid()
      ensures CleanupStep(old(View()), cleanedAt, mid, cleanup) && (!cleanup ==> out == Refused)
      ensures StartStep(mid, i, id, now, View(), out) && (cleanup ==> Answers(mid.mem, i, now, out))
      ensures cleanup ==> AcceptableInput(i)
      ensures reliable && ValidRows(old(View()).mem) ==> (cleanup <==> AcceptableInput(i))
      ensures reliable && staged && CanStart(mid, i, id, now) && ValidRows(old(View()).mem) ==> out.Created?
      ensures (reliable && cleanup && now > 0 && ValidRows(old(View()).mem)
               && SessionTaken(mid.mem, SessionKey(i.owner, i.target, i.thread))) ==> out != Refused
    {
      hide ValidRows, Represents, Placed, CleanupStep, AcceptableInput, RejectStep, Answers;
      mid, cleanup := View(), false;
      if !AcceptableInput(i) {
        FailedCleanup(mid, cleanedAt);
        return Refused, mid, cleanup;
      }
      var cleaned := CleanupExpired(cleanedAt);
      mid, cleanup := View(), cleaned;
      if !cleaned {
        return Refused, mid, cleanup;
      }
      if ValidRows(old(View()).mem) { CleanupStaysValid(old(View()), cleanedAt, mid, cleanup); }
      out := StartLocked(i, id, staged, now);
    }

    /** Room for the worst result and for the input's charge. */
    method HasRoom(i: StartInput, now: int) returns (room: bool)
      requires Valid()
      ensures room <==> RoomForResult(View().mem, now) && RoomForInput(View().mem, i, now)
    {
      hide Represents, Placed, ReservedBytes, PayloadBytes;
      var reserved, charged := Totals(now);
      var bytes := ChargeFor(i);
      room := reserved + MAX_RESERVATION <= MAX_RESULT_STORE && charged + bytes <= MAX_INPUT_STORE;
    }

    method ChargeFor(i: StartInput) returns (bytes: nat)
      ensures bytes == SubmittedCharge(i)
    {
      var imageBytes := SumSizes(i.images);
      var fileBytes := SumSizes(i.files);
      bytes := i.text + i.token + i.sourceData + (if i.sourceData > 0 then MAX_TASK else 0) + imageBytes + fileBytes;
    }

    method StartLocked(i: StartInput, id: Id, staged: bool, now: int) returns (out: StartOutcome)
      requires Valid() && AcceptableInput(i)
      modifies this
      ensures Valid()
      ensures StartStep(old(View()), i, id, now, View(), out) && Answers(old(View()).mem, i, now, out)
      ensures reliable && staged && CanStart(old(View()), i, id, now) ==> out.Created?
      ensures (reliable && now > 0 && ValidRows(old(View()).mem)
               && SessionTaken(old(View()).mem, SessionKey(i.owner, i.target, i.thread))) ==> out != Refused
    {
      hide ValidRows, Represents, Placed, AcceptableInput, RejectStep, RoomForResult, RoomForInput, Holds, Saved,
        WithNewTask, SubmittedCharge, InputOf;
      var existing := FindBySource(i.source);
      if existing.Some? {
        return Existing(existing.value);
      }
      if i.source in cleared {
        return AlreadyCleared;
      }
      OwnerSize(owners, tasks, i.owner);
      if i.owner in owners && |owners[i.owner]| >= MAX_RECORDS {
        return NoCapacity;
      }
      if i.source in rejected {
        return AlreadyRejected;
      }
      var holder := FindHolder(SessionKey(i.owner, i.target, i.thread));
      if holder.Some? {
        var running := holder.value;
        ghost var before := View();
        var ok := RejectLocked(Rejection(i.source, i.owner, i.target, running.thread, running.id, "", 0), now);
        if !ok {
          FailedReject(before, BusyReceipt(i, running), now, View());
          return Refused;
        }
        return SessionBusy;
      }
      var room := HasRoom(i, now);
      if !room {
        return NoCapacity;
      }
      assert Admits(View().mem, i, now);
      hide Admits, Answers;
      out := AppendNew(i, id, staged, now);
    }

    /** The admitted instruction becomes a task when its files are staged and the save commits; source data that the
        tables cannot hold makes the save fail. */
    method AppendNew(i: StartInput, id: Id, staged: bool, now: int) returns (out: StartOutcome)
      requires Valid() && Admits(View().mem, i, now)
      modifies this
      ensures Valid() && StartStep(old(View()), i, id, now, View(), out) && (out.Created? || out == Refused)
      ensures reliable && staged && CanStart(old(View()), i, id, now) ==> out.Created?
    {
      hide ValidRows, Represents, Placed, Saved, WithNewTask, SubmittedCharge, InputOf, Admits;
      if !staged {
        return Refused;
      }
      var bytes := ChargeFor(i);
      var t := NewTaskFor(i, id, nextOrder, bytes, now);
      hide NewTask;
      var ok := false;
      if Storable(i) {
        ok := AppendLocked(t, InputOf(i));
      }
      out := if ok then Created(t) else Refused;
    }

    /** Reads a retained input back and checks it against the index. */
    method InspectRequest(owner: string, id: Id, now: int) returns (input: Option<Input>)
      requires Valid()
      ensures input == InputOnFile(View(), owner, id, now)
      ensures Inv(View(), now) ==>
        (input.Some? <==>
           && Has(View().mem, owner, id) && HasPayload(tasks[id], now)
           && id in db.inputs && ReadsBack(tasks[id], db.inputs[id]))
    {
      hide Represents, Placed, AcceptableSizes, Inv;
      if Inv(View(), now) { LiveInputReads(View(), owner, id, now); }
      var i := TaskIndex(owner, id);
      if i < 0 {
        return None;
      }
      var t := owners[owner][i];
      if t.state.Terminal() && t.payloadExpiresAt <= now {
        return None;
      }
      if id !in db.inputs || !AcceptableStored(db.inputs[id]) {
        return None;
      }
      var stored := db.inputs[id];
      if !t.inputPending && (stored.sourceData > 0 || |stored.images| != t.images || |stored.files| != t.files) {
        return None;
      }
      if stored.source != t.source {
        return None;
      }
      var imageBytes := SumSizes(stored.images);
      var fileBytes := SumSizes(stored.files);
      var total := stored.text + stored.token + stored.sourceData + imageBytes + fileBytes;
      if stored.sourceData > 0 {
        total := total + MAX_TASK;
      }
      if total > t.payloadBytes {
        return None;
      }
      input := Some(stored);
    }

    /** Starts a new task from the retained input of a failed one; a recorded completion is never started again. Only a
        retry that `reached` the start cleans up, to `mid`, and may start; any other leaves the store alone. */
    method Retry(owner: string, id: Id, source: string, token: nat, newId: Id,
                 wellFormed: bool, verified: bool, staged: bool, cleanedAt: int, now: int)
      returns (out: StartOutcome, ghost reached: bool, ghost mid: Store, ghost cleanup: bool)
      requires Valid()
      modifies this
      ensures Valid()
      ensures reached <==>
        && RetryAccepts(old(View()).mem, owner, id) && !SourceTaken(old(View()).mem, source)
        && InputOnFile(old(View()), owner, id, cleanedAt).Some? && verified
      ensures !reached ==> View() == old(View()) && (out == Refused || out.Existing?)
      ensures out.Existing? ==>
        && RetryAccepts(old(View()).mem, owner, id) && out.task.source == source && out.task.retryOf == id
        && View() == old(View())
      ensures reached ==>
        var i := RetryInput(old(View()).mem.tasks[id], InputOnFile(old(View()), owner, id, cleanedAt).value, source,
            token, wellFormed);
        && CleanupStep(old(View()), cleanedAt, mid, cleanup) && (!cleanup ==> out == Refused)
        && StartStep(mid, i, newId, now, View(), out) && (cleanup ==> Answers(mid.mem, i, now, out))
        && (reliable && staged && CanStart(mid, i, newId, now) && ValidRows(old(View()).mem) ==> out.Created?)
      ensures out.Created? ==>
        && newId in tasks && out.task == tasks[newId] && newId in db.inputs && db.rows == View().mem
        && var original, stored, t := old(View()).mem.tasks[id], old(db).inputs[id], tasks[newId];
        && t.owner == original.owner && t.target == original.target && t.thread == original.thread
        && KeyOf(t) == KeyOf(original) && t.retryOf == id && t.source == source && t.state == Running
        && t.completedAt == 0 && db.inputs[newId] == stored.(source := source, token := token)
      ensures reached && cleanup && SessionTaken(mid.mem, KeyOf(old(View()).mem.tasks[id])) ==> !out.Created?
      ensures (reached && cleanup && SessionTaken(mid.mem, KeyOf(old(View()).mem.tasks[id]))
               && source !in mid.mem.cleared && source !in mid.mem.rejected
               && |OwnedIds(mid.mem.tasks, owner)| < MAX_RECORDS
               && reliable && now > 0 && ValidRows(old(View()).mem)) ==> out == SessionBusy
    {
      hide Represents, Placed, ValidRows, CleanupStep, StartStep, CanStart, Answers, SessionTaken, SessionKey;
      reached, mid, cleanup := false, View(), false;
      var original := FindTask(owner, id);
      if original.None? || original.value.completedAt != 0 || original.value.reason == InterruptUnconfirmed
         || (original.value.state != Failed && original.value.state != Interrupted) {
        return Refused, reached, mid, cleanup;
      }
      var existing := FindBySource(source);
      if existing.Some? {
        if existing.value.owner != owner || existing.value.retryOf != id {
          return Refused, reached, mid, cleanup;
        }
        return Existing(existing.value), reached, mid, cleanup;
      }
      var stored := InspectRequest(owner, id, cleanedAt);
      if stored.None? || !verified {
        return Refused, reached, mid, cleanup;
      }
      reached := true;
      OnFile(View(), owner, id, cleanedAt);
      hide InputOnFile, SourceTaken;
      var i := RetryInput(original.value, stored.value, source, token, wellFormed);
      out, mid, cleanup := Start(i, newId, staged, cleanedAt, now);
      ghost var answer := out;
      if out.Existing? && out.task.retryOf != original.value.id {
        out := Refused;
      }
      NewSourceStays(old(View()), cleanedAt, mid, cleanup, i, newId, now, View(), answer);
      if out.Created? {
        RetryMeans(mid, original.value, stored.value, source, token, wellFormed, newId, now, View(), out);
      }
      if cleanup && SessionTaken(mid.mem, KeyOf(original.value)) {
        RetryMeetsHolder(mid, original.value, stored.value, source, token, wellFormed, now, out);
      }
    }

    /** The active task of this owner that a new admission for the target or the thread would meet. */
    method Active(owner: string, target: string, thread: string) returns (found: Option<Task>)
      requires Valid()
      ensures found.Some? ==>
        && Has(View().mem, owner, found.value.id) && tasks[found.value.id] == found.value
        && Meets(found.value, target, thread)
      ensures found.None? ==> forall id | Has(View().mem, owner, id) :: !Meets(tasks[id], target, thread)
    {
      if owner in owners {
        var i := 0;
        while i < |owners[owner]|
          invariant 0 <= i <= |owners[owner]|
          invariant forall j {:trigger At(owners, owner, j)} | At(owners, owner, j) && j < i ::
            !Meets(owners[owner][j], target, thread)
        {
          assert At(owners, owner, i);
          var t := owners[owner][i];
          if !t.state.Terminal() && ((target != "" && t.target == target) || (thread != "" && t.thread == thread)) {
            return Some(t);
          }
          i := i + 1;
        }
      }
      forall id | Has(View().mem, owner, id) ensures !Meets(tasks[id], target, thread) {
        var j := PlaceOf(owners, tasks, id);
      }
      found := None;
    }

    // ---------------------------------------------------------------- opening

    /** Fills the lists from the rows the database selects by order number, and validates them. */
    method LoadState(selected: seq<Task>) returns (ok: bool)
      requires owners == map[] && tasks == map[] && Selects(selected, db.rows.tasks)
        && (numbered ==> OrdersInv(db.rows))
      modifies this
      ensures db == old(db) && Represents(owners, tasks) && View() == Store(db.rows, db) && InOrder()
      ensures ok == ValidRows(db.rows) && (ok ==> persisted == db.rows)
    {
      hide IndexValid, ValidRows, Represents, ListsPrefix, Placed, OrdersApart, OrdersInv;
      NothingListed();
      if numbered { SelectedApart(selected, db.rows); }
      var k := 0;
      while k < |selected|
        invariant 0 <= k <= |selected| && db == old(db)
        invariant Represents(owners, tasks) && ListsPrefix(selected, k, tasks)
        invariant numbered ==> Placed(owners, OrderAt(selected, k, db.rows.nextOrder))
      {
        var t := selected[k];
        var list := if t.owner in owners then owners[t.owner] else [];
        PrefixNext(selected, db.rows.tasks, k, tasks);
        AppendKeeps(owners, tasks, t);
        if numbered {
          PlacedAppend(owners, t);
          NextOrder(selected, db.rows, k);
          PlacedLater(owners[t.owner := list + [t]], t.order + 1, OrderAt(selected, k + 1, db.rows.nextOrder));
        }
        owners := owners[t.owner := list + [t]];
        tasks := tasks[t.id := t];
        k := k + 1;
      }
      PrefixAll(selected, db.rows.tasks, tasks);
      nextOrder, rejected, cleared := db.rows.nextOrder, db.rows.rejected, db.rows.cleared;
      ok := ValidateIndex(owners, nextOrder, rejected, cleared);
      ValidIffRowsValid(owners, tasks, nextOrder, rejected, cleared);
      if ok {
        var rows := SnapshotIndex(owners, tasks);
        persisted := Rows(rows, nextOrder, rejected, cleared);
      }
    }

    /** Saving and loading: a store that loads what this one committed has the same lists, counter and receipts, up
        to owners without tasks. */
    method SaveAndLoad(selected: seq<Task>) returns (loaded: RequestStore?)
      requires Valid() && numbered && OrdersInv(View().mem) && Selects(selected, View().mem.tasks)
      modifies this`persisted, this`db
      ensures Valid() && View().mem == old(View()).mem
      ensures loaded != null ==>
        && fresh(loaded) && loaded.Valid() && loaded.View() == View()
        && WithoutEmpty(loaded.owners) == WithoutEmpty(owners)
        && loaded.nextOrder == nextOrder && loaded.rejected == rejected && loaded.cleared == cleared
      ensures loaded == null && reliable ==> !ValidRows(View().mem)
    {
      hide Represents, Placed, ValidRows, Selects, OrdersInv;
      var ok := SaveLocked(NoExtra);
      if !ok {
        return null;
      }
      SavedMem(old(View()), old(View()).mem, NoExtra);
      loaded := new RequestStore(db, reliable);
      ok := loaded.LoadState(selected);
      SortedRowsDetermineIndex(loaded.owners, owners, tasks, nextOrder);
    }

    /** Settles the receipt of a delivery that was in flight: nobody knows whether it arrived. */
    method SettleReceipt(id: Id, first: bool, now: int) returns (ok: bool)
      requires id in db.results
      modifies this`db
      ensures !ok ==> db == old(db)
      ensures reliable ==> ok
      ensures ok ==> db == old(db).(results := old(db).results[id := Settled(old(db).results[id], first, now)])
    {
      ok := true;
      var r := db.results[id];
      if r.receipt.outcome == Pending {
        var receipt := Receipt("", Ambiguous, if now < r.frozenAt then r.frozenAt else now, 0, false,
            "restart_delivery");
        r := r.(receipt := receipt, attempts := if first then r.attempts + [receipt] else r.attempts);
        ok := Attempt();
        if ok {
          db := Apply(db, PutReceipts(id, r));
        }
      } else {
        assert db.results == db.results[id := db.results[id]];
      }
    }

    /** The end of a task in flight, by the result that loads, the checkpoint or an interruption. */
    method EndInFlight(t0: Task, intact: set<Id>, now: int, ghost e: Entry) returns (ok: bool, t: Task)
      requires e == Entry(e.task, Lookup(db.inputs, t0.id), Lookup(db.completions, t0.id), Lookup(db.results, t0.id))
      requires t0 == Checkpointed(e) && !t0.state.Terminal() && e.task.state == t0.state
      requires e.task.startedAt == t0.startedAt
      modifies this`db
      ensures db.rows == old(db).rows && db.inputs == old(db).inputs
      ensures ok ==> RecoverState(e, t0.id in intact, now) == Some(t) && SamePlace(t0, t) && t.state.Terminal()
      ensures ok ==> Settles(old(db), t0.id, e, t0.id in intact, now, db)
      ensures !ok ==> db == old(db) || Settles(old(db), t0.id, e, t0.id in intact, now, db)
      ensures reliable ==> (ok <==> RecoverState(e, t0.id in intact, now).Some?)
    {
      hide ValidResult, EndedAt, Archived, Checkpointed;
      ok, t := true, t0;
      var id := t0.id;
      var loaded := if Loadable(db, id, t.startedAt, intact) then Some(db.results[id]) else None;
      var ended := EndTask(t, loaded, now);
      if ended.None? {
        return false, t;
      }
      assert RecoverState(e, id in intact, now) == Some(ended.value);
      if loaded.Some? {
        ok := SettleReceipt(id, false, now);
        if !ok {
          return;
        }
      }
      t := ended.value;
    }

    /** One task of the recovery pass: what it becomes, after its receipt was settled on disk. */
    method RecoverTaskAt(t0: Task, intact: set<Id>, now: int, ghost e: Entry) returns (ok: bool, t: Task)
      requires e == Entry(t0, Lookup(db.inputs, t0.id), Lookup(db.completions, t0.id), Lookup(db.results, t0.id))
      modifies this`db
      ensures ok ==>
        RecoverTask(e, t0.id in intact, now) == Some(t) && Settles(old(db), t0.id, e, t0.id in intact, now, db)
      ensures !ok ==> db == old(db) || Settles(old(db), t0.id, e, t0.id in intact, now, db)
      ensures db.rows == old(db).rows
      ensures ok ==> SamePlace(t0, t)
      ensures reliable ==> (ok <==> RecoverTask(e, t0.id in intact, now).Some?)
    {
      hide ValidResult, EndedAt, Archived, Checkpointed;
      CheckpointKeeps(e);
      var id := t0.id;
      t := t0;
      ok := true;
      if t.state == Succeeded && !t.archiveFailed && t.resultExpiresAt > now {
        if !Readable(db, id, t.startedAt) {
          return false, t;
        }
        ok := SettleReceipt(id, true, now);
        if !ok {
          return;
        }
      }
      t := CheckpointTask(t0, Lookup(db.completions, id), e);
      if t.state == Running || t.state == Delivering {
        ok, t := EndInFlight(t, intact, now, e);
        if !ok {
          return;
        }
      }
      if !t.state.Terminal() || t.payloadExpiresAt > now {
        if id !in db.inputs || !AcceptableStored(db.inputs[id]) {
          return false, t;
        }
        ok := Attempt();
      }
    }

    /** The recovery pass at one place of the lists. */
    method RecoverPlace(o: string, i: int, intact: set<Id>, now: int, ghost db0: Db, ghost done: set<Id>)
      returns (ok: bool, ghost done': set<Id>)
      requires Represents(owners, tasks) && InOrder() && At(owners, o, i) && owners[o][i].id !in done
      requires Recovering(db0, done, intact, now, View())
      modifies this`owners, this`tasks, this`db
      ensures Represents(owners, tasks) && InOrder() && ReplacedAt(old(owners), o, i, owners)
      ensures ok ==> done' == done + {old(owners)[o][i].id} && Recovering(db0, done', intact, now, View())
      ensures !ok ==> db == PassDone(db0, done', intact, now)
      ensures reliable && !ok ==> !AllRecover(db0, intact, now)
    {
      hide Represents, Placed, RecoverTask, PassDone, Recovering, Recover, Settles;
      var t0 := owners[o][i];
      ghost var id, v := t0.id, View();
      done' := done;
      PlaceHolds(owners, tasks, o, i);
      RecoveringDb(db0, done, intact, now, v);
      RecoveringEntry(db0, done, intact, now, v, id);
      var t;
      ok, t := RecoverTaskAt(t0, intact, now, DbEntry(db0, id));
      if db != v.db || ok {
        SettledPass(db0, done, intact, now, id, v.db, db);
        done' := done + {id};
      }
      if ok {
        RecoverMore(db0, done, intact, now, v, id, t, View());
        ReplaceKeeps(owners, tasks, o, i, t);
        if numbered { PlacedReplace(owners, o, i, t, nextOrder); }
        owners := owners[o := owners[o][i := t]];
        tasks := tasks[t.id := t];
      }
    }

    /** The recovery pass over one owner's list. */
    method RecoverOwner(o: string, intact: set<Id>, now: int, ghost db0: Db, ghost done: set<Id>)
      returns (ok: bool, changed: bool, ghost done': set<Id>)
      requires Represents(owners, tasks) && InOrder() && o in owners
      requires Recovering(db0, done, intact, now, View()) && done !! OwnedIds(db0.rows.tasks, o)
      modifies this`owners, this`tasks, this`db
      ensures Represents(owners, tasks) && InOrder() && owners.Keys == old(owners.Keys)
      ensures ok ==> done' == done + OwnedIds(db0.rows.tasks, o) && Recovering(db0, done', intact, now, View())
      ensures !ok ==> db == PassDone(db0, done', intact, now)
      ensures reliable && !ok ==> !AllRecover(db0, intact, now)
      ensures ok ==> (changed <==> OwnerActive(db0.rows, o))
    {
      hide Represents, Placed, PassDone, Recovering, IdsBefore, ActiveBefore, OwnerActive, OwnedIds;
      ok, changed, done' := true, false, done;
      ghost var list := owners[o];
      var i := 0;
      OwnedListed(db0, done, intact, now, View(), owners, o);
      BeforeNone(list);
      while i < |owners[o]|
        invariant o in owners && |owners[o]| == |list| && 0 <= i <= |list| && owners.Keys == old(owners.Keys)
        invariant forall j | i <= j < |list| :: owners[o][j] == list[j]
        invariant Represents(owners, tasks) && InOrder() && Recovering(db0, done', intact, now, View())
        invariant done' == done + IdsBefore(list, i)
        invariant changed <==> ActiveBefore(list, i)
      {
        BeforeNext(list, i);
        if !owners[o][i].state.Terminal() {
          changed := true;
        }
        ok, done' := RecoverPlace(o, i, intact, now, db0, done');
        if !ok {
          return;
        }
        i := i + 1;
      }
    }

    /** The recovery pass over every list. */
    method RecoverEvery(intact: set<Id>, now: int) returns (ok: bool, changed: bool)
      requires Represents(owners, tasks) && InOrder() && View() == Store(db.rows, db) && ValidRows(db.rows)
      modifies this`owners, this`tasks, this`db
      ensures ok ==>
        && Represents(owners, tasks) && InOrder() && AllRecover(old(db), intact, now)
        && View() == Loaded(old(db), intact, now)
      ensures ok ==> (changed <==> AnyActive(old(db).rows))
      ensures !ok ==> StoppedEarly(old(db), intact, now, db)
      ensures reliable ==> (ok <==> AllRecover(old(db), intact, now))
    {
      hide Represents, Placed, PassDone, Recovering, OwnerActive, OwnedIds, ValidRows, Loaded, AllRecover;
      ghost var db0, done := db, {};
      ok, changed := true, false;
      var rest := owners.Keys;
      RecoveringNone(db0, intact, now);
      OwnersListed(owners, tasks);
      ghost var all := owners.Keys;
      OutsideNone(db0.rows, rest);
      while rest != {}
        invariant rest <= owners.Keys && owners.Keys == all
        invariant Represents(owners, tasks) && InOrder() && Recovering(db0, done, intact, now, View())
        invariant done == OwnedOutside(db0.rows, rest)
        invariant changed <==> exists o :: o in all - rest && OwnerActive(db0.rows, o)
        decreases |rest|
      {
        var o :| o in rest;
        OutsideNext(db0.rows, rest, o);
        var active;
        ok, active, done := RecoverOwner(o, intact, now, db0, done);
        if !ok {
          return;
        }
        changed := changed || active;
        rest := rest - {o};
        assert all - rest == all - (rest + {o}) + {o};
      }
      RecoveringAll(db0, done, intact, now, View());
      ActiveSomewhere(db0.rows, all);
      assert all - rest == all;
    }

    /** Recovery: the pass, the removal of leftover files, and one cleanup. */
    method RecoverLocked(intact: set<Id>, now: int) returns (ok: bool, changed: bool)
      requires Valid() && View() == Store(db.rows, db) && ValidRows(db.rows)
      modifies this
      ensures ok ==>
        Valid() && AllRecover(old(db), intact, now) && CleanupStep(Loaded(old(db), intact, now), now, View(), true)
      ensures ok ==> (changed <==> AnyActive(old(db).rows))
      ensures !ok ==> OpenStep(old(db), intact, now, db, None)
      ensures reliable && DbInv(old(db), now) ==> (ok <==> AllRecover(old(db), intact, now))
    {
      hide Represents, Placed, ValidRows, Loaded, AllRecover, CleanupStep, StoppedEarly, AnyActive, DbInv,
        RecoveredRows;
      ok, changed := RecoverEvery(intact, now);
      if !ok {
        return;
      }
      LoadedRows(old(db), intact, now);
      if DbInv(old(db), now) { RecoveredRowsValid(old(db), intact, now); LoadedMemory(old(db), intact, now); }
      ghost var loaded := View();
      ok := Attempt();
      if !ok {
        FailedCleanup(loaded, now);
        assert OpenedThrough(old(db), intact, now, loaded, false, db, None);
        return;
      }
      ok := CleanupExpired(now);
      if !ok {
        assert OpenedThrough(old(db), intact, now, View(), false, db, None);
      }
    }

    /** Opens the database: loading, recovery, and one save when recovery ended anything. Without a store the process
        does not come up; `left` is what the database holds either way. */
    static method Open(db: Db, selected: seq<Task>, intact: set<Id>, now: int, reliable: bool)
      returns (store: RequestStore?, left: Db)
      requires Selects(selected, db.rows.tasks)
      ensures store != null ==> fresh(store) && store.Valid() && store.View().db == left && store.reliable == reliable
      ensures OpenStep(db, intact, now, left, if store == null then None else Some(store.View().mem))
      ensures store != null ==> store.numbered == OrdersInv(db.rows)
      ensures reliable && DbInv(db, now) ==> (store != null <==> AllRecover(db, intact, now))
    {
      hide Represents, Placed, ValidRows, Loaded, AllRecover, CleanupStep, StoppedEarly, AnyActive, Selects,
        DbInv, LoadedInv;
      var s := new RequestStore(db, reliable);
      if DbInv(db, now) { DbRowsValid(db, now); }
      var ok := s.LoadState(selected);
      if !ok {
        StoppedAtOnce(db, intact, now);
        return null, db;
      }
      var changed;
      ok, changed := s.RecoverLocked(intact, now);
      if !ok {
        return null, s.db;
      }
      ghost var mid := s.View();
      if DbInv(db, now) { LoadedPreserves(db, intact, now); CleanupKeepsValid(Loaded(db, intact, now), now, mid); }
      if changed {
        ok := s.SaveLocked(NoExtra);
        if !ok {
          assert OpenedThrough(db, intact, now, mid, true, s.db, None);
          return null, s.db;
        }
      }
      assert OpenedThrough(db, intact, now, mid, true, s.db, Some(s.View().mem));
      return s, s.db;
    }
  }
}
