/** The single steps the running store is made of, and the lemmas that join them to whole operations. */
module RequestSteps {
  import opened RequestModel
  import opened RequestSpec
  import opened RequestInvariant
  import opened RequestRecovery
  import opened RequestIndex

  /** Moves a task to `next`, except that a recorded completion turns every end into success. */
  method MoveTask(current: Task, next: State, reason: Reason, now: int) returns (moved: Option<Task>)
    requires next != Running
    ensures moved == Transitioned(current, next, reason, now)
  {
    hide Moved;
    var to, why := next, reason;
    if current.completedAt > 0 && next.Terminal() {
      if next == State.Cancelled {
        return None;
      }
      to, why := Succeeded, NoReason;
      if current.archiveFailed {
        why := ResultFreezeFailed;
      }
    }
    if !AllowedTransition(current.state, to)
      && !(current.state == Running && to == Succeeded && current.completedAt > 0) {
      return None;
    }
    assert Resolve(current, next, reason) == Some((to, why));
    var t := StampTask(current, to, why, now);
    moved := Some(t);
  }

  /** A task in its new state; an end is never stamped before the start. */
  method StampTask(current: Task, to: State, why: Reason, now: int) returns (t: Task)
    ensures t == Moved(current, to, why, now)
  {
    t := current.(state := to, reason := why);
    if to.Terminal() {
      var finished := now;
      if finished < t.startedAt {
        finished := t.startedAt;
      }
      if finished < t.createdAt {
        finished := t.createdAt;
      }
      t := t.(finishedAt := finished, payloadExpiresAt := finished + PAYLOAD_RETENTION);
    }
  }

  lemma MovedTask(current: Task, next: State, reason: Reason, now: int)
    ensures var moved := Transitioned(current, next, reason, now);
      moved.Some? ==>
        moved.value.id == current.id && moved.value.owner == current.owner && moved.value.order == current.order
  {
  }

  /** A replacement stays in its owner's list, at its place. */
  predicate SamePlace(t: Task, t': Task) { t'.id == t.id && t'.owner == t.owner && t'.order == t.order }

  lemma UndoAppend(owners: Owners, o: string, list: seq<Task>)
    ensures if o in owners then owners[o := list][o := owners[o]] == owners else owners[o := list] - {o} == owners
  {
  }

  lemma UndoReplace(owners: Owners, o: string, i: int, t: Task)
    requires At(owners, o, i)
    ensures owners[o := owners[o][i := t]][o := owners[o]] == owners
  {
  }

  method NewTaskFor(i: StartInput, id: Id, order: int, bytes: nat, now: int) returns (t: Task)
    requires bytes == SubmittedCharge(i)
    ensures t == NewTask(i, id, order, now) && t.id == id && t.owner == i.owner && t.order == order
  {
    var at := if now <= 0 then 1 else now;
    t := Task(id, i.source, i.owner, i.target, i.thread, "", i.retryOf,
              Running, NoReason, i.sourceData > 0, false, 0, 0, 0,
              order, at, at, 0, 0, |i.images|, |i.files|, bytes);
  }

  method FreezeTask(t: Task, r: Result, size: nat) returns (frozen: Task)
    requires size == ResultSize(r)
    ensures frozen == FrozenTask(t, r) && frozen.id == t.id && frozen.owner == t.owner && frozen.order == t.order
  {
    frozen := t.(archiveFailed := false, resultBytes := size);
    if frozen.completedAt == 0 {
      frozen := frozen.(completedAt := r.frozenAt);
    }
    if frozen.state == Succeeded {
      frozen := frozen.(reason := NoReason);
    }
    frozen := frozen.(resultExpiresAt := frozen.completedAt + RESULT_RETENTION);
  }

  /** The guard of a change together with the validity of the index it leads to. */
  ghost predicate CanChange(s: Store, owner: string, id: Id, change: Change, now: int) {
    && Has(s.mem, owner, id)
    && var c := Changed(EntryOf(s.mem.tasks, s.db, id), change, now);
    && c.Some? && ValidRows(PutTask(s.mem, c.value.0))
  }

  /** A valid index has unique identifiers, so some rows represent it. */
  lemma UniqueIdsRepresent(owners: Owners, nextOrder: int, rejected: map<string, Rejection>, cleared: map<string,
                           Cleared>)
    requires IndexValid(owners, nextOrder, rejected, cleared)
    ensures exists tasks :: Represents(owners, tasks)
  {
    var ids := set o, i | o in owners && 0 <= i < |owners[o]| :: owners[o][i].id;
    var tasks := map id | id in ids :: OneWith(owners, id);
    forall o, i | At(owners, o, i) ensures owners[o][i].id in tasks && tasks[owners[o][i].id] == owners[o][i] {
      assert owners[o][i].id in ids;
      OneWithUnique(owners, nextOrder, rejected, cleared, o, i);
    }
    forall id | id in tasks ensures tasks[id].id == id && tasks[id].owner in owners
      && tasks[id] in owners[tasks[id].owner] {
      var o, i :| o in owners && 0 <= i < |owners[o]| && owners[o][i].id == id;
      assert At(owners, o, i);
    }
    assert Represents(owners, tasks);
  }

  ghost function OneWith(owners: Owners, id: Id): Task
    requires exists o, i :: At(owners, o, i) && owners[o][i].id == id
  {
    var o, i :| At(owners, o, i) && owners[o][i].id == id;
    owners[o][i]
  }

  lemma OneWithUnique(owners: Owners, nextOrder: int, rejected: map<string, Rejection>, cleared: map<string, Cleared>,
                      o: string, i: int)
    requires IndexValid(owners, nextOrder, rejected, cleared) && At(owners, o, i)
    ensures OneWith(owners, owners[o][i].id) == owners[o][i]
  {
    hide ValidTask, Compatible;
    var p, j :| At(owners, p, j) && owners[p][j].id == owners[o][i].id
      && OneWith(owners, owners[o][i].id) == owners[p][j];
  }

  ghost function OldIds(list: seq<Task>, now: int): set<Id> {
    set i | 0 <= i < |list| && HistoryExpired(list[i], now) :: list[i].id
  }

  /** Some of the first `n` tasks is old enough to be dropped. */
  ghost predicate OldAmong(list: seq<Task>, n: nat, now: int)
    requires n <= |list|
  {
    exists i :: 0 <= i < n && HistoryExpired(list[i], now)
  }

  lemma OldNone(list: seq<Task>, now: int)
    ensures !OldAmong(list, 0, now)
  {
  }

  lemma OldNext(list: seq<Task>, j: nat, now: int)
    requires j < |list| && forall i, k | 0 <= i < k < |list| :: list[i].id != list[k].id
    ensures list[j].id in OldIds(list, now) <==>
      list[j].state.Terminal() && list[j].finishedAt + HISTORY_RETENTION <= now
    ensures OldAmong(list, j + 1, now) <==> OldAmong(list, j, now) || list[j].id in OldIds(list, now)
  {
    assert list[j].id in OldIds(list, now) <==> HistoryExpired(list[j], now);
    if OldAmong(list, j, now) {
      var i :| 0 <= i < j && HistoryExpired(list[i], now);
    }
  }

  lemma OldAll(list: seq<Task>, now: int)
    ensures OldAmong(list, |list|, now) <==> OldIds(list, now) != {}
  {
    if OldAmong(list, |list|, now) {
      var i :| 0 <= i < |list| && HistoryExpired(list[i], now);
      assert list[i].id in OldIds(list, now);
    } else {
      assert OldIds(list, now) == {};
    }
  }

  lemma OldIdsOwned(owners: Owners, tasks: map<Id, Task>, o: string, now: int)
    requires Represents(owners, tasks) && o in owners
    ensures forall id :: id in OldIds(owners[o], now) <==> id in OwnedIds(tasks, o) && HistoryExpired(tasks[id], now)
  {
    forall id | id in OldIds(owners[o], now) ensures id in OwnedIds(tasks, o) && HistoryExpired(tasks[id], now) {
      var i :| 0 <= i < |owners[o]| && HistoryExpired(owners[o][i], now) && owners[o][i].id == id;
      assert At(owners, o, i);
    }
    forall id | id in OwnedIds(tasks, o) && HistoryExpired(tasks[id], now) ensures id in OldIds(owners[o], now) {
      var i := PlaceOf(owners, tasks, id);
    }
  }

  lemma SameSize<K, V>(part: map<K, V>, whole: map<K, V>)
    requires forall k | k in part :: k in whole && part[k] == whole[k]
    ensures |part| == |whole| <==> part == whole
  {
    if part != whole {
      var k :| k in whole && k !in part;
      assert part.Keys <= whole.Keys - {k};
      SubsetSize(part.Keys, whole.Keys - {k});
      assert |part.Keys| == |part| && |whole.Keys| == |whole|;
    }
  }

  function Dropped(mem: Rows, gone: set<Id>): Rows { mem.(tasks := mem.tasks - gone) }

  /** The old tasks of the owners already taken from `rest`. */
  function ExpiredOutside(mem: Rows, rest: set<string>, now: int): set<Id> {
    set id | id in mem.tasks && HistoryExpired(mem.tasks[id], now) && mem.tasks[id].owner !in rest
  }

  lemma OutsideBounds(mem: Rows, rest: set<string>, now: int)
    ensures ExpiredOutside(mem, rest, now) <= ExpiredIds(mem, now)
    ensures rest == {} ==> ExpiredOutside(mem, rest, now) == ExpiredIds(mem, now)
    ensures (forall id | id in mem.tasks :: mem.tasks[id].owner in rest) ==> ExpiredOutside(mem, rest, now) == {}
  {
  }

  lemma OutsideMore(mem: Rows, rest: set<string>, o: string, now: int, more: set<Id>)
    requires o in rest
    requires var left := mem.tasks - ExpiredOutside(mem, rest, now);
      forall id :: id in more <==> id in left && left[id].owner == o && HistoryExpired(left[id], now)
    ensures ExpiredOutside(mem, rest - {o}, now) == ExpiredOutside(mem, rest, now) + more
  {
  }

  ghost predicate DroppedFrom(s: Store, gone: set<Id>, s': Store) {
    if gone == {} then s' == s
    else ValidRows(Dropped(s.mem, gone)) && s' == Saved(s, Dropped(s.mem, gone), NoExtra)
  }

  lemma DroppedNone(s: Store)
    ensures DroppedFrom(s, {}, s)
  {
  }

  lemma DroppedTasks(s: Store, gone: set<Id>, s': Store)
    requires DroppedFrom(s, gone, s')
    ensures s'.mem.tasks == s.mem.tasks - gone && s'.mem == Dropped(s.mem, gone)
  {
    assert gone == {} ==> s.mem.tasks - gone == s.mem.tasks;
  }

  /** One more save on top is one save of both. */
  lemma DropMore(s: Store, gone: set<Id>, v: Store, more: set<Id>)
    requires DroppedFrom(s, gone, v) && more != {} && ValidRows(Dropped(v.mem, more))
    ensures DroppedFrom(s, gone + more, Saved(v, Dropped(v.mem, more), NoExtra))
  {
    hide ValidRows;
    DroppedTwice(s.mem, gone, more);
    DroppedTasks(s, gone, v);
    FlushTwice(s.db, Dropped(s.mem, gone), Dropped(s.mem, gone + more));
  }

  lemma DroppedValid(mem: Rows, gone: set<Id>)
    requires ValidRows(mem)
    ensures ValidRows(Dropped(mem, gone))
  {
    hide ValidTask, Compatible;
    var rest := mem.tasks - gone;
    forall a, b | a in rest && b in rest && a != b ensures Apart(rest, a, b) { assert Apart(mem.tasks, a, b); }
    forall owner: string ensures |OwnedIds(rest, owner)| <= MAX_RECORDS {
      SubsetSize(OwnedIds(rest, owner), OwnedIds(mem.tasks, owner));
    }
  }

  lemma DroppedTwice(mem: Rows, gone: set<Id>, more: set<Id>)
    ensures Dropped(Dropped(mem, gone), more) == Dropped(mem, gone + more)
  {
    assert mem.tasks - gone - more == mem.tasks - (gone + more);
  }

  lemma CleanedNothing(s: Store, now: int)
    ensures var rest := ForgetReceipts(s.mem, now);
      && Dropped(rest, {}) == rest
      && Cleaned(s, {}, now)
         == if rest == s.mem then s.(db := Purged(s.db, now)) else Saved(s.(db := Purged(s.db, now)), rest, NoExtra)
  {
    hide Purged;
    assert s.mem.tasks - {} == s.mem.tasks;
  }

  /** One more save on top of a cleaned store is the store cleaned of both. */
  lemma CleanedMore(s: Store, gone: set<Id>, more: set<Id>, now: int)
    requires more != {} && more <= s.mem.tasks.Keys - gone
    ensures var v := Cleaned(s, gone, now); Saved(v, Dropped(v.mem, more), NoExtra) == Cleaned(s, gone + more, now)
  {
    hide Purged;
    DroppedTwice(ForgetReceipts(s.mem, now), gone, more);
    var next := Dropped(ForgetReceipts(s.mem, now), gone + more);
    var id :| id in more;
    assert id !in next.tasks && id in s.mem.tasks;
    FlushTwice(Purged(s.db, now), Dropped(ForgetReceipts(s.mem, now), gone), next);
  }

  lemma FlushTwice(db: Db, first: Rows, second: Rows)
    requires second.tasks.Keys <= first.tasks.Keys
    ensures Flush(Flush(db, first), second) == Flush(db, second)
  {
  }

  // ---------------------------------------------------------------- starting

  ghost predicate CanStart(s: Store, i: StartInput, id: Id, now: int) {
    && Admits(s.mem, i, now) && Storable(i) && id !in s.mem.tasks
    && ValidRows(WithNewTask(s.mem, NewTask(i, id, s.mem.nextOrder, now)))
  }

  lemma FailedCleanup(s: Store, now: int)
    ensures CleanupStep(s, now, s, false)
  {
  }

  lemma FailedReject(s: Store, r: Rejection, now: int, s': Store)
    requires RejectStep(s, r, now, s', false)
    ensures s' == s
  {
  }

  /** Validation refuses no release of a finished request. */
  lemma ReleaseDecides(mem: Rows, id: Id)
    requires ValidRows(mem) && id in mem.tasks && mem.tasks[id].state.Terminal()
    ensures ValidRows(WithoutTask(mem, id))
  {
    DroppedValid(mem, {id});
    assert mem.tasks - {id} == Dropped(mem, {id}).tasks;
    hide Compatible;
    forall k | k in mem.tasks && k != id ensures mem.tasks[k].source != mem.tasks[id].source {
      assert Apart(mem.tasks, k, id);
      DifferentSources(mem.tasks[k], mem.tasks[id]);
    }
  }

  lemma DifferentSources(a: Task, b: Task)
    requires Compatible(a, b)
    ensures a.source != b.source
  {
  }

  /** Validation refuses no rejection of a source that is neither running nor cleared. */
  lemma RejectDecides(mem: Rows, r: Rejection, now: int)
    requires ValidRows(mem) && now > 0 && !SourceTaken(mem, r.source) && r.source !in mem.cleared
    ensures ValidRows(WithRejection(mem, r, now))
  {
    hide ValidTask, Compatible;
  }

  lemma CleanupStaysValid(s: Store, now: int, s': Store, ok: bool)
    requires CleanupStep(s, now, s', ok) && ValidRows(s.mem)
    ensures ValidRows(s'.mem)
  {
    hide ValidRows, Purged;
  }

  /** Cleanup brings no request. */
  lemma CleanupBringsNone(s: Store, now: int, s': Store, ok: bool)
    requires CleanupStep(s, now, s', ok)
    ensures forall id | id in s'.mem.tasks :: id in s.mem.tasks && s'.mem.tasks[id] == s.mem.tasks[id]
  {
    if gone :| CleanedBy(s, gone, now, s', ok) {
      hide ValidRows, Purged;
    }
  }

  lemma SourceNotCleared(mem: Rows, id: Id)
    requires ValidRows(mem) && id in mem.tasks
    ensures mem.tasks[id].source !in mem.cleared
  {
  }

  lemma ListReleased(owners: Owners, tasks: map<Id, Task>, o: string, id: Id, kept: seq<Task>, nextOrder: int)
    requires Represents(owners, tasks) && o in owners && id in OwnedIds(tasks, o) && Keeps(owners[o], {id}, kept)
    ensures Represents(owners[o := kept], tasks - {id})
    ensures Placed(owners, nextOrder) ==> Placed(owners[o := kept], nextOrder)
  {
    hide Represents, Placed, Keeps;
    RemoveKeeps(owners, tasks, o, {id}, kept);
    if Placed(owners, nextOrder) { KeptPlaced(owners, o, {id}, kept, nextOrder); }
  }

  lemma UndoList(owners: Owners, o: string, kept: seq<Task>)
    requires o in owners
    ensures owners[o := kept][o := owners[o]] == owners
  {
  }

  lemma ListAppended(owners: Owners, tasks: map<Id, Task>, t: Task)
    ensures var owners' := owners[t.owner := (if t.owner in owners then owners[t.owner] else []) + [t]];
      && (Represents(owners, tasks) && t.id !in tasks ==> Represents(owners', tasks[t.id := t]))
      && (Represents(owners, tasks) && t.id in tasks ==> !exists rows :: Represents(owners', rows))
      && (Placed(owners, t.order) ==> Placed(owners', t.order + 1))
  {
    hide Represents, Placed;
    var owners' := owners[t.owner := (if t.owner in owners then owners[t.owner] else []) + [t]];
    if Represents(owners, tasks) && t.id !in tasks { AppendKeeps(owners, tasks, t); }
    if Represents(owners, tasks) && t.id in tasks { AppendTwice(owners, tasks, t, owners'); }
    if Placed(owners, t.order) { PlacedAppend(owners, t); }
  }

  lemma UndoRelease(owners: Owners, o: string, kept: seq<Task>, cleared: map<string, Cleared>, source: string,
                    c: Cleared)
    requires o in owners && source !in cleared
    ensures owners[o := kept][o := owners[o]] == owners && cleared[source := c] - {source} == cleared
  {
  }

  lemma SavedOver(a: Store, b: Store, mem: Rows, extra: Extra)
    requires a.db == b.db
    ensures Saved(a, mem, extra) == Saved(b, mem, extra)
  {
  }

  lemma WithoutTaskRows(mem: Rows, id: Id)
    requires id in mem.tasks
    ensures var t := mem.tasks[id];
      WithoutTask(mem, id)
      == Rows(mem.tasks - {id}, mem.nextOrder, mem.rejected,
          mem.cleared[t.source := Cleared.Cleared(t.owner, id, t.state, t.completedAt, t.finishedAt)])
  {
  }

  /** The retained input of a task, when it is still there and fits the index. */
  function InputOnFile(s: Store, owner: string, id: Id, now: int): Option<Input> {
    if Has(s.mem, owner, id) && HasPayload(s.mem.tasks[id], now) && id in s.db.inputs
       && var t, i := s.mem.tasks[id], s.db.inputs[id];
          AcceptableStored(i) && i.source == t.source && InputCharge(i) <= t.payloadBytes
          && (t.inputPending || (i.sourceData == 0 && |i.images| == t.images && |i.files| == t.files))
    then Some(s.db.inputs[id])
    else None
  }

  /** The stored source data reads back as no more than the request was charged for. */
  predicate ReadsBack(t: Task, i: Input) { t.inputPending ==> i.sourceData <= SubmittedSize(t, i) }

  /** In a consistent store reading a live input succeeds exactly when its source data reads back as no more than was
      submitted, and always once it is prepared. */
  lemma LiveInputReads(s: Store, owner: string, id: Id, now: int)
    requires Inv(s, now)
    ensures InputOnFile(s, owner, id, now).Some? <==>
      && Has(s.mem, owner, id) && HasPayload(s.mem.tasks[id], now)
      && id in s.db.inputs && ReadsBack(s.mem.tasks[id], s.db.inputs[id])
    ensures Has(s.mem, owner, id) && HasPayload(s.mem.tasks[id], now) ==> id in s.db.inputs
  {
    hide DbInv, ValidRows, OrdersInv, Ahead, Agrees, ResultInv, CompletionInv, TaskInv, NeedsResult;
    if Has(s.mem, owner, id) { assert EntryInv(EntryOf(s.mem.tasks, s.db, id), now); }
  }

  /** A retry keeps the owner, the session and the stored input of the original. */
  function RetryInput(t: Task, i: Input, source: string, token: nat, wellFormed: bool): StartInput {
    StartInput(source, t.owner, t.target, t.thread, t.id, wellFormed, i.text, i.blank, token, i.sourceData,
      Some(i.sourceData), i.images, i.files)
  }

  predicate Meets(t: Task, target: string, thread: string) {
    !t.state.Terminal() && ((target != "" && t.target == target) || (thread != "" && t.thread == thread))
  }

  // ---------------------------------------------------------------- opening

  /** What selecting all request rows by order number returns. */
  ghost predicate Selects(selected: seq<Task>, rows: map<Id, Task>) {
    && (forall i | 0 <= i < |selected| :: selected[i].id in rows && rows[selected[i].id] == selected[i])
    && (forall id | id in rows :: rows[id].id == id && rows[id] in selected)
    && (forall i, j | 0 <= i < j < |selected| ::
      selected[i].id != selected[j].id && selected[i].order <= selected[j].order)
  }

  ghost predicate OrdersApart(selected: seq<Task>) {
    forall i, j | 0 <= i < j < |selected| :: selected[i].order != selected[j].order
  }

  lemma SelectedApart(selected: seq<Task>, rows: Rows)
    requires Selects(selected, rows.tasks) && OrdersInv(rows)
    ensures OrdersApart(selected)
  {
    forall i, j | 0 <= i < j < |selected| ensures selected[i].order != selected[j].order {
      assert OrdersDiffer(rows.tasks, selected[i].id, selected[j].id);
    }
  }

  ghost predicate ListsPrefix(selected: seq<Task>, k: nat, tasks: map<Id, Task>)
    requires k <= |selected|
  {
    && (forall i | 0 <= i < k :: selected[i].id in tasks && tasks[selected[i].id] == selected[i])
    && (forall id | id in tasks :: exists i :: 0 <= i < k && selected[i].id == id)
  }

  lemma NothingListed()
    ensures Represents(map[], map[]) && forall order :: Placed(map[], order)
    ensures forall selected: seq<Task> :: ListsPrefix(selected, 0, map[])
  {
  }

  lemma PrefixNext(selected: seq<Task>, rows: map<Id, Task>, k: nat, tasks: map<Id, Task>)
    requires k < |selected| && Selects(selected, rows) && ListsPrefix(selected, k, tasks)
    ensures selected[k].id !in tasks && ListsPrefix(selected, k + 1, tasks[selected[k].id := selected[k]])
  {
    forall i | 0 <= i < k ensures selected[i].id != selected[k].id { }
    PrefixGrows(selected, k, tasks);
  }

  lemma PrefixGrows(selected: seq<Task>, k: nat, tasks: map<Id, Task>)
    requires k < |selected| && ListsPrefix(selected, k, tasks) && forall i | 0 <= i < k ::
      selected[i].id != selected[k].id
    ensures selected[k].id !in tasks && ListsPrefix(selected, k + 1, tasks[selected[k].id := selected[k]])
  {
    var more := tasks[selected[k].id := selected[k]];
    forall id | id in more ensures exists i :: 0 <= i < k + 1 && selected[i].id == id {
      if id != selected[k].id {
        var i :| 0 <= i < k && selected[i].id == id;
        assert 0 <= i < k + 1 && selected[i].id == id;
      }
    }
  }

  lemma PrefixAll(selected: seq<Task>, rows: map<Id, Task>, tasks: map<Id, Task>)
    requires Selects(selected, rows) && ListsPrefix(selected, |selected|, tasks)
    requires forall id | id in rows :: rows[id].id == id
    ensures tasks == rows
  {
    forall id | id in rows ensures id in tasks && tasks[id] == rows[id] {
      var i :| 0 <= i < |selected| && selected[i] == rows[id];
    }
    forall id | id in tasks ensures id in rows {
      var i :| 0 <= i < |selected| && selected[i].id == id;
    }
  }

  /** The order number that comes next while the selected rows are listed. */
  function OrderAt(selected: seq<Task>, k: nat, last: int): int { if k < |selected| then selected[k].order else last }

  lemma NextOrder(selected: seq<Task>, rows: Rows, k: nat)
    requires k < |selected| && Selects(selected, rows.tasks) && OrdersInv(rows) && OrdersApart(selected)
    ensures selected[k].order < OrderAt(selected, k + 1, rows.nextOrder)
  {
    if k + 1 < |selected| {
      assert selected[k].order <= selected[k + 1].order && selected[k].order != selected[k + 1].order;
    }
  }

  lemma PlacedLater(owners: Owners, order: int, later: int)
    requires Placed(owners, order) && order <= later
    ensures Placed(owners, later)
  {
  }

  lemma KeptPlaced(owners: Owners, o: string, gone: set<Id>, kept: seq<Task>, nextOrder: int)
    requires o in owners && Placed(owners, nextOrder) && Keeps(owners[o], gone, kept)
    ensures Placed(owners[o := kept], nextOrder)
  {
    PlacedPart(owners, o, kept, nextOrder);
  }

  lemma SortedRowsDetermineIndex(a: Owners, b: Owners, tasks: map<Id, Task>, nextOrder: int)
    requires Represents(a, tasks) && Represents(b, tasks) && Placed(a, nextOrder) && Placed(b, nextOrder)
    ensures WithoutEmpty(a) == WithoutEmpty(b)
  {
    RowsDetermineIndex(a, b, tasks);
  }

  /** A result after its pending receipt was settled; the first delivery also becomes an attempt. */
  function Settled(r: Result, first: bool, now: int): Result {
    if r.receipt.outcome != Pending then r
    else r.(receipt := RestartReceipt(r, now),
        attempts := if first then r.attempts + [RestartReceipt(r, now)] else r.attempts)
  }

  /** The database after the recovery pass wrote what it writes for one task. */
  ghost predicate Settles(db: Db, id: Id, e: Entry, intact: bool, now: int, db': Db) {
    db' == if e.result.None? then db else db.(results := db.results[id := RecoverResult(e, intact, now).value])
  }

  lemma CheckpointKeeps(e: Entry)
    ensures var t := Checkpointed(e);
      && t.id == e.task.id && t.owner == e.task.owner && t.order == e.task.order && t.state == e.task.state
        && t.startedAt == e.task.startedAt
      && t.payloadExpiresAt == e.task.payloadExpiresAt && (e.task.state.Terminal() ==> t == e.task)
  {
  }

  /** How a task in flight ends: by its archived result, by its checkpoint, or interrupted. */
  method EndTask(t0: Task, loaded: Option<Result>, now: int) returns (ended: Option<Task>)
    ensures ended == if loaded.Some? then Some(EndedAt(Archived(t0, loaded.value), Succeeded, NoReason, now))
                     else if t0.completedAt > 0 && t0.archiveFailed
                     then Some(EndedAt(t0, Succeeded, ResultFreezeFailed, now))
                     else if t0.completedAt > 0 || t0.state == Delivering then None
                     else Some(EndedAt(t0, Interrupted, RestartRunning, now))
    ensures ended.Some? ==> SamePlace(t0, ended.value) && ended.value.state.Terminal()
  {
    var t := t0;
    if loaded.Some? {
      var r := loaded.value;
      t := t.(completedAt := r.frozenAt, resultExpiresAt := r.frozenAt + RESULT_RETENTION, resultBytes := ResultSize(r),
              archiveFailed := false, state := Succeeded, reason := NoReason);
    } else if t.completedAt > 0 && t.archiveFailed {
      t := t.(state := Succeeded, reason := ResultFreezeFailed);
    } else if t.completedAt > 0 || t.state == Delivering {
      return None;
    } else {
      t := t.(state := Interrupted, reason := RestartRunning);
    }
    var finished := if now < t.startedAt then t.startedAt else now;
    ended := Some(t.(finishedAt := finished, payloadExpiresAt := finished + PAYLOAD_RETENTION));
  }

  /** A checkpoint that the index does not know yet. */
  method CheckpointTask(t0: Task, completion: Option<Completion>, ghost e: Entry) returns (t: Task)
    requires e.task == t0 && e.completion == completion
    ensures t == Checkpointed(e)
  {
    t := t0;
    if t.completedAt == 0 && !t.state.Terminal() && completion.Some? {
      var c := completion.value;
      if c.version == 1 && c.at >= t.startedAt {
        t := t.(completedAt := c.at, resultExpiresAt := c.at + RESULT_RETENTION, archiveFailed := true,
            resultBytes := MAX_TASK + c.reply);
      }
    }
  }

  // ---------------------------------------------------------------- the recovery pass under way

  /** The pass has handled the tasks of `done`, in memory and on disk. */
  ghost predicate Recovering(db: Db, done: set<Id>, intact: set<Id>, now: int, s: Store) {
    && s.db == PassDone(db, done, intact, now)
    && s.mem == db.rows.(tasks := s.mem.tasks) && s.mem.tasks.Keys == db.rows.tasks.Keys
    && done <= db.rows.tasks.Keys
    && (forall id | id in s.mem.tasks ::
          s.mem.tasks[id] == if id in done then Recover(DbEntry(db, id), id in intact, now).task else db.rows.tasks[id])
    && (forall id | id in done :: RecoverTask(DbEntry(db, id), id in intact, now).Some?)
  }

  ghost predicate OwnerActive(rows: Rows, o: string) {
    exists id :: id in OwnedIds(rows.tasks, o) && !rows.tasks[id].state.Terminal()
  }

  /** One list changed at one place, by a task of the same identifier. */
  ghost predicate ReplacedAt(owners: Owners, o: string, i: int, owners': Owners)
    requires At(owners, o, i)
  {
    && owners'.Keys == owners.Keys && |owners'[o]| == |owners[o]|
    && owners'[o][i].id == owners[o][i].id
    && forall j | 0 <= j < |owners[o]| && j != i :: owners'[o][j] == owners[o][j]
  }

  lemma RecoveringDb(db: Db, done: set<Id>, intact: set<Id>, now: int, s: Store)
    requires Recovering(db, done, intact, now, s)
    ensures s.db == PassDone(db, done, intact, now)
  {
  }

  /** A task the pass has not reached still has the rows it was loaded with. */
  lemma RecoveringEntry(db: Db, done: set<Id>, intact: set<Id>, now: int, s: Store, id: Id)
    requires Recovering(db, done, intact, now, s) && id in s.mem.tasks && id !in done
    ensures id in db.rows.tasks && EntryOf(s.mem.tasks, s.db, id) == DbEntry(db, id)
  {
    hide Recover, RecoverTask, RecoverResult;
  }

  lemma SettledPass(db: Db, done: set<Id>, intact: set<Id>, now: int, id: Id, before: Db, after: Db)
    requires before == PassDone(db, done, intact, now) && id in db.rows.tasks && id !in done
    requires Settles(before, id, DbEntry(db, id), id in intact, now, after)
    ensures after == PassDone(db, done + {id}, intact, now)
  {
    hide RecoverResult;
    SettledSome(DbEntry(db, id), id in intact, now);
  }

  lemma SettledSome(e: Entry, intact: bool, now: int)
    ensures RecoverResult(e, intact, now).Some? <==> e.result.Some?
  {
  }

  lemma RecoverMore(db: Db, done: set<Id>, intact: set<Id>, now: int, s: Store, id: Id, t: Task, s': Store)
    requires Recovering(db, done, intact, now, s) && id in db.rows.tasks && id !in done
    requires RecoverTask(DbEntry(db, id), id in intact, now) == Some(t) && t.id == id
    requires s' == s.(db := PassDone(db, done + {id}, intact, now))
    ensures Recovering(db, done + {id}, intact, now, s'.(mem := PutTask(s.mem, t)))
  {
    hide RecoverTask, RecoverResult, PassDone;
  }

  ghost function IdsBefore(list: seq<Task>, n: nat): set<Id>
    requires n <= |list|
  {
    set j | 0 <= j < n :: list[j].id
  }

  ghost predicate ActiveBefore(list: seq<Task>, n: nat)
    requires n <= |list|
  {
    exists j :: 0 <= j < n && !list[j].state.Terminal()
  }

  lemma BeforeNone(list: seq<Task>)
    ensures IdsBefore(list, 0) == {} && !ActiveBefore(list, 0)
  {
  }

  lemma BeforeNext(list: seq<Task>, n: nat)
    requires n < |list| && forall i, j | 0 <= i < j < |list| :: list[i].id != list[j].id
    ensures IdsBefore(list, n + 1) == IdsBefore(list, n) + {list[n].id} && list[n].id !in IdsBefore(list, n)
    ensures ActiveBefore(list, n + 1) <==> ActiveBefore(list, n) || !list[n].state.Terminal()
  {
    if ActiveBefore(list, n) {
      var j :| 0 <= j < n && !list[j].state.Terminal();
    }
  }

  lemma OwnedListed(db: Db, done: set<Id>, intact: set<Id>, now: int, s: Store, owners: Owners, o: string)
    requires Recovering(db, done, intact, now, s) && Represents(owners, s.mem.tasks) && o in owners
    requires done !! OwnedIds(db.rows.tasks, o)
    ensures OwnedIds(db.rows.tasks, o) == IdsBefore(owners[o], |owners[o]|)
    ensures forall j | 0 <= j < |owners[o]| :: owners[o][j].id in db.rows.tasks && owners[o][j].id !in done
    ensures OwnerActive(db.rows, o) <==> ActiveBefore(owners[o], |owners[o]|)
    ensures forall i, j | 0 <= i < j < |owners[o]| :: owners[o][i].id != owners[o][j].id
  {
    hide RecoverTask, PassDone;
    OwnerIdsDistinct(owners, s.mem.tasks, o);
    forall id | id in s.mem.tasks ensures s.mem.tasks[id].owner == db.rows.tasks[id].owner {
      RecoveryIdentity(DbEntry(db, id), id in intact, now);
    }
    forall id | id in OwnedIds(db.rows.tasks, o) ensures id in IdsBefore(owners[o], |owners[o]|) {
      var j := PlaceOf(owners, s.mem.tasks, id);
    }
    forall j | 0 <= j < |owners[o]| ensures owners[o][j].id in OwnedIds(db.rows.tasks, o) { assert At(owners, o, j); }
  }

  ghost function OwnedOutside(rows: Rows, rest: set<string>): set<Id> {
    set id | id in rows.tasks && rows.tasks[id].owner !in rest
  }

  lemma OutsideNone(rows: Rows, rest: set<string>)
    requires forall id | id in rows.tasks :: rows.tasks[id].owner in rest
    ensures OwnedOutside(rows, rest) == {}
  {
  }

  lemma OutsideNext(rows: Rows, rest: set<string>, o: string)
    requires o in rest
    ensures OwnedOutside(rows, rest) !! OwnedIds(rows.tasks, o)
    ensures OwnedOutside(rows, rest - {o}) == OwnedOutside(rows, rest) + OwnedIds(rows.tasks, o)
  {
  }

  lemma ActiveSomewhere(rows: Rows, all: set<string>)
    requires forall id | id in rows.tasks :: rows.tasks[id].owner in all
    ensures AnyActive(rows) <==> exists o :: o in all && OwnerActive(rows, o)
  {
    if AnyActive(rows) {
      var id :| id in rows.tasks && !rows.tasks[id].state.Terminal();
      assert id in OwnedIds(rows.tasks, rows.tasks[id].owner);
      assert OwnerActive(rows, rows.tasks[id].owner);
    }
  }

  lemma RecoveringNone(db: Db, intact: set<Id>, now: int)
    ensures Recovering(db, {}, intact, now, Store(db.rows, db))
  {
    hide RecoverResult, RecoverTask, Recover;
  }

  lemma RecoveringAll(db: Db, done: set<Id>, intact: set<Id>, now: int, s: Store)
    requires Recovering(db, done, intact, now, s) && done == OwnedOutside(db.rows, {})
    ensures AllRecover(db, intact, now) && s == Loaded(db, intact, now)
  {
    hide RecoverResult, RecoverTask, Recover;
    assert done == db.rows.tasks.Keys;
  }

  lemma LoadedMemory(db: Db, intact: set<Id>, now: int)
    ensures Loaded(db, intact, now).mem == RecoveredRows(db, intact, now)
  {
  }

  lemma DbRowsValid(db: Db, now: int)
    requires DbInv(db, now)
    ensures ValidRows(db.rows)
  {
  }

  lemma CleanupKeepsValid(s: Store, now: int, s': Store)
    requires LoadedInv(s, now) && CleanupStep(s, now, s', true)
    ensures ValidRows(s'.mem)
  {
    hide CleanupStep;
    CleanupPreserves(s, now, s', true);
    hide DbInv, OrdersInv, EntriesInv, Ahead, ValidRows;
  }

  lemma LoadedRows(db: Db, intact: set<Id>, now: int)
    ensures Loaded(db, intact, now).db.rows == db.rows
  {
  }

  lemma StoppedAtOnce(db: Db, intact: set<Id>, now: int)
    ensures OpenStep(db, intact, now, db, None)
  {
  }

  // ---------------------------------------------------------------- what validation never refuses

  /** Changes that keep the session of a task and do not touch its stored input. */
  predicate SessionKeeping(c: Change) { !c.SetThread? && !c.Prepare? }

  lemma ChangedStaysValid(e: Entry, change: Change, now: int)
    requires EntryInv(e, now) && SessionKeeping(change) && Changed(e, change, now).Some?
    ensures var t := Changed(e, change, now).value.0;
      ValidTask(t) && KeyOf(t) == KeyOf(e.task) && (!t.state.Terminal() ==> !e.task.state.Terminal())
  {
    hide ValidResult, Charge, ValidReceipt;
  }

  /** From a consistent store, ending, completing, freezing and delivering a task are never refused by validation:
      when the disk works, their own guards alone decide. */
  lemma GuardsDecide(s: Store, owner: string, id: Id, change: Change, now: int)
    requires Inv(s, now) && Has(s.mem, owner, id) && SessionKeeping(change)
    ensures CanChange(s, owner, id, change, now) <==> Changed(EntryOf(s.mem.tasks, s.db, id), change, now).Some?
  {
    hide DbInv, Ahead, Agrees, OrdersInv, EntryInv, Changed, ValidTask, KeyOf;
    var e := EntryOf(s.mem.tasks, s.db, id);
    RowsById(s.mem, id);
    if Changed(e, change, now).Some? {
      ChangedIdentity(e, change, now);
      ChangedStaysValid(e, change, now);
      hide ValidRows;
      KeepsRules(s.mem, Changed(e, change, now).value.0);
    }
  }

  // ---------------------------------------------------------------- what validation refuses of a start

  /** A charge the index can hold. */
  predicate Chargeable(i: StartInput) { SubmittedCharge(i) <= MAX_TASK + MAX_TEXT + MAX_TOKEN + MAX_SOURCE_DATA }

  lemma NewTaskValid(i: StartInput, id: Id, order: int, now: int)
    requires AcceptableInput(i)
    ensures ValidTask(NewTask(i, id, order, now)) <==> Chargeable(i)
  {
    hide Charge, Within;
  }

  /** From a consistent store, a start that passed its own checks is refused by validation exactly when attachments come
      together with source data and their charge exceeds what one task may hold. */
  lemma StartDecides(s: Store, i: StartInput, id: Id, now: int)
    requires Inv(s, now)
    ensures CanStart(s, i, id, now) <==> Admits(s.mem, i, now) && Storable(i) && id !in s.mem.tasks && Chargeable(i)
  {
    hide DbInv, EntriesInv, OrdersInv, Ahead, Agrees, Chargeable, Admits, Charge;
    if Admits(s.mem, i, now) && id !in s.mem.tasks {
      AdmittedAcceptable(s.mem, i, now);
      NewTaskValid(i, id, s.mem.nextOrder, now);
      var t := NewTask(i, id, s.mem.nextOrder, now);
      NewTaskFields(i, id, s.mem.nextOrder, now);
      if Chargeable(i) { NewRowsValid(s.mem, i, t, now); }
      else { assert WithNewTask(s.mem, t).tasks[id] == t; }
    }
  }

  lemma NewTaskFields(i: StartInput, id: Id, order: int, now: int)
    ensures var t := NewTask(i, id, order, now);
      t.id == id && t.source == i.source && t.owner == i.owner && KeyOf(t) == SessionKey(i.owner, i.target, i.thread)
  {
  }

  lemma NewApart(tasks: map<Id, Task>, t: Task, a: Id, b: Id)
    requires a in tasks + map[t.id := t] && b in tasks + map[t.id := t] && a != b
    requires a != t.id && b != t.id ==> Apart(tasks, a, b)
    requires forall k | k in tasks :: tasks[k].source != t.source && !Holds(tasks[k], KeyOf(t))
    ensures Apart(tasks[t.id := t], a, b)
  {
    hide KeyOf;
  }

  lemma NewOwned(tasks: map<Id, Task>, t: Task, owner: string)
    requires t.id !in tasks && |OwnedIds(tasks, t.owner)| < MAX_RECORDS && |OwnedIds(tasks, owner)| <= MAX_RECORDS
    ensures |OwnedIds(tasks[t.id := t], owner)| <= MAX_RECORDS
  {
    assert OwnedIds(tasks[t.id := t], owner) == OwnedIds(tasks, owner) + (if owner == t.owner then {t.id} else {});
  }

  lemma NewRowsValid(mem: Rows, i: StartInput, t: Task, now: int)
    requires ValidRows(mem) && Admits(mem, i, now) && t.id !in mem.tasks && ValidTask(t)
    requires t.source == i.source && t.owner == i.owner && KeyOf(t) == SessionKey(i.owner, i.target, i.thread)
    ensures ValidRows(WithNewTask(mem, t))
  {
    AdmittedApart(mem, i, now);
    hide ValidTask, KeyOf, Admits, SessionKey, Compatible, Holds;
    var mem' := WithNewTask(mem, t);
    forall a, b | a in mem'.tasks && b in mem'.tasks && a != b ensures Apart(mem'.tasks, a, b) {
      if a != t.id && b != t.id { assert Apart(mem.tasks, a, b); }
      NewApart(mem.tasks, t, a, b);
    }
    forall owner: string ensures |OwnedIds(mem'.tasks, owner)| <= MAX_RECORDS { NewOwned(mem.tasks, t, owner); }
  }

  lemma AdmittedApart(mem: Rows, i: StartInput, now: int)
    requires Admits(mem, i, now)
    ensures forall k | k in mem.tasks ::
      mem.tasks[k].source != i.source && !Holds(mem.tasks[k], SessionKey(i.owner, i.target, i.thread))
    ensures i.source !in mem.cleared && i.source !in mem.rejected && |OwnedIds(mem.tasks, i.owner)| < MAX_RECORDS
  {
    hide RoomForResult, RoomForInput, AcceptableInput, SessionKey;
  }
}
