/** What holds over every run of the store. */
module RequestTheorems {
  import opened RequestModel
  import opened RequestSpec
  import opened RequestInvariant
  import opened RequestRecovery
  import opened RequestRuns
  import opened RequestMeaning

  // ---------------------------------------------------------------- at most one start per source

  predicate LiveTask(r: Rows, id: Id, source: string) {
    id in r.tasks && r.tasks[id].source == source && !r.tasks[id].state.Terminal()
  }

  predicate FinishedTask(r: Rows, id: Id, source: string) {
    id in r.tasks && r.tasks[id].source == source && r.tasks[id].state.Terminal()
  }

  /** The task that ended at `finished` still blocks its source, or the history period is over. */
  predicate Blocks(r: Rows, id: Id, source: string, finished: int, now: int) {
    || (FinishedTask(r, id, source) && r.tasks[id].finishedAt == finished)
    || (source in r.cleared && r.cleared[source].at == finished)
    || now >= finished + HISTORY_RETENTION
  }

  lemma LiveStep(r: Rows, r': Rows, id: Id, source: string, now: int)
    requires LiveTask(r, id, source) && RowsStep(r, r', now)
    ensures LiveTask(r', id, source) || FinishedTask(r', id, source)
  {
  }

  lemma BlocksStep(r: Rows, r': Rows, id: Id, source: string, finished: int, now: int)
    requires Blocks(r, id, source, finished, now) && RowsStep(r, r', now)
    ensures Blocks(r', id, source, finished, now)
  {
  }

  /** From its start on a task is live, or it ended at a moment the run has seen and blocks its source since. */
  ghost predicate Guarded(worlds: seq<World>, i: nat, j: nat, id: Id, source: string, now: int)
    requires j < |worlds|
  {
    || LiveTask(RowsOf(worlds[j]), id, source)
    || exists m :: (i < m <= j && FinishedTask(RowsOf(worlds[m]), id, source))
                && Blocks(RowsOf(worlds[j]), id, source, RowsOf(worlds[m]).tasks[id].finishedAt, now)
  }

  lemma {:induction false} StartGuards(worlds: seq<World>, events: seq<Event>, times: seq<int>, i: nat, j: nat)
    requires IsRun(worlds, events, times) && i < j <= |events|
    requires events[i].Start? && events[i].out.Created?
    ensures Guarded(worlds, i, j, events[i].id, events[i].input.source, times[j - 1])
  {
    hide WorldInv, Step, RowsStep, LiveTask, FinishedTask, Blocks;
    var id, source := events[i].id, events[i].input.source;
    RunStep(worlds, events, times, j - 1);
    if j == i + 1 {
      CreatedIsLive(worlds[i], events[i], times[i], worlds[j]);
    } else {
      StartGuards(worlds, events, times, i, j - 1);
      GuardedStep(worlds, i, j - 1, id, source, times[j - 2], times[j - 1]);
    }
  }

  lemma GuardedStep(worlds: seq<World>, i: nat, j: nat, id: Id, source: string, before: int, now: int)
    requires i < j && j + 1 < |worlds| && before <= now
    requires Guarded(worlds, i, j, id, source, before)
    requires RowsStep(RowsOf(worlds[j]), RowsOf(worlds[j + 1]), now)
    ensures Guarded(worlds, i, j + 1, id, source, now)
  {
    var r, r' := RowsOf(worlds[j]), RowsOf(worlds[j + 1]);
    hide RowsStep;
    if LiveTask(r, id, source) {
      LiveStep(r, r', id, source, now);
      EndsNow(r', id, source, now);
    } else {
      var m :| i < m <= j && FinishedTask(RowsOf(worlds[m]), id, source)
        && Blocks(r, id, source, RowsOf(worlds[m]).tasks[id].finishedAt, before);
      BlocksStep(r, r', id, source, RowsOf(worlds[m]).tasks[id].finishedAt, now);
    }
  }

  lemma EndsNow(r: Rows, id: Id, source: string, now: int)
    ensures FinishedTask(r, id, source) ==> Blocks(r, id, source, r.tasks[id].finishedAt, now)
  {
  }

  lemma Unblocked(r: Rows, id: Id, source: string, finished: int, now: int)
    requires Blocks(r, id, source, finished, now)
    requires source !in r.cleared && !(id in r.tasks && r.tasks[id].source == source)
    ensures now >= finished + HISTORY_RETENTION
  {
  }

  lemma CreatedIsLive(w: World, e: Event, now: int, w': World)
    requires e.Start? && e.out.Created? && Step(w, e, now, w')
    ensures LiveTask(RowsOf(w'), e.id, e.input.source)
  {
    hide Admits, ValidRows;
    SavedMem(w.store, WithNewTask(w.store.mem, NewTask(e.input, e.id, w.store.mem.nextOrder, now)),
        PutInput(e.id, InputOf(e.input)));
  }

  /** A start that creates a task finds its source nowhere among the committed rows. */
  lemma CreatedIsFresh(w: World, e: Event, now: int, w': World, id: Id)
    requires WorldInv(w, now) && e.Start? && e.out.Created? && Step(w, e, now, w')
    ensures var r := RowsOf(w);
      && e.input.source !in r.cleared && e.input.source !in r.rejected
      && !(id in r.tasks && r.tasks[id].source == e.input.source)
      && e.id !in r.tasks
  {
    hide DbInv, ValidRows, EntriesInv, OrdersInv, Started;
    var s := w.store;
    if id in s.db.rows.tasks {
      assert AgreesTask(s.mem.tasks[id], s.db.rows.tasks[id]);
    }
  }

  /** Two starts of one source are separated by the whole history period after the first task's end,
      whatever was retried, cleared, expired, lost in failed saves or restarted in between. */
  lemma AtMostOneStart(worlds: seq<World>, events: seq<Event>, times: seq<int>, i: nat, j: nat)
    requires IsRun(worlds, events, times) && i < j < |events|
    requires events[i].Start? && events[i].out.Created?
    requires events[j].Start? && events[j].out.Created?
    requires events[j].input.source == events[i].input.source
    ensures exists m :: (i < m <= j && FinishedTask(RowsOf(worlds[m]), events[i].id, events[i].input.source))
                     && times[j] >= RowsOf(worlds[m]).tasks[events[i].id].finishedAt + HISTORY_RETENTION
  {
    var id, source := events[i].id, events[i].input.source;
    hide WorldInv, Step, RowsStep, Blocks, FinishedTask;
    StartGuards(worlds, events, times, i, j);
    RunStep(worlds, events, times, j);
    CreatedIsFresh(worlds[j], events[j], times[j], worlds[j + 1], id);
    assert !LiveTask(RowsOf(worlds[j]), id, source);
    hide LiveTask, IsRun;
    var m :| i < m <= j && FinishedTask(RowsOf(worlds[m]), id, source)
      && Blocks(RowsOf(worlds[j]), id, source, RowsOf(worlds[m]).tasks[id].finishedAt, times[j - 1]);
    Unblocked(RowsOf(worlds[j]), id, source, RowsOf(worlds[m]).tasks[id].finishedAt, times[j - 1]);
  }

  /** A receipt, once committed, stays unchanged until its history period is over. */
  lemma {:induction false} ReceiptsBlock(worlds: seq<World>, events: seq<Event>, times: seq<int>, i: nat, j: nat,
                                         source: string)
    requires IsRun(worlds, events, times) && i <= j < |events|
    ensures source in RowsOf(worlds[i]).rejected ==>
      var at := RowsOf(worlds[i]).rejected[source].at;
      (source in RowsOf(worlds[j]).rejected && RowsOf(worlds[j]).rejected[source].at == at)
        || times[j] >= at + HISTORY_RETENTION
  {
    hide WorldInv, Step, Evolves;
    if i < j {
      ReceiptsBlock(worlds, events, times, i, j - 1, source);
      RunStep(worlds, events, times, j - 1);
      RunStep(worlds, events, times, j);
    }
  }

  /** A rejected source does not start within the history period of its rejection. */
  lemma RejectedDoesNotStart(worlds: seq<World>, events: seq<Event>, times: seq<int>, i: nat, j: nat, source: string)
    requires IsRun(worlds, events, times) && i <= j < |events|
    requires source in RowsOf(worlds[i]).rejected
    requires events[j].Start? && events[j].out.Created? && events[j].input.source == source
    ensures times[j] >= RowsOf(worlds[i]).rejected[source].at + HISTORY_RETENTION
  {
    hide WorldInv, Step;
    ReceiptsBlock(worlds, events, times, i, j, source);
    RunStep(worlds, events, times, j);
    CreatedIsFresh(worlds[j], events[j], times[j], worlds[j + 1], events[j].id);
  }

  /** The event turned this source away: an explicit rejection, or a start that met a busy session. */
  predicate TurnsAway(e: Event, source: string) {
    || (e.Reject? && e.ok && e.rejection.source == source)
    || (e.Start? && e.out.SessionBusy? && e.input.source == source)
  }

  lemma TurnedAwayNow(w: World, e: Event, now: int, w': World, source: string)
    requires WorldInv(w, now) && Step(w, e, now, w') && TurnsAway(e, source) && source !in RowsOf(w).rejected
    ensures source in RowsOf(w').rejected && RowsOf(w').rejected[source].at == now
  {
    SameReceipts(w.store, now);
    hide Inv, RejectStep, OpenStep;
    match e
    case Reject(r, ok) => RejectionMeans(w.store, r, now, w'.store, ok);
    case Start(i, id, out) => BusyMeans(w.store, i, id, now, w'.store);
  }

  lemma SameReceipts(s: Store, now: int)
    requires Inv(s, now)
    ensures s.mem.rejected == s.db.rows.rejected
  {
    hide LoadedInv;
  }

  /** A source that was turned away at some time starts no earlier than thirty days after that time. */
  lemma TurnedAwayDoesNotStart(worlds: seq<World>, events: seq<Event>, times: seq<int>, i: nat, j: nat, source: string)
    requires IsRun(worlds, events, times) && i < j < |events|
    requires TurnsAway(events[i], source) && source !in RowsOf(worlds[i]).rejected
    requires events[j].Start? && events[j].out.Created? && events[j].input.source == source
    ensures times[j] >= times[i] + HISTORY_RETENTION
  {
    hide WorldInv, Step, RowsStep, TurnsAway;
    RunStep(worlds, events, times, i);
    TurnedAwayNow(worlds[i], events[i], times[i], worlds[i + 1], source);
    RejectedDoesNotStart(worlds, events, times, i + 1, j, source);
  }

  // ---------------------------------------------------------------- completion is irreversible

  ghost predicate PresentThrough(worlds: seq<World>, i: nat, j: nat, id: Id)
    requires j < |worlds|
  {
    forall k | i <= k <= j :: id in RowsOf(worlds[k]).tasks
  }

  lemma CompletedStep(r: Rows, r': Rows, now: int, id: Id)
    requires RowsStep(r, r', now) && id in r.tasks && id in r'.tasks && r.tasks[id].completedAt > 0
    ensures r'.tasks[id].completedAt > 0
  {
  }

  /** A committed completion is never lost while its task exists, restarts included, so a retry is never accepted. */
  lemma {:induction false} CompletionIsIrreversible(worlds: seq<World>, events: seq<Event>, times: seq<int>, i: nat,
                                                    j: nat, id: Id, owner: string)
    requires IsRun(worlds, events, times) && i <= j < |events| && PresentThrough(worlds, i, j, id)
    requires RowsOf(worlds[i]).tasks[id].completedAt > 0
    ensures RowsOf(worlds[j]).tasks[id].completedAt > 0
    ensures worlds[j].Up? ==> !RetryAccepts(worlds[j].store.mem, owner, id)
  {
    hide Step, WorldInv, RowsStep;
    hide IsRun;
    RunLength(worlds, events, times);
    if i < j {
      CompletionIsIrreversible(worlds, events, times, i, j - 1, id, owner);
      RunStep(worlds, events, times, j - 1);
      CompletedStep(RowsOf(worlds[j - 1]), RowsOf(worlds[j]), times[j - 1], id);
    }
    RunStep(worlds, events, times, j);
    if worlds[j].Up? {
      CompletedIsNotRetried(worlds[j].store, times[j], id, owner);
    }
  }

  lemma CompletedIsNotRetried(s: Store, now: int, id: Id, owner: string)
    requires WorldInv(Up(s), now) && id in s.db.rows.tasks && s.db.rows.tasks[id].completedAt > 0
    ensures id in s.mem.tasks && s.mem.tasks[id].completedAt > 0 && !RetryAccepts(s.mem, owner, id)
  {
    hide LoadedInv;
    assert AgreesTask(s.mem.tasks[id], s.db.rows.tasks[id]);
  }

  /** One process lives through all these worlds, and the task is in its memory. */
  ghost predicate InMemoryThrough(worlds: seq<World>, i: nat, j: nat, id: Id)
    requires j < |worlds|
  {
    forall k | i <= k <= j :: worlds[k].Up? && id in worlds[k].store.mem.tasks
  }

  /** Between crashes memory takes rows steps. */
  lemma UpRows(worlds: seq<World>, events: seq<Event>, times: seq<int>, k: nat)
    requires IsRun(worlds, events, times) && k + 1 < |worlds| && worlds[k].Up? && worlds[k + 1].Up?
    ensures k < |times| && RowsStep(worlds[k].store.mem, worlds[k + 1].store.mem, times[k])
  {
    RunInvariant(worlds, events, times, k);
    hide Inv, StoreStep, OpenStep, RowsStep;
    MemoryRows(worlds[k].store, events[k], times[k], worlds[k + 1].store);
  }

  /** The same for a completion only memory knows, as long as the process lives. */
  lemma {:induction false} MemoryCompletionStays(worlds: seq<World>, events: seq<Event>, times: seq<int>, i: nat,
                                                 j: nat, id: Id, owner: string)
    requires IsRun(worlds, events, times) && i <= j < |worlds| && InMemoryThrough(worlds, i, j, id)
    requires worlds[i].store.mem.tasks[id].completedAt > 0
    ensures worlds[j].store.mem.tasks[id].completedAt > 0 && !RetryAccepts(worlds[j].store.mem, owner, id)
  {
    hide IsRun, RowsStep;
    if i < j {
      MemoryCompletionStays(worlds, events, times, i, j - 1, id, owner);
      assert worlds[j - 1].Up? && worlds[j].Up?;
      UpRows(worlds, events, times, j - 1);
      CompletedStep(worlds[j - 1].store.mem, worlds[j].store.mem, times[j - 1], id);
    }
  }

  lemma RunLength(worlds: seq<World>, events: seq<Event>, times: seq<int>)
    requires IsRun(worlds, events, times)
    ensures |worlds| == |events| + 1 && |times| == |events| && worlds[0].Down?
  {
  }

  /** The success states are exactly those with a recorded completion. */
  lemma StateShowsCompletion(s: Store, now: int, id: Id)
    requires Inv(s, now) && id in s.mem.tasks
    ensures var t := s.mem.tasks[id];
      && (t.state == Delivering || t.state == Succeeded ==> t.completedAt > 0)
      && (t.state == Failed || t.state == Interrupted || t.state == State.Cancelled ==> t.completedAt == 0)
  {
    hide DbInv, ValidRows, OrdersInv, Ahead, Agrees, InputInv, ResultInv, CompletionInv;
    assert EntryInv(EntryOf(s.mem.tasks, s.db, id), now);
  }

  // ---------------------------------------------------------------- session exclusion

  /** In every reachable state, in memory and on disk, no two active tasks hold one session. */
  lemma SessionsExclude(worlds: seq<World>, events: seq<Event>, times: seq<int>, k: nat, a: Id, b: Id)
    requires IsRun(worlds, events, times) && k < |events| && a != b
    ensures var r := RowsOf(worlds[k + 1]).tasks;
      a in r && b in r && !r[a].state.Terminal() && !r[b].state.Terminal() ==> KeyOf(r[a]) != KeyOf(r[b])
    ensures worlds[k + 1].Up? ==>
      var m := worlds[k + 1].store.mem.tasks;
      a in m && b in m && !m[a].state.Terminal() && !m[b].state.Terminal() ==> KeyOf(m[a]) != KeyOf(m[b])
  {
    RunInvariant(worlds, events, times, k);
    hide Step, EntriesInv, OrdersInv, Ahead, Agrees, KeyOf;
    var w := worlds[k + 1];
    if a in RowsOf(w).tasks && b in RowsOf(w).tasks { assert Apart(RowsOf(w).tasks, a, b); }
    if w.Up? && a in w.store.mem.tasks && b in w.store.mem.tasks { assert Apart(w.store.mem.tasks, a, b); }
  }

  /** A turn of this task is in flight: the task is active and has fixed its thread. */
  ghost predicate TurnThrough(worlds: seq<World>, i: nat, j: nat, id: Id)
    requires j < |worlds|
  {
    forall k | i <= k <= j ::
      worlds[k].Up? && id in worlds[k].store.mem.tasks
      && !worlds[k].store.mem.tasks[id].state.Terminal() && worlds[k].store.mem.tasks[id].thread != ""
  }

  lemma ThreadStep(r: Rows, r': Rows, now: int, id: Id)
    requires RowsStep(r, r', now) && id in r.tasks && id in r'.tasks && r.tasks[id].thread != ""
    ensures r'.tasks[id].thread == r.tasks[id].thread
  {
  }

  lemma {:induction false} ThreadStays(worlds: seq<World>, events: seq<Event>, times: seq<int>, i: nat, j: nat, id: Id)
    requires IsRun(worlds, events, times) && i <= j < |worlds| && TurnThrough(worlds, i, j, id)
    ensures worlds[j].store.mem.tasks[id].thread == worlds[i].store.mem.tasks[id].thread
  {
    hide IsRun, RowsStep;
    if i < j {
      ThreadStays(worlds, events, times, i, j - 1, id);
      assert worlds[j - 1].Up? && worlds[j].Up?;
      UpRows(worlds, events, times, j - 1);
      ThreadStep(worlds[j - 1].store.mem, worlds[j].store.mem, times[j - 1], id);
    }
  }

  lemma ThreadsDiffer(s: Store, now: int, a: Id, b: Id)
    requires Inv(s, now) && a != b && a in s.mem.tasks && b in s.mem.tasks
    requires !s.mem.tasks[a].state.Terminal() && !s.mem.tasks[b].state.Terminal() && s.mem.tasks[a].thread != ""
    ensures s.mem.tasks[a].thread != s.mem.tasks[b].thread
  {
    hide DbInv, EntriesInv, OrdersInv, Ahead, Agrees, ValidTask;
    assert Apart(s.mem.tasks, a, b);
  }

  lemma UpInv(worlds: seq<World>, events: seq<Event>, times: seq<int>, k: nat)
    requires IsRun(worlds, events, times) && k <= |events| && worlds[k].Up?
    ensures k > 0 && Inv(worlds[k].store, times[k - 1])
  {
    hide Inv, IsRun;
    RunLength(worlds, events, times);
    if k > 0 { RunInvariant(worlds, events, times, k - 1); }
  }

  /** Two turns that are in flight at a common moment of a run never share a thread, whichever moments of the two
      turns are compared and whatever else happens in between. */
  lemma TurnsApart(worlds: seq<World>, events: seq<Event>, times: seq<int>, i: nat, j: nat, a: Id, m: nat, n: nat,
                   b: Id, x: nat, y: nat)
    requires IsRun(worlds, events, times) && j < |worlds| && n < |worlds| && a != b
    requires TurnThrough(worlds, i, j, a) && TurnThrough(worlds, m, n, b)
    requires i <= n && m <= j && i <= x <= j && m <= y <= n
    ensures worlds[x].store.mem.tasks[a].thread != worlds[y].store.mem.tasks[b].thread
  {
    var k := if i < m then m else i;
    ThreadStays(worlds, events, times, i, x, a);
    ThreadStays(worlds, events, times, i, k, a);
    ThreadStays(worlds, events, times, m, y, b);
    ThreadStays(worlds, events, times, m, k, b);
    UpInv(worlds, events, times, k);
    hide IsRun, Inv;
    assert worlds[k].Up?;
    ThreadsDiffer(worlds[k].store, times[k - 1], a, b);
  }

  // ---------------------------------------------------------------- retention

  /** Through any step a task that stays keeps its input until its time and its archived result until its own;
      it leaves only once it finished, by a clear or after the history period, which outlasts both. */
  lemma StepRetains(worlds: seq<World>, events: seq<Event>, times: seq<int>, k: nat, id: Id)
    requires IsRun(worlds, events, times) && k < |events| && id in RowsOf(worlds[k]).tasks
    ensures var t, db', now := RowsOf(worlds[k]).tasks[id], DbOf(worlds[k + 1]), times[k];
      && (id in db'.rows.tasks && HasPayload(t, now) && HasPayload(db'.rows.tasks[id], now) ==> id in db'.inputs)
      && (id in db'.rows.tasks && t.state.Terminal() && t.payloadExpiresAt > now ==> id in db'.inputs)
      && (id in db'.rows.tasks && NeedsResult(db'.rows.tasks[id], now) ==> id in db'.results)
      && (id !in db'.rows.tasks ==>
            && t.state.Terminal()
            && (ClearedFor(db'.rows, t) || (HistoryExpired(t, now) && InputExpired(t, now) && ResultExpired(t, now))))
  {
    RunStep(worlds, events, times, k);
    hide Step, ValidRows, OrdersInv, Ahead, Agrees, InputInv, ResultInv, CompletionInv;
    var db, db' := DbOf(worlds[k]), DbOf(worlds[k + 1]);
    assert EntryInv(EntryOf(db.rows.tasks, db, id), times[k]);
    if id in db'.rows.tasks {
      assert EntryInv(EntryOf(db'.rows.tasks, db', id), times[k]);
    }
  }
}
