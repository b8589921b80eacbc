/** Whole runs of the drafts: messages in single steps, between them whatever the request store does, and crashes. */
module DraftRuns {
  import opened RequestModel
  import opened RequestSpec
  import opened RequestInvariant
  import opened RequestRecovery
  import opened RequestRuns
  import opened Draft

  /** Where the handling of a message is; one message is handled at a time. */
  datatype Phase =
    | Idle
    | Loaded(owner: string, source: string)
    | Submitting(owner: string, source: string, tried: bool)

  datatype Scene = Scene(world: World, drafts: DraftState, phase: Phase)

  /** Something the store does, or the next step in the handling of a message. */
  datatype Deed =
    | Store(event: Event)
    | Load(owner: string, source: string)
    | Discard
    | Note(draft: Draft)
    | Mark
    | Begin(input: StartInput, id: Id, out: StartOutcome)
    | Finish(saved: bool)
    | GiveUp

  const NO_DRAFTS := DraftState(Drafts(map[], map[]), map[], 0, [])

  /** What one step does. A save that fails, a message that asks for nothing and an answer that cannot be sent give
      up. */
  ghost predicate DeedStep(s: Scene, e: Deed, now: int, s': Scene) {
    match e
    case Store(event) =>
      && RequestRuns.Step(s.world, event, now, s'.world) && s'.drafts == s.drafts
      && s'.phase == if s'.world.Down? then Idle else s.phase
    case Load(owner, source) =>
      && s.world.Up? && s.phase == Idle && source != ""
      && s' == Scene(s.world, Shrunk(s.drafts, Pruned(s.drafts.stored, RowsOf(s.world), now)), Loaded(owner, source))
    case Discard =>
      s.phase.Loaded? && s' == Scene(s.world, Taken(s.drafts, s.phase.owner, s.phase.source, now), Idle)
    case Note(draft) =>
      && s.phase.Loaded? && draft.expiresAt == now + DRAFT_LIFETIME
      && s' == Scene(s.world,
          Written(s.drafts, s.phase.owner, draft, s.drafts.stored.receipts[s.phase.source := now]), Idle)
    case Mark =>
      && s.phase.Loaded? && s.phase.owner in s.drafts.stored.owners
      && s' == Scene(s.world, Marked(s.drafts, s.phase.owner, s.phase.source),
          Submitting(s.phase.owner, s.phase.source, false))
    case Begin(input, id, out) =>
      && s.phase.Submitting? && !s.phase.tried && input.source == s.phase.source
      && s.world.Up? && s'.world.Up? && RequestRuns.Step(s.world, Event.Start(input, id, out), now, s'.world)
      && s'.phase == s.phase.(tried := true)
      && (out.Created? ==> s.phase.owner in s.drafts.serials)
      && s'.drafts == if out.Created? then NotedStartOf(s.drafts, s.phase.owner, s.phase.source) else s.drafts
    case Finish(saved) =>
      && s.phase.Submitting?
      && s' == Scene(s.world, if saved then Taken(s.drafts, s.phase.owner, s.phase.source, now) else s.drafts, Idle)
    case GiveUp => s' == s.(phase := Idle)
  }

  /** A run from an empty database without drafts, with a clock that never goes back. */
  ghost predicate IsDraftRun(scenes: seq<Scene>, deeds: seq<Deed>, times: seq<int>) {
    && |scenes| == |deeds| + 1 && |times| == |deeds|
    && scenes[0] == Scene(Down(EMPTY_DB), NO_DRAFTS, Idle)
    && (forall i | 0 < i < |times| :: times[i - 1] <= times[i])
    && (forall i | 0 <= i < |deeds| :: DeedStep(scenes[i], deeds[i], times[i], scenes[i + 1]))
  }

  predicate NeverStarted(d: DraftState, owner: string) {
    owner in d.serials ==> forall i | 0 <= i < |d.starts| :: d.starts[i].serial != d.serials[owner]
  }

  /** After loading no stored draft was ever started, and while one is submitted it carries its source and was not. */
  predicate PhaseInv(d: DraftState, p: Phase) {
    match p
    case Idle => true
    case Loaded(_, source) => source != "" && forall o | o in d.stored.owners :: NeverStarted(d, o)
    case Submitting(owner, source, tried) =>
      && source != "" && owner in d.stored.owners && d.stored.owners[owner].submitSource == source
      && (!tried ==> NeverStarted(d, owner))
  }

  ghost predicate SceneInv(s: Scene, now: int) {
    && WorldInv(s.world, now) && StateInv(s.drafts, RowsOf(s.world), now) && PhaseInv(s.drafts, s.phase)
    && s.drafts.serials.Keys == s.drafts.stored.owners.Keys
  }

  // ---------------------------------------------------------------- the steps

  lemma StoreDeed(s: Scene, e: Deed, now: int, s': Scene)
    requires SceneInv(s, now) && DeedStep(s, e, now, s') && e.Store?
    ensures SceneInv(s', now)
  {
    hide WorldInv, RequestRuns.Step, DraftsInv, PhaseInv;
    StepPreserves(s.world, e.event, now, s'.world);
    StoreKeepsDrafts(s.drafts.stored, s.drafts.serials, s.drafts.next, s.drafts.starts, s.world, e.event, now,
        s'.world);
    IdleInv(s.drafts);
  }

  lemma IdleInv(d: DraftState)
    ensures PhaseInv(d, Idle)
  {
  }

  lemma ShrunkInv(d: DraftState, rows: Rows, now: int, s: Drafts)
    requires StateInv(d, rows, now) && d.serials.Keys == d.stored.owners.Keys
    requires s.owners.Keys <= d.stored.owners.Keys && forall o | o in s.owners :: s.owners[o] == d.stored.owners[o]
    ensures StateInv(Shrunk(d, s), rows, now) && Shrunk(d, s).serials.Keys == s.owners.Keys
  {
    hide DraftsInv;
    SubsetKeepsDrafts(d.stored, d.serials, d.next, d.starts, rows, now, s);
    assert Named(d.serials, s.owners) == map o | o in s.owners :: d.serials[o];
  }

  lemma LoadDeed(s: Scene, e: Deed, now: int, s': Scene)
    requires SceneInv(s, now) && DeedStep(s, e, now, s') && e.Load?
    ensures SceneInv(s', now)
  {
    hide WorldInv, DraftsInv, Submitted;
    var d, rows := s.drafts, RowsOf(s.world);
    PrunedNeverStarted(d.stored, d.serials, d.next, d.starts, rows, now);
    ShrunkInv(d, rows, now, Pruned(d.stored, rows, now));
  }

  lemma DropDeed(s: Scene, e: Deed, now: int, s': Scene)
    requires SceneInv(s, now) && DeedStep(s, e, now, s') && (e.Discard? || e.Finish? || e.GiveUp?)
    ensures SceneInv(s', now)
  {
    hide WorldInv, DraftsInv;
    if !s.phase.Idle? {
      var d := s.drafts;
      ShrunkInv(d, RowsOf(s.world), now,
          Drafts(d.stored.owners - {s.phase.owner}, d.stored.receipts[s.phase.source := now]));
    }
  }

  lemma WrittenInv(d: DraftState, rows: Rows, now: int, owner: string, draft: Draft, receipts: map<string, int>)
    requires StateInv(d, rows, now) && d.serials.Keys == d.stored.owners.Keys
    requires draft.expiresAt <= now + DRAFT_LIFETIME && NeverStarted(d, owner)
    ensures StateInv(Written(d, owner, draft, receipts), rows, now)
    ensures Written(d, owner, draft, receipts).serials.Keys == Written(d, owner, draft, receipts).stored.owners.Keys
    ensures owner in d.stored.owners ==> NeverStarted(Written(d, owner, draft, receipts), owner)
  {
    hide DraftsInv;
    if owner in d.stored.owners {
      ChangedDraft(d.stored, receipts, d.serials, d.next, d.starts, rows, now, owner, draft);
    } else {
      NewDraft(d.stored, receipts, d.serials, d.next, d.starts, rows, now, owner, draft);
    }
  }

  lemma WriteDeed(s: Scene, e: Deed, now: int, s': Scene)
    requires SceneInv(s, now) && DeedStep(s, e, now, s') && (e.Note? || e.Mark?)
    ensures SceneInv(s', now)
  {
    hide WorldInv, DraftsInv;
    var d, owner := s.drafts, s.phase.owner;
    OwnersOf(d.stored, d.serials, d.next, d.starts, RowsOf(s.world), now);
    match e
    case Note(draft) => WrittenInv(d, RowsOf(s.world), now, owner, draft, d.stored.receipts[s.phase.source := now]);
    case Mark =>
      var draft := d.stored.owners[owner].(submitSource := s.phase.source);
      WrittenInv(d, RowsOf(s.world), now, owner, draft, d.stored.receipts);
  }

  lemma BeginDeed(s: Scene, e: Deed, now: int, s': Scene)
    requires SceneInv(s, now) && DeedStep(s, e, now, s') && e.Begin?
    ensures SceneInv(s', now)
  {
    hide WorldInv, RequestRuns.Step, DraftsInv, StartStep;
    var d, owner, source := s.drafts, s.phase.owner, s.phase.source;
    var event := Event.Start(e.input, e.id, e.out);
    StepPreserves(s.world, event, now, s'.world);
    StoreKeepsDrafts(d.stored, d.serials, d.next, d.starts, s.world, event, now, s'.world);
    if e.out.Created? {
      StartOfStep(s.world, event, now, s'.world);
      CreatedMarks(s.world.store, e.input, e.id, now, s'.world.store, e.out, d.stored.owners[owner].expiresAt);
      hide Marks;
      StartRecognised(d.stored.owners[owner], source, RowsOf(s'.world), now);
      NotedStart(d.stored, d.serials, d.next, d.starts, RowsOf(s'.world), now, owner, source);
    }
  }

  lemma StartOfStep(w: World, e: Event, now: int, w': World)
    requires w.Up? && w'.Up? && e.Start? && RequestRuns.Step(w, e, now, w')
    ensures StartStep(w.store, e.input, e.id, now, w'.store, e.out)
  {
    hide StartStep;
  }

  lemma DeedPreserves(s: Scene, e: Deed, now: int, s': Scene)
    requires SceneInv(s, now) && DeedStep(s, e, now, s')
    ensures SceneInv(s', now)
  {
    hide SceneInv, DeedStep;
    match e
    case Store(_) => StoreDeed(s, e, now, s');
    case Load(_, _) => LoadDeed(s, e, now, s');
    case Note(_) => WriteDeed(s, e, now, s');
    case Mark => WriteDeed(s, e, now, s');
    case Begin(_, _, _) => BeginDeed(s, e, now, s');
    case _ => DropDeed(s, e, now, s');
  }

  lemma SceneLater(s: Scene, now: int, later: int)
    requires SceneInv(s, now) && now <= later
    ensures SceneInv(s, later)
  {
    hide WorldInv, DraftsInv, PhaseInv;
    WorldLater(s.world, now, later);
    DraftsLater(s.drafts.stored, s.drafts.serials, s.drafts.next, s.drafts.starts, RowsOf(s.world), now, later);
  }

  lemma {:induction false} SceneHolds(scenes: seq<Scene>, deeds: seq<Deed>, times: seq<int>, k: nat)
    requires IsDraftRun(scenes, deeds, times) && k < |deeds|
    ensures SceneInv(scenes[k], times[k]) && SceneInv(scenes[k + 1], times[k])
  {
    hide SceneInv, DeedStep;
    if k == 0 {
      FirstScene(times[0]);
    } else {
      SceneHolds(scenes, deeds, times, k - 1);
      SceneLater(scenes[k], times[k - 1], times[k]);
    }
    DeedPreserves(scenes[k], deeds[k], times[k], scenes[k + 1]);
  }

  lemma DeedAt(scenes: seq<Scene>, deeds: seq<Deed>, times: seq<int>, k: nat)
    requires IsDraftRun(scenes, deeds, times) && k < |deeds|
    ensures |scenes| == |deeds| + 1 && |times| == |deeds|
    ensures DeedStep(scenes[k], deeds[k], times[k], scenes[k + 1]) && SceneInv(scenes[k], times[k])
  {
    hide SceneInv, DeedStep;
    SceneHolds(scenes, deeds, times, k);
  }

  lemma FirstScene(now: int)
    ensures SceneInv(Scene(Down(EMPTY_DB), NO_DRAFTS, Idle), now)
  {
    EmptyInv(now);
    NoDrafts(EMPTY_ROWS, now);
    hide DbInv, DraftsInv;
  }

  // ---------------------------------------------------------------- over a run

  /** This step started the draft of this owner. */
  predicate Starts(s: Scene, e: Deed, owner: string) {
    e.Begin? && e.out.Created? && s.phase.Submitting? && s.phase.owner == owner
  }

  /** Through these scenes the owner has a draft. */
  ghost predicate KeptDraft(scenes: seq<Scene>, i: nat, j: nat, owner: string)
    requires j < |scenes|
  {
    forall k | i <= k <= j :: owner in scenes[k].drafts.stored.owners
  }

  /** A draft keeps its number while it is there, and starts are never forgotten. */
  lemma NumberStays(s: Scene, e: Deed, now: int, s': Scene, owner: string)
    requires SceneInv(s, now) && DeedStep(s, e, now, s')
    requires owner in s.drafts.stored.owners && owner in s'.drafts.stored.owners
    ensures owner in s.drafts.serials && owner in s'.drafts.serials
    ensures s'.drafts.serials[owner] == s.drafts.serials[owner] && s.drafts.starts <= s'.drafts.starts
  {
    hide WorldInv, DraftsInv, PhaseInv, RequestRuns.Step, Submitted, StateInv;
  }

  lemma StartNumbered(s: Scene, e: Deed, now: int, s': Scene, owner: string)
    requires DeedStep(s, e, now, s') && Starts(s, e, owner)
    ensures s.phase.Submitting? && owner in s.drafts.serials && s'.drafts.serials == s.drafts.serials
    ensures StartOf(s.drafts.serials[owner], s.phase.source) in s'.drafts.starts
  {
    hide RequestRuns.Step;
    var d := s'.drafts;
    assert d.starts[|d.starts| - 1] == StartOf(s.drafts.serials[owner], s.phase.source);
  }

  ghost predicate StartNoted(d: DraftState, owner: string, serial: nat) {
    && owner in d.serials && d.serials[owner] == serial
    && exists i :: 0 <= i < |d.starts| && d.starts[i].serial == serial
  }

  lemma NotedNow(d: DraftState, d': DraftState, owner: string, source: string)
    requires owner in d.serials && d'.serials == d.serials && StartOf(d.serials[owner], source) in d'.starts
    ensures StartNoted(d', owner, d.serials[owner])
  {
    var i :| 0 <= i < |d'.starts| && d'.starts[i] == StartOf(d.serials[owner], source);
  }

  lemma NotedStill(d: DraftState, d': DraftState, owner: string, serial: nat)
    requires StartNoted(d, owner, serial) && d.starts <= d'.starts
    requires owner in d'.serials && d'.serials[owner] == d.serials[owner]
    ensures StartNoted(d', owner, serial)
  {
    var i :| 0 <= i < |d.starts| && d.starts[i].serial == serial;
    assert d'.starts[i] == d.starts[i];
  }

  lemma {:induction false} StartStaysNoted(scenes: seq<Scene>, deeds: seq<Deed>, times: seq<int>, i: nat, j: nat,
      owner: string)
    requires IsDraftRun(scenes, deeds, times) && i < j <= |deeds| < |scenes|
    requires Starts(scenes[i], deeds[i], owner) && KeptDraft(scenes, i, j, owner)
    ensures owner in scenes[i].drafts.serials && StartNoted(scenes[j].drafts, owner, scenes[i].drafts.serials[owner])
  {
    hide IsDraftRun, DeedStep, SceneInv, Starts, StartNoted;
    DeedAt(scenes, deeds, times, j - 1);
    if i == j - 1 {
      StartNumbered(scenes[i], deeds[i], times[i], scenes[j], owner);
      NotedNow(scenes[i].drafts, scenes[j].drafts, owner, scenes[i].phase.source);
    } else {
      StartStaysNoted(scenes, deeds, times, i, j - 1, owner);
      assert owner in scenes[j - 1].drafts.stored.owners && owner in scenes[j].drafts.stored.owners;
      NumberStays(scenes[j - 1], deeds[j - 1], times[j - 1], scenes[j], owner);
      NotedStill(scenes[j - 1].drafts, scenes[j].drafts, owner, scenes[i].drafts.serials[owner]);
    }
  }

  /** A start by the handler is always the first of its draft. */
  lemma StartIsFirst(s: Scene, e: Deed, now: int, s': Scene, owner: string)
    requires SceneInv(s, now) && DeedStep(s, e, now, s') && Starts(s, e, owner)
    ensures NeverStarted(s.drafts, owner)
  {
    hide WorldInv, StateInv, RequestRuns.Step;
  }

  /** Over any run, whatever fails or crashes and whatever else the store does between the steps of a message, one draft
      is started at most once: between two starts for one owner the draft was gone. */
  lemma DraftStartsOnce(scenes: seq<Scene>, deeds: seq<Deed>, times: seq<int>, i: nat, j: nat, owner: string)
    requires IsDraftRun(scenes, deeds, times) && i < j < |deeds| < |scenes|
    requires Starts(scenes[i], deeds[i], owner) && Starts(scenes[j], deeds[j], owner)
    ensures exists k :: i < k <= j && owner !in scenes[k].drafts.stored.owners
  {
    hide IsDraftRun, DeedStep, SceneInv, Starts, StartNoted, NeverStarted;
    DeedAt(scenes, deeds, times, j);
    DeedAt(scenes, deeds, times, i);
    StartIsFirst(scenes[j], deeds[j], times[j], scenes[j + 1], owner);
    StartingHasDraft(scenes[i], deeds[i], times[i], owner);
    if KeptDraft(scenes, i, j, owner) {
      StartStaysNoted(scenes, deeds, times, i, j, owner);
      NotedIsStarted(scenes[j].drafts, owner, scenes[i].drafts.serials[owner]);
    }
  }

  lemma NotedIsStarted(d: DraftState, owner: string, serial: nat)
    requires StartNoted(d, owner, serial)
    ensures !NeverStarted(d, owner)
  {
  }

  lemma StartingHasDraft(s: Scene, e: Deed, now: int, owner: string)
    requires SceneInv(s, now) && Starts(s, e, owner)
    ensures owner in s.drafts.stored.owners
  {
    hide WorldInv, StateInv;
  }
}
