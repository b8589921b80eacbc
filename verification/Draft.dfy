/** Drafts: inputs kept back until the user submits them, and started at most once. */
module Draft {
  import opened RequestModel
  import opened RequestSpec
  import opened RequestInvariant
  import opened RequestRecovery
  import opened RequestRuns
  import opened RequestIndex
  import opened RequestSteps
  import opened RequestMeaning
  import opened RequestStore

  const DRAFT_LIFETIME := 30 * 60
  const MAX_IMAGES := 4
  const MAX_FILES := 8

  /** A draft by sizes; an empty text is size 0. */
  datatype Draft = Draft(target: string, text: nat, images: nat, files: nat, expiresAt: int, submitSource: string)

  datatype Drafts = Drafts(owners: map<string, Draft>, receipts: map<string, int>)

  // ---------------------------------------------------------------- pruning

  /** The submit source of a draft that already became a task, or did once. */
  ghost predicate Submitted(d: Draft, rows: Rows) {
    d.submitSource != "" && (SourceTaken(rows, d.submitSource) || d.submitSource in rows.cleared)
  }

  ghost function Pruned(s: Drafts, rows: Rows, now: int): Drafts {
    Drafts(map o | o in s.owners && !(s.owners[o].expiresAt <= now || Submitted(s.owners[o], rows)) :: s.owners[o],
           map k | k in s.receipts && s.receipts[k] > now - HISTORY_RETENTION :: s.receipts[k])
  }

  /** A draft that is neither expired nor submitted. */
  ghost predicate Alive(d: Draft, rows: Rows, now: int) { d.expiresAt > now && !Submitted(d, rows) }

  /** What loading leaves: the drafts that are alive and the receipts of the last thirty days. */
  ghost predicate LoadedAs(s: Drafts, rows: Rows, now: int, s': Drafts) {
    && (forall o :: o in s'.owners <==> o in s.owners && Alive(s.owners[o], rows, now))
    && (forall o | o in s'.owners :: s'.owners[o] == s.owners[o])
    && (forall k :: k in s'.receipts <==> k in s.receipts && s.receipts[k] > now - HISTORY_RETENTION)
    && (forall k | k in s'.receipts :: s'.receipts[k] == s.receipts[k])
  }

  lemma PrunedMeans(s: Drafts, rows: Rows, now: int)
    ensures LoadedAs(s, rows, now, Pruned(s, rows, now))
  {
    hide Submitted;
  }

  // ---------------------------------------------------------------- the invariant

  /** One start of a draft: which draft and under which source. */
  datatype StartOf = StartOf(serial: nat, source: string)

  /** The rows still show, beyond the life of the draft, that its source was started. */
  ghost predicate Marks(rows: Rows, source: string, until: int) {
    || (exists id :: id in rows.tasks && MarksTask(rows.tasks[id], source, until))
    || (source in rows.cleared && rows.cleared[source].at + HISTORY_RETENTION > until)
  }

  predicate MarksTask(t: Task, source: string, until: int) {
    t.source == source && (t.state.Terminal() ==> t.finishedAt + HISTORY_RETENTION > until)
  }

  /** A stored draft that was started is recognised by its submit source until it expires. */
  ghost predicate Recognised(d: Draft, source: string, rows: Rows, now: int) {
    d.submitSource == source && source != "" && (d.expiresAt <= now || Marks(rows, source, d.expiresAt))
  }

  /** `serials` names the stored drafts, `starts` lists every start ever made of one. */
  ghost predicate DraftsInv(s: Drafts, serials: map<string, nat>, next: nat, starts: seq<StartOf>, rows: Rows,
                            now: int) {
    && serials.Keys == s.owners.Keys
    && (forall o | o in serials :: serials[o] < next)
    && (forall o, p | o in serials && p in serials && o != p :: serials[o] != serials[p])
    && (forall i | 0 <= i < |starts| :: starts[i].serial < next)
    && (forall i, j | 0 <= i < j < |starts| :: starts[i].serial != starts[j].serial)
    && (forall o | o in s.owners :: s.owners[o].expiresAt <= now + DRAFT_LIFETIME)
    && (forall o, i | o in s.owners && 0 <= i < |starts| && starts[i].serial == serials[o] ::
          Recognised(s.owners[o], starts[i].source, rows, now))
  }

  lemma MarksStep(rows: Rows, rows': Rows, source: string, until: int, now: int)
    requires RowsStep(rows, rows', now) && until <= now + DRAFT_LIFETIME && until > now && Marks(rows, source, until)
    ensures Marks(rows', source, until)
  {
    if id :| id in rows.tasks && MarksTask(rows.tasks[id], source, until) {
      if id in rows'.tasks {
        assert Evolves(rows.tasks[id], rows'.tasks[id], now);
        assert MarksTask(rows'.tasks[id], source, until);
      }
    }
  }

  /** Whatever the store does in the meantime, crashes and restarts included, a started draft stays recognised. */
  lemma StoreKeepsDrafts(s: Drafts, serials: map<string, nat>, next: nat, starts: seq<StartOf>, w: World, e: Event,
                         now: int, w': World)
    requires WorldInv(w, now) && Step(w, e, now, w') && DraftsInv(s, serials, next, starts, RowsOf(w), now)
    ensures DraftsInv(s, serials, next, starts, RowsOf(w'), now)
  {
    StepRows(w, e, now, w');
    hide WorldInv, Step, RowsStep, Marks;
    RowsKeepDrafts(s, serials, next, starts, RowsOf(w), RowsOf(w'), now);
  }

  lemma RowsKeepDrafts(s: Drafts, serials: map<string, nat>, next: nat, starts: seq<StartOf>, rows: Rows, rows': Rows,
                       now: int)
    requires RowsStep(rows, rows', now) && DraftsInv(s, serials, next, starts, rows, now)
    ensures DraftsInv(s, serials, next, starts, rows', now)
  {
    hide RowsStep, Marks;
    forall o, i | o in s.owners && 0 <= i < |starts| && starts[i].serial == serials[o]
      ensures Recognised(s.owners[o], starts[i].source, rows', now)
    {
      if s.owners[o].expiresAt > now { MarksStep(rows, rows', starts[i].source, s.owners[o].expiresAt, now); }
    }
  }

  lemma NoDrafts(rows: Rows, now: int)
    ensures DraftsInv(Drafts(map[], map[]), map[], 0, [], rows, now)
  {
  }

  lemma DraftsLater(s: Drafts, serials: map<string, nat>, next: nat, starts: seq<StartOf>, rows: Rows, now: int,
                    later: int)
    requires DraftsInv(s, serials, next, starts, rows, now) && now <= later
    ensures DraftsInv(s, serials, next, starts, rows, later)
  {
    hide Marks;
  }

  lemma RecognisedIsPruned(d: Draft, source: string, rows: Rows, now: int)
    requires Recognised(d, source, rows, now)
    ensures d.expiresAt <= now || Submitted(d, rows)
  {
    if d.expiresAt > now && source !in rows.cleared {
      var id :| id in rows.tasks && MarksTask(rows.tasks[id], source, d.expiresAt);
    }
  }

  /** Pruning removes every draft that was ever started: what is left was never started. */
  lemma PrunedNeverStarted(s: Drafts, serials: map<string, nat>, next: nat, starts: seq<StartOf>, rows: Rows, now: int)
    requires DraftsInv(s, serials, next, starts, rows, now)
    ensures forall o, i | o in Pruned(s, rows, now).owners && 0 <= i < |starts| :: starts[i].serial != serials[o]
  {
    hide Recognised, Submitted;
    forall i, o | o in s.owners && 0 <= i < |starts| && starts[i].serial == serials[o]
      ensures s.owners[o].expiresAt <= now || Submitted(s.owners[o], rows)
    {
      RecognisedIsPruned(s.owners[o], starts[i].source, rows, now);
    }
  }

  lemma SubsetKeepsDrafts(s: Drafts, serials: map<string, nat>, next: nat, starts: seq<StartOf>, rows: Rows, now: int,
                          s': Drafts)
    requires DraftsInv(s, serials, next, starts, rows, now)
    requires s'.owners.Keys <= s.owners.Keys && forall o | o in s'.owners :: s'.owners[o] == s.owners[o]
    ensures DraftsInv(s', map o | o in s'.owners :: serials[o], next, starts, rows, now)
  {
    hide Recognised;
  }

  // ---------------------------------------------------------------- the writes of a handler

  /** The stored drafts together with what names them and the starts that were made of them. */
  datatype DraftState = DraftState(stored: Drafts, serials: map<string, nat>, next: nat, starts: seq<StartOf>)

  ghost predicate StateInv(d: DraftState, rows: Rows, now: int) {
    DraftsInv(d.stored, d.serials, d.next, d.starts, rows, now)
  }

  function Named(serials: map<string, nat>, owners: map<string, Draft>): map<string, nat> {
    map o | o in owners && o in serials :: serials[o]
  }

  /** Some drafts are dropped. */
  function Shrunk(d: DraftState, s: Drafts): DraftState { d.(stored := s, serials := Named(d.serials, s.owners)) }

  /** A draft takes a new form; one that was not there gets a new number. */
  function Written(d: DraftState, owner: string, draft: Draft, receipts: map<string, int>): DraftState {
    var s := Drafts(d.stored.owners[owner := draft], receipts);
    if owner in d.stored.owners then d.(stored := s)
    else DraftState(s, d.serials[owner := d.next], d.next + 1, d.starts)
  }

  /** The submit source is stored before the start. */
  function Marked(d: DraftState, owner: string, source: string): DraftState
    requires owner in d.stored.owners
  {
    Written(d, owner, d.stored.owners[owner].(submitSource := source), d.stored.receipts)
  }

  /** The start of a draft is noted. */
  function NotedStartOf(d: DraftState, owner: string, source: string): DraftState
    requires owner in d.serials
  {
    d.(starts := d.starts + [StartOf(d.serials[owner], source)])
  }

  /** The draft is dropped against a receipt for the message that did it. */
  function Taken(d: DraftState, owner: string, source: string, now: int): DraftState {
    Shrunk(d, Drafts(d.stored.owners - {owner}, d.stored.receipts[source := now]))
  }

  // ---------------------------------------------------------------- handling a message

  /** What a message asks for; a note carries text and attachments for the draft. */
  datatype Request = Submit | Discard | Show | Note(text: nat, images: nat, files: nat, acceptable: bool)

  /** What becomes of a submitted draft outside the store: it is turned away before the start, it meets a session that
      works already, or it reaches the start with what the channel adds to it. */
  datatype Way =
    | TurnedAway
    | MetBusy(receipt: Rejection)
    | Through(input: StartInput, id: Id, staged: bool, later: int)

  /** The instruction a draft becomes. */
  function InstructionOf(d: Draft, owner: string, source: string, added: StartInput): StartInput {
    added.(source := source, owner := owner, target := d.target, text := d.text, blank := false,
           images := [], files := [], sourceData := if d.images + d.files > 0 then added.sourceData else 0)
  }

  lemma MemoryShowsRows(s: Store, now: int, source: string)
    requires Inv(s, now)
    ensures SourceTaken(s.mem, source) <==> SourceTaken(s.db.rows, source)
    ensures s.mem.cleared == s.db.rows.cleared
  {
    hide LoadedInv;
    if id :| id in s.mem.tasks && s.mem.tasks[id].source == source {
      assert AgreesTask(s.mem.tasks[id], s.db.rows.tasks[id]);
    }
    if id :| id in s.db.rows.tasks && s.db.rows.tasks[id].source == source {
      assert AgreesTask(s.mem.tasks[id], s.db.rows.tasks[id]);
    }
  }

  /** A successful start leaves a running task of its source on disk. */
  lemma CreatedMarks(s: Store, i: StartInput, id: Id, now: int, s': Store, out: StartOutcome, until: int)
    requires StartStep(s, i, id, now, s', out) && out.Created?
    ensures Marks(s'.db.rows, i.source, until)
  {
    hide Admits, ValidRows;
    SavedMem(s, WithNewTask(s.mem, out.task), PutInput(id, InputOf(i)));
    assert s'.db.rows.tasks[id] == out.task && MarksTask(out.task, i.source, until);
  }

  class DraftHandler {
    const requests: RequestStore
    const reliable: bool
    /** What the database holds. */
    var stored: Drafts
    ghost var serials: map<string, nat>
    ghost var next: nat
    ghost var starts: seq<StartOf>

    ghost function State(): DraftState
      reads this
    {
      DraftState(stored, serials, next, starts)
    }

    ghost predicate Valid(now: int)
      reads this, requests
    {
      requests.Valid() && Inv(requests.View(), now)
        && DraftsInv(stored, serials, next, starts, requests.View().db.rows, now)
    }

    /** A handler over the drafts the database holds: what a process begins with, the first one and every one after a
        crash. The history of starts is what the runs before it did. */
    constructor (requests: RequestStore, reliable: bool, stored: Drafts, ghost serials: map<string, nat>,
        ghost next: nat, ghost starts: seq<StartOf>)
      requires requests.Valid()
      ensures this.requests == requests && this.stored == stored && this.starts == starts
      ensures forall now | Inv(requests.View(), now)
        && DraftsInv(stored, serials, next, starts, requests.View().db.rows, now) :: Valid(now)
    {
      this.requests, this.reliable := requests, reliable;
      this.stored, this.serials, this.next, this.starts := stored, serials, next, starts;
    }

    /** Replaces all draft rows in one transaction. */
    method SaveDrafts(s: Drafts) returns (ok: bool)
      modifies this`stored
      ensures stored == if ok then s else old(stored)
      ensures reliable ==> ok
    {
      ok := true;
      if !reliable {
        ok := *;
      }
      if ok {
        stored := s;
      }
    }

    /** Drops expired drafts, submitted ones and old receipts. */
    method PruneDrafts(s0: Drafts, now: int) returns (s: Drafts, changed: bool)
      requires requests.Valid()
      ensures s == Pruned(s0, requests.View().mem, now)
      ensures changed <==> s != s0
    {
      hide Represents, Placed, Submitted;
      var owners, dropped := PruneOwners(s0.owners, now);
      var receipts, forgotten := PruneReceipts(s0.receipts, now);
      s, changed := Drafts(owners, receipts), dropped || forgotten;
      assert owners == Pruned(s0, requests.View().mem, now).owners;
      assert receipts == Pruned(s0, requests.View().mem, now).receipts;
    }

    method PruneOwners(all: map<string, Draft>, now: int) returns (owners: map<string, Draft>, changed: bool)
      requires requests.Valid()
      ensures owners.Keys <= all.Keys && forall o | o in owners :: owners[o] == all[o]
      ensures forall o | o in all :: o in owners <==>
        !(all[o].expiresAt <= now || Submitted(all[o], requests.View().mem))
      ensures changed <==> owners != all
    {
      hide Represents, Placed, SourceTaken;
      owners, changed := all, false;
      var rest := all.Keys;
      while rest != {}
        invariant rest <= all.Keys && rest <= owners.Keys && owners.Keys <= all.Keys
        invariant forall o | o in owners :: owners[o] == all[o]
        invariant forall o | o in all && o !in rest :: o in owners <==>
          !(all[o].expiresAt <= now || Submitted(all[o], requests.View().mem))
        invariant changed <==> owners.Keys != all.Keys
        decreases |rest|
      {
        var o :| o in rest;
        var draft := owners[o];
        var found := requests.FindBySource(draft.submitSource);
        if draft.expiresAt <= now
          || (draft.submitSource != "" && (found.Some? || draft.submitSource in requests.cleared)) {
          owners := owners - {o};
          changed := true;
          assert o in all.Keys && o !in owners.Keys;
        }
        rest := rest - {o};
      }
    }

    method PruneReceipts(all: map<string, int>, now: int) returns (receipts: map<string, int>, changed: bool)
      ensures receipts.Keys <= all.Keys && forall k | k in receipts :: receipts[k] == all[k]
      ensures forall k | k in all :: k in receipts <==> all[k] > now - HISTORY_RETENTION
      ensures changed <==> receipts != all
    {
      receipts, changed := all, false;
      var rest := all.Keys;
      while rest != {}
        invariant rest <= all.Keys && rest <= receipts.Keys && receipts.Keys <= all.Keys
        invariant forall k | k in receipts :: receipts[k] == all[k]
        invariant forall k | k in all && k !in rest :: k in receipts <==> all[k] > now - HISTORY_RETENTION
        invariant changed <==> receipts.Keys != all.Keys
        decreases |rest|
      {
        var k :| k in rest;
        if receipts[k] <= now - HISTORY_RETENTION {
          receipts := receipts - {k};
          changed := true;
          assert k in all.Keys && k !in receipts.Keys;
        }
        rest := rest - {k};
      }
    }

    /** Starts the draft's instruction unless it is known, refused or turned away as busy. */
    method StartDraft(owner: string, source: string, draft: Draft, way: Way, now: int, ghost until: int)
      returns (created: bool, later: int, ghost mid: Store)
      requires Valid(now)
      modifies requests
      ensures now <= later && Valid(later)
      ensures created ==> Marks(requests.View().db.rows, source, until)
      ensures created ==>
        way.Through? && Runs(requests.View(), way.id, InstructionOf(draft, owner, source, way.input), later)
      ensures (way.Through? && !SourceTaken(old(requests.View()).mem, source) && requests.reliable && way.staged
               && CanStart(mid, InstructionOf(draft, owner, source, way.input), way.id, later)) ==> created
    {
      hide Represents, Placed, Inv, RowsStep, DraftsInv, CleanupStep, StartStep, RejectStep, Marks, CanStart, Runs,
        InstructionOf;
      created, later, mid := false, now, requests.View();
      var existing := requests.FindBySource(source);
      if existing.Some? {
        return;
      }
      ghost var s := requests.View();
      StoreValid(s, now);
      match way {
        case TurnedAway =>
        case MetBusy(receipt) =>
          var ok := requests.RejectLocked(receipt, now);
          AfterReject(s, receipt, now, requests.View(), ok);
          RowsKeepDrafts(stored, serials, next, starts, s.db.rows, requests.View().db.rows, now);
        case Through(added, id, staged, at) =>
          later := if at < now then now else at;
          var input := InstructionOf(draft, owner, source, added);
          InstructionSource(draft, owner, source, added);
          var out;
          ghost var cleanup;
          out, mid, cleanup := requests.Start(input, id, staged, now, later);
          created := out.Created?;
          AfterStart(s, now, mid, cleanup, input, id, later, requests.View(), out);
          RowsKeepDrafts(stored, serials, next, starts, s.db.rows, mid.db.rows, now);
          DraftsLater(stored, serials, next, starts, mid.db.rows, now, later);
          RowsKeepDrafts(stored, serials, next, starts, mid.db.rows, requests.View().db.rows, later);
          if created {
            CreatedMarks(mid, input, id, later, requests.View(), out, until);
            CreatedRuns(mid, input, id, later, requests.View(), out);
          }
      }
    }

    /** Drops the owner's draft against a receipt for the message that did it. */
    method DropDraft(owner: string, source: string, now: int) returns (ok: bool)
      requires Valid(now)
      modifies this`stored, this`serials
      ensures Valid(now)
      ensures State() == if ok then Taken(old(State()), owner, source, now) else old(State())
      ensures reliable ==> ok
    {
      hide Represents, Placed, Inv, Recognised, Marks, DraftsInv;
      var s := Drafts(stored.owners - {owner}, stored.receipts[source := now]);
      OwnersOf(stored, serials, next, starts, requests.View().db.rows, now);
      SubsetKeepsDrafts(stored, serials, next, starts, requests.View().db.rows, now, s);
      ok := SaveDrafts(s);
      if ok {
        serials := map o | o in s.owners :: serials[o];
      }
    }

    /** Submits a draft: its source is stored before the start, and an accepted draft is removed afterwards. */
    method SubmitDraft(owner: string, source: string, way: Way, now: int)
      returns (ok: bool, created: bool, later: int, ghost mid: Store)
      requires Valid(now) && owner in stored.owners && source != ""
      requires owner in serials && forall i | 0 <= i < |starts| :: starts[i].serial != serials[owner]
      modifies this, requests
      ensures now <= later && Valid(later)
      ensures starts == if created then old(starts) + [StartOf(old(serials)[owner], source)] else old(starts)
      ensures var marked := Marked(old(State()), owner, source);
        var submitted := if created then NotedStartOf(marked, owner, source) else marked;
        || (!ok && !created && State() == old(State()))
        || State() == submitted || State() == Taken(submitted, owner, source, later)
      ensures reliable ==>
        && ok && (SourceTaken(requests.View().mem, source) <==> owner !in stored.owners)
        && (owner !in stored.owners ==>
              stored.owners == old(stored).owners - {owner}
              && stored.receipts == old(stored).receipts[source := later])
        && (owner in stored.owners ==>
              stored.owners == old(stored).owners[owner := old(stored).owners[owner].(submitSource := source)]
              && stored.receipts == old(stored).receipts)
      ensures created ==> way.Through?
      ensures created ==>
        Runs(requests.View(), way.id, InstructionOf(old(stored).owners[owner], owner, source, way.input), later)
      ensures (reliable && way.Through? && !SourceTaken(old(requests.View()).mem, source)
               && requests.reliable && way.staged
               && CanStart(mid, InstructionOf(old(stored).owners[owner], owner, source, way.input), way.id, later))
              ==> created
      ensures ok && !created && !SourceTaken(requests.View().mem, source) ==>
        owner in stored.owners && stored.owners[owner] == old(stored).owners[owner].(submitSource := source)
    {
      hide Represents, Placed, Inv, Recognised, Marks, DraftsInv, Runs, CanStart, SourceTaken;
      created, later, mid := false, now, requests.View();
      OwnersOf(stored, serials, next, starts, requests.View().db.rows, now);
      var draft := stored.owners[owner].(submitSource := source);
      ChangedDraft(stored, stored.receipts, serials, next, starts, requests.View().db.rows, now, owner, draft);
      ok := SaveDrafts(Drafts(stored.owners[owner := draft], stored.receipts));
      if !ok {
        return;
      }
      created, later, mid := StartDraft(owner, source, draft, way, now, draft.expiresAt);
      if created {
        StartRecognised(draft, source, requests.View().db.rows, later);
        NotedStart(stored, serials, next, starts, requests.View().db.rows, later, owner, source);
        starts := starts + [StartOf(serials[owner], source)];
      }
      var accepted := requests.FindBySource(source);
      if accepted.Some? {
        ok := DropDraft(owner, source, later);
      }
    }

    /** Loads and prunes; afterwards no stored draft was ever started. */
    method LoadPruned(now: int) returns (ok: bool)
      requires Valid(now)
      modifies this`stored, this`serials
      ensures Valid(now)
      ensures ok ==> stored == Pruned(old(stored), requests.View().db.rows, now)
      ensures forall o | o in serials :: o in old(serials) && serials[o] == old(serials)[o]
      ensures State() ==
        if ok then Shrunk(old(State()), Pruned(old(stored), requests.View().db.rows, now)) else old(State())
      ensures ok ==> forall o, i | o in stored.owners && 0 <= i < |starts| :: starts[i].serial != serials[o]
      ensures reliable ==> ok
    {
      hide Represents, Placed, Inv, Recognised, Marks, DraftsInv, Submitted;
      ok := true;
      var s, changed := PruneDrafts(stored, now);
      SamePruned(stored, requests.View(), now);
      PrunedNeverStarted(stored, serials, next, starts, requests.View().db.rows, now);
      SubsetKeepsDrafts(stored, serials, next, starts, requests.View().db.rows, now, s);
      OwnersOf(stored, serials, next, starts, requests.View().db.rows, now);
      if changed {
        ok := SaveDrafts(s);
        if ok {
          serials := map o | o in s.owners :: serials[o];
        }
      }
    }

    /** Adds text and attachments to the owner's draft, which is created if there is none. */
    method AddNote(owner: string, source: string, current: string, text: nat, images: nat, files: nat, encodes: bool,
                   now: int) returns (ok: bool)
      requires Valid(now) && forall o, i | o in stored.owners && 0 <= i < |starts| :: starts[i].serial != serials[o]
      requires serials.Keys == stored.owners.Keys
      modifies this`stored, this`serials, this`next
      ensures Valid(now)
      ensures !ok ==> stored == old(stored) && State() == old(State())
      ensures ok ==>
        && var before := DraftOf(old(stored), owner, current);
        && State() == Written(old(State()), owner, Noted(before, text, images, files, now),
            old(stored).receipts[source := now])
      ensures ok ==>
        && var before := DraftOf(old(stored), owner, current);
        && stored == Drafts(old(stored).owners[owner := Noted(before, text, images, files, now)],
            old(stored).receipts[source := now])
        && before.images + images <= MAX_IMAGES && before.files + files <= MAX_FILES
      ensures reliable ==> (ok <==> encodes && WithinLimits(DraftOf(old(stored), owner, current), text, images, files))
    {
      hide Represents, Placed, Inv, Recognised, Marks, DraftsInv;
      var present := owner in stored.owners;
      var draft := DraftOf(stored, owner, current);
      if draft.images + images > MAX_IMAGES || draft.files + files > MAX_FILES {
        return false;
      }
      if text > 0 {
        if draft.text + text + 2 > MAX_TEXT {
          return false;
        }
        draft := draft.(text := if draft.text == 0 then text else draft.text + 2 + text);
      }
      draft := draft.(images := draft.images + images, files := draft.files + files);
      if !encodes {
        return false;
      }
      draft := draft.(expiresAt := now + DRAFT_LIFETIME);
      if present {
        ChangedDraft(stored, stored.receipts[source := now], serials, next, starts, requests.View().db.rows, now,
            owner, draft);
      } else {
        NewDraft(stored, stored.receipts[source := now], serials, next, starts, requests.View().db.rows, now, owner,
            draft);
      }
      ok := SaveDrafts(Drafts(stored.owners[owner := draft], stored.receipts[source := now]));
      if ok && !present {
        serials, next := serials[owner := next], next + 1;
      }
    }

    /** Handles one message of an owner. Over all calls, whatever fails or crashes in between, every draft is started
        at most once; `created` says that this call started one. `loaded` is what loading left, `submitted` whether the
        draft went on its way to a start, `mid` the store after the cleanup of that start. */
    method Handle(owner: string, source: string, request: Request, current: Option<string>, encodes: bool, way: Way,
                  now: int)
      returns (handled: bool, ok: bool, created: bool, later: int, ghost loaded: Drafts, ghost submitted: bool,
               ghost mid: Store)
      requires Valid(now) && source != ""
      modifies this, requests
      ensures now <= later && Valid(later)
      ensures created ==>
        && owner in old(serials) && starts == old(starts) + [StartOf(old(serials)[owner], source)]
        && forall i | 0 <= i < |old(starts)| :: old(starts)[i].serial != old(serials)[owner]
      ensures !created ==> starts == old(starts)
      ensures !handled ==> !created && requests.View() == old(requests.View())
      ensures LoadedAs(old(stored), old(requests.View()).db.rows, now, loaded)
      ensures !submitted ==> requests.View() == old(requests.View())
      ensures created ==> submitted
      ensures reliable ==>
        (submitted <==> request.Submit? && Proceeds(loaded, owner, source, current)
                        && owner in loaded.owners && loaded.owners[owner].text > 0)
      ensures reliable && submitted ==>
        && (owner in stored.owners <==> !SourceTaken(requests.View().mem, source))
        && (owner in stored.owners ==>
              stored == Drafts(loaded.owners[owner := loaded.owners[owner].(submitSource := source)], loaded.receipts))
        && (owner !in stored.owners ==> stored == Drafts(loaded.owners - {owner}, loaded.receipts[source := later]))
      ensures (reliable && submitted && way.Through? && way.staged && requests.reliable
               && !SourceTaken(old(requests.View()).mem, source)
               && CanStart(mid, InstructionOf(loaded.owners[owner], owner, source, way.input), way.id, later))
              ==> created
      ensures reliable && created ==>
        && way.Through? && owner !in stored.owners
        && Runs(requests.View(), way.id, InstructionOf(loaded.owners[owner], owner, source, way.input), later)
      ensures reliable && request.Discard? && source !in loaded.receipts ==>
        handled && ok && stored == Drafts(loaded.owners - {owner}, loaded.receipts[source := now])
      ensures reliable && Notes(loaded, owner, source, request, current, encodes) ==>
        && handled && ok && stored.receipts == loaded.receipts[source := now]
        && owner in stored.owners && stored.owners == loaded.owners[owner := stored.owners[owner]]
        && Grown(DraftOf(loaded, owner, current.value), request.text, request.images, request.files, now,
                 stored.owners[owner])
      ensures (reliable && !submitted && !(request.Discard? && source !in loaded.receipts)
               && !Notes(loaded, owner, source, request, current, encodes)) ==> stored == loaded
    {
      hide Represents, Placed, Inv, Recognised, Marks, DraftsInv, Runs, CanStart, Grown, LoadedAs, SourceTaken, Pruned;
      handled, created, later, submitted, mid := true, false, now, false, requests.View();
      loaded := Pruned(stored, requests.View().db.rows, now);
      PrunedMeans(stored, requests.View().db.rows, now);
      OwnersOf(stored, serials, next, starts, requests.View().db.rows, now);
      ok := LoadPruned(now);
      if !ok {
        return;
      }
      OwnersOf(stored, serials, next, starts, requests.View().db.rows, now);
      var present := owner in stored.owners;
      if source in stored.receipts {
        return;
      }
      if !present && request.Note? && request.images == 0 && request.files == 0 {
        handled := false;
        return;
      }
      if request.Discard? {
        ok := DropDraft(owner, source, now);
        return;
      }
      if !present && !request.Note? {
        return;
      }
      if request.Show? {
        return;
      }
      if current.None? {
        ok := false;
        return;
      }
      if present && current.value != stored.owners[owner].target {
        return;
      }
      if request.Submit? {
        if stored.owners[owner].text == 0 {
          return;
        }
        submitted := true;
        ok, created, later, mid := SubmitDraft(owner, source, way, now);
        if created { RunsTaken(requests.View(), way.id, loaded.owners[owner], owner, source, way.input, later); }
        return;
      }
      if request.acceptable {
        NotedGrows(DraftOf(stored, owner, current.value), request.text, request.images, request.files, now);
        ok := AddNote(owner, source, current.value, request.text, request.images, request.files, encodes, now);
      }
    }
  }

  /** The message is new and meant for the draft's own target, or for a draft that is not there yet. */
  predicate Proceeds(s: Drafts, owner: string, source: string, current: Option<string>) {
    source !in s.receipts && current.Some? && (owner in s.owners ==> current.value == s.owners[owner].target)
  }

  /** The message is a note that is added: to a draft, or with attachments that begin one, within the limits. */
  predicate Notes(s: Drafts, owner: string, source: string, request: Request, current: Option<string>, encodes: bool) {
    && request.Note? && Proceeds(s, owner, source, current)
    && (owner in s.owners || request.images > 0 || request.files > 0)
    && request.acceptable && encodes
    && WithinLimits(DraftOf(s, owner, current.value), request.text, request.images, request.files)
  }

  lemma RunsTaken(s: Store, id: Id, d: Draft, owner: string, source: string, added: StartInput, now: int)
    requires Runs(s, id, InstructionOf(d, owner, source, added), now)
    ensures SourceTaken(s.mem, source)
  {
  }

  lemma StoreValid(s: Store, now: int)
    requires Inv(s, now)
    ensures ValidRows(s.mem)
  {
    hide DbInv, EntriesInv, OrdersInv, Ahead, Agrees, ValidRows;
  }

  lemma InstructionSource(d: Draft, owner: string, source: string, added: StartInput)
    ensures InstructionOf(d, owner, source, added).source == source
  {
  }

  /** The owner's draft, or a new one for the current target. */
  function DraftOf(s: Drafts, owner: string, current: string): Draft {
    if owner in s.owners then s.owners[owner] else Draft(current, 0, 0, 0, 0, "")
  }

  /** The note fits the draft. */
  predicate WithinLimits(d: Draft, text: nat, images: nat, files: nat) {
    && d.images + images <= MAX_IMAGES && d.files + files <= MAX_FILES
    && (text > 0 ==> d.text + text + 2 <= MAX_TEXT)
  }

  /** The draft after a note: its sizes add up, two characters apart, and its time begins anew. */
  predicate Grown(d: Draft, text: nat, images: nat, files: nat, now: int, d': Draft) {
    && d'.images == d.images + images && d'.files == d.files + files
    && d'.text == d.text + text + (if d.text > 0 && text > 0 then 2 else 0)
    && d'.expiresAt == now + 30 * 60 && d'.target == d.target && d'.submitSource == d.submitSource
  }

  lemma NotedGrows(d: Draft, text: nat, images: nat, files: nat, now: int)
    ensures Grown(d, text, images, files, now, Noted(d, text, images, files, now))
  {
  }

  /** A draft after a note was added. */
  function Noted(d: Draft, text: nat, images: nat, files: nat, now: int): Draft {
    Draft(d.target, if text == 0 then d.text else if d.text == 0 then text else d.text + 2 + text,
          d.images + images, d.files + files, now + DRAFT_LIFETIME, d.submitSource)
  }

  lemma SamePruned(s: Drafts, store: Store, now: int)
    requires Inv(store, now)
    ensures Pruned(s, store.mem, now) == Pruned(s, store.db.rows, now)
  {
    hide Inv, SourceTaken;
    forall o | o in s.owners ensures Submitted(s.owners[o], store.mem) <==> Submitted(s.owners[o], store.db.rows) {
      MemoryShowsRows(store, now, s.owners[o].submitSource);
    }
  }

  lemma NewDraft(s: Drafts, receipts: map<string, int>, serials: map<string, nat>, next: nat, starts: seq<StartOf>,
                 rows: Rows, now: int, o: string, d: Draft)
    requires DraftsInv(s, serials, next, starts, rows, now) && o !in s.owners && d.expiresAt <= now + DRAFT_LIFETIME
    ensures DraftsInv(Drafts(s.owners[o := d], receipts), serials[o := next], next + 1, starts, rows, now)
  {
    hide Recognised;
  }

  /** A draft that was never started may take any form within its life. */
  lemma ChangedDraft(s: Drafts, receipts: map<string, int>, serials: map<string, nat>, next: nat,
                     starts: seq<StartOf>, rows: Rows, now: int, o: string, d: Draft)
    requires DraftsInv(s, serials, next, starts, rows, now) && o in s.owners && d.expiresAt <= now + DRAFT_LIFETIME
    requires forall i | 0 <= i < |starts| :: starts[i].serial != serials[o]
    ensures DraftsInv(Drafts(s.owners[o := d], receipts), serials, next, starts, rows, now)
  {
    hide Recognised;
    assert s.owners[o := d].Keys == s.owners.Keys;
  }

  /** The first start of a draft is noted once its source is recognised. */
  lemma NotedStart(s: Drafts, serials: map<string, nat>, next: nat, starts: seq<StartOf>, rows: Rows, now: int,
                   o: string, source: string)
    requires DraftsInv(s, serials, next, starts, rows, now) && o in s.owners
    requires Recognised(s.owners[o], source, rows, now)
    requires forall i | 0 <= i < |starts| :: starts[i].serial != serials[o]
    ensures DraftsInv(s, serials, next, starts + [StartOf(serials[o], source)], rows, now)
  {
    hide Recognised;
    var starts' := starts + [StartOf(serials[o], source)];
    assert starts'[|starts|] == StartOf(serials[o], source);
    assert forall i | 0 <= i < |starts| :: starts'[i] == starts[i];
  }

  lemma OwnersOf(s: Drafts, serials: map<string, nat>, next: nat, starts: seq<StartOf>, rows: Rows, now: int)
    requires DraftsInv(s, serials, next, starts, rows, now)
    ensures serials.Keys == s.owners.Keys && forall o | o in s.owners :: s.owners[o].expiresAt <= now + DRAFT_LIFETIME
  {
  }

  lemma StartRecognised(d: Draft, source: string, rows: Rows, now: int)
    requires d.submitSource == source && source != "" && Marks(rows, source, d.expiresAt)
    ensures Recognised(d, source, rows, now)
  {
  }

  lemma AfterReject(s: Store, r: Rejection, now: int, s': Store, ok: bool)
    requires Inv(s, now) && RejectStep(s, r, now, s', ok)
    ensures Inv(s', now) && RowsStep(s.db.rows, s'.db.rows, now)
  {
    hide Inv, RejectStep, RowsStep;
    StoreStepPreserves(s, Reject(r, ok), now, s');
    StoreRows(s, Reject(r, ok), now, s');
  }

  lemma AfterStart(s: Store, cleanedAt: int, mid: Store, cleanup: bool, i: StartInput, id: Id, now: int, s': Store,
                   out: StartOutcome)
    requires Inv(s, cleanedAt) && cleanedAt <= now
    requires CleanupStep(s, cleanedAt, mid, cleanup) && StartStep(mid, i, id, now, s', out)
    ensures RowsStep(s.db.rows, mid.db.rows, cleanedAt) && RowsStep(mid.db.rows, s'.db.rows, now) && Inv(s', now)
  {
    hide Inv, CleanupStep, StartStep, RowsStep;
    StoreStepPreserves(s, Cleanup(cleanup), cleanedAt, mid);
    StoreRows(s, Cleanup(cleanup), cleanedAt, mid);
    InvLater(mid, cleanedAt, now);
    StoreStepPreserves(mid, Start(i, id, out), now, s');
    StoreRows(mid, Start(i, id, out), now, s');
  }
}
