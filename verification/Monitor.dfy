/** The long poll: a batch is committed by its cursor, a half-handled one is kept by receipts. */
module Monitor {
  import opened RequestModel
  import opened RequestInvariant

  const MAX_RECEIPTS := 512

  datatype Key = ById(id: int) | BySeq(number: int)

  /** A received message; what it says does not matter here. */
  datatype Message = Message(id: int, number: int)

  function MessageKey(m: Message): Option<Key> {
    if m.id != 0 then Some(ById(m.id)) else if m.number != 0 then Some(BySeq(m.number)) else None
  }

  /** The stored row and its receipts. */
  datatype Cursor = Cursor(committed: string, pending: string, receipts: set<Key>)

  predicate ValidCursor(c: Cursor) { (c.pending == "" ==> c.receipts == {}) && |c.receipts| <= MAX_RECEIPTS }

  // ---------------------------------------------------------------- which messages an attempt hands on

  function WithKey(seen: set<Key>, m: Message): set<Key> {
    match MessageKey(m) case None => seen case Some(k) => seen + {k}
  }

  predicate Skipped(seen: set<Key>, m: Message) { MessageKey(m).Some? && MessageKey(m).value in seen }

  /** The messages an attempt hands to the handler when every call succeeds: those not seen before, where keys are
      tracked only while a cursor is pending. */
  function ToHandle(seen: set<Key>, messages: seq<Message>, tracked: bool): seq<Message>
    decreases |messages|
  {
    if messages == [] then []
    else if Skipped(seen, messages[0]) then ToHandle(seen, messages[1..], tracked)
    else [messages[0]] + ToHandle(if tracked then WithKey(seen, messages[0]) else seen, messages[1..], tracked)
  }

  function KeysOf(messages: seq<Message>): set<Key> {
    set m | m in messages && MessageKey(m).Some? :: MessageKey(m).value
  }

  /** Every message of the batch was handled, now or before. */
  predicate Covered(seen: set<Key>, messages: seq<Message>, done: seq<Message>) {
    forall m | m in messages :: m in done || Skipped(seen + KeysOf(done), m)
  }

  /** An attempt that hands on everything due leaves nothing of the batch out. */
  lemma {:induction false} NothingMissed(seen: set<Key>, messages: seq<Message>, tracked: bool)
    ensures Covered(seen, messages, ToHandle(seen, messages, tracked))
    decreases |messages|
  {
    if messages != [] {
      var m, rest := messages[0], messages[1..];
      var after := if Skipped(seen, m) || !tracked then seen else WithKey(seen, m);
      NothingMissed(after, rest, tracked);
      var due, later := ToHandle(seen, messages, tracked), ToHandle(after, rest, tracked);
      assert forall x | x in later :: x in due;
      forall x | x in messages ensures x in due || Skipped(seen + KeysOf(due), x) {
        if x != m {
          assert x in rest;
          if x !in later {
            assert MessageKey(x).value in after + KeysOf(later);
            if MessageKey(x).value !in seen && MessageKey(x).value !in KeysOf(later) {
              assert MessageKey(m) == MessageKey(x) && m in due;
            }
          }
        }
      }
    }
  }

  /** While keys are tracked, no key is handed on twice and none that was seen before. */
  lemma {:induction false} NeverTwice(seen: set<Key>, messages: seq<Message>, i: nat, j: nat)
    requires i < |ToHandle(seen, messages, true)|
    requires MessageKey(ToHandle(seen, messages, true)[i]).Some?
    ensures MessageKey(ToHandle(seen, messages, true)[i]).value !in seen
    ensures i < j < |ToHandle(seen, messages, true)|
      ==> MessageKey(ToHandle(seen, messages, true)[i]) != MessageKey(ToHandle(seen, messages, true)[j])
    decreases |messages|
  {
    if Skipped(seen, messages[0]) {
      NeverTwice(seen, messages[1..], i, j);
    } else if i > 0 {
      NeverTwice(WithKey(seen, messages[0]), messages[1..], i - 1, if j > 0 then j - 1 else 0);
    } else if i < j < |ToHandle(seen, messages, true)| {
      var later := ToHandle(WithKey(seen, messages[0]), messages[1..], true);
      if MessageKey(later[j - 1]).Some? { NeverTwice(WithKey(seen, messages[0]), messages[1..], j - 1, j - 1); }
    }
  }

  predicate AllKeyed(messages: seq<Message>) { forall m | m in messages :: MessageKey(m).Some? }

  /** The messages without a key, which no receipt can remember. */
  function Unkeyed(messages: seq<Message>): seq<Message> {
    if messages == [] then []
    else (if MessageKey(messages[0]).None? then [messages[0]] else []) + Unkeyed(messages[1..])
  }

  /** An interrupted batch that is delivered again resumes exactly where it stopped, after handing on once more what it
      had handed on without a key. */
  lemma {:induction false} ResumesExactly(seen: set<Key>, messages: seq<Message>, n: nat)
    requires n <= |ToHandle(seen, messages, true)|
    ensures var due := ToHandle(seen, messages, true);
      ToHandle(seen + KeysOf(due[..n]), messages, true) == Unkeyed(due[..n]) + due[n..]
    decreases |messages|
  {
    var due := ToHandle(seen, messages, true);
    if messages == [] {
      return;
    }
    var m, rest := messages[0], messages[1..];
    if Skipped(seen, m) {
      ResumesExactly(seen, rest, n);
    } else if n == 0 {
      assert KeysOf(due[..0]) == {};
      assert seen + {} == seen && Unkeyed(due[..0]) == [];
    } else {
      ResumesExactly(WithKey(seen, m), rest, n - 1);
      var later := ToHandle(WithKey(seen, m), rest, true);
      assert due == [m] + later;
      hide ToHandle;
      Consed(m, later, n);
      if MessageKey(m).Some? {
        ResumesKeyed(seen, messages, later[..n - 1]);
      } else {
        ResumesUnkeyed(seen, messages, later[..n - 1]);
        assert ([m] + Unkeyed(later[..n - 1])) + later[n - 1..] == [m] + (Unkeyed(later[..n - 1]) + later[n - 1..]);
      }
    }
  }

  lemma Consed(m: Message, later: seq<Message>, n: nat)
    requires 0 < n <= |later| + 1
    ensures ([m] + later)[..n] == [m] + later[..n - 1] && ([m] + later)[n..] == later[n - 1..]
  {
  }

  lemma ResumesKeyed(seen: set<Key>, messages: seq<Message>, done: seq<Message>)
    requires messages != [] && MessageKey(messages[0]).Some?
    ensures var m := messages[0];
      && ToHandle(seen + KeysOf([m] + done), messages, true)
         == ToHandle(WithKey(seen, m) + KeysOf(done), messages[1..], true)
      && Unkeyed([m] + done) == Unkeyed(done)
  {
    var m := messages[0];
    KeysOfCons(m, done);
    assert seen + KeysOf([m] + done) == WithKey(seen, m) + KeysOf(done);
    SkippedNext(seen + KeysOf([m] + done), messages);
    hide ToHandle;
    assert ([m] + done)[1..] == done;
  }

  lemma ResumesUnkeyed(seen: set<Key>, messages: seq<Message>, done: seq<Message>)
    requires messages != [] && MessageKey(messages[0]).None?
    ensures var m := messages[0];
      && ToHandle(seen + KeysOf([m] + done), messages, true)
         == [m] + ToHandle(WithKey(seen, m) + KeysOf(done), messages[1..], true)
      && Unkeyed([m] + done) == [m] + Unkeyed(done)
  {
    var m := messages[0];
    UnkeyedCons(m, done);
    KeptNext(seen + KeysOf(done), messages);
    hide ToHandle;
    assert ([m] + done)[1..] == done;
  }

  lemma SkippedNext(seen: set<Key>, messages: seq<Message>)
    requires messages != [] && Skipped(seen, messages[0])
    ensures ToHandle(seen, messages, true) == ToHandle(seen, messages[1..], true)
  {
  }

  lemma KeptNext(seen: set<Key>, messages: seq<Message>)
    requires messages != [] && MessageKey(messages[0]).None?
    ensures ToHandle(seen, messages, true) == [messages[0]] + ToHandle(seen, messages[1..], true)
  {
  }

  /** When every message has a key, that is exactly what remains. */
  lemma ResumesWhereItStopped(seen: set<Key>, messages: seq<Message>, n: nat)
    requires AllKeyed(messages) && n <= |ToHandle(seen, messages, true)|
    ensures var due := ToHandle(seen, messages, true);
      ToHandle(seen + KeysOf(due[..n]), messages, true) == due[n..]
  {
    ResumesExactly(seen, messages, n);
    var due := ToHandle(seen, messages, true);
    DueAmong(seen, messages);
    NoneUnkeyed(due[..n]);
  }

  lemma {:induction false} DueAmong(seen: set<Key>, messages: seq<Message>)
    ensures forall m | m in ToHandle(seen, messages, true) :: m in messages
    decreases |messages|
  {
    if messages != [] {
      DueAmong(if Skipped(seen, messages[0]) then seen else WithKey(seen, messages[0]), messages[1..]);
    }
  }

  lemma {:induction false} NoneUnkeyed(messages: seq<Message>)
    requires AllKeyed(messages)
    ensures Unkeyed(messages) == []
  {
    if messages != [] { NoneUnkeyed(messages[1..]); }
  }

  lemma KeysOfCons(m: Message, rest: seq<Message>)
    requires MessageKey(m).Some?
    ensures KeysOf([m] + rest) == {MessageKey(m).value} + KeysOf(rest)
  {
    forall x | x in [m] + rest ensures x == m || x in rest { }
    assert m in [m] + rest;
    assert forall x | x in rest :: x in [m] + rest;
  }

  lemma TailOfPrefix(messages: seq<Message>, n: nat)
    requires 0 < n <= |messages|
    ensures messages[..n][1..] == messages[1..][..n - 1]
  {
  }

  lemma {:induction false} ToHandlePrefix(seen: set<Key>, messages: seq<Message>, n: nat, tracked: bool)
    requires n < |messages|
    ensures var done := ToHandle(seen, messages[..n], tracked);
      var now := if tracked then seen + KeysOf(done) else seen;
      ToHandle(seen, messages[..n + 1], tracked) == if Skipped(now, messages[n]) then done else done + [messages[n]]
    decreases |messages|
  {
    var m := messages[0];
    if n == 0 {
      assert messages[..1] == [m] && messages[..0] == [] && KeysOf([]) == {};
      assert seen + {} == seen && [m][1..] == [];
    } else {
      var after := if Skipped(seen, m) || !tracked then seen else WithKey(seen, m);
      ToHandlePrefix(after, messages[1..], n - 1, tracked);
      TailOfPrefix(messages, n);
      TailOfPrefix(messages, n + 1);
      var later := ToHandle(after, messages[1..][..n - 1], tracked);
      if !Skipped(seen, m) && tracked {
        assert ToHandle(seen, messages[..n], tracked) == [m] + later;
        if MessageKey(m).Some? {
          KeysOfCons(m, later);
        } else {
          assert KeysOf([m] + later) == KeysOf(later) by { UnkeyedCons(m, later); }
        }
        assert seen + KeysOf([m] + later) == after + KeysOf(later);
      }
    }
  }

  lemma UnkeyedCons(m: Message, rest: seq<Message>)
    requires MessageKey(m).None?
    ensures KeysOf([m] + rest) == KeysOf(rest)
  {
    assert forall x | x in rest :: x in [m] + rest;
  }

  // ---------------------------------------------------------------- runs of attempts

  /** What one process knows, and the row below it. */
  datatype Memory = Memory(buf: string, pending: string, consumed: set<Key>, stored: Cursor)

  const FRESH := Memory("", "", {}, Cursor("", "", {}))

  /** A process that starts over a row knows what the row says. */
  function Restarted(stored: Cursor): Memory { Memory(stored.committed, stored.pending, stored.receipts, stored) }

  predicate Tracked(m: Memory, next: string) { m.pending != "" || next != "" }

  /** One attempt at a batch: what it handed on, and what it leaves in memory and in the row. */
  predicate AttemptStep(m: Memory, messages: seq<Message>, next: string, m': Memory, ok: bool, calls: seq<Message>) {
    && calls <= ToHandle(m.consumed, messages, Tracked(m, next))
    && (ok ==> calls == ToHandle(m.consumed, messages, Tracked(m, next)))
    && (if m.pending != "" && m.pending != next then !ok && calls == [] && m' == m
        else if !Tracked(m, next) then m' == m
        else if ok then m' == Restarted(Cursor(next, "", {}))
        else
          && m'.pending == next && m'.buf == m.buf && m'.consumed == m.consumed + KeysOf(calls)
          && m'.stored.committed == m.stored.committed
          && m.stored.receipts <= m'.stored.receipts <= m'.consumed)
  }

  /** An expired session drops the cursor, or nothing changes. */
  predicate ExpireStep(m: Memory, m': Memory, ok: bool) {
    m' == if ok && m.buf != "" then FRESH else m
  }

  datatype Event =
    | Attempt(messages: seq<Message>, next: string, ok: bool, calls: seq<Message>)
    | Expire(ok: bool)
    | Restart

  predicate Step(m: Memory, e: Event, m': Memory) {
    match e
    case Attempt(messages, next, ok, calls) => AttemptStep(m, messages, next, m', ok, calls)
    case Expire(ok) => ExpireStep(m, m', ok)
    case Restart => m' == Restarted(m.stored)
  }

  /** A run for one account: attempts, expired sessions, crashes and restarts in any order. */
  ghost predicate IsRun(states: seq<Memory>, events: seq<Event>) {
    && |states| == |events| + 1 && states[0] == FRESH
    && forall i | 0 <= i < |events| :: Step(states[i], events[i], states[i + 1])
  }

  /** This attempt handed a message with the key on. */
  predicate Hands(e: Event, k: Key) { e.Attempt? && k in KeysOf(e.calls) }

  /** The cursor moved or was dropped. */
  predicate MovesOn(m: Memory, e: Event) {
    || (e.Attempt? && e.ok && Tracked(m, e.next))
    || (e.Expire? && e.ok && m.buf != "")
  }

  /** A crash lost the receipt, which never reached the row. */
  predicate Loses(m: Memory, e: Event, k: Key) { e.Restart? && k !in m.stored.receipts }

  lemma {:induction false} DueIsNew(seen: set<Key>, messages: seq<Message>, tracked: bool)
    ensures forall m | m in ToHandle(seen, messages, tracked) :: !Skipped(seen, m)
    decreases |messages|
  {
    if messages != [] {
      var after := if Skipped(seen, messages[0]) || !tracked then seen else WithKey(seen, messages[0]);
      DueIsNew(after, messages[1..], tracked);
    }
  }

  /** What an attempt hands on was not known to the process. */
  lemma HandsNew(m: Memory, e: Event, m': Memory, k: Key)
    requires Step(m, e, m') && Hands(e, k)
    ensures k !in m.consumed
  {
    var due := ToHandle(m.consumed, e.messages, Tracked(m, e.next));
    DueIsNew(m.consumed, e.messages, Tracked(m, e.next));
    var x :| x in e.calls && MessageKey(x).Some? && MessageKey(x).value == k;
    assert x in due;
    hide ToHandle, AttemptStep;
  }

  /** A known key stays known until the cursor moves or a crash loses it. */
  lemma KnownStays(m: Memory, e: Event, m': Memory, k: Key)
    requires Step(m, e, m') && !MovesOn(m, e) && !Loses(m, e, k)
    requires k in m.consumed || (Hands(e, k) && Tracked(m, e.next))
    ensures k in m'.consumed
  {
    hide ToHandle;
  }

  lemma {:induction false} KnownThrough(states: seq<Memory>, events: seq<Event>, i: nat, j: nat, k: Key)
    requires IsRun(states, events) && i < j <= |events|
    requires Hands(events[i], k) && Tracked(states[i], events[i].next)
    requires forall x | i <= x < j :: !MovesOn(states[x], events[x]) && !Loses(states[x], events[x], k)
    ensures k in states[j].consumed
  {
    hide Step, Hands, MovesOn, Loses, Tracked;
    if i < j - 1 { KnownThrough(states, events, i, j - 1, k); }
    assert Step(states[j - 1], events[j - 1], states[j]);
    KnownStays(states[j - 1], events[j - 1], states[j], k);
  }

  /** Over any run a key that an attempt handed on under a cursor is handed on again only after the cursor moved, or
      after a crash that came before its receipt reached the row. */
  lemma HandedAgainOnlyAfter(states: seq<Memory>, events: seq<Event>, i: nat, j: nat, k: Key)
    requires IsRun(states, events) && i < j < |events|
    requires Hands(events[i], k) && Tracked(states[i], events[i].next) && Hands(events[j], k)
    ensures exists x :: i <= x < j && (MovesOn(states[x], events[x]) || Loses(states[x], events[x], k))
  {
    assert Step(states[j], events[j], states[j + 1]);
    hide Step, Hands, MovesOn, Loses, Tracked;
    HandsNew(states[j], events[j], states[j + 1], k);
    if forall x | i <= x < j :: !MovesOn(states[x], events[x]) && !Loses(states[x], events[x], k) {
      KnownThrough(states, events, i, j, k);
    }
  }

  /** Every known key, in memory or in the row, was handed on before. */
  lemma {:induction false} KnownWasHanded(states: seq<Memory>, events: seq<Event>, j: nat, k: Key)
    requires IsRun(states, events) && j <= |events| && (k in states[j].consumed || k in states[j].stored.receipts)
    ensures exists i :: 0 <= i < j && Hands(events[i], k)
  {
    if j > 0 {
      assert Step(states[j - 1], events[j - 1], states[j]);
      hide IsRun, Hands;
      if k in states[j - 1].consumed || k in states[j - 1].stored.receipts {
        KnownWasHanded(states, events, j - 1, k);
      } else {
        NewlyKnown(states[j - 1], events[j - 1], states[j], k);
      }
    }
  }

  lemma NewlyKnown(m: Memory, e: Event, m': Memory, k: Key)
    requires Step(m, e, m') && k !in m.consumed && k !in m.stored.receipts
    requires k in m'.consumed || k in m'.stored.receipts
    ensures Hands(e, k)
  {
    hide ToHandle, KeysOf;
  }

  /** Over any run an attempt moves the cursor past a batch only when each of its messages was handed on, by this
      attempt or, for one with a key, by an earlier one. */
  lemma CommittedWasHanded(states: seq<Memory>, events: seq<Event>, j: nat, m: Message)
    requires IsRun(states, events) && j < |events| && events[j].Attempt? && events[j].ok && m in events[j].messages
    ensures m in events[j].calls
         || (MessageKey(m).Some? && exists i :: 0 <= i <= j && Hands(events[i], MessageKey(m).value))
  {
    var s, e := states[j], events[j];
    assert Step(s, e, states[j + 1]);
    NothingMissed(s.consumed, e.messages, Tracked(s, e.next));
    assert Covered(s.consumed, e.messages, e.calls);
    if m !in e.calls {
      var k := MessageKey(m).value;
      if k in s.consumed { KnownWasHanded(states, events, j, k); } else { assert Hands(e, k); }
    }
    hide Step, IsRun, ToHandle, KeysOf;
  }

  class Monitor {
    var getUpdatesBuf: string
    var pendingCursor: string
    var consumed: set<Key>
    /** What the database holds for this account. */
    var stored: Cursor
    const reliable: bool
    /** Every key ever handled under a pending cursor; from `since` on, those of the current cursor and process. */
    ghost var handled: seq<Key>
    ghost var since: nat

    /** Receipts only ever name handled messages, memory knows every stored receipt, and no key was handled twice
        since the cursor became pending. */
    ghost predicate Valid()
      reads this
    {
      && ValidCursor(stored) && stored.committed == getUpdatesBuf
      && (stored.pending == pendingCursor || stored.pending == "")
      && stored.receipts <= consumed && (pendingCursor == "" ==> consumed == {})
      && (forall k | k in consumed :: k in handled)
      && since <= |handled|
      && (forall i | since <= i < |handled| :: handled[i] in consumed)
      && (forall i, j | since <= i < j < |handled| :: handled[i] != handled[j])
    }

    /** The monitor as the runs see it. */
    function State(): Memory
      reads this
    {
      Memory(getUpdatesBuf, pendingCursor, consumed, stored)
    }

    /** A process that starts over a database: everything unsaved of the one before is gone. */
    constructor (stored: Cursor, ghost handled: seq<Key>, reliable: bool)
      requires ValidCursor(stored) && forall k | k in stored.receipts :: k in handled
      ensures Valid() && this.stored == stored && this.handled == handled && this.reliable == reliable
      ensures consumed == stored.receipts && pendingCursor == stored.pending && State() == Restarted(stored)
    {
      this.stored, this.handled, this.reliable := stored, handled, reliable;
      getUpdatesBuf, pendingCursor, consumed := stored.committed, stored.pending, stored.receipts;
      since := |handled|;
    }

    /** Stores the row with exactly these receipts, in one transaction; memory follows only a commit. */
    method SaveState(next: Cursor) returns (ok: bool)
      modifies this`stored, this`getUpdatesBuf, this`pendingCursor, this`consumed
      ensures ok ==> ValidCursor(next) && stored == next
      ensures ok ==> getUpdatesBuf == next.committed && pendingCursor == next.pending && consumed == next.receipts
      ensures !ok ==> stored == old(stored) && getUpdatesBuf == old(getUpdatesBuf)
      ensures !ok ==> pendingCursor == old(pendingCursor) && consumed == old(consumed)
      ensures reliable && ValidCursor(next) ==> ok
    {
      if (next.pending == "" && |next.receipts| > 0) || |next.receipts| > MAX_RECEIPTS {
        return false;
      }
      ok := true;
      if !reliable {
        ok := *;
      }
      if ok {
        stored := next;
        getUpdatesBuf, pendingCursor, consumed := next.committed, next.pending, next.receipts;
      }
    }

    /** Commits a cursor: nothing is pending any more. */
    method SaveBuf(next: string) returns (ok: bool)
      requires Valid()
      modifies this
      ensures Valid() && handled == old(handled)
      ensures ok ==> stored == Cursor(next, "", {}) && pendingCursor == "" && consumed == {}
      ensures !ok ==>
        stored == old(stored) && pendingCursor == old(pendingCursor) && consumed == old(consumed) && since == old(since)
      ensures reliable ==> ok
    {
      ok := SaveState(Cursor(next, "", {}));
      if ok {
        since := |handled|;
      }
    }

    /** An expired session forgets the cursor together with everything pending under it. */
    method ResetExpired() returns (ok: bool)
      requires Valid()
      modifies this
      ensures Valid() && handled == old(handled) && ExpireStep(old(State()), State(), ok)
      ensures reliable ==> ok
      ensures ok && old(getUpdatesBuf) != "" ==> stored == Cursor("", "", {}) && consumed == {}
      ensures !ok || old(getUpdatesBuf) == "" ==>
        stored == old(stored) && consumed == old(consumed) && pendingCursor == old(pendingCursor)
    {
      ok := true;
      if getUpdatesBuf != "" {
        ok := SaveBuf("");
      }
    }

    /** Hands on one message and remembers it; a receipt that cannot be stored stays in memory. */
    method HandleOne(m: Message, works: bool) returns (done: bool, saved: bool)
      requires Valid() && !Skipped(consumed, m)
      modifies this`consumed, this`stored, this`getUpdatesBuf, this`pendingCursor, this`handled
      ensures Valid() && pendingCursor == old(pendingCursor) && getUpdatesBuf == old(getUpdatesBuf)
      ensures stored.committed == old(stored).committed && old(stored).receipts <= stored.receipts
      ensures pendingCursor == "" ==> stored == old(stored)
      ensures !done ==> consumed == old(consumed) && handled == old(handled) && stored == old(stored) && !saved
      ensures done ==> consumed == if pendingCursor != "" then WithKey(old(consumed), m) else old(consumed)
      ensures done && MessageKey(m).Some? && pendingCursor != "" ==> handled == old(handled) + [MessageKey(m).value]
      ensures MessageKey(m).None? || pendingCursor == "" ==> handled == old(handled) && (done ==> saved)
      ensures works ==> done
      ensures works && reliable && |consumed| <= MAX_RECEIPTS ==> saved
    {
      done := works;
      if !works {
        done := *;
      }
      saved := done;
      if !done {
        return;
      }
      var key := MessageKey(m);
      if key.Some? && pendingCursor != "" {
        consumed := consumed + {key.value};
        handled := handled + [key.value];
        assert handled[|handled| - 1] == key.value;
        assert forall k | k in old(handled) :: k in handled;
        saved := SaveState(Cursor(getUpdatesBuf, pendingCursor, consumed));
      }
    }

    /** One attempt at a batch. The cursor moves only when every message was handled in this or an earlier attempt;
        a failed attempt leaves it, and `calls` says which messages it handed on. */
    method ProcessBatch(messages: seq<Message>, next: string, works: bool) returns (ok: bool, ghost calls: seq<Message>)
      requires Valid()
      modifies this
      ensures Valid() && AttemptStep(old(State()), messages, next, State(), ok, calls)
      ensures old(handled) <= handled
      ensures calls <= ToHandle(old(consumed), messages, old(pendingCursor) != "" || next != "")
      ensures ok ==> calls == ToHandle(old(consumed), messages, old(pendingCursor) != "" || next != "")
      ensures ok ==> Covered(old(consumed), messages, calls)
      ensures ok && next != "" ==> stored == Cursor(next, "", {})
      ensures !ok || next == "" ==> stored.committed == old(stored).committed
      ensures (!ok && next != "" && (old(pendingCursor) == "" || old(pendingCursor) == next))
        ==> pendingCursor == next && consumed == old(consumed) + KeysOf(calls)
      ensures old(pendingCursor) != "" && old(pendingCursor) != next ==> !ok && calls == [] && consumed == old(consumed)
      ensures (works && reliable && (old(pendingCursor) == "" || old(pendingCursor) == next)
               && |old(consumed) + KeysOf(messages)| <= MAX_RECEIPTS) ==> ok
    {
      calls := [];
      if pendingCursor != "" && pendingCursor != next {
        return false, calls;
      }
      if pendingCursor == "" && next != "" {
        pendingCursor := next;
      }
      KeysOfNone(consumed);
      NothingMissed(consumed, messages, pendingCursor != "");
      hide Covered, ToHandle;
      ok, calls := HandleAll(messages, works);
      if ok && pendingCursor != "" {
        ok := SaveBuf(next);
      }
    }

    /** The loop of an attempt: it stops at the first message that fails or whose receipt cannot be stored. */
    method HandleAll(messages: seq<Message>, works: bool) returns (ok: bool, ghost calls: seq<Message>)
      requires Valid()
      modifies this`consumed, this`stored, this`getUpdatesBuf, this`pendingCursor, this`handled
      ensures Valid() && pendingCursor == old(pendingCursor) && old(handled) <= handled
      ensures stored.committed == old(stored).committed && old(stored).receipts <= stored.receipts
      ensures getUpdatesBuf == old(getUpdatesBuf)
        && (pendingCursor == "" ==> stored == old(stored) && consumed == old(consumed))
      ensures calls <= ToHandle(old(consumed), messages, pendingCursor != "")
      ensures ok ==> calls == ToHandle(old(consumed), messages, pendingCursor != "")
      ensures pendingCursor != "" ==> consumed == old(consumed) + KeysOf(calls)
      ensures works && reliable && |old(consumed) + KeysOf(messages)| <= MAX_RECEIPTS ==> ok
    {
      ghost var seen, tracked := consumed, pendingCursor != "";
      hide ToHandle, Progress, KeysOf, MessageKey, WithKey, Valid;
      ok, calls := true, [];
      ProgressNone(seen, messages, tracked);
      var i := 0;
      while i < |messages|
        invariant 0 <= i <= |messages| && Valid() && pendingCursor == old(pendingCursor)
        invariant getUpdatesBuf == old(getUpdatesBuf) && stored.committed == old(stored).committed
        invariant old(stored).receipts <= stored.receipts && (pendingCursor == "" ==> stored == old(stored))
        invariant old(handled) <= handled
        invariant Progress(seen, messages, i, tracked, calls, consumed)
      {
        var m := messages[i];
        ProgressNext(seen, messages, i, tracked, calls, consumed);
        ProgressMeans(seen, messages, i, tracked, calls, consumed);
        if !Skipped(consumed, m) {
          var done, saved := HandleOne(m, works);
          if !done {
            return false, calls;
          }
          calls := calls + [m];
          if !saved {
            ProgressMeans(seen, messages, i + 1, tracked, calls, consumed);
            return false, calls;
          }
        }
        i := i + 1;
      }
      ProgressMeans(seen, messages, i, tracked, calls, consumed);
    }
  }

  lemma KeysOfNone(seen: set<Key>)
    ensures seen + KeysOf([]) == seen
  {
  }

  /** What one attempt did with the first `n` messages of a batch. */
  ghost predicate Progress(seen: set<Key>, messages: seq<Message>, n: nat, tracked: bool, calls: seq<Message>,
                           consumed: set<Key>)
    requires n <= |messages|
  {
    && calls == ToHandle(seen, messages[..n], tracked)
    && consumed == (if tracked then seen + KeysOf(calls) else seen)
    && KeysOf(calls) <= KeysOf(messages)
  }

  lemma ProgressNone(seen: set<Key>, messages: seq<Message>, tracked: bool)
    ensures Progress(seen, messages, 0, tracked, [], seen)
  {
    assert KeysOf([]) == {} && seen + {} == seen;
  }

  lemma ProgressNext(seen: set<Key>, messages: seq<Message>, n: nat, tracked: bool, calls: seq<Message>,
                     consumed: set<Key>)
    requires n < |messages| && Progress(seen, messages, n, tracked, calls, consumed)
    ensures var m := messages[n];
      if Skipped(consumed, m) then Progress(seen, messages, n + 1, tracked, calls, consumed)
      else Progress(seen, messages, n + 1, tracked, calls + [m], if tracked then WithKey(consumed, m) else consumed)
  {
    ToHandlePrefix(seen, messages, n, tracked);
    OneMore(calls, messages[n], messages);
    hide ToHandle, KeysOf;
    if tracked {
      assert WithKey(seen + KeysOf(calls), messages[n]) == seen + WithKey(KeysOf(calls), messages[n]);
    }
  }

  lemma ProgressMeans(seen: set<Key>, messages: seq<Message>, n: nat, tracked: bool, calls: seq<Message>,
                      consumed: set<Key>)
    requires n <= |messages| && Progress(seen, messages, n, tracked, calls, consumed)
    ensures calls <= ToHandle(seen, messages, tracked)
    ensures n == |messages| ==> calls == ToHandle(seen, messages, tracked)
    ensures tracked ==> consumed == seen + KeysOf(calls)
    ensures !tracked ==> consumed == seen
    ensures |consumed| <= |seen + KeysOf(messages)|
  {
    ToHandleExtends(seen, messages, n, tracked);
    SubsetSize(consumed, seen + KeysOf(messages));
    if n == |messages| { assert messages[..n] == messages; }
  }

  lemma {:induction false} ToHandleExtends(seen: set<Key>, messages: seq<Message>, n: nat, tracked: bool)
    requires n <= |messages|
    ensures ToHandle(seen, messages[..n], tracked) <= ToHandle(seen, messages, tracked)
    decreases |messages| - n
  {
    if n < |messages| {
      ToHandlePrefix(seen, messages, n, tracked);
      ToHandleExtends(seen, messages, n + 1, tracked);
    } else {
      assert messages[..n] == messages;
    }
  }

  lemma OneMore(calls: seq<Message>, m: Message, messages: seq<Message>)
    requires m in messages && KeysOf(calls) <= KeysOf(messages)
    ensures KeysOf(calls + [m]) == WithKey(KeysOf(calls), m) && KeysOf(calls + [m]) <= KeysOf(messages)
  {
    assert m in calls + [m];
    assert forall x | x in calls :: x in calls + [m];
  }
}
