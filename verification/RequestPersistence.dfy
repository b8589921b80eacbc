/** Differential persistence: only the rows that changed against the committed baseline are written. */
module RequestPersistence {
  import opened RequestModel
  import opened RequestSpec
  import opened RequestIndex

  // ---------------------------------------------------------------- one table

  predicate Changes<V(==)>(before: map<string, V>, next: map<string, V>, k: string) {
    k in next && (k !in before || before[k] != next[k])
  }

  function Upserts<V(==)>(before: map<string, V>, next: map<string, V>, rest: set<string>): map<string, V> {
    map k | k in next && k !in rest && Changes(before, next, k) :: next[k]
  }

  /** The table after deleting what left the baseline and writing what is new or different. */
  function Patched<V(==)>(table: map<string, V>, before: map<string, V>, next: map<string, V>): map<string, V> {
    (table - (before.Keys - next.Keys)) + Upserts(before, next, {})
  }

  /** The write skips this key, so the table must already be right there. */
  predicate SkipsRightly<V(==)>(table: map<string, V>, before: map<string, V>, next: map<string, V>, k: string) {
    && (k in before && k in next && before[k] == next[k] ==> k in table && table[k] == next[k])
    && (k in table && k !in before ==> k in next)
  }

  /** A differential write equals a full rewrite exactly when the table agrees with the baseline on every row
      the write skips: the rows that stay equal, and the rows neither side has. */
  lemma PatchIsRewrite<V>(table: map<string, V>, before: map<string, V>, next: map<string, V>)
    ensures Patched(table, before, next) == next <==> forall k :: SkipsRightly(table, before, next, k)
  {
    var patched := Patched(table, before, next);
    if patched == next {
      forall k ensures SkipsRightly(table, before, next, k) {
        if k in table && k !in before { assert k in patched; }
        if k in before && k in next && before[k] == next[k] { assert k in patched; }
      }
    }
    if forall k :: SkipsRightly(table, before, next, k) {
      forall k ensures k in patched <==> k in next { assert SkipsRightly(table, before, next, k); }
      forall k | k in patched ensures k in next && patched[k] == next[k] {
        assert SkipsRightly(table, before, next, k);
      }
    }
  }

  /** With the committed rows as baseline, a differential write is a full rewrite for any old and new index. */
  lemma PatchOfBaseline<V>(before: map<string, V>, next: map<string, V>)
    ensures Patched(before, before, next) == next
  {
    forall k ensures SkipsRightly(before, before, next, k) { }
    PatchIsRewrite(before, before, next);
  }

  lemma UpsertsStep<V>(before: map<string, V>, next: map<string, V>, rest: set<string>, k: string)
    requires k in rest && k in next
    ensures Upserts(before, next, rest - {k})
         == if Changes(before, next, k) then Upserts(before, next, rest)[k := next[k]] else Upserts(before, next, rest)
  {
  }

  lemma MinusStep<V>(table: map<string, V>, gone: set<string>, k: string)
    ensures (table - gone) - {k} == table - (gone + {k})
  {
  }

  method DeleteStale<V(==)>(table: map<string, V>, before: map<string, V>, next: map<string, V>)
    returns (r: map<string, V>)
    ensures r == table - (before.Keys - next.Keys)
  {
    r := table;
    var rest := before.Keys;
    ghost var stale: set<string> := {};
    assert r == table - stale;
    while rest != {}
      invariant rest <= before.Keys
      invariant forall k :: k in stale <==> k in before && k !in rest && k !in next
      invariant r == table - stale
      decreases |rest|
    {
      var k :| k in rest;
      if k !in next {
        MinusStep(table, stale, k);
        stale := stale + {k};
        r := r - {k};
      }
      rest := rest - {k};
    }
    assert stale == before.Keys - next.Keys;
  }

  method WriteChanged<V(==)>(table: map<string, V>, before: map<string, V>, next: map<string, V>)
    returns (r: map<string, V>)
    ensures r == table + Upserts(before, next, {})
  {
    r := table;
    var rest := next.Keys;
    ghost var written: map<string, V> := map[];
    assert Upserts(before, next, rest) == map[];
    while rest != {}
      invariant rest <= next.Keys && written == Upserts(before, next, rest)
      invariant r == table + written
      decreases |rest|
    {
      var k :| k in rest;
      UpsertsStep(before, next, rest, k);
      if k !in before || before[k] != next[k] {
        r := r[k := next[k]];
        written := written[k := next[k]];
      }
      rest := rest - {k};
    }
  }

  /** The two loops of a differential save over one table. */
  method SyncRows<V(==)>(table: map<string, V>, before: map<string, V>, next: map<string, V>)
    returns (r: map<string, V>)
    ensures r == Patched(table, before, next)
    ensures table == before ==> r == next
  {
    r := DeleteStale(table, before, next);
    r := WriteChanged(r, before, next);
    PatchOfBaseline(before, next);
  }

  // ---------------------------------------------------------------- reading the lists

  /** The rows the lists hold, as the baseline of a save. */
  method SnapshotIndex(owners: Owners, ghost tasks: map<Id, Task>) returns (rows: map<Id, Task>)
    requires Represents(owners, tasks)
    ensures rows == tasks
  {
    rows := map[];
    var rest := owners.Keys;
    while rest != {}
      invariant rest <= owners.Keys
      invariant forall id | id in rows :: id in tasks && rows[id] == tasks[id]
      invariant forall o, i {:trigger At(owners, o, i)} | At(owners, o, i) && o !in rest :: owners[o][i].id in rows
      decreases |rest|
    {
      var o :| o in rest;
      var i := 0;
      while i < |owners[o]|
        invariant 0 <= i <= |owners[o]|
        invariant forall id | id in rows :: id in tasks && rows[id] == tasks[id]
        invariant forall p, j {:trigger At(owners, p, j)} | At(owners, p, j) && (p !in rest || (p == o && j < i)) ::
          owners[p][j].id in rows
      {
        assert At(owners, o, i);
        rows := rows[owners[o][i].id := owners[o][i]];
        i := i + 1;
      }
      rest := rest - {o};
    }
    forall id | id in tasks ensures id in rows {
      var i := PlaceOf(owners, tasks, id);
    }
  }

  /** Positions the validation loops have passed: all owners taken from `rest`, the current one up to `n`. */
  predicate Passed(rest: set<string>, o: string, n: int, p: string, j: int) { p !in rest && (p == o ==> j < n) }

  predicate Holding(t: Task, key: string) { !t.state.Terminal() && KeyOf(t) == key }

  ghost predicate IdSeen(owners: Owners, rest: set<string>, o: string, n: int, x: string) {
    exists p, j :: At(owners, p, j) && Passed(rest, o, n, p, j) && owners[p][j].id == x
  }

  ghost predicate SourceSeen(owners: Owners, rest: set<string>, o: string, n: int, x: string) {
    exists p, j :: At(owners, p, j) && Passed(rest, o, n, p, j) && owners[p][j].source == x
  }

  ghost predicate KeySeen(owners: Owners, rest: set<string>, o: string, n: int, x: string) {
    exists p, j :: At(owners, p, j) && Passed(rest, o, n, p, j) && Holding(owners[p][j], x)
  }

  lemma SeenLater(owners: Owners, rest: set<string>, o: string, n: nat, x: string)
    requires At(owners, o, n) && o !in rest
    ensures IdSeen(owners, rest, o, n, x) || owners[o][n].id == x ==> IdSeen(owners, rest, o, n + 1, x)
    ensures SourceSeen(owners, rest, o, n, x) || owners[o][n].source == x ==> SourceSeen(owners, rest, o, n + 1, x)
    ensures KeySeen(owners, rest, o, n, x) || Holding(owners[o][n], x) ==> KeySeen(owners, rest, o, n + 1, x)
  {
    hide Holding;
    assert Passed(rest, o, n + 1, o, n);
    if IdSeen(owners, rest, o, n, x) {
      var p, j :| At(owners, p, j) && Passed(rest, o, n, p, j) && owners[p][j].id == x;
      assert Passed(rest, o, n + 1, p, j);
    }
    if SourceSeen(owners, rest, o, n, x) {
      var p, j :| At(owners, p, j) && Passed(rest, o, n, p, j) && owners[p][j].source == x;
      assert Passed(rest, o, n + 1, p, j);
    }
    if KeySeen(owners, rest, o, n, x) {
      var p, j :| At(owners, p, j) && Passed(rest, o, n, p, j) && Holding(owners[p][j], x);
      assert Passed(rest, o, n + 1, p, j);
    }
  }

  ghost predicate SeenExactly(owners: Owners, rest: set<string>, o: string, n: int, ids: set<string>,
                              sources: set<string>, active: set<string>) {
    && (forall p, j {:trigger At(owners, p, j)} | At(owners, p, j) && Passed(rest, o, n, p, j) ::
          && owners[p][j].id in ids && owners[p][j].source in sources
          && (!owners[p][j].state.Terminal() ==> KeyOf(owners[p][j]) in active))
    && (forall x | x in ids :: IdSeen(owners, rest, o, n, x))
    && (forall x | x in sources :: SourceSeen(owners, rest, o, n, x))
    && (forall x | x in active :: KeySeen(owners, rest, o, n, x))
  }

  ghost predicate PassedValid(owners: Owners, rest: set<string>, o: string, n: int) {
    && (forall p, j {:trigger At(owners, p, j)} | At(owners, p, j) && Passed(rest, o, n, p, j) ::
          ValidTask(owners[p][j]) && owners[p][j].owner == p)
    && (forall p, j, q, k {:trigger At(owners, p, j), At(owners, q, k)} |
          At(owners, p, j) && At(owners, q, k) && Passed(rest, o, n, p, j) && Passed(rest, o, n, q, k)
            && (p != q || j != k) ::
          owners[p][j].id != owners[q][k].id && Compatible(owners[p][j], owners[q][k]))
  }

  /** The seen-maps are complete and exact, so one lookup in each decides the next task. */
  lemma NextTask(owners: Owners, rest: set<string>, o: string, n: nat, ids: set<string>, sources: set<string>,
                 active: set<string>)
    requires At(owners, o, n) && o !in rest
    requires SeenExactly(owners, rest, o, n, ids, sources, active) && PassedValid(owners, rest, o, n)
    requires ValidTask(owners[o][n]) && owners[o][n].owner == o
    ensures var t := owners[o][n];
      var isNew := t.id !in ids && t.source !in sources && (!t.state.Terminal() ==> KeyOf(t) !in active);
      && (isNew ==> PassedValid(owners, rest, o, n + 1))
      && (!isNew ==> !PassedValid(owners, rest, o, n + 1))
  {
    hide ValidTask, KeyOf;
    var t := owners[o][n];
    if t.id in ids {
      var p, j :| At(owners, p, j) && Passed(rest, o, n, p, j) && owners[p][j].id == t.id;
      assert Passed(rest, o, n + 1, p, j) && Passed(rest, o, n + 1, o, n);
    } else if t.source in sources {
      var p, j :| At(owners, p, j) && Passed(rest, o, n, p, j) && owners[p][j].source == t.source;
      assert Passed(rest, o, n + 1, p, j) && Passed(rest, o, n + 1, o, n);
    } else if !t.state.Terminal() && KeyOf(t) in active {
      var p, j :| At(owners, p, j) && Passed(rest, o, n, p, j) && Holding(owners[p][j], KeyOf(t));
      assert Passed(rest, o, n + 1, p, j) && Passed(rest, o, n + 1, o, n);
    }
  }

  lemma SeenNext(owners: Owners, rest: set<string>, o: string, n: nat, ids: set<string>, sources: set<string>,
                 active: set<string>)
    requires At(owners, o, n) && o !in rest
    requires SeenExactly(owners, rest, o, n, ids, sources, active)
    ensures var t := owners[o][n];
      SeenExactly(owners, rest, o, n + 1, ids + {t.id}, sources + {t.source},
          if t.state.Terminal() then active else active + {KeyOf(t)})
  {
    hide KeyOf, IdSeen, SourceSeen, KeySeen;
    var t := owners[o][n];
    assert !t.state.Terminal() ==> Holding(t, KeyOf(t));
    forall x | x in ids + {t.id} ensures IdSeen(owners, rest, o, n + 1, x) { SeenLater(owners, rest, o, n, x); }
    forall x | x in sources + {t.source}
      ensures SourceSeen(owners, rest, o, n + 1, x) { SeenLater(owners, rest, o, n, x); }
    var active' := if t.state.Terminal() then active else active + {KeyOf(t)};
    forall x | x in active' ensures KeySeen(owners, rest, o, n + 1, x) {
      SeenLater(owners, rest, o, n, x);
    }
    forall p, j | At(owners, p, j) && Passed(rest, o, n + 1, p, j) && (p != o || j != n)
      ensures Passed(rest, o, n, p, j) { }
  }

  /** Validation with seen-maps decides exactly the rules of the index. */
  method ValidateIndex(owners: Owners, nextOrder: int, rejected: map<string, Rejection>, cleared: map<string,
                       Cleared>) returns (ok: bool)
    ensures ok == IndexValid(owners, nextOrder, rejected, cleared)
  {
    if nextOrder < 1 {
      return false;
    }
    var ids, sources, active: set<string> := {}, {}, {};
    var rest := owners.Keys;
    ghost var last, n := "", 0;
    while rest != {}
      invariant rest <= owners.Keys
      invariant last in owners && last !in rest ==> n == |owners[last]|
      invariant SeenExactly(owners, rest, last, n, ids, sources, active)
      invariant PassedValid(owners, rest, last, n)
      invariant forall o | o in owners && o !in rest :: |owners[o]| <= MAX_RECORDS
      decreases |rest|
    {
      var o :| o in rest;
      NextOwner(owners, rest, last, n, o, ids, sources, active);
      rest := rest - {o};
      var i := 0;
      while i < |owners[o]|
        invariant 0 <= i <= |owners[o]|
        invariant SeenExactly(owners, rest, o, i, ids, sources, active)
        invariant PassedValid(owners, rest, o, i)
      {
        var t := owners[o][i];
        assert At(owners, o, i);
        if !ValidTask(t) || t.owner != o {
          return false;
        }
        NextTask(owners, rest, o, i, ids, sources, active);
        if t.id in ids || t.source in sources || (!t.state.Terminal() && KeyOf(t) in active) {
          NotValid(owners, nextOrder, rejected, cleared, rest, o, i + 1);
          return false;
        }
        SeenNext(owners, rest, o, i, ids, sources, active);
        ids, sources := ids + {t.id}, sources + {t.source};
        if !t.state.Terminal() {
          active := active + {KeyOf(t)};
        }
        i := i + 1;
      }
      if |owners[o]| > MAX_RECORDS {
        return false;
      }
      last, n := o, i;
    }
    AllPassed(owners, last, n, sources, ids, active);
    ok := ValidReceipts(rejected, cleared) && cleared.Keys !! sources && rejected.Keys !! sources;
  }

  lemma NextOwner(owners: Owners, rest: set<string>, last: string, n: nat, o: string, ids: set<string>,
                  sources: set<string>, active: set<string>)
    requires o in rest && rest <= owners.Keys
    requires last in owners && last !in rest ==> n == |owners[last]|
    requires SeenExactly(owners, rest, last, n, ids, sources, active) && PassedValid(owners, rest, last, n)
    ensures SeenExactly(owners, rest - {o}, o, 0, ids, sources, active) && PassedValid(owners, rest - {o}, o, 0)
  {
    hide ValidTask, KeyOf, Compatible;
    forall p, j | At(owners, p, j) ensures Passed(rest, last, n, p, j) <==> Passed(rest - {o}, o, 0, p, j) { }
  }

  lemma NotValid(owners: Owners, nextOrder: int, rejected: map<string, Rejection>, cleared: map<string, Cleared>,
                 rest: set<string>, o: string, n: nat)
    requires !PassedValid(owners, rest, o, n)
    ensures !IndexValid(owners, nextOrder, rejected, cleared)
  {
    hide ValidTask, Compatible;
  }

  lemma AllPassed(owners: Owners, last: string, n: nat, sources: set<string>, ids: set<string>, active: set<string>)
    requires last in owners ==> n == |owners[last]|
    requires SeenExactly(owners, {}, last, n, ids, sources, active)
    ensures forall p, j {:trigger At(owners, p, j)} | At(owners, p, j) ::
      owners[p][j].source in sources && Passed({}, last, n, p, j)
    ensures forall x | x in sources :: exists p, j :: At(owners, p, j) && owners[p][j].source == x
  {
    forall p, j | At(owners, p, j) ensures Passed({}, last, n, p, j) { }
  }
}
