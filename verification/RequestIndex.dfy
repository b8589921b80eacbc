/** The index as memory keeps it, a task list for each owner, and its relation to the rows that are saved. */
module RequestIndex {
  import opened RequestModel

  type Owners = map<string, seq<Task>>

  predicate At(owners: Owners, o: string, i: int) { o in owners && 0 <= i < |owners[o]| }

  /** The lists hold exactly these rows, each once and under its owner. */
  ghost predicate Represents(owners: Owners, tasks: map<Id, Task>) {
    && (forall o, i {:trigger At(owners, o, i)} | At(owners, o, i) ::
          var t := owners[o][i]; t.owner == o && t.id in tasks && tasks[t.id] == t)
    && (forall id | id in tasks ::
      tasks[id].id == id && tasks[id].owner in owners && tasks[id] in owners[tasks[id].owner])
    && (forall o, i, j {:trigger At(owners, o, i), At(owners, o, j)} | At(owners, o, i) && At(owners, o, j) && i != j ::
          owners[o][i].id != owners[o][j].id)
  }

  /** The rules of the index, place by place. */
  ghost predicate IndexValid(owners: Owners, nextOrder: int, rejected: map<string, Rejection>, cleared: map<string,
                             Cleared>) {
    && nextOrder >= 1
    && (forall o, i {:trigger At(owners, o, i)} | At(owners, o, i) ::
          && ValidTask(owners[o][i]) && owners[o][i].owner == o
          && owners[o][i].source !in cleared && owners[o][i].source !in rejected)
    && (forall o, i, p, j {:trigger At(owners, o, i), At(owners, p, j)} | At(owners, o, i) && At(owners, p, j)
      && (o != p || i != j) ::
          owners[o][i].id != owners[p][j].id && Compatible(owners[o][i], owners[p][j]))
    && (forall o | o in owners :: |owners[o]| <= MAX_RECORDS)
    && ValidReceipts(rejected, cleared)
  }

  /** Where a row stands in the lists. */
  lemma PlaceOf(owners: Owners, tasks: map<Id, Task>, id: Id) returns (i: nat)
    requires Represents(owners, tasks) && id in tasks
    ensures At(owners, tasks[id].owner, i) && owners[tasks[id].owner][i] == tasks[id]
  {
    i :| 0 <= i < |owners[tasks[id].owner]| && owners[tasks[id].owner][i] == tasks[id];
  }

  lemma PlaceHolds(owners: Owners, tasks: map<Id, Task>, o: string, i: int)
    requires Represents(owners, tasks) && At(owners, o, i)
    ensures var t := owners[o][i]; t.owner == o && t.id in tasks && tasks[t.id] == t
  {
  }

  lemma OwnersListed(owners: Owners, tasks: map<Id, Task>)
    requires Represents(owners, tasks)
    ensures forall id | id in tasks :: tasks[id].id == id && tasks[id].owner in owners
  {
  }

  lemma {:induction false} DistinctSize(list: seq<Task>, ids: set<Id>)
    requires forall i | 0 <= i < |list| :: list[i].id in ids
    requires forall id | id in ids :: exists i :: 0 <= i < |list| && list[i].id == id
    requires forall i, j | 0 <= i < j < |list| :: list[i].id != list[j].id
    ensures |list| == |ids|
  {
    if list == [] {
      assert ids == {};
    } else {
      var last := |list| - 1;
      var rest := list[..last];
      forall id | id in ids - {list[last].id} ensures exists i :: 0 <= i < |rest| && rest[i].id == id {
        var i :| 0 <= i < |list| && list[i].id == id;
        assert rest[i] == list[i];
      }
      DistinctSize(rest, ids - {list[last].id});
    }
  }

  lemma OwnerSize(owners: Owners, tasks: map<Id, Task>, o: string)
    requires Represents(owners, tasks)
    ensures |OwnedIds(tasks, o)| == if o in owners then |owners[o]| else 0
  {
    var ids := OwnedIds(tasks, o);
    if o in owners {
      forall i | 0 <= i < |owners[o]| ensures owners[o][i].id in ids { assert At(owners, o, i); }
      forall id | id in ids ensures exists i :: 0 <= i < |owners[o]| && owners[o][i].id == id {
        var i := PlaceOf(owners, tasks, id);
      }
      forall i, j | 0 <= i < j < |owners[o]| ensures owners[o][i].id != owners[o][j].id {
        assert At(owners, o, i) && At(owners, o, j);
      }
      DistinctSize(owners[o], ids);
    } else {
      assert ids == {};
    }
  }

  /** Validating the lists place by place is validating the rows they hold. */
  lemma ValidIffRowsValid(owners: Owners, tasks: map<Id, Task>, nextOrder: int, rejected: map<string, Rejection>,
                          cleared: map<string, Cleared>)
    requires Represents(owners, tasks)
    ensures IndexValid(owners, nextOrder, rejected, cleared) <==> ValidRows(Rows(tasks, nextOrder, rejected, cleared))
  {
    if IndexValid(owners, nextOrder, rejected, cleared) {
      RowsFromIndex(owners, tasks, nextOrder, rejected, cleared);
    }
    if ValidRows(Rows(tasks, nextOrder, rejected, cleared)) {
      IndexFromRows(owners, tasks, nextOrder, rejected, cleared);
    }
  }

  lemma RowsFromIndex(owners: Owners, tasks: map<Id, Task>, nextOrder: int, rejected: map<string, Rejection>,
                      cleared: map<string, Cleared>)
    requires Represents(owners, tasks) && IndexValid(owners, nextOrder, rejected, cleared)
    ensures ValidRows(Rows(tasks, nextOrder, rejected, cleared))
  {
    hide ValidTask, Compatible, ValidReceipts;
    forall id | id in tasks
      ensures tasks[id].id == id && ValidTask(tasks[id]) && tasks[id].source !in cleared
      ensures tasks[id].source !in rejected
    {
      var i := PlaceOf(owners, tasks, id);
    }
    forall a, b | a in tasks && b in tasks && a != b ensures Apart(tasks, a, b) {
      var i := PlaceOf(owners, tasks, a);
      var j := PlaceOf(owners, tasks, b);
    }
    forall o: string ensures |OwnedIds(tasks, o)| <= MAX_RECORDS { OwnerSize(owners, tasks, o); }
  }

  lemma IndexFromRows(owners: Owners, tasks: map<Id, Task>, nextOrder: int, rejected: map<string, Rejection>,
                      cleared: map<string, Cleared>)
    requires Represents(owners, tasks) && ValidRows(Rows(tasks, nextOrder, rejected, cleared))
    ensures IndexValid(owners, nextOrder, rejected, cleared)
  {
    hide ValidTask, Compatible, ValidReceipts;
    forall o, i, p, j | At(owners, o, i) && At(owners, p, j) && (o != p || i != j)
      ensures owners[o][i].id != owners[p][j].id && Compatible(owners[o][i], owners[p][j])
    {
      assert owners[o][i].owner == o && owners[p][j].owner == p;
      assert owners[o][i].id != owners[p][j].id;
      assert Apart(tasks, owners[o][i].id, owners[p][j].id);
    }
    forall o | o in owners ensures |owners[o]| <= MAX_RECORDS {
      OwnerSize(owners, tasks, o);
      assert |OwnedIds(tasks, o)| <= MAX_RECORDS;
    }
  }

  // ---------------------------------------------------------------- updates of the lists

  lemma ReplaceKeeps(owners: Owners, tasks: map<Id, Task>, o: string, i: int, t: Task)
    requires Represents(owners, tasks) && At(owners, o, i) && t.id == owners[o][i].id && t.owner == o
    ensures Represents(owners[o := owners[o][i := t]], tasks[t.id := t])
  {
    var owners' := owners[o := owners[o][i := t]];
    var tasks' := tasks[t.id := t];
    forall p, j | At(owners', p, j)
      ensures owners'[p][j].owner == p && owners'[p][j].id in tasks' && tasks'[owners'[p][j].id] == owners'[p][j]
    {
      assert At(owners, p, j);
      if p == o && j != i { assert owners[o][j].id != owners[o][i].id; }
    }
    forall id | id in tasks'
      ensures tasks'[id].id == id && tasks'[id].owner in owners' && tasks'[id] in owners'[tasks'[id].owner]
    {
      if id == t.id {
        assert owners'[o][i] == t;
      } else {
        var j := PlaceOf(owners, tasks, id);
        assert owners'[tasks[id].owner][j] == tasks[id];
      }
    }
    forall p, j, k | At(owners', p, j) && At(owners', p, k) && j != k ensures owners'[p][j].id != owners'[p][k].id {
      assert At(owners, p, j) && At(owners, p, k);
    }
  }

  lemma AppendKeeps(owners: Owners, tasks: map<Id, Task>, t: Task)
    requires Represents(owners, tasks) && t.id !in tasks
    ensures var list := if t.owner in owners then owners[t.owner] else [];
      Represents(owners[t.owner := list + [t]], tasks[t.id := t])
  {
    var list := if t.owner in owners then owners[t.owner] else [];
    var owners' := owners[t.owner := list + [t]];
    var tasks' := tasks[t.id := t];
    forall p, j | At(owners', p, j)
      ensures owners'[p][j].owner == p && owners'[p][j].id in tasks' && tasks'[owners'[p][j].id] == owners'[p][j]
    {
      if p != t.owner || j < |list| { assert At(owners, p, j); }
    }
    forall id | id in tasks'
      ensures tasks'[id].id == id && tasks'[id].owner in owners' && tasks'[id] in owners'[tasks'[id].owner]
    {
      if id == t.id {
        assert owners'[t.owner][|list|] == t;
      } else {
        var j := PlaceOf(owners, tasks, id);
        assert owners'[tasks[id].owner][j] == tasks[id];
      }
    }
    forall p, j, k | At(owners', p, j) && At(owners', p, k) && j != k ensures owners'[p][j].id != owners'[p][k].id {
      if p != t.owner || j < |list| { assert At(owners, p, j); }
      if p != t.owner || k < |list| { assert At(owners, p, k); }
    }
  }

  /** A second task of the same identifier leaves no rows the lists could hold. */
  lemma AppendTwice(owners: Owners, tasks: map<Id, Task>, t: Task, owners': Owners)
    requires Represents(owners, tasks) && t.id in tasks
    requires owners' == owners[t.owner := (if t.owner in owners then owners[t.owner] else []) + [t]]
    ensures !exists rows :: Represents(owners', rows)
  {
    var list := if t.owner in owners then owners[t.owner] else [];
    var i := PlaceOf(owners, tasks, t.id);
    var o := tasks[t.id].owner;
    assert At(owners', o, i) && owners'[o][i].id == t.id;
    assert At(owners', t.owner, |list|) && owners'[t.owner][|list|] == t;
  }

  lemma OwnerIdsDistinct(owners: Owners, tasks: map<Id, Task>, o: string)
    requires Represents(owners, tasks) && o in owners
    ensures forall i, j | 0 <= i < j < |owners[o]| :: owners[o][i].id != owners[o][j].id
  {
    forall i, j | 0 <= i < j < |owners[o]| ensures owners[o][i].id != owners[o][j].id {
      assert At(owners, o, i) && At(owners, o, j);
    }
  }

  // ---------------------------------------------------------------- the order within a list

  predicate Sorted(list: seq<Task>) { forall i, j | 0 <= i < j < |list| :: list[i].order < list[j].order }

  /** New tasks carry ever larger order numbers, so every list is sorted by them. */
  ghost predicate Ordered(owners: Owners) {
    forall o | o in owners :: Sorted(owners[o])
  }

  /** Every listed task comes before this order number. */
  ghost predicate Below(owners: Owners, order: int) {
    forall o, i {:trigger At(owners, o, i)} | At(owners, o, i) :: owners[o][i].order < order
  }

  /** The lists are sorted and the next task comes last. */
  ghost predicate Placed(owners: Owners, nextOrder: int) { Ordered(owners) && Below(owners, nextOrder) }

  lemma PlacedReplace(owners: Owners, o: string, i: int, t: Task, nextOrder: int)
    requires At(owners, o, i) && t.order == owners[o][i].order && Placed(owners, nextOrder)
    ensures Placed(owners[o := owners[o][i := t]], nextOrder)
  {
    var owners' := owners[o := owners[o][i := t]];
    forall p, j | At(owners', p, j) ensures owners'[p][j].order < nextOrder { assert At(owners, p, j); }
  }

  lemma PlacedAppend(owners: Owners, t: Task)
    requires Placed(owners, t.order)
    ensures Placed(owners[t.owner := (if t.owner in owners then owners[t.owner] else []) + [t]], t.order + 1)
  {
    AppendOrdered(owners, t);
    AppendBelow(owners, t, t.order + 1);
  }

  lemma PlacedPart(owners: Owners, o: string, kept: seq<Task>, nextOrder: int)
    requires o in owners && Placed(owners, nextOrder) && Sorted(kept) && forall j | 0 <= j < |kept| ::
      kept[j] in owners[o]
    ensures Placed(owners[o := kept], nextOrder)
  {
    var owners' := owners[o := kept];
    forall p, j | At(owners', p, j) ensures owners'[p][j].order < nextOrder {
      if p == o {
        var i :| 0 <= i < |owners[o]| && owners[o][i] == kept[j];
        assert At(owners, o, i);
      } else {
        assert At(owners, p, j);
      }
    }
  }

  lemma AppendOrdered(owners: Owners, t: Task)
    requires Ordered(owners) && Below(owners, t.order)
    ensures Ordered(owners[t.owner := (if t.owner in owners then owners[t.owner] else []) + [t]])
  {
    if t.owner in owners {
      forall i | 0 <= i < |owners[t.owner]| ensures owners[t.owner][i].order < t.order {
        assert At(owners, t.owner, i);
      }
    }
  }

  lemma AppendBelow(owners: Owners, t: Task, order: int)
    requires t.order < order && Below(owners, t.order)
    ensures Below(owners[t.owner := (if t.owner in owners then owners[t.owner] else []) + [t]], order)
  {
    var owners' := owners[t.owner := (if t.owner in owners then owners[t.owner] else []) + [t]];
    forall o, i | At(owners', o, i) ensures owners'[o][i].order < order {
      if o != t.owner || (t.owner in owners && i < |owners[t.owner]|) { assert At(owners, o, i); }
    }
  }

  /** `kept` lists, in order, the tasks of `list` whose identifier stays. */
  ghost predicate Keeps(list: seq<Task>, gone: set<Id>, kept: seq<Task>) {
    && (forall j | 0 <= j < |kept| :: kept[j] in list && kept[j].id !in gone)
    && (forall i | 0 <= i < |list| && list[i].id !in gone :: list[i] in kept)
    && (forall j, k | 0 <= j < k < |kept| :: kept[j].id != kept[k].id)
    && (Sorted(list) ==> Sorted(kept))
  }

  lemma KeepsNone(list: seq<Task>, gone: set<Id>)
    ensures Keeps(list[..0], gone, [])
  {
  }

  lemma KeepsNext(list: seq<Task>, j: nat, gone: set<Id>, kept: seq<Task>)
    requires j < |list| && Keeps(list[..j], gone, kept)
    requires forall i, k | 0 <= i < k < |list| :: list[i].id != list[k].id
    ensures Keeps(list[..j + 1], gone, if list[j].id in gone then kept else kept + [list[j]])
  {
    var done, t := list[..j], list[j];
    assert list[..j + 1] == done + [t];
    forall k | 0 <= k < |kept| ensures kept[k].id != t.id {
      var i :| 0 <= i < j && list[i] == kept[k];
    }
    if Sorted(done + [t]) { SortedAppend(done, t, kept); }
    KeepsAppend(done, t, gone, kept);
  }

  lemma SortedAppend(done: seq<Task>, t: Task, kept: seq<Task>)
    requires Sorted(done + [t]) && (Sorted(done) ==> Sorted(kept)) && forall k | 0 <= k < |kept| :: kept[k] in done
    ensures Sorted(done) && Sorted(kept + [t])
  {
    forall i, j | 0 <= i < j < |done| ensures done[i].order < done[j].order {
      assert (done + [t])[i] == done[i] && (done + [t])[j] == done[j];
    }
    forall k | 0 <= k < |kept| ensures kept[k].order < t.order {
      var i :| 0 <= i < |done| && done[i] == kept[k];
      assert (done + [t])[i] == done[i] && (done + [t])[|done|] == t;
    }
  }

  lemma KeepsAppend(done: seq<Task>, t: Task, gone: set<Id>, kept: seq<Task>)
    requires Keeps(done, gone, kept)
    requires forall k | 0 <= k < |kept| :: kept[k].id != t.id
    requires Sorted(done + [t]) ==> Sorted(kept) && Sorted(kept + [t])
    ensures Keeps(done + [t], gone, if t.id in gone then kept else kept + [t])
  {
    if t.id in gone {
      forall i | 0 <= i < |done| + 1 && (done + [t])[i].id !in gone ensures (done + [t])[i] in kept {
        assert i < |done|;
      }
    } else {
      var next := kept + [t];
      assert next[|kept|] == t;
      forall i | 0 <= i < |done| + 1 && (done + [t])[i].id !in gone ensures (done + [t])[i] in next {
        if i < |done| { assert done[i] in kept; }
      }
    }
  }

  lemma RemoveKeeps(owners: Owners, tasks: map<Id, Task>, o: string, gone: set<Id>, kept: seq<Task>)
    requires Represents(owners, tasks) && o in owners && Keeps(owners[o], gone, kept)
    requires gone <= OwnedIds(tasks, o)
    ensures Represents(owners[o := kept], tasks - gone)
  {
    var owners' := owners[o := kept];
    var tasks' := tasks - gone;
    forall p, j | At(owners', p, j)
      ensures owners'[p][j].owner == p && owners'[p][j].id in tasks' && tasks'[owners'[p][j].id] == owners'[p][j]
    {
      if p == o {
        var i :| 0 <= i < |owners[o]| && owners[o][i] == kept[j];
        assert At(owners, o, i);
      } else {
        assert At(owners, p, j);
      }
    }
    forall id | id in tasks'
      ensures tasks'[id].id == id && tasks'[id].owner in owners' && tasks'[id] in owners'[tasks'[id].owner]
    {
      var i := PlaceOf(owners, tasks, id);
      if tasks[id].owner == o { assert owners[o][i].id !in gone; }
    }
    forall p, j, k | At(owners', p, j) && At(owners', p, k) && j != k ensures owners'[p][j].id != owners'[p][k].id {
      if p != o { assert At(owners, p, j) && At(owners, p, k); }
    }
  }

  // ---------------------------------------------------------------- the index is determined by its rows

  function WithoutEmpty(owners: Owners): Owners { map o | o in owners && owners[o] != [] :: owners[o] }

  /** A strictly sorted list is determined by its elements. */
  lemma {:induction false} SortedUnique(a: seq<Task>, b: seq<Task>)
    requires Sorted(a) && Sorted(b)
    requires forall t :: t in a <==> t in b
    ensures a == b
  {
    if a == [] {
      assert forall i | 0 <= i < |b| :: b[i] in b;
    } else {
      assert a[0] in b && |b| > 0;
      assert b[0] in a;
      var i :| 0 <= i < |b| && b[i] == a[0];
      var j :| 0 <= j < |a| && a[j] == b[0];
      assert a[0] == b[0];
      forall t ensures t in a[1..] <==> t in b[1..] {
        if t in a[1..] {
          var k :| 1 <= k < |a| && a[k] == t;
          assert t in b;
          var m :| 0 <= m < |b| && b[m] == t;
          assert m != 0;
          assert b[1..][m - 1] == t;
        }
        if t in b[1..] {
          var k :| 1 <= k < |b| && b[k] == t;
          assert t in a;
          var m :| 0 <= m < |a| && a[m] == t;
          assert m != 0;
          assert a[1..][m - 1] == t;
        }
      }
      SortedUnique(a[1..], b[1..]);
    }
  }

  /** Saving and loading is the identity: two sorted indexes over the same rows differ at most by owners without
      tasks. */
  lemma RowsDetermineIndex(a: Owners, b: Owners, tasks: map<Id, Task>)
    requires Represents(a, tasks) && Represents(b, tasks) && Ordered(a) && Ordered(b)
    ensures WithoutEmpty(a) == WithoutEmpty(b)
  {
    forall o | o in a && a[o] != [] ensures o in b && b[o] == a[o] { SameList(a, b, tasks, o); }
    forall o | o in b && b[o] != [] ensures o in a && a[o] == b[o] { SameList(b, a, tasks, o); }
  }

  lemma SameList(a: Owners, b: Owners, tasks: map<Id, Task>, o: string)
    requires Represents(a, tasks) && Represents(b, tasks) && Ordered(a) && Ordered(b)
    requires o in a && a[o] != []
    ensures o in b && b[o] == a[o]
  {
    assert At(a, o, 0);
    forall t ensures t in a[o] <==> (o in b && t in b[o]) {
      if t in a[o] {
        var i :| 0 <= i < |a[o]| && a[o][i] == t;
        assert At(a, o, i);
      }
      if o in b && t in b[o] {
        var i :| 0 <= i < |b[o]| && b[o][i] == t;
        assert At(b, o, i);
      }
    }
    SortedUnique(a[o], b[o]);
  }
}
