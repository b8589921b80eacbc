/** Admissions to sessions, their cancellation, and the accounting of everything still running. */
module Coordinator {
  import opened RequestModel
  import opened RequestSpec
  import opened RequestIndex
  import opened RequestSteps
  import opened RequestStore

  const MAX_EFFECTS := 32

  // ---------------------------------------------------------------- what one admission goes through

  /** The moments that decide whether a cancel wins: a granted cancel, and the executor asking for the verdict. */
  datatype Mark = Cancels | Finalizes(cancelled: bool)

  /** Either nobody cancelled and every verdict says so, or one cancel came first and every verdict reports it. */
  predicate Linear(log: seq<Mark>) {
    || (forall i | 0 <= i < |log| :: log[i] == Finalizes(false))
    || (|log| > 0 && log[0] == Cancels && forall i | 0 < i < |log| :: log[i] == Finalizes(true))
  }

  predicate HasCancel(log: seq<Mark>) { Cancels in log }

  predicate HasVerdict(log: seq<Mark>) { exists m :: m in log && m.Finalizes? }

  /** The guard of a cancel is exactly right: granting one keeps the log linear if and only if nothing was granted
      and no verdict was given before. */
  lemma CancelKeepsLinear(log: seq<Mark>)
    requires Linear(log)
    ensures Linear(log + [Cancels]) <==> !HasCancel(log) && !HasVerdict(log)
    ensures HasCancel(log + [Cancels]) && (HasVerdict(log + [Cancels]) <==> HasVerdict(log))
  {
    var next := log + [Cancels];
    assert next[|log|] == Cancels;
    if log == [] {
      assert next == [Cancels];
    } else {
      assert log[0] in log;
      assert next[0] == log[0];
      assert !Linear(next);
    }
    forall m | m in next && m.Finalizes? ensures m in log { }
    forall m | m in log ensures m in next { }
  }

  /** A verdict keeps the log linear if and only if it reports the flag. */
  lemma FinalizeKeepsLinear(log: seq<Mark>, verdict: bool)
    requires Linear(log)
    ensures Linear(log + [Finalizes(verdict)]) <==> (verdict <==> HasCancel(log))
    ensures HasVerdict(log + [Finalizes(verdict)]) && (HasCancel(log + [Finalizes(verdict)]) <==> HasCancel(log))
  {
    var next := log + [Finalizes(verdict)];
    assert next[|log|] == Finalizes(verdict);
    assert Finalizes(verdict) in next;
    if Cancels in log {
      var i :| 0 <= i < |log| && log[i] == Cancels;
      assert next[0] == log[0] == Cancels;
    } else {
      assert forall i | 0 <= i < |log| :: log[i] in log;
      assert forall i | 0 <= i < |log| :: log[i] == Finalizes(false);
      assert forall i | 0 <= i < |log| :: next[i] == log[i];
      if |log| > 0 { assert next[0] != Cancels; }
    }
    assert Cancels in next <==> Cancels in log;
  }

  /** What linearity means to a caller: at most one cancel succeeds, none after a verdict, and each verdict is true
      exactly when a cancel succeeded before it. */
  lemma LinearMeans(log: seq<Mark>, i: nat, j: nat)
    requires Linear(log) && i < j < |log|
    ensures !(log[i] == Cancels && log[j] == Cancels)
    ensures !(log[i].Finalizes? && log[j] == Cancels)
    ensures log[j].Finalizes? ==> (log[j].cancelled <==> exists k :: 0 <= k < j && log[k] == Cancels)
  {
    if log[0] == Cancels { assert 0 < j; }
  }

  class Admission {
    const owner: string
    const target: string
    const thread: string
    const source: string
    var task: Id
    var cancelRequested: bool
    var finalizing: bool
    var launched: bool
    var stopped: bool
    /** The history of this admission, and how often it gave its worker back. */
    ghost var log: seq<Mark>
    ghost var releases: nat

    constructor (owner: string, target: string, thread: string, source: string)
      ensures this.owner == owner && this.target == target && this.thread == thread && this.source == source
      ensures task == "" && !cancelRequested && !finalizing && !launched && !stopped && log == [] && releases == 0
    {
      this.owner, this.target, this.thread, this.source := owner, target, thread, source;
      task, cancelRequested, finalizing, launched, stopped := "", false, false, false, false;
      log, releases := [], 0;
    }

    ghost predicate Valid()
      reads this
    {
      && Linear(log) && (cancelRequested <==> HasCancel(log)) && (finalizing <==> HasVerdict(log))
      && (cancelRequested ==> stopped) && (launched ==> task != "")
    }

    /** A cancel that is granted: the flag is set and the execution told to stop. */
    method RequestCancel()
      requires Valid() && !cancelRequested && !finalizing
      modifies this`cancelRequested, this`stopped, this`log
      ensures Valid() && cancelRequested && stopped && log == old(log) + [Cancels]
    {
      CancelKeepsLinear(log);
      cancelRequested, stopped := true, true;
      log := log + [Cancels];
    }

    /** The executor's verdict: from here on no cancel succeeds any more. */
    method Finalize() returns (cancelled: bool)
      requires Valid()
      modifies this`finalizing, this`log
      ensures Valid() && finalizing && cancelled == cancelRequested && log == old(log) + [Finalizes(cancelled)]
    {
      finalizing := true;
      cancelled := cancelRequested;
      FinalizeKeepsLinear(log, cancelled);
      log := log + [Finalizes(cancelled)];
    }
  }

  /** An admission beside which another for this owner, target, thread and source may run. */
  predicate SeparateFrom(a: Admission, owner: string, target: string, thread: string, source: string) {
    && !(a.owner == owner && a.source != "" && a.source == source)
    && !(a.owner == owner && a.target != "" && a.target == target)
    && !(a.thread != "" && a.thread == thread)
  }

  predicate Separate(a: Admission, b: Admission) { SeparateFrom(a, b.owner, b.target, b.thread, b.source) }

  lemma SeparateBoth(a: Admission, b: Admission)
    requires SeparateFrom(b, a.owner, a.target, a.thread, a.source)
    ensures Separate(a, b) && Separate(b, a)
  {
  }

  lemma AreSeparate(a: Admission, b: Admission)
    requires Separate(a, b)
    ensures a.thread == "" || a.thread != b.thread
    ensures a.owner == b.owner ==> a.target == "" || a.target != b.target
    ensures a.owner == b.owner ==> a.source == "" || a.source != b.source
  {
  }

  lemma NothingHappened()
    ensures Linear([]) && !HasCancel([]) && !HasVerdict([])
  {
  }

  /** What stands in the way of a new admission. */
  datatype Conflict = Nothing | SameSource | SameSession

  datatype Begun = Admitted(admission: Admission) | Maintenance | EntryClosed | DuplicateSource | Busy

  class Coordinator {
    const tasks: RequestStore
    var active: set<Admission>
    var draining: bool
    var closed: bool
    var effects: nat
    /** The count of the wait group: what a shutdown still waits for. */
    var workers: nat
    /** Effects that returned and have not yet told the wait group. */
    ghost var settling: nat
    /** Every admission ever granted. */
    ghost var granted: set<Admission>

    ghost predicate Valid()
      reads this, granted
    {
      && workers == |active| + effects + settling && effects <= MAX_EFFECTS
      && active <= granted
      && (forall a | a in granted :: a.Valid() && a.releases == (if a in active then 0 else 1))
      && (forall a, b | a in active && b in active && a != b :: Separate(a, b))
    }

    /** Two admissions that are active together never share a thread, nor, of one owner, a target or a source. */
    lemma ActiveApart(a: Admission, b: Admission)
      requires Valid() && a in active && b in active && a != b
      ensures a.thread == "" || a.thread != b.thread
      ensures a.owner == b.owner ==> a.target == "" || a.target != b.target
      ensures a.owner == b.owner ==> a.source == "" || a.source != b.source
    {
      hide Linear, HasCancel, HasVerdict, Separate;
      AreSeparate(a, b);
    }

    constructor (tasks: RequestStore)
      ensures Valid() && this.tasks == tasks && active == {} && granted == {} && workers == 0 && !draining && !closed
    {
      this.tasks := tasks;
      active, draining, closed, effects, workers, settling, granted := {}, false, false, 0, 0, 0, {};
    }

    /** Some admission in the way, in any order of looking. */
    method FindConflict(owner: string, target: string, thread: string, source: string) returns (conflict: Conflict)
      requires tasks.Valid()
      ensures conflict == Nothing ==>
        forall a | a in active :: SeparateFrom(a, owner, target, thread, source) && !Attached(a, thread)
      ensures conflict == SameSource ==>
        source != "" && exists a :: a in active && a.owner == owner && a.source == source
      ensures conflict == SameSession ==>
        exists a :: a in active && InTheWay(a, owner, target, thread)
    {
      var rest := active;
      while rest != {}
        invariant rest <= active
        invariant forall a | a in active - rest ::
          SeparateFrom(a, owner, target, thread, source) && !Attached(a, thread)
        decreases |rest|
      {
        var a :| a in rest;
        if source != "" && a.owner == owner && a.source == source {
          return SameSource;
        }
        if (target != "" && a.owner == owner && a.target == target) || (thread != "" && a.thread == thread) {
          return SameSession;
        }
        if a.task != "" && thread != "" {
          var found := tasks.FindTask(a.owner, a.task);
          if found.Some? && found.value.thread == thread {
            return SameSession;
          }
        }
        rest := rest - {a};
      }
      conflict := Nothing;
    }

    /** The admission holds the session: by target, by thread, or by the thread its stored task took. */
    ghost predicate InTheWay(a: Admission, owner: string, target: string, thread: string)
      reads a, tasks
    {
      || (target != "" && a.owner == owner && a.target == target)
      || (thread != "" && a.thread == thread)
      || Attached(a, thread)
    }

    /** The stored task of an admission took this thread after the admission was granted. */
    ghost predicate Attached(a: Admission, thread: string)
      reads a, tasks
    {
      && a.task != "" && thread != "" && Has(tasks.View().mem, a.owner, a.task)
      && tasks.View().mem.tasks[a.task].thread == thread
    }

    /** Grants a session to a new instruction, or refuses at once. */
    method Begin(owner: string, target: string, thread: string, source: string, work: bool, canExecute: bool)
      returns (out: Begun)
      requires Valid() && tasks.Valid()
      modifies this
      ensures Valid() && draining == old(draining) && closed == old(closed)
      ensures out.Admitted? ==>
        && fresh(out.admission) && !closed && (work ==> !draining && canExecute)
        && out.admission.owner == owner && out.admission.target == target
        && out.admission.thread == thread && out.admission.source == source
        && active == old(active) + {out.admission} && workers == old(workers) + 1
        && granted == old(granted) + {out.admission}
        && (forall a | a in old(active) :: !Attached(a, thread))
        && (forall id | Has(tasks.View().mem, owner, id) :: !Meets(tasks.View().mem.tasks[id], target, thread))
      ensures !out.Admitted? ==> active == old(active) && workers == old(workers) && granted == old(granted)
      ensures out == Maintenance <==> closed || (work && draining)
      ensures out == EntryClosed <==> !closed && work && !draining && !canExecute
      ensures out.Admitted? <==>
        && !closed && (work ==> !draining && canExecute)
        && (forall a | a in old(active) :: SeparateFrom(a, owner, target, thread, source) && !Attached(a, thread))
        && (forall id | Has(tasks.View().mem, owner, id) :: !Meets(tasks.View().mem.tasks[id], target, thread))
      ensures out == DuplicateSource ==>
        source != "" && exists a :: a in old(active) && a.owner == owner && a.source == source
      ensures out == Busy ==>
        || (exists a :: a in old(active) && InTheWay(a, owner, target, thread))
        || (exists id :: Has(tasks.View().mem, owner, id) && Meets(tasks.View().mem.tasks[id], target, thread))
    {
      if (work && draining) || closed {
        return Maintenance;
      }
      if work && !canExecute {
        return EntryClosed;
      }
      var conflict := FindConflict(owner, target, thread, source);
      if conflict != Nothing {
        return if conflict == SameSource then DuplicateSource else Busy;
      }
      var busy := tasks.Active(owner, target, thread);
      if busy.Some? {
        return Busy;
      }
      hide Attached, Meets, Represents, Placed, Separate;
      var a := Grant(owner, target, thread, source);
      out := Admitted(a);
    }

    method Grant(owner: string, target: string, thread: string, source: string) returns (a: Admission)
      requires Valid() && forall b | b in active :: SeparateFrom(b, owner, target, thread, source)
      modifies this`active, this`granted, this`workers
      ensures Valid() && fresh(a)
      ensures a.owner == owner && a.target == target && a.thread == thread && a.source == source
      ensures active == old(active) + {a} && workers == old(workers) + 1 && granted == old(granted) + {a}
    {
      hide Linear, HasCancel, HasVerdict, Separate, SeparateFrom;
      a := new Admission(owner, target, thread, source);
      NothingHappened();
      forall b | b in active ensures Separate(a, b) && Separate(b, a) { SeparateBoth(a, b); }
      active, granted := active + {a}, granted + {a};
      workers := workers + 1;
    }

    /** Hands the admission to an executor, once. */
    method Launch(a: Admission, task: Id)
      requires Valid() && a in granted && task != ""
      modifies a`task, a`launched
      ensures Valid()
      ensures if a in active && !old(a.launched) then a.launched && a.task == task
              else a.launched == old(a.launched) && a.task == old(a.task)
    {
      if a !in active || a.launched {
        return;
      }
      a.task, a.launched := task, true;
    }

    /** Gives an admission up that was never launched. */
    method Release(a: Admission)
      requires Valid() && a in granted
      modifies this`active, this`workers, a`stopped, a`releases
      ensures Valid()
      ensures active == (if a.launched then old(active) else old(active) - {a})
        && workers - |active| == old(workers) - |old(active)|
    {
      if !a.launched {
        ReleaseLocked(a);
      }
    }

    /** Ends an admission, whoever calls and however often: its worker is given back exactly once. */
    method ReleaseLocked(a: Admission)
      requires Valid() && a in granted
      modifies this`active, this`workers, a`stopped, a`releases
      ensures Valid()
      ensures active == old(active) - {a}
      ensures workers == old(workers) - (if a in old(active) then 1 else 0)
    {
      if a in active {
        active := active - {a};
        a.stopped, a.releases := true, a.releases + 1;
        workers := workers - 1;
      }
    }

    /** The verdict an executor asks for under the same lock as every cancel. */
    method Finalize(a: Admission) returns (cancelled: bool)
      requires Valid() && a in granted
      modifies a`finalizing, a`log
      ensures Valid() && a.finalizing && cancelled == a.cancelRequested && a.log == old(a.log) + [Finalizes(cancelled)]
    {
      cancelled := a.Finalize();
    }

    /** Asks the executor of a task to stop. Looking for it, an admission that is not launched yet is taken to work on
        whatever active task its session has. */
    method Cancel(owner: string, task: Id, now: int) returns (ok: bool, ghost chosen: Admission?)
      requires Valid() && tasks.Valid()
      modifies active, tasks
      ensures Valid() && tasks.Valid()
      ensures forall a | a in active :: a.launched == old(a.launched) && a.finalizing == old(a.finalizing)
      ensures forall a | a in active && (a.launched || old(a.task) != "") :: a.task == old(a.task)
      ensures ok ==>
        && chosen in active && chosen.owner == owner && chosen.task == task
        && !old(chosen.cancelRequested) && !old(chosen.finalizing)
        && chosen.cancelRequested && chosen.log == old(chosen.log) + [Cancels]
      ensures forall a | a in active && (!ok || a != chosen) ::
        a.log == old(a.log) && a.cancelRequested == old(a.cancelRequested)
      ensures !ok ==>
        forall a | a in active && a.launched :: a.owner != owner || a.task != task || a.cancelRequested || a.finalizing
    {
      hide Linear, HasCancel, HasVerdict, Represents, Placed, SeparateFrom, ChangeStep, Separate, Valid;
      ok, chosen := false, null;
      var rest := active;
      while rest != {}
        invariant rest <= active && Valid() && tasks.Valid()
        invariant forall a | a in active :: a.launched == old(a.launched) && a.finalizing == old(a.finalizing)
        invariant forall a | a in active :: a.log == old(a.log) && a.cancelRequested == old(a.cancelRequested)
        invariant forall a | a in active && (a.launched || old(a.task) != "") :: a.task == old(a.task)
        invariant forall a | a in active && a !in rest && a.launched ::
          a.owner != owner || a.task != task || a.cancelRequested || a.finalizing
        decreases |rest|
      {
        var a :| a in rest;
        ok := CancelOne(a, owner, task, now);
        if ok {
          return true, a;
        }
        rest := rest - {a};
      }
    }

    /** One admission on the way of a cancel: it is the wanted one and open, or nothing but a guess happens to it. */
    method CancelOne(a: Admission, owner: string, task: Id, now: int) returns (ok: bool)
      requires Valid() && tasks.Valid() && a in active
      modifies a, tasks
      ensures Valid() && tasks.Valid()
      ensures a.launched == old(a.launched) && a.finalizing == old(a.finalizing)
      ensures a.launched || old(a.task) != "" ==> a.task == old(a.task)
      ensures ok ==>
        && a.owner == owner && a.task == task && !old(a.cancelRequested) && !old(a.finalizing)
        && a.cancelRequested && a.log == old(a.log) + [Cancels]
      ensures !ok ==> a.log == old(a.log) && a.cancelRequested == old(a.cancelRequested)
      ensures !ok && a.launched ==> a.owner != owner || a.task != task || a.cancelRequested || a.finalizing
    {
      hide Linear, HasCancel, HasVerdict, Represents, Placed, SeparateFrom, ChangeStep, Separate;
      ok := false;
      if a.task == "" {
        Guess(a);
      }
      if a.owner == owner && a.task == task && !a.cancelRequested && !a.finalizing {
        GrantCancel(a);
        var _ := tasks.UpdateStage(owner, task, now);
        ok := true;
      }
    }

    /** An admission that is not launched yet is taken to work on the active task of its session. */
    method Guess(a: Admission)
      requires Valid() && tasks.Valid() && a in active && a.task == ""
      modifies a`task
      ensures Valid()
      ensures a.launched ==> a.task == old(a.task)
      ensures a.task == old(a.task) || Has(tasks.View().mem, a.owner, a.task)
    {
      var found := tasks.Active(a.owner, a.target, a.thread);
      if found.Some? {
        a.task := found.value.id;
      }
    }

    method GrantCancel(a: Admission)
      requires Valid() && a in active && !a.cancelRequested && !a.finalizing
      modifies a`cancelRequested, a`stopped, a`log
      ensures Valid() && a.cancelRequested && a.log == old(a.log) + [Cancels]
    {
      a.RequestCancel();
    }

    method SetDraining(value: bool)
      requires Valid()
      modifies this`draining
      ensures Valid() && draining == value
    {
      draining := value;
    }

    /** Starts a side effect unless the instance is closing or the limit is reached. */
    method BeginEffect() returns (ok: bool)
      requires Valid()
      modifies this`effects, this`workers
      ensures Valid()
      ensures ok <==> !closed && old(effects) < MAX_EFFECTS
      ensures effects == old(effects) + (if ok then 1 else 0) && workers == old(workers) + (if ok then 1 else 0)
    {
      if closed || effects >= MAX_EFFECTS {
        return false;
      }
      effects, workers := effects + 1, workers + 1;
      ok := true;
    }

    /** An effect returns: it counts no longer as one, but the wait group still counts it. */
    method EffectReturns()
      requires Valid() && effects > 0
      modifies this`effects, this`settling
      ensures Valid() && effects == old(effects) - 1 && settling == old(settling) + 1
    {
      effects, settling := effects - 1, settling + 1;
    }

    /** Outside the lock it then tells the wait group. */
    method EffectSettles()
      requires Valid() && settling > 0
      modifies this`workers, this`settling
      ensures Valid() && workers == old(workers) - 1 && settling == old(settling) - 1
    {
      workers, settling := workers - 1, settling - 1;
    }

    /** A shutdown refuses everything new from here on. */
    method Close()
      requires Valid()
      modifies this`draining, this`closed
      ensures Valid() && draining && closed
    {
      draining, closed := true, true;
    }

    /** The wait of a shutdown is over exactly when no admission and no effect is left, not even one that is
        returning. */
    method WaitIsOver() returns (over: bool)
      requires Valid()
      ensures over <==> active == {} && effects == 0 && settling == 0
    {
      over := workers == 0;
    }
  }
}
