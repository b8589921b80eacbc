/** The runtime controller: its derived state and the accounting of the message monitors. */
module RuntimeControl {

  datatype Status = Starting | Ready | Draining | Stopping | Degraded

  class MonitorProbe {
    var running: bool
    var healthy: bool
    var pending: bool

    constructor ()
      ensures !running && !healthy && !pending
    {
      running, healthy, pending := false, false, false;
    }
  }

  /** The probes that report health, as the controller only counts them. */
  ghost function HealthyOf(probes: set<MonitorProbe>): set<MonitorProbe>
    reads probes
  {
    set p | p in probes && p.healthy
  }

  class Controller {
    var status: Status
    var codexReady: bool
    var draining: bool
    var initialized: bool
    var staging: nat
    var monitors: nat
    var healthy: nat
    var pendingBatches: set<MonitorProbe>
    ghost var probes: set<MonitorProbe>

    /** The counters agree with the probes and the status with everything it is derived from. */
    ghost predicate Valid()
      reads this, probes
    {
      Counted() && forall p | p in probes :: p.healthy || p.pending ==> p.running
    }

    ghost predicate Counted()
      reads this, probes
    {
      && monitors == |probes| && healthy == |HealthyOf(probes)|
      && pendingBatches <= probes && (forall p | p in probes :: p in pendingBatches <==> p.pending)
      && (status == Stopping || status == Derived())
    }

    function Derived(): Status
      reads this
    {
      if draining then Draining
      else if !initialized then Starting
      else if !codexReady || (monitors > 0 && healthy < monitors) then Degraded
      else Ready
    }

    constructor ()
      ensures Valid() && probes == {} && status == Starting && !draining && staging == 0
    {
      status, codexReady, draining, initialized, staging := Starting, false, false, false, 0;
      monitors, healthy, pendingBatches, probes := 0, 0, {}, {};
      new;
      assert HealthyOf(probes) == {};
    }

    /** What the status tells an operator: ready means that every monitor is healthy and nothing is being drained. */
    lemma ReadyMeans()
      requires Valid() && status != Stopping
      ensures status == Ready <==> !draining && initialized && codexReady && forall p | p in probes :: p.healthy
    {
      HealthyAll(probes);
    }

    method Recalculate()
      modifies this`status
      ensures status == if old(status) == Stopping then Stopping else Derived()
    {
      if status == Stopping {
        return;
      }
      if draining {
        status := Draining;
      } else if !initialized {
        status := Starting;
      } else if !codexReady || (monitors > 0 && healthy < monitors) {
        status := Degraded;
      } else {
        status := Ready;
      }
    }

    method SetCodexReady(ready: bool)
      requires Valid()
      modifies this`codexReady, this`status
      ensures Valid() && codexReady == ready
    {
      codexReady := ready;
      Recalculate();
    }

    method SetReady()
      requires Valid()
      modifies this`initialized, this`status
      ensures Valid() && initialized
    {
      initialized := true;
      Recalculate();
    }

    /** Stopping is final: no later change of anything leaves it. */
    method SetStopping()
      requires Valid()
      modifies this`status
      ensures Valid() && status == Stopping
    {
      status := Stopping;
    }

    method SetDraining(value: bool)
      requires Valid()
      modifies this`draining, this`status
      ensures Valid() && draining == value
    {
      draining := value;
      Recalculate();
    }

    method BeginIngress()
      requires Valid()
      modifies this`staging
      ensures Valid() && staging == old(staging) + 1
    {
      staging := staging + 1;
    }

    method EndIngress()
      requires Valid()
      modifies this`staging
      ensures Valid() && staging == if old(staging) > 0 then old(staging) - 1 else 0
    {
      if staging > 0 {
        staging := staging - 1;
      }
    }

    method NewMonitorProbe() returns (p: MonitorProbe)
      requires Valid()
      modifies this`monitors, this`status, this`probes
      ensures Valid() && fresh(p) && probes == old(probes) + {p} && !p.running
    {
      p := new MonitorProbe();
      assert HealthyOf(probes + {p}) == HealthyOf(probes);
      monitors, probes := monitors + 1, probes + {p};
      Recalculate();
    }

    /** A change of one probe's health moves the counter by one, and only when it is a change. */
    method SetHealthyLocked(p: MonitorProbe, value: bool)
      requires Counted() && p in probes
      modifies p`healthy, this`healthy, this`status
      ensures Counted() && p.healthy == value
    {
      if p.healthy == value {
        return;
      }
      ghost var before := HealthyOf(probes);
      p.healthy := value;
      ghost var after := HealthyOf(probes);
      OneChanged(before, after, p, value);
      if value {
        healthy := healthy + 1;
      } else if healthy > 0 {
        healthy := healthy - 1;
      }
      assert healthy == |after|;
      Recalculate();
      assert HealthyOf(probes) == after;
    }

    method SetPendingLocked(p: MonitorProbe, value: bool)
      requires Counted() && p in probes
      modifies p`pending, this`pendingBatches
      ensures Counted() && p.pending == value
    {
      if p.pending == value {
        return;
      }
      p.pending := value;
      assert HealthyOf(probes) == old(HealthyOf(probes));
      if value {
        pendingBatches := pendingBatches + {p};
      } else {
        pendingBatches := pendingBatches - {p};
      }
      assert HealthyOf(probes) == old(HealthyOf(probes));
    }

    /** A monitor that stops is neither healthy nor in the middle of a batch. */
    method SetRunning(p: MonitorProbe, value: bool)
      requires Valid() && p in probes
      modifies p, this`healthy, this`status, this`pendingBatches
      ensures Valid() && p.running == value && (!value ==> !p.healthy && !p.pending)
    {
      if p.running == value {
        return;
      }
      p.running := value;
      assert HealthyOf(probes) == old(HealthyOf(probes));
      if !value {
        SetHealthyLocked(p, false);
        SetPendingLocked(p, false);
      }
    }

    method SetHealthy(p: MonitorProbe, value: bool)
      requires Valid() && p in probes
      modifies p`healthy, this`healthy, this`status
      ensures Valid() && p.healthy == (value && p.running)
    {
      SetHealthyLocked(p, value && p.running);
    }

    method SetBatchPending(p: MonitorProbe, value: bool)
      requires Valid() && p in probes
      modifies p`pending, this`pendingBatches
      ensures Valid() && p.pending == (value && p.running)
    {
      SetPendingLocked(p, value && p.running);
    }

    /** The verdict of a snapshot over one reading of the flags and a later one of the task counts. */
    method DrainComplete(active: nat) returns (complete: bool)
      requires Valid()
      ensures complete <==> draining && active == 0 && staging == 0 && forall p | p in probes :: !p.pending
    {
      complete := draining && active == 0 && staging == 0 && |pendingBatches| == 0;
      if complete {
        assert pendingBatches == {};
        forall p | p in probes ensures !p.pending { assert p !in pendingBatches; }
      } else if draining && active == 0 && staging == 0 {
        ghost var p :| p in pendingBatches;
      }
    }
  }

  lemma OneChanged(before: set<MonitorProbe>, after: set<MonitorProbe>, p: MonitorProbe, value: bool)
    requires (p in after <==> value) && (p in before <==> !value)
    requires forall q | q in before + after && q != p :: q in before && q in after
    ensures |after| == |before| + if value then 1 else -1
  {
    if value {
      assert after == before + {p};
    } else {
      assert before == after + {p};
    }
  }

  lemma HealthyAll(probes: set<MonitorProbe>)
    ensures |HealthyOf(probes)| <= |probes|
    ensures |HealthyOf(probes)| == |probes| <==> forall p | p in probes :: p.healthy
  {
    var healthy := HealthyOf(probes);
    assert probes == healthy + (probes - healthy);
    assert |probes| == |healthy| + |probes - healthy|;
    if forall p | p in probes :: p.healthy {
      assert healthy == probes;
    } else {
      var p :| p in probes && !p.healthy;
      assert p in probes - healthy;
    }
  }
}
