/** What one sweep cleans up, and what no sweep ever does. */
module Leaks {
  import opened Kube
  import opened ServerJob
  import opened SweepMachine
  import opened Protocol
  import opened Invariant
  import opened Preservation
  import opened Safety
  import opened Text

  /** No API error reaches the sweep, the process does not restart, and no PV of this name appears. */
  predicate Undisturbed(e: Event, pv: string) {
    !e.Restart? && (e.SweepSteps? ==> e.w.fault == Fine) && (e.PvsChanged? ==> pv !in e.pvs)
  }

  /** pv's claim is gone, it has no PV, and no call works on it. */
  predicate Abandoned(s: State, pv: string) {
    DeadPv(s, pv) && pv !in s.c.pvs && pv !in s.calls
  }

  /** Leak freedom, exactly. An undisturbed sweep leaves no object of an abandoned PV, whatever the other claims,
      calls and users do meanwhile, if and only if the PV's backend claim was still there or nothing was left of
      it: the sweep lists only backend claims. */
  lemma {:induction false} LeakFreedomIff(cfg: Config, s: State, run: seq<Event>, n: nat, pv: string)
    requires Reachable(cfg, s) && IsRun(cfg, s, run) && 1 <= n <= |run| && run[0].SweepStarts?
    requires Abandoned(s, pv) && forall m | 0 <= m < n :: Undisturbed(run[m], pv)
    requires StateAt(cfg, s, run, n).gc.Idle?
    ensures NoneLeft(cfg, StateAt(cfg, s, run, n), pv) <==> HasPvc(cfg, s, pv) || NoneLeft(cfg, s, pv)
  {
    ReachableInv(cfg, s);
    SweepFromIdle(cfg, s, run);
    if HasPvc(cfg, s, pv) || NoneLeft(cfg, s, pv) {
      DoomedStays(cfg, s, run, n, pv);
    } else {
      OrphanStaysUndisturbed(cfg, s, run, n, pv);
    }
  }

  lemma {:induction false} SweepFromIdle(cfg: Config, s: State, run: seq<Event>)
    requires IsRun(cfg, s, run) && run != [] && run[0].SweepStarts?
    ensures s.gc.Idle? && IsListing(cfg, s.c, run[0].todo)
    ensures StateAt(cfg, s, run, 1) == Apply(cfg, s, run[0])
  {
    assert StateAt(cfg, s, run, 0) == s && EnabledAt(cfg, s, run, 0);
  }

  /** So a sweep cleans up after every PV on which no Provision call registered too late. */
  lemma {:induction false} LeakFreedom(cfg: Config, s: State, run: seq<Event>, n: nat, pv: string)
    requires Reachable(cfg, s) && IsRun(cfg, s, run) && 1 <= n <= |run| && run[0].SweepStarts?
    requires Abandoned(s, pv) && pv !in s.raced && forall m | 0 <= m < n :: Undisturbed(run[m], pv)
    requires StateAt(cfg, s, run, n).gc.Idle?
    ensures NoneLeft(cfg, StateAt(cfg, s, run, n), pv)
  {
    ResourceChain(cfg, s, pv);
    LeakFreedomIff(cfg, s, run, n, pv);
  }

  /** An abandoned PV's backend claim is on the sweep's list, or nothing is left of it; and where the sweep has
      been with its deletion, nothing is left either. */
  ghost predicate Doomed(cfg: Config, s: State, pv: string) {
    && Inv(cfg, s) && Abandoned(s, pv)
    && (if HasPvc(cfg, s, pv) then s.gc.Sweeping? && OnList(cfg, s.gc.todo, pv) else NoneLeft(cfg, s, pv))
    && (PastTrackerCheck(cfg, s, pv) && s.gc.at.Deleting? ==> RemoverHas(cfg, s, pv, s.gc.at.job))
  }

  ghost predicate OnList(cfg: Config, todo: seq<Listed>, pv: string) {
    exists i :: 0 <= i < |todo| && todo[i].key == BackendKey(cfg, pv)
  }

  lemma {:induction false} DoomedFromListing(cfg: Config, s: State, todo: seq<Listed>, pv: string)
    requires Inv(cfg, s) && Enabled(cfg, s, SweepStarts(todo)) && Abandoned(s, pv)
    requires HasPvc(cfg, s, pv) || NoneLeft(cfg, s, pv)
    ensures Doomed(cfg, Apply(cfg, s, SweepStarts(todo)), pv)
  {
    SweepStartKeeps(cfg, s, todo);
    var k := BackendKey(cfg, pv);
    assert PvInv(cfg, s, pv);
    if HasPvc(cfg, s, pv) {
      assert Selected(cfg, k, s.c.pvcs[k]);
      assert Listed(k, s.c.pvcs[k]) in todo;
    }
  }

  lemma {:induction false} DoomedStays(cfg: Config, s: State, run: seq<Event>, n: nat, pv: string)
    requires IsRun(cfg, s, run) && 1 <= n <= |run| && run[0].SweepStarts? && Inv(cfg, s) && Abandoned(s, pv)
    requires HasPvc(cfg, s, pv) || NoneLeft(cfg, s, pv)
    requires forall m | 0 <= m < n :: Undisturbed(run[m], pv)
    ensures Doomed(cfg, StateAt(cfg, s, run, n), pv)
  {
    if n > 1 {
      DoomedStays(cfg, s, run, n - 1, pv);
      assert EnabledAt(cfg, s, run, n - 1);
      DoomedStep(cfg, StateAt(cfg, s, run, n - 1), run[n - 1], pv);
    } else {
      SweepFromIdle(cfg, s, run);
      DoomedFromListing(cfg, s, run[0].todo, pv);
    }
  }

  lemma {:induction false} DoomedStep(cfg: Config, s: State, e: Event, pv: string)
    requires Doomed(cfg, s, pv) && Enabled(cfg, s, e) && Undisturbed(e, pv)
    ensures Doomed(cfg, Apply(cfg, s, e), pv)
  {
    StepKeeps(cfg, s, e);
    match e
    case CallSteps(p, w) => DoomedCallStep(cfg, s, p, w, pv);
    case SweepSteps(w) => DoomedSweepStep(cfg, s, w, pv);
    case SweepStarts(todo) => DoomedFromListing(cfg, s, todo, pv);
    case _ => DoomedOtherwise(cfg, s, e, pv);
  }

  lemma {:induction false} DoomedOtherwise(cfg: Config, s: State, e: Event, pv: string)
    requires Doomed(cfg, s, pv) && Enabled(cfg, s, e) && Undisturbed(e, pv) && Inv(cfg, Apply(cfg, s, e))
    requires !e.CallSteps? && !e.SweepSteps? && !e.SweepStarts?
    ensures Doomed(cfg, Apply(cfg, s, e), pv)
  {
    ReservedKey(cfg, pv);
  }

  lemma {:induction false} DoomedCallStep(cfg: Config, s: State, p: string, w: Weather, pv: string)
    requires Doomed(cfg, s, pv) && Enabled(cfg, s, CallSteps(p, w)) && Inv(cfg, Apply(cfg, s, CallSteps(p, w)))
    ensures Doomed(cfg, Apply(cfg, s, CallSteps(p, w)), pv)
  {
    assert PvInv(cfg, s, p);
    AdvanceFrame(cfg, s.calls[p].job, s.c, w, pv);
    AdvanceKeepsClaims(cfg, s, s.calls[p].job, w, Apply(cfg, s, CallSteps(p, w)));
  }

  lemma {:induction false} DoomedSweepStep(cfg: Config, s: State, w: Weather, pv: string)
    requires Doomed(cfg, s, pv) && Enabled(cfg, s, SweepSteps(w)) && w.fault == Fine
    requires Inv(cfg, Apply(cfg, s, SweepSteps(w)))
    ensures Doomed(cfg, Apply(cfg, s, SweepSteps(w)), pv)
  {
    SweepStepKeepsAbandoned(cfg, s, w, pv);
    assert ItemInv(cfg, s.born, s.gc.todo[0]);
    if s.gc.todo[0].key != BackendKey(cfg, pv) {
      OtherItem(cfg, s, w, pv);
    } else if s.gc.at.Deleting? {
      OwnItemDeleted(cfg, s, w, pv);
    } else {
      OwnItemChecked(cfg, s, w, pv);
    }
  }

  lemma {:induction false} SweepStepKeepsAbandoned(cfg: Config, s: State, w: Weather, pv: string)
    requires BornInv(cfg, s) && Enabled(cfg, s, SweepSteps(w)) && Abandoned(s, pv)
    ensures Abandoned(Apply(cfg, s, SweepSteps(w)), pv)
  {
    if s.gc.at.Deleting? {
      AdvanceKeepsClaims(cfg, s, s.gc.at.job, w, Apply(cfg, s, SweepSteps(w)));
    }
  }

  /** A step on another item leaves pv's objects and pv's place on the list alone. */
  lemma {:induction false} OtherItem(cfg: Config, s: State, w: Weather, pv: string)
    requires GcInv(cfg, s) && Enabled(cfg, s, SweepSteps(w)) && s.gc.todo[0].key != BackendKey(cfg, pv)
    ensures var s' := Apply(cfg, s, SweepSteps(w));
      && (HasPvc(cfg, s', pv) <==> HasPvc(cfg, s, pv))
      && (HasDeployment(cfg, s', pv) <==> HasDeployment(cfg, s, pv))
      && (HasService(cfg, s', pv) <==> HasService(cfg, s, pv))
      && !(PastTrackerCheck(cfg, s', pv) && s'.gc.at.Deleting?)
      && (OnList(cfg, s.gc.todo, pv) <==> s'.gc.Sweeping? && OnList(cfg, s'.gc.todo, pv))
  {
    var it := s.gc.todo[0];
    assert ItemInv(cfg, s.born, it);
    if s.gc.at.Deleting? {
      NameSplits(it.key.1);
      AdvanceFrame(cfg, s.gc.at.job, s.c, w, pv);
    }
    OnListTail(cfg, s.gc.todo, pv);
  }

  lemma {:induction false} OnListTail(cfg: Config, todo: seq<Listed>, pv: string)
    requires todo != []
    ensures OnList(cfg, todo, pv) <==> todo[0].key == BackendKey(cfg, pv) || OnList(cfg, todo[1..], pv)
  {
    if i :| 0 <= i < |todo[1..]| && todo[1..][i].key == BackendKey(cfg, pv) {
      assert todo[i + 1] == todo[1..][i];
    }
    if i :| 0 < i < |todo| && todo[i].key == BackendKey(cfg, pv) {
      assert todo[1..][i - 1] == todo[i];
    }
  }

  /** The checks find an abandoned PV stale, if its backend claim is there. */
  lemma {:induction false} OwnItemChecked(cfg: Config, s: State, w: Weather, pv: string)
    requires Doomed(cfg, s, pv) && Enabled(cfg, s, SweepSteps(w)) && w.fault == Fine
    requires s.gc.todo[0].key == BackendKey(cfg, pv) && !s.gc.at.Deleting?
    ensures var s' := Apply(cfg, s, SweepSteps(w));
      && s'.c == s.c && s'.gc.Sweeping? && s'.gc.todo == s.gc.todo
      && (s'.gc.at.Deleting? ==> s'.gc.at.job.pc.DelGetSvc?)
  {
    var it := s.gc.todo[0];
    assert it.key.1[4..] == pv && ItemInv(cfg, s.born, it);
    ScanKnown(cfg, s.born, it);
    assert PvInv(cfg, s, pv);
  }

  /** The deletion goes on until nothing is left. */
  lemma {:induction false} OwnItemDeleted(cfg: Config, s: State, w: Weather, pv: string)
    requires Doomed(cfg, s, pv) && Enabled(cfg, s, SweepSteps(w)) && w.fault == Fine
    requires s.gc.todo[0].key == BackendKey(cfg, pv) && s.gc.at.Deleting?
    ensures var s' := Apply(cfg, s, SweepSteps(w));
      && (NoneLeft(cfg, s', pv)
          || (HasPvc(cfg, s, pv) && s'.gc.Sweeping? && s'.gc.todo == s.gc.todo && HasPvc(cfg, s', pv)))
      && (s'.gc.Sweeping? && s'.gc.at.Deleting? ==> RemoverHas(cfg, s', pv, s'.gc.at.job))
  {
    assert s.gc.todo[0].key.1[4..] == pv;
    CollectorClears(cfg, s.gc.at.job, s.c, w);
  }

  /** Without faults a collecting job that leaves nothing behind it leaves nothing at all when it returns. */
  lemma {:induction false} CollectorClears(cfg: Config, t: Job, c: Cluster, w: Weather)
    requires t.kind == Collect && Removing(t.pc) && w.fault == Fine
    requires var k := BackendKey(cfg, t.opts.pvName);
      (PastSvc(t.pc) ==> k !in c.services) && (PastDep(t.pc) ==> k !in c.deployments)
    ensures var (t', c') := Advance(cfg, t, c, w); var k := BackendKey(cfg, t.opts.pvName);
      && (PastSvc(t'.pc) ==> k !in c'.services) && (PastDep(t'.pc) ==> k !in c'.deployments)
      && (t'.pc.Returned? ==> k !in c'.pvcs && k !in c'.deployments && k !in c'.services)
      && (!t'.pc.Returned? ==> c'.pvcs == c.pvcs)
      && (k in c'.pvcs ==> k in c.pvcs) && (k in c'.deployments ==> k in c.deployments)
      && (k in c'.services ==> k in c.services)
  {
    match t.pc
    case _ =>
  }

  /** A Deployment or Service that no claim, backend claim or call stands behind, and that is not on the sweep's
      list. */
  ghost predicate Orphaned(cfg: Config, s: State, pv: string) {
    && Inv(cfg, s)
    && (HasDeployment(cfg, s, pv) || HasService(cfg, s, pv)) && !HasPvc(cfg, s, pv)
    && DeadPv(s, pv) && pv !in s.calls
    && (s.gc.Sweeping? ==> !OnList(cfg, s.gc.todo, pv))
  }

  /** What s has of a Deployment and Service, s' has. */
  predicate KeepsOrphan(cfg: Config, s: State, s': State, pv: string) {
    (HasDeployment(cfg, s, pv) ==> HasDeployment(cfg, s', pv)) && (HasService(cfg, s, pv) ==> HasService(cfg, s', pv))
  }

  /** No sweep removes an orphan, however many there are and whatever else happens, unless a Delete call is made
      for its PV. */
  lemma {:induction false} OrphanIsNeverSwept(cfg: Config, s: State, run: seq<Event>, n: nat, pv: string)
    requires IsRun(cfg, s, run) && n <= |run| && Orphaned(cfg, s, pv)
    requires forall m | 0 <= m < n :: !(run[m].DeleteCalled? && run[m].pv == pv)
    ensures var t := StateAt(cfg, s, run, n); Orphaned(cfg, t, pv) && KeepsOrphan(cfg, s, t, pv)
  {
    if n > 0 {
      OrphanIsNeverSwept(cfg, s, run, n - 1, pv);
      assert EnabledAt(cfg, s, run, n - 1);
      OrphanStays(cfg, StateAt(cfg, s, run, n - 1), run[n - 1], pv);
    }
  }

  /** While no PV of its name appears no Delete call can be made. */
  lemma {:induction false} OrphanStaysUndisturbed(cfg: Config, s: State, run: seq<Event>, n: nat, pv: string)
    requires IsRun(cfg, s, run) && n <= |run| && Inv(cfg, s) && s.gc.Idle? && Abandoned(s, pv)
    requires !HasPvc(cfg, s, pv) && !NoneLeft(cfg, s, pv)
    requires forall m | 0 <= m < n :: Undisturbed(run[m], pv)
    ensures var t := StateAt(cfg, s, run, n); Orphaned(cfg, t, pv) && pv !in t.c.pvs
  {
    if n > 0 {
      OrphanStaysUndisturbed(cfg, s, run, n - 1, pv);
      assert EnabledAt(cfg, s, run, n - 1);
      OrphanStays(cfg, StateAt(cfg, s, run, n - 1), run[n - 1], pv);
      NoPvAppears(cfg, StateAt(cfg, s, run, n - 1), run[n - 1], pv);
    }
  }

  lemma {:induction false} NoPvAppears(cfg: Config, s: State, e: Event, pv: string)
    requires pv !in s.c.pvs && Undisturbed(e, pv)
    ensures pv !in Apply(cfg, s, e).c.pvs
  {
  }

  lemma {:induction false} OrphanStays(cfg: Config, s: State, e: Event, pv: string)
    requires Orphaned(cfg, s, pv) && Enabled(cfg, s, e) && !(e.DeleteCalled? && e.pv == pv)
    ensures var s' := Apply(cfg, s, e); Orphaned(cfg, s', pv) && KeepsOrphan(cfg, s, s', pv)
  {
    StepKeeps(cfg, s, e);
    match e
    case CallSteps(p, w) =>
      assert PvInv(cfg, s, p);
      AdvanceFrame(cfg, s.calls[p].job, s.c, w, pv);
      AdvanceKeepsClaims(cfg, s, s.calls[p].job, w, Apply(cfg, s, e));
    case SweepSteps(w) => OrphanOutlivesSweep(cfg, s, w, pv);
    case _ => ReservedKey(cfg, pv);
  }

  lemma {:induction false} OrphanOutlivesSweep(cfg: Config, s: State, w: Weather, pv: string)
    requires Orphaned(cfg, s, pv) && Enabled(cfg, s, SweepSteps(w)) && Inv(cfg, Apply(cfg, s, SweepSteps(w)))
    ensures var s' := Apply(cfg, s, SweepSteps(w)); Orphaned(cfg, s', pv) && KeepsOrphan(cfg, s, s', pv)
  {
    OnListTail(cfg, s.gc.todo, pv);
    OtherItem(cfg, s, w, pv);
    if s.gc.at.Deleting? {
      AdvanceKeepsClaims(cfg, s, s.gc.at.job, w, Apply(cfg, s, SweepSteps(w)));
    }
  }

  /** Without PV and after a restart, a Service without backend claim is an orphan of an abandoned PV. */
  lemma {:induction false} RestartOrphans(cfg: Config, s: State, pv: string)
    requires Reachable(cfg, s) && HasService(cfg, s, pv) && !HasPvc(cfg, s, pv)
    ensures var t := Apply(cfg, Apply(cfg, s, PvsChanged(s.c.pvs - {pv})), Restart);
      Orphaned(cfg, t, pv) && Abandoned(t, pv) && t.gc.Idle? && t.c == s.c.(pvs := s.c.pvs - {pv})
  {
    ReachableInv(cfg, s);
    assert PvInv(cfg, s, pv);
    StepKeeps(cfg, s, PvsChanged(s.c.pvs - {pv}));
    RestartKeeps(cfg, Apply(cfg, s, PvsChanged(s.c.pvs - {pv})));
  }
}
