/** What can still happen: from every reachable state a live claim can be provisioned, and the sweep can reach
    and finish any stale claim. */
module Progress {
  import opened Bridge
  import opened Kube
  import opened ServerJob
  import opened SweepMachine
  import opened Protocol
  import opened Invariant
  import opened Preservation
  import opened Runs
  import opened Safety
  import opened Solo
  import opened Text

  /** The Provision call on pv is registered, has met no obstacle so far, and has what it has built. */
  predicate OnTrack(cfg: Config, s: State, pv: string) {
    var k := BackendKey(cfg, pv);
    && ProvisionRegistered(s, pv)
    && var t := s.calls[pv].job;
    && CreatorHas(cfg, s, pv, t)
    && t.pc != Returned(false) && t.opts.ticks > 0
    && (t.pc.CreatePvc? ==> k !in s.c.pvcs)
    && (t.pc.CreateDep? ==> k !in s.c.deployments)
    && (t.pc.CreateSvc? ==> k !in s.c.services)
    && (t.pc.WaitBound? ==> t.pc.left > 0)
  }

  predicate NeedsBinding(cfg: Config, s: State, pv: string) {
    pv in s.calls && s.calls[pv].job.pc.WaitBound? && HasPvc(cfg, s, pv) && !s.c.pvcs[BackendKey(cfg, pv)].bound
  }

  /** Between s and s' only the call on pv and the objects of pv have moved. */
  predicate OnlyCallMoved(s: State, s': State, pv: string) {
    && s'.gc == s.gc && s'.tracker == s.tracker && s'.born == s.born && s'.raced == s.raced
    && s'.c.pvs == s.c.pvs && s'.calls - {pv} == s.calls - {pv}
    && (LivePv(s, pv) ==> LivePv(s', pv))
  }

  lemma {:induction false} StaysOnTrack(cfg: Config, s: State, pv: string)
    requires Inv(cfg, s) && OnTrack(cfg, s, pv) && !s.calls[pv].job.pc.Returned? && !NeedsBinding(cfg, s, pv)
    ensures var s' := Apply(cfg, s, CallSteps(pv, CALM));
      && OnTrack(cfg, s', pv) && OnlyCallMoved(s, s', pv) && Rank(s'.calls[pv].job) < Rank(s.calls[pv].job)
  {
    var t, s' := s.calls[pv].job, Apply(cfg, s, CallSteps(pv, CALM));
    assert PvInv(cfg, s, pv);
    JobTerminates(cfg, t, s.c, CALM);
    CalmAdvance(cfg, t, s.c);
    AdvanceKeepsClaims(cfg, s, t, CALM, s');
    PvsStay(cfg, t, s.c, CALM);
    if Writes(t.pc) {
      CreatorWrites(cfg, s, pv, t, CALM, s');
    } else {
      AdvanceKeepsKind(cfg, t, s.c, CALM);
      CreatorReads(cfg, s, pv, t, CALM, s');
    }
  }

  lemma {:induction false} CalmAdvance(cfg: Config, t: Job, c: Cluster)
    requires Creating(t.pc) && !t.pc.Returned? && t.kind == Provision && t.opts.ticks > 0
    requires var k := BackendKey(cfg, t.opts.pvName);
      && (t.pc.CreatePvc? ==> k !in c.pvcs) && (t.pc.CreateDep? ==> k !in c.deployments)
      && (t.pc.CreateSvc? ==> k !in c.services)
      && (t.pc.WaitBound? ==> t.pc.left > 0 && k in c.pvcs && c.pvcs[k].bound)
      && (t.pc.GetAddress? ==> t.opts.serviceName == k.1 && k in c.services)
    ensures var (t', c') := Advance(cfg, t, c, CALM); var k := BackendKey(cfg, t.opts.pvName);
      && t'.kind == Provision && t'.pc != Returned(false) && t'.opts.ticks == t.opts.ticks
      && (t'.pc.CreatePvc? ==> k !in c'.pvcs) && (t'.pc.CreateDep? ==> k !in c'.deployments)
      && (t'.pc.CreateSvc? ==> k !in c'.services) && (t'.pc.WaitBound? ==> t'.pc.left > 0)
  {
  }

  lemma {:induction false} PvsStay(cfg: Config, t: Job, c: Cluster, w: Weather)
    ensures Advance(cfg, t, c, w).1.pvs == c.pvs
  {
  }

  /** A Provision call on track can run to its end with nobody else moving, except storage. */
  lemma {:induction false} CanReturn(cfg: Config, s: State, pv: string) returns (run: seq<Event>)
    requires Inv(cfg, s) && OnTrack(cfg, s, pv)
    ensures IsRun(cfg, s, run)
    ensures var t := EndOf(cfg, s, run);
      Inv(cfg, t) && OnTrack(cfg, t, pv) && t.calls[pv].job.pc == Returned(true) && OnlyCallMoved(s, t, pv)
    decreases Rank(s.calls[pv].job), NeedsBinding(cfg, s, pv)
  {
    run := [];
    if !s.calls[pv].job.pc.Returned? {
      var e := NextEvent(cfg, s, pv);
      run := CanReturn(cfg, Apply(cfg, s, e), pv);
      Prepended(cfg, s, e, run);
      run := [e] + run;
    }
  }

  lemma {:induction false} NextEvent(cfg: Config, s: State, pv: string) returns (e: Event)
    requires Inv(cfg, s) && OnTrack(cfg, s, pv) && !s.calls[pv].job.pc.Returned?
    ensures Enabled(cfg, s, e)
    ensures var s' := Apply(cfg, s, e);
      && Inv(cfg, s') && OnTrack(cfg, s', pv) && OnlyCallMoved(s, s', pv)
      && (Rank(s'.calls[pv].job) < Rank(s.calls[pv].job)
          || (s'.calls[pv] == s.calls[pv] && NeedsBinding(cfg, s, pv) && !NeedsBinding(cfg, s', pv)))
  {
    if NeedsBinding(cfg, s, pv) {
      e := PhaseChanged(BackendKey(cfg, pv), true);
      BindingKeepsTrack(cfg, s, pv);
    } else {
      e := CallSteps(pv, CALM);
      StaysOnTrack(cfg, s, pv);
    }
    StepKeeps(cfg, s, e);
  }

  lemma {:induction false} BindingKeepsTrack(cfg: Config, s: State, pv: string)
    requires OnTrack(cfg, s, pv) && NeedsBinding(cfg, s, pv)
    ensures var s' := Apply(cfg, s, PhaseChanged(BackendKey(cfg, pv), true));
      && OnTrack(cfg, s', pv) && OnlyCallMoved(s, s', pv) && s'.calls == s.calls && !NeedsBinding(cfg, s', pv)
  {
  }

  /** A Provision call that has just registered is on track. */
  lemma {:induction false} Enters(cfg: Config, s: State, uid: string, ticks: nat)
    requires Inv(cfg, s) && Live(s, uid) && PVName(uid) !in s.calls && ticks > 0
    ensures var pv := PVName(uid); var entered := Apply(cfg, s, ProvisionCalled(uid, ticks));
      var t := Apply(cfg, entered, CallRegisters(pv));
      && Enabled(cfg, s, ProvisionCalled(uid, ticks)) && Enabled(cfg, entered, CallRegisters(pv))
      && Inv(cfg, t) && OnTrack(cfg, t, pv)
      && t.c == s.c && t.gc == s.gc && t.born == s.born
      && t.calls - {pv} == s.calls && t.tracker - {pv} == s.tracker
  {
    var pv := PVName(uid);
    assert PvInv(cfg, s, pv);
    StepKeeps(cfg, s, ProvisionCalled(uid, ticks));
    StepKeeps(cfg, Apply(cfg, s, ProvisionCalled(uid, ticks)), CallRegisters(pv));
  }

  /** From every reachable state, whatever was left behind by failures, restarts and sweeps, a live claim that
      no call works on can be provisioned, with the sweep and everybody else standing still. */
  lemma {:induction false} LiveClaimCanBeProvisioned(cfg: Config, s: State, uid: string) returns (run: seq<Event>)
    requires Reachable(cfg, s) && Live(s, uid) && PVName(uid) !in s.calls
    ensures var pv := PVName(uid);
      && IsRun(cfg, s, run) && run != [] && FinishesAt(cfg, s, run, |run| - 1, pv)
      && var t := EndOf(cfg, s, run);
      && Live(t, uid) && t.calls == s.calls && t.gc == s.gc && t.c.pvs == s.c.pvs && t.tracker == s.tracker
  {
    ReachableInv(cfg, s);
    var work := CanWork(cfg, s, uid);
    run := CallLeaves(cfg, s, work, PVName(uid));
  }

  lemma {:induction false} CanWork(cfg: Config, s: State, uid: string) returns (run: seq<Event>)
    requires Inv(cfg, s) && Live(s, uid) && PVName(uid) !in s.calls
    ensures IsRun(cfg, s, run)
    ensures var pv, t := PVName(uid), EndOf(cfg, s, run);
      && ProvisionRegistered(t, pv) && t.calls[pv].job.pc == Returned(true)
      && Live(t, uid) && t.calls - {pv} == s.calls && t.gc == s.gc && t.c.pvs == s.c.pvs
      && t.tracker - {pv} == s.tracker
  {
    var pv := PVName(uid);
    assert pv == "pvc-" + uid && pv[4..] == uid;
    Enters(cfg, s, uid, 1);
    var call, register := ProvisionCalled(uid, 1), CallRegisters(pv);
    var entered := Apply(cfg, s, call);
    var work := CanReturn(cfg, Apply(cfg, entered, register), pv);
    Prepended(cfg, entered, register, work);
    Prepended(cfg, s, call, [register] + work);
    run := [call] + ([register] + work);
  }

  /** From every state a dead claim's PV that no call works on can be deleted, with the sweep and everybody else
      standing still: Delete returns without error, and exactly the PV's objects are gone. */
  lemma {:induction false} DeadPvCanBeDeleted(cfg: Config, s: State, pv: string) returns (run: seq<Event>)
    requires pv in s.c.pvs && DeadPv(s, pv) && pv !in s.calls
    ensures IsRun(cfg, s, run) && run != [] && DeletedAt(cfg, s, run, |run| - 1, pv)
    ensures var t := EndOf(cfg, s, run);
      && NoneLeft(cfg, t, pv) && t.c == Unprovisioned(cfg, s.c, pv)
      && t.calls == s.calls && t.gc == s.gc && t.tracker == s.tracker - {pv}
  {
    var w: World := (n: nat) => CALM;
    var t := StartDelete(pv);
    run := DeleteIsRun(cfg, s, pv, w, 0);
    CalmDeletionSucceeds(cfg, t, s.c, w, 0);
    EndsUnprovisioned(cfg, t, s.c, pv, w, 0);
  }

  /** Some listing of the claims at `ks`. */
  lemma {:induction false} SomeListing(c: Cluster, ks: set<Key>) returns (todo: seq<Listed>)
    requires ks <= c.pvcs.Keys
    ensures forall i | 0 <= i < |todo| :: todo[i].key in ks && todo[i].pvc == c.pvcs[todo[i].key]
    ensures forall k | k in ks :: Listed(k, c.pvcs[k]) in todo
    ensures forall i, j | 0 <= i < j < |todo| :: todo[i].key != todo[j].key
    decreases |ks|
  {
    todo := [];
    if ks != {} {
      var k :| k in ks;
      var rest := SomeListing(c, ks - {k});
      todo := [Listed(k, c.pvcs[k])] + rest;
    }
  }

  /** The server may list any selected claim first. */
  lemma {:induction false} ListedFirst(cfg: Config, c: Cluster, k: Key) returns (todo: seq<Listed>)
    requires k in c.pvcs && Selected(cfg, k, c.pvcs[k])
    ensures IsListing(cfg, c, todo) && todo != [] && todo[0] == Listed(k, c.pvcs[k])
  {
    var ks := set x | x in c.pvcs && Selected(cfg, x, c.pvcs[x]);
    var rest := SomeListing(c, ks - {k});
    todo := [Listed(k, c.pvcs[k])] + rest;
  }

  /** The sweep stands before reading the PV of one of its backend claims. */
  predicate AboutToReadPv(cfg: Config, s: State, pv: string) {
    s.gc.Sweeping? && s.gc.todo != [] && s.gc.at.CheckPv? && s.gc.todo[0].key == BackendKey(cfg, pv)
  }

  /** An idle sweep can go as far as the PV read of any backend claim whose own claim is gone and whose PV is
      not tracked. */
  lemma {:induction false} SweepReaches(cfg: Config, s: State, pv: string) returns (run: seq<Event>)
    requires Inv(cfg, s) && s.gc.Idle? && HasPvc(cfg, s, pv) && DeadPv(s, pv) && pv !in s.tracker
    ensures IsRun(cfg, s, run)
    ensures var t := EndOf(cfg, s, run); AboutToReadPv(cfg, t, pv) && t == s.(gc := t.gc)
  {
    var k := BackendKey(cfg, pv);
    BackendClaimItem(cfg, s, pv);
    var todo := ListedFirst(cfg, s.c, k);
    assert k.1[4..] == pv;
    BackendClaimScans(cfg, s, todo[0]);
    var start, step := SweepStarts(todo), SweepSteps(CALM);
    var s1 := Apply(cfg, s, start);
    assert s1.gc == Sweeping(todo, CheckClaim);
    var s2 := Apply(cfg, s1, step);
    assert s2.gc == Sweeping(todo, CheckTracker);
    OneEvent(cfg, s2, step);
    Prepended(cfg, s1, step, [step]);
    run := [start] + ([step] + [step]);
    Prepended(cfg, s, start, [step] + [step]);
  }

  /** Deleting, the sweep can go on to the end of its item with nobody else moving: the backend claim goes, and
      whatever it had not passed yet. */
  lemma {:induction false} DeletionCanFinish(cfg: Config, s: State, pv: string) returns (run: seq<Event>)
    requires Inv(cfg, s) && PastTrackerCheck(cfg, s, pv) && s.gc.at.Deleting?
    ensures IsRun(cfg, s, run)
    ensures var t, pc := EndOf(cfg, s, run), s.gc.at.job.pc;
      && t == s.(c := t.c, gc := t.gc) && t.c.pvs == s.c.pvs && !HasPvc(cfg, t, pv)
      && (if PastDep(pc) then t.c.deployments == s.c.deployments else !HasDeployment(cfg, t, pv))
      && (if PastSvc(pc) then t.c.services == s.c.services else !HasService(cfg, t, pv))
    decreases Rank(s.gc.at.job)
  {
    var e, t := SweepSteps(CALM), s.gc.at.job;
    var s' := Apply(cfg, s, e);
    assert s.gc.todo[0].key.1[4..] == pv;
    StepKeeps(cfg, s, e);
    JobTerminates(cfg, t, s.c, CALM);
    CollectorMoves(cfg, t, s.c);
    run := [];
    if !Advance(cfg, t, s.c, CALM).0.pc.Returned? {
      run := DeletionCanFinish(cfg, s', pv);
    }
    Prepended(cfg, s, e, run);
    run := [e] + run;
  }

  lemma {:induction false} CollectorMoves(cfg: Config, t: Job, c: Cluster)
    requires t.kind == Collect && Removing(t.pc)
    ensures var (t', c') := Advance(cfg, t, c, CALM); var k := BackendKey(cfg, t.opts.pvName);
      && c'.pvs == c.pvs && t'.kind == Collect && t'.opts.pvName == t.opts.pvName
      && (if t'.pc.Returned? then PastDep(t.pc) && k !in c'.pvcs else Removing(t'.pc))
      && (PastDep(t'.pc) && !PastDep(t.pc) ==> k !in c'.deployments)
      && (PastDep(t.pc) ==> c'.deployments == c.deployments && (PastDep(t'.pc) || t'.pc.Returned?))
      && (PastSvc(t'.pc) && !PastSvc(t.pc) ==> k !in c'.services)
      && (PastSvc(t.pc) ==> c'.services == c.services && (PastSvc(t'.pc) || t'.pc.Returned?))
  {
    match t.pc
    case _ =>
  }
}
