/** The two races that the sweep's order of checks leaves open, each with the runs in which it happens and the
    exact condition under which it does not. */
module Limits {
  import opened Kube
  import opened ServerJob
  import opened SweepMachine
  import opened Protocol
  import opened Invariant
  import opened Leaks
  import opened Preservation
  import opened Progress
  import opened Runs
  import opened Safety
  import opened Text

  /** A Provision call has been made for pv and has not yet put pv into the tracker. */
  predicate AboutToRegister(s: State, pv: string) {
    ProvisionCall(s, pv) && s.calls[pv].phase.Entering? && s.calls[pv].job.opts.ticks > 0
  }

  /** The sweep's deletion for pv has got beyond the Service. */
  predicate PastService(cfg: Config, s: State, pv: string) {
    PastTrackerCheck(cfg, s, pv) && s.gc.at.Deleting? && PastSvc(s.gc.at.job.pc)
  }

  predicate PastDeployment(cfg: Config, s: State, pv: string) {
    PastTrackerCheck(cfg, s, pv) && s.gc.at.Deleting? && PastDep(s.gc.at.job.pc)
  }

  /** The sweep deletes for pv beside a registered Provision call on pv. */
  predicate BothAtWork(cfg: Config, s: State, pv: string) {
    PastTrackerCheck(cfg, s, pv) && s.gc.at.Deleting? && ProvisionRegistered(s, pv)
  }

  predicate ChainBroken(cfg: Config, s: State, pv: string) {
    HasService(cfg, s, pv) && !HasPvc(cfg, s, pv)
  }

  /** The PV exists, and nothing stands behind it. */
  predicate ObjectsGone(cfg: Config, s: State, pv: string) {
    pv in s.c.pvs && NoneLeft(cfg, s, pv)
  }

  /** Event n of the run is the sweep reading that pv is absent. */
  ghost predicate MissesPvAt(cfg: Config, s: State, run: seq<Event>, n: nat, pv: string)
    requires n < |run|
  {
    var t := StateAt(cfg, s, run, n);
    run[n].SweepSteps? && AboutToReadPv(cfg, t, pv) && pv !in t.c.pvs
  }

  /** Event n of the run is the sweep removing an object of pv. */
  ghost predicate SweepLosesAt(cfg: Config, s: State, run: seq<Event>, n: nat, pv: string)
    requires n < |run|
  {
    run[n].SweepSteps? && Loses(cfg, StateAt(cfg, s, run, n), StateAt(cfg, s, run, n + 1), pv)
  }

  ghost predicate PvPresentAt(cfg: Config, s: State, run: seq<Event>, n: nat, pv: string)
    requires n <= |run|
  {
    pv in StateAt(cfg, s, run, n).c.pvs
  }

  /** Event n of the run brings pv into being. */
  ghost predicate PvAppearsAt(cfg: Config, s: State, run: seq<Event>, n: nat, pv: string)
    requires n < |run|
  {
    !PvPresentAt(cfg, s, run, n, pv) && PvPresentAt(cfg, s, run, n + 1, pv)
  }

  /** Between events m and n the sweep stays at the deletion of one item. */
  ghost predicate DeletesThroughout(cfg: Config, s: State, run: seq<Event>, m: nat, n: nat, todo: seq<Listed>)
    requires n <= |run|
  {
    forall x | m < x <= n :: IsDeleting(StateAt(cfg, s, run, x), todo)
  }

  predicate IsDeleting(s: State, todo: seq<Listed>) {
    s.gc.Sweeping? && s.gc.at.Deleting? && s.gc.todo == todo
  }

  /** The sweep is deleting the objects of a PV that exists. */
  predicate DeletesPresentPv(cfg: Config, s: State, pv: string) {
    PastTrackerCheck(cfg, s, pv) && s.gc.at.Deleting? && pv in s.c.pvs
  }

  /** Event n of the run brings pv into being while the sweep is deleting for it. */
  ghost predicate PvAppearsTooLateAt(cfg: Config, s: State, run: seq<Event>, n: nat, pv: string)
    requires n < |run|
  {
    var t := StateAt(cfg, s, run, n);
    PvAppearsAt(cfg, s, run, n, pv) && PastTrackerCheck(cfg, t, pv) && t.gc.at.Deleting?
  }

  ghost predicate PvAppearsTooLateBefore(cfg: Config, s: State, run: seq<Event>, n: nat, pv: string)
    requires n <= |run|
  {
    exists q :: 0 <= q < n && PvAppearsTooLateAt(cfg, s, run, q, pv)
  }

  ghost predicate DeletesPresentPvUpTo(cfg: Config, s: State, run: seq<Event>, n: nat, pv: string)
    requires n <= |run|
  {
    exists m :: 0 <= m <= n && DeletesPresentPv(cfg, StateAt(cfg, s, run, m), pv)
  }

  /** First race. A claim whose backend claim exists is deleted after a Provision call for it has started; the
      sweep then finds it untracked, because the call has not registered yet. */
  lemma {:induction false} RaceCanHappen(cfg: Config, s: State, uid: string) returns (run: seq<Event>)
    requires Reachable(cfg, s) && Live(s, uid) && PVName(uid) !in s.calls && s.gc.Idle?
    requires HasPvc(cfg, s, PVName(uid))
    ensures IsRun(cfg, s, run)
    ensures var t := EndOf(cfg, s, run); AboutToRegister(t, PVName(uid)) && AboutToReadPv(cfg, t, PVName(uid))
  {
    var pv := PVName(uid);
    assert pv == "pvc-" + uid && pv[4..] == uid;
    ReachableInv(cfg, s);
    assert PvInv(cfg, s, pv);
    var call, leave := ProvisionCalled(uid, 1), ClaimDeleted(s.born[uid]);
    var entered := Apply(cfg, s, call);
    StepKeeps(cfg, s, call);
    var left := Apply(cfg, entered, leave);
    StepKeeps(cfg, entered, leave);
    ReservedKey(cfg, pv);
    var sweep := SweepReaches(cfg, left, pv);
    Prepended(cfg, entered, leave, sweep);
    run := [call] + ([leave] + sweep);
    Prepended(cfg, s, call, [leave] + sweep);
  }

  /** From there the call registers beside the sweep and builds a Service whose backend claim, and mostly whose
      Deployment, the sweep deletes: whatever the sweep's position, a registration past its tracker check can
      break the chain. After m events both are at work on pv. */
  lemma {:induction false} RaceBreaksChain(cfg: Config, s: State, pv: string) returns (run: seq<Event>, m: nat)
    requires Reachable(cfg, s) && PastTrackerCheck(cfg, s, pv) && AboutToRegister(s, pv)
    ensures IsRun(cfg, s, run) && m <= |run|
    ensures BothAtWork(cfg, StateAt(cfg, s, run, m), pv)
    ensures ChainBroken(cfg, EndOf(cfg, s, run), pv)
    ensures PastDeployment(cfg, s, pv) || !HasDeployment(cfg, EndOf(cfg, s, run), pv)
  {
    ReachableInv(cfg, s);
    var before := SweepPassesService(cfg, s, pv);
    var t := EndOf(cfg, s, before);
    StaysReachable(cfg, s, before);
    var rest := BothWork(cfg, t, pv);
    Appended(cfg, s, before, rest);
    BothAtWorkLater(cfg, s, before, rest, pv);
    run, m := before + rest, |before| + 1;
  }

  /** So a Service without its Deployment and backend claim can come about from every reachable state with a
      live claim that no call works on and an idle sweep, and stay when the PV goes and the process restarts. */
  lemma {:induction false} RaceLeavesOrphan(cfg: Config, s: State, uid: string) returns (run: seq<Event>)
    requires Reachable(cfg, s) && Live(s, uid) && PVName(uid) !in s.calls && s.gc.Idle?
    ensures IsRun(cfg, s, run)
    ensures var t, pv := EndOf(cfg, s, run), PVName(uid);
      && Orphaned(cfg, t, pv) && Abandoned(t, pv) && t.gc.Idle? && !HasDeployment(cfg, t, pv)
  {
    var first := CanFinish(cfg, s, uid);
    var rest := RetryLeavesOrphan(cfg, EndOf(cfg, s, first), uid);
    Appended(cfg, s, first, rest);
    run := first + rest;
  }

  /** Second race. Whenever the sweep is about to read a PV that is absent, there is a run after which the PV
      exists and its objects have been deleted. */
  lemma {:induction false} SweepMissesPvItReadTooEarly(cfg: Config, s: State, pv: string) returns (run: seq<Event>)
    requires Reachable(cfg, s) && AboutToReadPv(cfg, s, pv) && pv !in s.c.pvs
    ensures IsRun(cfg, s, run)
    ensures ObjectsGone(cfg, EndOf(cfg, s, run), pv)
  {
    ReachableInv(cfg, s);
    ReadsOwnPv(cfg, s, pv);
    var read := SweepSteps(CALM);
    var s1 := Apply(cfg, s, read);
    StepKeeps(cfg, s, read);
    AbsentPvDoomed(cfg, s);
    var appear := PvsChanged(s1.c.pvs + {pv});
    var s2 := Apply(cfg, s1, appear);
    StepKeeps(cfg, s1, appear);
    run := DeletionCanFinish(cfg, s2, pv);
    Prepended(cfg, s1, appear, run);
    Prepended(cfg, s, read, [appear] + run);
    run := [read] + ([appear] + run);
  }

  /** It takes no failure: from every reachable state with a live claim that no call works on, an idle sweep and
      no PV, a Provision call can return Finished, the claim go, the sweep read that there is no PV, and the PV
      come into being with its objects deleted. */
  lemma {:induction false} FinishedThenSwept(cfg: Config, s: State, uid: string) returns (run: seq<Event>, i: nat)
    requires Reachable(cfg, s) && Live(s, uid) && PVName(uid) !in s.calls && s.gc.Idle? && PVName(uid) !in s.c.pvs
    ensures IsRun(cfg, s, run) && i < |run| && FinishesAt(cfg, s, run, i, PVName(uid))
    ensures ObjectsGone(cfg, EndOf(cfg, s, run), PVName(uid))
  {
    var first := CanFinish(cfg, s, uid);
    run, i := SweptAfterwards(cfg, s, first, uid);
  }

  /** Conversely this is the only way: if the sweep removes an object of a PV that exists, then in the same sweep
      it read earlier that the PV is absent, and the PV came into being in between. */
  lemma {:induction false} SweepLosesOnlyMissedPvs(cfg: Config, s: State, run: seq<Event>, n: nat, pv: string)
    returns (m: nat, q: nat)
    requires Init(cfg, s) && IsRun(cfg, s, run) && n < |run|
    requires SweepLosesAt(cfg, s, run, n, pv) && PvPresentAt(cfg, s, run, n, pv)
    ensures m < q < n && MissesPvAt(cfg, s, run, m, pv)
    ensures StateAt(cfg, s, run, m).gc.todo == StateAt(cfg, s, run, n).gc.todo
    ensures DeletesThroughout(cfg, s, run, m, n, StateAt(cfg, s, run, m).gc.todo)
    ensures run[q].PvsChanged? && PvAppearsAt(cfg, s, run, q, pv)
  {
    LosingSweepDeletes(cfg, s, run, n, pv);
    m := ReadBeforeDeleting(cfg, s, run, n, pv);
    q := PvAppearsBetween(cfg, s, run, m, n, pv);
  }

  /** The second race, exactly: over a run the sweep is at some point deleting for a PV that exists if and only if
      the PV comes into being while the sweep is deleting for it. */
  lemma {:induction false} PresentPvSparedIff(cfg: Config, s: State, run: seq<Event>, n: nat, pv: string)
    requires Init(cfg, s) && IsRun(cfg, s, run) && n <= |run|
    ensures DeletesPresentPvUpTo(cfg, s, run, n, pv) <==> PvAppearsTooLateBefore(cfg, s, run, n, pv)
  {
    if DeletesPresentPvUpTo(cfg, s, run, n, pv) {
      var m :| 0 <= m <= n && DeletesPresentPv(cfg, StateAt(cfg, s, run, m), pv);
      var q := AppearsWhileDeleting(cfg, s, run, m, pv);
    }
    if PvAppearsTooLateBefore(cfg, s, run, n, pv) {
      var q :| 0 <= q < n && PvAppearsTooLateAt(cfg, s, run, q, pv);
      AppearingKeepsDeleting(cfg, s, run, q, pv);
    }
  }

  /** A PV that exists from some moment on at which the sweep is not deleting for it is spared by the sweep. */
  lemma {:induction false} SweepSparesPvItReads(cfg: Config, s: State, run: seq<Event>, i: nat, n: nat, pv: string)
    requires Init(cfg, s) && IsRun(cfg, s, run) && i <= n < |run|
    requires forall x | i <= x <= n :: pv in StateAt(cfg, s, run, x).c.pvs
    requires var t := StateAt(cfg, s, run, i); !(PastTrackerCheck(cfg, t, pv) && t.gc.at.Deleting?)
    ensures !SweepLosesAt(cfg, s, run, n, pv)
  {
    if SweepLosesAt(cfg, s, run, n, pv) {
      var _, _ := SweepLosesOnlyMissedPvs(cfg, s, run, n, pv);
    }
  }

  /** A sweep past its tracker check can go beyond the Service with nobody else moving, but for the PV. */
  lemma {:induction false} SweepPassesService(cfg: Config, s: State, pv: string) returns (run: seq<Event>)
    requires Inv(cfg, s) && PastTrackerCheck(cfg, s, pv)
    ensures IsRun(cfg, s, run)
    ensures var t := EndOf(cfg, s, run);
      && Inv(cfg, t) && t == s.(c := t.c, gc := t.gc) && PastService(cfg, t, pv)
      && (PastDeployment(cfg, t, pv) ==> PastDeployment(cfg, s, pv))
    decreases s.gc.at.CheckPv?, pv in s.c.pvs, if s.gc.at.Deleting? then Rank(s.gc.at.job) else 0
  {
    run := [];
    if !PastService(cfg, s, pv) {
      var e := TowardsService(cfg, s, pv);
      run := SweepPassesService(cfg, Apply(cfg, s, e), pv);
      Prepended(cfg, s, e, run);
      run := [e] + run;
    }
  }

  lemma {:induction false} TowardsService(cfg: Config, s: State, pv: string) returns (e: Event)
    requires Inv(cfg, s) && PastTrackerCheck(cfg, s, pv) && !PastService(cfg, s, pv)
    ensures Enabled(cfg, s, e) && Inv(cfg, Apply(cfg, s, e))
    ensures var t := Apply(cfg, s, e);
      && t == s.(c := t.c, gc := t.gc) && PastTrackerCheck(cfg, t, pv) && !PastDeployment(cfg, t, pv)
      && (if s.gc.at.Deleting?
          then t.gc.at.Deleting? && Rank(t.gc.at.job) < Rank(s.gc.at.job) && (pv in t.c.pvs <==> pv in s.c.pvs)
          else t.gc.at.Deleting? || (pv in s.c.pvs && pv !in t.c.pvs))
  {
    e := if s.gc.at.CheckPv? && pv in s.c.pvs then PvsChanged(s.c.pvs - {pv}) else SweepSteps(CALM);
    StepKeeps(cfg, s, e);
    if s.gc.at.Deleting? {
      DeletesTowardsService(cfg, s, pv);
    } else if pv !in s.c.pvs {
      ReadsOwnPv(cfg, s, pv);
      AbsentPvDoomed(cfg, s);
    }
  }

  lemma {:induction false} DeletesTowardsService(cfg: Config, s: State, pv: string)
    requires GcInv(cfg, s) && PastTrackerCheck(cfg, s, pv) && s.gc.at.Deleting? && !PastService(cfg, s, pv)
    ensures var t := Apply(cfg, s, SweepSteps(CALM));
      && t == s.(c := t.c, gc := t.gc) && PastTrackerCheck(cfg, t, pv) && !PastDeployment(cfg, t, pv)
      && t.gc.at.Deleting? && Rank(t.gc.at.job) < Rank(s.gc.at.job) && t.c.pvs == s.c.pvs
  {
    var t', c' := CollectorBeforeService(cfg, s.gc.at.job, s.c);
    DeletingStep(cfg, s, CALM, t', c');
  }

  lemma {:induction false} CollectorBeforeService(cfg: Config, t: Job, c: Cluster) returns (t': Job, c': Cluster)
    requires t.pc.DelGetSvc? || t.pc.DelSvc?
    ensures (t', c') == Advance(cfg, t, c, CALM)
    ensures (t'.pc.DelSvc? || t'.pc.DelGetDep?) && Rank(t') < Rank(t) && c'.pvs == c.pvs
  {
    var r := Advance(cfg, t, c, CALM);
    t', c' := r.0, r.1;
  }

  lemma {:induction false} DeletingStep(cfg: Config, s: State, w: Weather, t': Job, c': Cluster)
    requires s.gc.Sweeping? && s.gc.todo != [] && s.gc.at.Deleting? && (t', c') == Advance(cfg, s.gc.at.job, s.c, w)
    ensures Apply(cfg, s, SweepSteps(w)) ==
      s.(c := c', gc := if t'.pc.Returned? then Begin(s.gc.todo[1..]) else Sweeping(s.gc.todo, Deleting(t')))
  {
  }

  lemma {:induction false} AbsentPvDoomed(cfg: Config, s: State)
    requires s.gc.Sweeping? && s.gc.todo != [] && s.gc.at.CheckPv? && PvOf(s.gc.todo[0]) !in s.c.pvs
    ensures Apply(cfg, s, SweepSteps(CALM)) == s.(gc := Sweeping(s.gc.todo, Deleting(CollectJob(PvOf(s.gc.todo[0])))))
  {
  }

  lemma {:induction false} ReadsOwnPv(cfg: Config, s: State, pv: string)
    requires Inv(cfg, s) && AboutToReadPv(cfg, s, pv)
    ensures PvOf(s.gc.todo[0]) == pv
  {
    assert s.gc.todo[0].key.1[4..] == pv;
    assert ItemInv(cfg, s.born, s.gc.todo[0]);
    ScanKnown(cfg, s.born, s.gc.todo[0]);
  }

  lemma {:induction false} BothAtWorkLater(cfg: Config, s: State, before: seq<Event>, rest: seq<Event>, pv: string)
    requires |rest| >= 1 && BothAtWork(cfg, StateAt(cfg, EndOf(cfg, s, before), rest, 1), pv)
    ensures BothAtWork(cfg, StateAt(cfg, s, before + rest, |before| + 1), pv)
  {
    StateAtAppended(cfg, s, before, rest, 1);
  }

  lemma {:induction false} BothWork(cfg: Config, s: State, pv: string) returns (run: seq<Event>)
    requires Inv(cfg, s) && PastService(cfg, s, pv) && AboutToRegister(s, pv)
    ensures IsRun(cfg, s, run) && |run| >= 1
    ensures BothAtWork(cfg, StateAt(cfg, s, run, 1), pv)
    ensures ChainBroken(cfg, EndOf(cfg, s, run), pv)
    ensures PastDeployment(cfg, s, pv) || !HasDeployment(cfg, EndOf(cfg, s, run), pv)
  {
    var register := CallRegisters(pv);
    var mid := Apply(cfg, s, register);
    StepKeeps(cfg, s, register);
    assert PvInv(cfg, s, pv);
    var work := CanReturn(cfg, mid, pv);
    var built := EndOf(cfg, mid, work);
    var cut := DeletionCanFinish(cfg, built, pv);
    Appended(cfg, mid, work, cut);
    Prepended(cfg, s, register, work + cut);
    OneEvent(cfg, s, register);
    StateAtPrefix(cfg, s, [register], work + cut, 1);
    run := [register] + (work + cut);
  }

  /** A Provision call finishes, and its backend claim is there. */
  lemma {:induction false} CanFinish(cfg: Config, s: State, uid: string) returns (run: seq<Event>)
    requires Reachable(cfg, s) && Live(s, uid) && PVName(uid) !in s.calls
    ensures IsRun(cfg, s, run) && run != [] && FinishesAt(cfg, s, run, |run| - 1, PVName(uid))
    ensures var t := EndOf(cfg, s, run);
      && Reachable(cfg, t) && Live(t, uid) && PVName(uid) !in t.calls && t.gc == s.gc && t.c.pvs == s.c.pvs
      && HasPvc(cfg, t, PVName(uid))
  {
    var pv := PVName(uid);
    assert pv == "pvc-" + uid && pv[4..] == uid;
    run := LiveClaimCanBeProvisioned(cfg, s, uid);
    StaysReachable(cfg, s, run);
    FinishedHasClaim(cfg, s, run, pv);
  }

  lemma {:induction false} FinishedHasClaim(cfg: Config, s: State, run: seq<Event>, pv: string)
    requires Reachable(cfg, s) && IsRun(cfg, s, run) && run != [] && FinishesAt(cfg, s, run, |run| - 1, pv)
    requires LivePv(EndOf(cfg, s, run), pv)
    ensures HasPvc(cfg, EndOf(cfg, s, run), pv)
  {
    ReachableInv(cfg, s);
    RunKeeps(cfg, s, run, |run|);
    assert PvInv(cfg, EndOf(cfg, s, run), pv);
    ReturnRecorded(cfg, StateAt(cfg, s, run, |run| - 1), pv);
  }

  lemma {:induction false} RetryLeavesOrphan(cfg: Config, s: State, uid: string) returns (run: seq<Event>)
    requires Reachable(cfg, s) && Live(s, uid) && PVName(uid) !in s.calls && s.gc.Idle?
    requires HasPvc(cfg, s, PVName(uid))
    ensures IsRun(cfg, s, run)
    ensures var t, pv := EndOf(cfg, s, run), PVName(uid);
      && Orphaned(cfg, t, pv) && Abandoned(t, pv) && t.gc.Idle? && !HasDeployment(cfg, t, pv)
  {
    var pv := PVName(uid);
    var first := RaceCanHappen(cfg, s, uid);
    var mid := EndOf(cfg, s, first);
    StaysReachable(cfg, s, first);
    var rest, _ := RaceBreaksChain(cfg, mid, pv);
    StaysReachable(cfg, mid, rest);
    var end := EndOf(cfg, mid, rest);
    RestartOrphans(cfg, end, pv);
    var vanish := PvsChanged(end.c.pvs - {pv});
    Extended(cfg, mid, rest, vanish);
    Extended(cfg, mid, rest + [vanish], Restart);
    Appended(cfg, s, first, rest + [vanish] + [Restart]);
    run := first + (rest + [vanish] + [Restart]);
  }

  lemma {:induction false} SweptAfterwards(cfg: Config, s: State, first: seq<Event>, uid: string)
    returns (run: seq<Event>, i: nat)
    requires IsRun(cfg, s, first) && first != [] && FinishesAt(cfg, s, first, |first| - 1, PVName(uid))
    requires var t, pv := EndOf(cfg, s, first), PVName(uid);
      Reachable(cfg, t) && Live(t, uid) && pv !in t.calls && t.gc.Idle? && pv !in t.c.pvs && HasPvc(cfg, t, pv)
    ensures IsRun(cfg, s, run) && i < |run| && FinishesAt(cfg, s, run, i, PVName(uid))
    ensures ObjectsGone(cfg, EndOf(cfg, s, run), PVName(uid))
  {
    var second := ClaimGoesAndIsSwept(cfg, EndOf(cfg, s, first), uid);
    Appended(cfg, s, first, second);
    FinishesAtPrefix(cfg, s, first, second, |first| - 1, PVName(uid));
    run, i := first + second, |first| - 1;
  }

  lemma {:induction false} FinishesAtPrefix(cfg: Config, s: State, a: seq<Event>, b: seq<Event>, i: nat, pv: string)
    requires i < |a| && FinishesAt(cfg, s, a, i, pv)
    ensures FinishesAt(cfg, s, a + b, i, pv)
  {
    StateAtPrefix(cfg, s, a, b, i);
  }

  lemma {:induction false} ClaimGoesAndIsSwept(cfg: Config, s: State, uid: string) returns (run: seq<Event>)
    requires Reachable(cfg, s) && Live(s, uid) && PVName(uid) !in s.calls && s.gc.Idle? && PVName(uid) !in s.c.pvs
    requires HasPvc(cfg, s, PVName(uid))
    ensures IsRun(cfg, s, run)
    ensures ObjectsGone(cfg, EndOf(cfg, s, run), PVName(uid))
  {
    var pv := PVName(uid);
    assert pv == "pvc-" + uid && pv[4..] == uid;
    ReachableInv(cfg, s);
    assert PvInv(cfg, s, pv);
    ReservedKey(cfg, pv);
    var leave := ClaimDeleted(s.born[uid]);
    var left := Apply(cfg, s, leave);
    StepKeeps(cfg, s, leave);
    var sweep := SweepReaches(cfg, left, pv);
    Prepended(cfg, s, leave, sweep);
    var before := [leave] + sweep;
    StaysReachable(cfg, s, before);
    var after := SweepMissesPvItReadTooEarly(cfg, EndOf(cfg, s, before), pv);
    Appended(cfg, s, before, after);
    run := before + after;
  }

  lemma {:induction false} LosingSweepDeletes(cfg: Config, s: State, run: seq<Event>, n: nat, pv: string)
    requires Init(cfg, s) && IsRun(cfg, s, run) && n < |run| && SweepLosesAt(cfg, s, run, n, pv)
    ensures var t := StateAt(cfg, s, run, n); PastTrackerCheck(cfg, t, pv) && t.gc.at.Deleting?
  {
    InitEstablishes(cfg, s);
    RunKeeps(cfg, s, run, n);
    assert EnabledAt(cfg, s, run, n);
    SweepRemovesOnlyStale(cfg, StateAt(cfg, s, run, n), run[n].w, pv);
  }

  lemma {:induction false} ReadBeforeDeleting(cfg: Config, s: State, run: seq<Event>, n: nat, pv: string)
    returns (m: nat)
    requires Init(cfg, s) && IsRun(cfg, s, run) && n <= |run|
    requires var t := StateAt(cfg, s, run, n); PastTrackerCheck(cfg, t, pv) && t.gc.at.Deleting?
    ensures m < n && MissesPvAt(cfg, s, run, m, pv)
    ensures StateAt(cfg, s, run, m).gc.todo == StateAt(cfg, s, run, n).gc.todo
    ensures DeletesThroughout(cfg, s, run, m, n, StateAt(cfg, s, run, m).gc.todo)
  {
    assert n > 0;
    EventBeforeDeleting(cfg, s, run, n, pv);
    if StateAt(cfg, s, run, n - 1).gc.at.Deleting? {
      m := ReadBeforeDeleting(cfg, s, run, n - 1, pv);
    } else {
      m := n - 1;
    }
  }

  lemma {:induction false} EventBeforeDeleting(cfg: Config, s: State, run: seq<Event>, n: nat, pv: string)
    requires Init(cfg, s) && IsRun(cfg, s, run) && 0 < n <= |run|
    requires var t := StateAt(cfg, s, run, n); PastTrackerCheck(cfg, t, pv) && t.gc.at.Deleting?
    ensures var t := StateAt(cfg, s, run, n - 1);
      && PastTrackerCheck(cfg, t, pv) && t.gc.todo == StateAt(cfg, s, run, n).gc.todo
      && (t.gc.at.Deleting? || MissesPvAt(cfg, s, run, n - 1, pv))
  {
    InitEstablishes(cfg, s);
    RunKeeps(cfg, s, run, n - 1);
    assert EnabledAt(cfg, s, run, n - 1);
    BeforeDeleting(cfg, StateAt(cfg, s, run, n - 1), run[n - 1], pv);
  }

  /** A sweep that is deleting was deleting before, or has just read that the PV is absent. */
  lemma {:induction false} BeforeDeleting(cfg: Config, s: State, e: Event, pv: string)
    requires Inv(cfg, s) && Enabled(cfg, s, e)
    requires var t := Apply(cfg, s, e); PastTrackerCheck(cfg, t, pv) && t.gc.at.Deleting?
    ensures PastTrackerCheck(cfg, s, pv) && s.gc.todo == Apply(cfg, s, e).gc.todo
    ensures s.gc.at.Deleting? || (e.SweepSteps? && AboutToReadPv(cfg, s, pv) && pv !in s.c.pvs)
  {
    if e.SweepSteps? && s.gc.at.CheckPv? && s.gc.todo[0].key == BackendKey(cfg, pv) {
      ReadsOwnPv(cfg, s, pv);
    }
  }

  lemma {:induction false} PvAppearsBetween(cfg: Config, s: State, run: seq<Event>, m: nat, n: nat, pv: string)
    returns (q: nat)
    requires m < n <= |run| && run[m].SweepSteps?
    requires pv !in StateAt(cfg, s, run, m).c.pvs && pv in StateAt(cfg, s, run, n).c.pvs
    ensures m < q < n && run[q].PvsChanged? && PvAppearsAt(cfg, s, run, q, pv)
  {
    q := FirstSeen(cfg, s, run, m, n, pv);
    assert StateAt(cfg, s, run, q + 1) == Apply(cfg, StateAt(cfg, s, run, q), run[q]);
    OnlyPvsChange(cfg, StateAt(cfg, s, run, q), run[q]);
  }

  lemma {:induction false} FirstSeen(cfg: Config, s: State, run: seq<Event>, m: nat, n: nat, pv: string)
    returns (q: nat)
    requires m <= n <= |run|
    requires pv !in StateAt(cfg, s, run, m).c.pvs && pv in StateAt(cfg, s, run, n).c.pvs
    ensures m <= q < n && PvAppearsAt(cfg, s, run, q, pv)
  {
    if pv in StateAt(cfg, s, run, n - 1).c.pvs {
      q := FirstSeen(cfg, s, run, m, n - 1, pv);
    } else {
      q := n - 1;
    }
  }

  lemma {:induction false} OnlyPvsChange(cfg: Config, s: State, e: Event)
    ensures !e.PvsChanged? ==> Apply(cfg, s, e).c.pvs == s.c.pvs
  {
    match e
    case CallSteps(p, w) => if p in s.calls { PvsStay(cfg, s.calls[p].job, s.c, w); }
    case SweepSteps(w) => if s.gc.Sweeping? && s.gc.at.Deleting? { PvsStay(cfg, s.gc.at.job, s.c, w); }
    case _ =>
  }

  lemma {:induction false} AppearsWhileDeleting(cfg: Config, s: State, run: seq<Event>, n: nat, pv: string)
    returns (q: nat)
    requires Init(cfg, s) && IsRun(cfg, s, run) && n <= |run| && DeletesPresentPv(cfg, StateAt(cfg, s, run, n), pv)
    ensures q < n && PvAppearsTooLateAt(cfg, s, run, q, pv)
  {
    var m := ReadBeforeDeleting(cfg, s, run, n, pv);
    q := PvAppearsBetween(cfg, s, run, m, n, pv);
    assert IsDeleting(StateAt(cfg, s, run, q), StateAt(cfg, s, run, m).gc.todo);
  }

  lemma {:induction false} AppearingKeepsDeleting(cfg: Config, s: State, run: seq<Event>, q: nat, pv: string)
    requires q < |run| && PvAppearsTooLateAt(cfg, s, run, q, pv)
    ensures DeletesPresentPv(cfg, StateAt(cfg, s, run, q + 1), pv)
  {
    StateAtNext(cfg, s, run, q);
    OnlyPvsChange(cfg, StateAt(cfg, s, run, q), run[q]);
  }
}
