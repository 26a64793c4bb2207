/** Each event keeps the invariant; hence every reachable state has it. */
module Preservation {
  import opened Kube
  import opened ServerJob
  import opened SweepMachine
  import opened Protocol
  import opened Invariant
  import opened Text

  /** Between s and s' nothing the sweep has seen gone on `pv` comes back, and no Provision registers unseen. */
  predicate SweepUndisturbed(cfg: Config, s: State, s': State, pv: string) {
    pv !in s'.raced ==>
    && pv !in s.raced
    && (HasService(cfg, s', pv) ==> HasService(cfg, s, pv))
    && (HasDeployment(cfg, s', pv) ==> HasDeployment(cfg, s, pv))
    && (ProvisionRegistered(s', pv) ==> ProvisionRegistered(s, pv))
  }

  /** The sweep's part of the invariant survives such a step. */
  lemma {:induction false} FrameGc(cfg: Config, s: State, s': State)
    requires GcInv(cfg, s) && s'.gc == s.gc && NoRevival(s, s')
    requires forall pv: string | DeadPv(s, pv) && PastTrackerCheck(cfg, s, pv) :: SweepUndisturbed(cfg, s, s', pv)
    ensures GcInv(cfg, s')
  {
    if s.gc.Sweeping? {
      forall i | 0 <= i < |s.gc.todo| ensures ItemInv(cfg, s'.born, s'.gc.todo[i]) {
        assert ItemInv(cfg, s.born, s.gc.todo[i]);
      }
      var it := s.gc.todo[0];
      if "nfs-" <= it.key.1 { NameSplits(it.key.1); }
    }
  }

  lemma {:induction false} EnvironmentKeeps(cfg: Config, s: State, e: Event)
    requires Inv(cfg, s) && Enabled(cfg, s, e)
    requires e.ClaimCreated? || e.ClaimDeleted? || e.PhaseChanged? || e.PvsChanged?
    ensures Inv(cfg, Apply(cfg, s, e))
  {
    var s' := Apply(cfg, s, e);
    assert NoRevival(s, s');
    forall pv: string ensures PvInv(cfg, s', pv) {
      ReservedKey(cfg, pv);
      assert PvInv(cfg, s, pv);
      FramePv(cfg, s, s', pv);
    }
    FrameGc(cfg, s, s');
  }

  /** The event is about a call on p but is not a step of it: only the tracker, the calls and the history
      change. */
  predicate AboutCall(e: Event, p: string) {
    || (e.ProvisionCalled? && p == PVName(e.uid))
    || ((e.DeleteCalled? || e.CallRegisters? || e.CallUnregisters? || e.CallReturns?) && p == e.pv)
  }

  lemma {:induction false} CallEventKeeps(cfg: Config, s: State, e: Event, p: string)
    requires Inv(cfg, s) && Enabled(cfg, s, e) && AboutCall(e, p)
    ensures Inv(cfg, Apply(cfg, s, e))
  {
    var s' := Apply(cfg, s, e);
    assert PvInv(cfg, s, p);
    forall pv: string ensures PvInv(cfg, s', pv) {
      assert PvInv(cfg, s, pv);
      if pv == p {
        CallEventKeepsOwn(cfg, s, e, p);
      } else {
        CallEventFrame(cfg, s, e, p, pv);
      }
    }
    CallEventKeepsGc(cfg, s, e, p);
  }

  lemma {:induction false} CallEventFrame(cfg: Config, s: State, e: Event, p: string, pv: string)
    requires PvInv(cfg, s, pv) && AboutCall(e, p) && pv != p
    ensures PvInv(cfg, Apply(cfg, s, e), pv)
  {
    FramePv(cfg, s, Apply(cfg, s, e), pv);
  }

  lemma {:induction false} CallEventKeepsGc(cfg: Config, s: State, e: Event, p: string)
    requires GcInv(cfg, s) && Enabled(cfg, s, e) && AboutCall(e, p)
    ensures GcInv(cfg, Apply(cfg, s, e))
  {
    var s' := Apply(cfg, s, e);
    forall pv: string | DeadPv(s, pv) && PastTrackerCheck(cfg, s, pv) ensures SweepUndisturbed(cfg, s, s', pv) {
    }
    FrameGc(cfg, s, s');
  }

  lemma {:induction false} CallEventKeepsOwn(cfg: Config, s: State, e: Event, p: string)
    requires PvInv(cfg, s, p) && GcInv(cfg, s) && Enabled(cfg, s, e) && AboutCall(e, p)
    ensures PvInv(cfg, Apply(cfg, s, e), p)
  {
    match e
    case ProvisionCalled(uid, ticks) => CallEnters(cfg, s, e, p);
    case DeleteCalled(_, _) => CallEnters(cfg, s, e, p);
    case CallRegisters(_) => CallRegistersOwn(cfg, s, p);
    case CallUnregisters(_) => CallLeavesOwn(cfg, s, e, p);
    case CallReturns(_) => CallLeavesOwn(cfg, s, e, p);
  }

  lemma {:induction false} CallEnters(cfg: Config, s: State, e: Event, p: string)
    requires PvInv(cfg, s, p) && Enabled(cfg, s, e) && AboutCall(e, p) && (e.ProvisionCalled? || e.DeleteCalled?)
    ensures PvInv(cfg, Apply(cfg, s, e), p)
  {
    assert e.ProvisionCalled? ==> p == "pvc-" + e.uid && p[4..] == e.uid;
  }

  lemma {:induction false} CallRegistersOwn(cfg: Config, s: State, p: string)
    requires PvInv(cfg, s, p) && GcInv(cfg, s) && Enabled(cfg, s, CallRegisters(p))
    ensures PvInv(cfg, Apply(cfg, s, CallRegisters(p)), p)
  {
    assert PastTrackerCheck(cfg, s, p) ==> s.gc.todo[0].key.1[4..] == p;
  }

  lemma {:induction false} CallLeavesOwn(cfg: Config, s: State, e: Event, p: string)
    requires PvInv(cfg, s, p) && Enabled(cfg, s, e) && AboutCall(e, p) && (e.CallUnregisters? || e.CallReturns?)
    ensures PvInv(cfg, Apply(cfg, s, e), p)
  {
  }

  /** A step of a call on `p` leaves the objects of every other PV alone. */
  lemma {:induction false} AdvanceFrame(cfg: Config, t: Job, c: Cluster, w: Weather, pv: string)
    requires pv != t.opts.pvName
    ensures var c' := Advance(cfg, t, c, w).1; var k := BackendKey(cfg, pv);
      && (k in c'.pvcs <==> k in c.pvcs) && (k in c.pvcs ==> c'.pvcs[k] == c.pvcs[k])
      && (k in c'.deployments <==> k in c.deployments)
      && (k in c.deployments ==> c'.deployments[k] == c.deployments[k])
      && (k in c'.services <==> k in c.services) && (k in c.services ==> c'.services[k] == c.services[k])
  {
    assert BackendName(pv)[4..] != BackendName(t.opts.pvName)[4..];
  }

  /** A job only ever touches backend objects. */
  lemma {:induction false} AdvanceSparesClaims(cfg: Config, t: Job, c: Cluster, w: Weather, k: Key)
    requires !Reserved(cfg, k)
    ensures var c' := Advance(cfg, t, c, w).1;
      (k in c'.pvcs <==> k in c.pvcs) && (k in c.pvcs ==> c'.pvcs[k] == c.pvcs[k])
  {
    ReservedKey(cfg, t.opts.pvName);
  }

  lemma {:induction false} AdvanceKeepsClaims(cfg: Config, s: State, t: Job, w: Weather, s': State)
    requires BornInv(cfg, s) && s'.born == s.born && s'.c == Advance(cfg, t, s.c, w).1
    ensures NoRevival(s, s') && forall u | u in s.born :: Live(s, u) ==> Live(s', u)
  {
    forall u | u in s.born ensures Live(s', u) <==> Live(s, u) {
      AdvanceSparesClaims(cfg, t, s.c, w, s.born[u]);
    }
  }

  lemma {:induction false} ProvisionStepKeeps(cfg: Config, s: State, p: string, w: Weather)
    requires Inv(cfg, s) && Enabled(cfg, s, CallSteps(p, w)) && s.calls[p].job.kind == Provision
    ensures Inv(cfg, Apply(cfg, s, CallSteps(p, w)))
  {
    var s' := Apply(cfg, s, CallSteps(p, w));
    assert PvInv(cfg, s, p);
    AdvanceKeepsClaims(cfg, s, s.calls[p].job, w, s');
    forall pv: string ensures PvInv(cfg, s', pv) {
      assert PvInv(cfg, s, pv);
      if pv != p {
        CallStepFrame(cfg, s, p, w, pv);
      } else {
        ProvisionStepKeepsOwn(cfg, s, p, w);
      }
    }
    forall pv: string | DeadPv(s, pv) && PastTrackerCheck(cfg, s, pv) ensures SweepUndisturbed(cfg, s, s', pv) {
      assert s.gc.todo[0].key.1[4..] == pv;
      if pv != p { AdvanceFrame(cfg, s.calls[p].job, s.c, w, pv); }
    }
    FrameGc(cfg, s, s');
  }

  /** A step of a call leaves every other PV's invariant alone. */
  lemma {:induction false} CallStepFrame(cfg: Config, s: State, p: string, w: Weather, pv: string)
    requires p in s.calls && s.calls[p].job.opts.pvName == p && pv != p && PvInv(cfg, s, pv)
    requires NoRevival(s, Apply(cfg, s, CallSteps(p, w)))
    ensures PvInv(cfg, Apply(cfg, s, CallSteps(p, w)), pv)
  {
    AdvanceFrame(cfg, s.calls[p].job, s.c, w, pv);
    FramePv(cfg, s, Apply(cfg, s, CallSteps(p, w)), pv);
  }

  /** A creating job that only reads learns nothing false. */
  lemma {:induction false} CreatorReads(cfg: Config, s: State, p: string, t: Job, w: Weather, s': State)
    requires CreatorInv(cfg, s, p, t) && !t.pc.Returned? && !Writes(t.pc)
    requires s'.born == s.born && s'.c == s.c
    requires s'.seenBound == s.seenBound +
      (if t.pc.WaitBound? && Advance(cfg, t, s.c, w).0.pc.BackendHook? then {p} else {})
    ensures CreatorInv(cfg, s', p, Advance(cfg, t, s.c, w).0)
    ensures CreatorHas(cfg, s, p, t) ==> CreatorHas(cfg, s', p, Advance(cfg, t, s.c, w).0)
  {
    if AfterWait(t.pc) {
      CreatorReadsLate(cfg, s, p, t, w, s');
    } else {
      CreatorReadsEarly(cfg, s, p, t, w, s');
    }
  }

  lemma {:induction false} CreatorReadsEarly(cfg: Config, s: State, p: string, t: Job, w: Weather, s': State)
    requires CreatorInv(cfg, s, p, t) && !t.pc.Returned? && !Writes(t.pc) && !AfterWait(t.pc)
    requires s'.born == s.born && s'.c == s.c
    requires s'.seenBound == s.seenBound +
      (if t.pc.WaitBound? && Advance(cfg, t, s.c, w).0.pc.BackendHook? then {p} else {})
    ensures CreatorInv(cfg, s', p, Advance(cfg, t, s.c, w).0)
    ensures CreatorHas(cfg, s, p, t) ==> CreatorHas(cfg, s', p, Advance(cfg, t, s.c, w).0)
  {
  }

  lemma {:induction false} CreatorReadsLate(cfg: Config, s: State, p: string, t: Job, w: Weather, s': State)
    requires CreatorInv(cfg, s, p, t) && !t.pc.Returned? && !Writes(t.pc) && AfterWait(t.pc)
    requires s'.born == s.born && s'.c == s.c && s'.seenBound == s.seenBound
    ensures CreatorInv(cfg, s', p, Advance(cfg, t, s.c, w).0)
    ensures CreatorHas(cfg, s, p, t) ==> CreatorHas(cfg, s', p, Advance(cfg, t, s.c, w).0)
  {
  }

  /** A creating job adds an object wired to pv's claim, the next link of the chain if the links before it are
      still there. */
  lemma {:induction false} CreatorWrites(cfg: Config, s: State, p: string, t: Job, w: Weather, s': State)
    requires Wired(cfg, s, p) && (HasService(cfg, s, p) ==> p in s.seenBound)
    requires CreatorInv(cfg, s, p, t) && Writes(t.pc)
    requires s'.born == s.born && s'.c == Advance(cfg, t, s.c, w).1 && s'.seenBound == s.seenBound
    ensures CreatorInv(cfg, s', p, Advance(cfg, t, s.c, w).0) && Wired(cfg, s', p)
    ensures HasService(cfg, s', p) ==> p in s'.seenBound
    ensures HasService(cfg, s, p) ==> HasService(cfg, s', p)
    ensures CreatorHas(cfg, s, p, t) ==> CreatorHas(cfg, s', p, Advance(cfg, t, s.c, w).0)
    ensures CreatorHas(cfg, s, p, t) && Chain(cfg, s, p) ==> Chain(cfg, s', p)
  {
    WritesWired(cfg, s, p, t, w, s');
    if t.pc.CreatePvc? {
      CreatesPvc(cfg, s, p, t, w, s');
      CreatingPvcKeepsChain(cfg, s, p, t, w, s');
    } else if t.pc.CreateDep? {
      CreatesDeployment(cfg, s, p, t, w, s');
    } else {
      CreatesService(cfg, s, p, t, w, s');
    }
  }

  lemma {:induction false} LabelsAgree(cfg: Config, s: State, p: string, t: Job)
    requires CreatorInv(cfg, s, p, t)
    ensures PvcLabels(t.opts) == PvcLabels(OptsOf(s.born, p))
    ensures DeploymentLabels(t.opts) == DeploymentLabels(OptsOf(s.born, p))
  {
  }

  lemma {:induction false} WritesWired(cfg: Config, s: State, p: string, t: Job, w: Weather, s': State)
    requires Wired(cfg, s, p) && CreatorInv(cfg, s, p, t) && Writes(t.pc)
    requires s'.born == s.born && s'.c == Advance(cfg, t, s.c, w).1
    ensures Wired(cfg, s', p)
  {
    LabelsAgree(cfg, s, p, t);
  }

  lemma {:induction false} CreatesPvc(cfg: Config, s: State, p: string, t: Job, w: Weather, s': State)
    requires CreatorInv(cfg, s, p, t) && t.pc.CreatePvc?
    requires s'.born == s.born && s'.c == Advance(cfg, t, s.c, w).1 && s'.seenBound == s.seenBound
    ensures CreatorInv(cfg, s', p, Advance(cfg, t, s.c, w).0)
    ensures CreatorHas(cfg, s', p, Advance(cfg, t, s.c, w).0)
  {
    if w.hook.Accepted? {
      assert w.fault == Lost || HasPvc(cfg, s', p);
    }
  }

  lemma {:induction false} CreatingPvcKeepsChain(cfg: Config, s: State, p: string, t: Job, w: Weather, s': State)
    requires t.opts.pvName == p && t.pc.CreatePvc? && s'.c == Advance(cfg, t, s.c, w).1
    ensures Chain(cfg, s, p) ==> Chain(cfg, s', p)
    ensures s'.c.services == s.c.services
  {
  }

  lemma {:induction false} CreatesDeployment(cfg: Config, s: State, p: string, t: Job, w: Weather, s': State)
    requires CreatorInv(cfg, s, p, t) && t.pc.CreateDep?
    requires s'.born == s.born && s'.c == Advance(cfg, t, s.c, w).1 && s'.seenBound == s.seenBound
    ensures CreatorInv(cfg, s', p, Advance(cfg, t, s.c, w).0)
    ensures CreatorHas(cfg, s, p, t) ==> CreatorHas(cfg, s', p, Advance(cfg, t, s.c, w).0)
    ensures CreatorHas(cfg, s, p, t) && Chain(cfg, s, p) ==> Chain(cfg, s', p)
    ensures s'.c.services == s.c.services
  {
  }

  lemma {:induction false} CreatesService(cfg: Config, s: State, p: string, t: Job, w: Weather, s': State)
    requires CreatorInv(cfg, s, p, t) && t.pc.CreateSvc?
    requires s'.born == s.born && s'.c == Advance(cfg, t, s.c, w).1 && s'.seenBound == s.seenBound
    ensures CreatorInv(cfg, s', p, Advance(cfg, t, s.c, w).0)
    ensures CreatorHas(cfg, s, p, t) ==> CreatorHas(cfg, s', p, Advance(cfg, t, s.c, w).0)
    ensures CreatorHas(cfg, s, p, t) && Chain(cfg, s, p) ==> Chain(cfg, s', p)
    ensures p in s'.seenBound && (HasService(cfg, s, p) ==> HasService(cfg, s', p))
  {
  }

  lemma {:induction false} ProvisionStepKeepsOwn(cfg: Config, s: State, p: string, w: Weather)
    requires PvInv(cfg, s, p) && BornInv(cfg, s)
    requires Enabled(cfg, s, CallSteps(p, w)) && s.calls[p].job.kind == Provision
    ensures PvInv(cfg, Apply(cfg, s, CallSteps(p, w)), p)
  {
    var s' := Apply(cfg, s, CallSteps(p, w));
    var t := s.calls[p].job;
    assert CreatorInv(cfg, s, p, t);
    AdvanceKeepsClaims(cfg, s, t, w, s');
    AdvanceKeepsKind(cfg, t, s.c, w);
    if Writes(t.pc) {
      CreatorWrites(cfg, s, p, t, w, s');
    } else {
      CreatorReads(cfg, s, p, t, w, s');
    }
  }

  lemma {:induction false} AdvanceKeepsKind(cfg: Config, t: Job, c: Cluster, w: Weather)
    ensures Advance(cfg, t, c, w).0.kind == t.kind
    ensures Advance(cfg, t, c, w).0.opts.pvName == t.opts.pvName
    ensures !Writes(t.pc) ==> Advance(cfg, t, c, w).1 == c
  {
  }

  /** A deleting step keeps the chain of its PV and its own invariant. */
  lemma {:induction false} RemoverStep(cfg: Config, s: State, p: string, t: Job, w: Weather, s': State)
    requires BornInv(cfg, s) && Wired(cfg, s, p) && RemoverInv(s, p, t) && !t.pc.Returned?
    requires s'.born == s.born && s'.c == Advance(cfg, t, s.c, w).1
    ensures Wired(cfg, s', p) && RemoverInv(s', p, Advance(cfg, t, s.c, w).0)
    ensures RemoverHas(cfg, s, p, t) ==> RemoverHas(cfg, s', p, Advance(cfg, t, s.c, w).0)
    ensures RemoverHas(cfg, s, p, t) && Chain(cfg, s, p) ==> Chain(cfg, s', p)
    ensures HasService(cfg, s', p) ==> HasService(cfg, s, p)
    ensures HasDeployment(cfg, s', p) ==> HasDeployment(cfg, s, p)
  {
    AdvanceKeepsClaims(cfg, s, t, w, s');
    if Writes(t.pc) {
      RemoverWrites(cfg, s, p, t, w, s');
    } else {
      RemoverReads(cfg, s, p, t, w, s');
    }
  }

  lemma {:induction false} RemoverWrites(cfg: Config, s: State, p: string, t: Job, w: Weather, s': State)
    requires Wired(cfg, s, p) && RemoverInv(s, p, t) && Writes(t.pc)
    requires s'.born == s.born && s'.c == Advance(cfg, t, s.c, w).1 && DeadPv(s', p)
    ensures Wired(cfg, s', p) && RemoverInv(s', p, Advance(cfg, t, s.c, w).0)
    ensures RemoverHas(cfg, s, p, t) ==> RemoverHas(cfg, s', p, Advance(cfg, t, s.c, w).0)
    ensures RemoverHas(cfg, s, p, t) && Chain(cfg, s, p) ==> Chain(cfg, s', p)
    ensures HasService(cfg, s', p) ==> HasService(cfg, s, p)
    ensures HasDeployment(cfg, s', p) ==> HasDeployment(cfg, s, p)
  {
    match t.pc
    case DelSvc =>
    case DelDep =>
    case DelPvc =>
  }

  lemma {:induction false} RemoverReads(cfg: Config, s: State, p: string, t: Job, w: Weather, s': State)
    requires RemoverInv(s, p, t) && !t.pc.Returned? && !Writes(t.pc)
    requires s'.born == s.born && s'.c == Advance(cfg, t, s.c, w).1 && DeadPv(s', p)
    ensures s'.c == s.c && RemoverInv(s', p, Advance(cfg, t, s.c, w).0)
    ensures RemoverHas(cfg, s, p, t) ==> RemoverHas(cfg, s', p, Advance(cfg, t, s.c, w).0)
  {
    match t.pc
    case _ =>
  }

  lemma {:induction false} DeleteStepKeeps(cfg: Config, s: State, p: string, w: Weather)
    requires Inv(cfg, s) && Enabled(cfg, s, CallSteps(p, w)) && s.calls[p].job.kind == Delete
    ensures Inv(cfg, Apply(cfg, s, CallSteps(p, w)))
  {
    var s' := Apply(cfg, s, CallSteps(p, w));
    var t := s.calls[p].job;
    assert PvInv(cfg, s, p);
    AdvanceKeepsClaims(cfg, s, t, w, s');
    AdvanceKeepsKind(cfg, t, s.c, w);
    RemoverStep(cfg, s, p, t, w, s');
    forall pv: string ensures PvInv(cfg, s', pv) {
      assert PvInv(cfg, s, pv);
      if pv != p {
        CallStepFrame(cfg, s, p, w, pv);
      }
    }
    forall pv: string | DeadPv(s, pv) && PastTrackerCheck(cfg, s, pv) ensures SweepUndisturbed(cfg, s, s', pv) {
      if pv != p { AdvanceFrame(cfg, t, s.c, w, pv); }
    }
    FrameGc(cfg, s, s');
  }

  lemma {:induction false} SweepStartKeeps(cfg: Config, s: State, todo: seq<Listed>)
    requires Inv(cfg, s) && Enabled(cfg, s, SweepStarts(todo))
    ensures Inv(cfg, Apply(cfg, s, SweepStarts(todo)))
  {
    var s' := Apply(cfg, s, SweepStarts(todo));
    forall pv: string ensures PvInv(cfg, s', pv) {
      assert PvInv(cfg, s, pv);
      FramePv(cfg, s, s', pv);
    }
    forall i | 0 <= i < |todo| ensures ItemInv(cfg, s.born, todo[i]) {
      var k := todo[i].key;
      if "nfs-" <= k.1 {
        assert Selected(cfg, k, todo[i].pvc);
        assert k.1 == BackendName(k.1[4..]);
        assert PvInv(cfg, s, k.1[4..]);
      }
    }
  }

  /** The items left of a sweep satisfy what the sweep demands of its list. */
  lemma {:induction false} NextItem(cfg: Config, s: State, s': State)
    requires GcInv(cfg, s) && s.gc.Sweeping? && s'.born == s.born && s'.gc == Begin(s.gc.todo[1..])
    ensures GcInv(cfg, s')
  {
    if s'.gc.Sweeping? {
      forall i | 0 <= i < |s'.gc.todo| ensures ItemInv(cfg, s'.born, s'.gc.todo[i]) {
        assert s'.gc.todo[i] == s.gc.todo[i + 1];
      }
    }
  }

  /** While the sweep only reads. */
  lemma {:induction false} SweepCheckKeeps(cfg: Config, s: State, w: Weather)
    requires Inv(cfg, s) && Enabled(cfg, s, SweepSteps(w)) && !s.gc.at.Deleting?
    ensures Inv(cfg, Apply(cfg, s, SweepSteps(w)))
  {
    forall pv: string ensures PvInv(cfg, Apply(cfg, s, SweepSteps(w)), pv) {
      assert PvInv(cfg, s, pv);
      SweepCheckFrame(cfg, s, w, pv);
    }
    if "nfs-" <= s.gc.todo[0].key.1 { assert PvInv(cfg, s, s.gc.todo[0].key.1[4..]); }
    SweepCheckKeepsGc(cfg, s, w);
  }

  lemma {:induction false} SweepCheckFrame(cfg: Config, s: State, w: Weather, pv: string)
    requires PvInv(cfg, s, pv) && Enabled(cfg, s, SweepSteps(w)) && !s.gc.at.Deleting?
    ensures PvInv(cfg, Apply(cfg, s, SweepSteps(w)), pv)
  {
    FramePv(cfg, s, Apply(cfg, s, SweepSteps(w)), pv);
  }

  lemma {:induction false} SweepCheckKeepsGc(cfg: Config, s: State, w: Weather)
    requires BornInv(cfg, s) && GcInv(cfg, s) && Enabled(cfg, s, SweepSteps(w)) && !s.gc.at.Deleting?
    requires var name := s.gc.todo[0].key.1; "nfs-" <= name ==> PvInv(cfg, s, name[4..])
    ensures GcInv(cfg, Apply(cfg, s, SweepSteps(w)))
  {
    var s' := Apply(cfg, s, SweepSteps(w));
    assert ItemInv(cfg, s.born, s.gc.todo[0]);
    ScanKnown(cfg, s.born, s.gc.todo[0]);
    if s'.gc == Begin(s.gc.todo[1..]) {
      NextItem(cfg, s, s');
    } else {
      forall i | 0 <= i < |s.gc.todo| ensures ItemInv(cfg, s'.born, s'.gc.todo[i]) {
        assert ItemInv(cfg, s.born, s.gc.todo[i]);
      }
      StagePassed(cfg, s, w);
    }
  }

  /** The sweep goes on with its item only when it has found what the next stage says. */
  lemma {:induction false} StagePassed(cfg: Config, s: State, w: Weather)
    requires Enabled(cfg, s, SweepSteps(w)) && !s.gc.at.Deleting?
    requires var it := s.gc.todo[0];
      && ItemInv(cfg, s.born, it) && StageInv(cfg, s, it, s.gc.at) && PvOf(it) == PvNamed(it)
      && ("nfs-" <= it.key.1 ==> PvInv(cfg, s, it.key.1[4..]))
    requires Apply(cfg, s, SweepSteps(w)).gc != Begin(s.gc.todo[1..])
    ensures var t := Apply(cfg, s, SweepSteps(w));
      t.gc.Sweeping? && t.gc.todo == s.gc.todo && StageInv(cfg, t, s.gc.todo[0], t.gc.at)
  {
    match s.gc.at
    case CheckClaim => ClaimPassed(cfg, s, w);
    case CheckTracker => TrackerPassed(cfg, s, w);
    case CheckPv =>
  }

  lemma {:induction false} ClaimPassed(cfg: Config, s: State, w: Weather)
    requires Enabled(cfg, s, SweepSteps(w)) && s.gc.at.CheckClaim?
    requires var it := s.gc.todo[0]; ItemInv(cfg, s.born, it) && PvOf(it) == PvNamed(it)
    requires Apply(cfg, s, SweepSteps(w)).gc != Begin(s.gc.todo[1..])
    ensures Apply(cfg, s, SweepSteps(w)).gc == Sweeping(s.gc.todo, CheckTracker)
    ensures var name := s.gc.todo[0].key.1; "nfs-" <= name && DeadPv(s, name[4..])
  {
  }

  lemma {:induction false} TrackerPassed(cfg: Config, s: State, w: Weather)
    requires Enabled(cfg, s, SweepSteps(w)) && s.gc.at.CheckTracker?
    requires var it := s.gc.todo[0]; PvOf(it) == PvNamed(it) && "nfs-" <= it.key.1 && PvInv(cfg, s, it.key.1[4..])
    requires Apply(cfg, s, SweepSteps(w)).gc != Begin(s.gc.todo[1..])
    ensures Apply(cfg, s, SweepSteps(w)).gc == Sweeping(s.gc.todo, CheckPv)
    ensures !ProvisionRegistered(s, PvNamed(s.gc.todo[0]))
  {
  }

  /** While the sweep deletes. */
  lemma {:induction false} SweepDeleteKeeps(cfg: Config, s: State, w: Weather)
    requires Inv(cfg, s) && Enabled(cfg, s, SweepSteps(w)) && s.gc.at.Deleting?
    ensures Inv(cfg, Apply(cfg, s, SweepSteps(w)))
  {
    var s' := Apply(cfg, s, SweepSteps(w));
    AdvanceKeepsClaims(cfg, s, s.gc.at.job, w, s');
    forall pv: string ensures PvInv(cfg, s', pv) {
      assert PvInv(cfg, s, pv);
      if pv != s.gc.todo[0].key.1[4..] {
        SweepDeleteFrame(cfg, s, w, pv);
      } else {
        SweepDeleteKeepsOwn(cfg, s, w);
      }
    }
    SweepDeleteKeepsGc(cfg, s, w);
  }

  lemma {:induction false} SweepDeleteFrame(cfg: Config, s: State, w: Weather, pv: string)
    requires BornInv(cfg, s) && GcInv(cfg, s) && PvInv(cfg, s, pv)
    requires Enabled(cfg, s, SweepSteps(w)) && s.gc.at.Deleting? && pv != s.gc.todo[0].key.1[4..]
    ensures PvInv(cfg, Apply(cfg, s, SweepSteps(w)), pv)
  {
    var s' := Apply(cfg, s, SweepSteps(w));
    AdvanceKeepsClaims(cfg, s, s.gc.at.job, w, s');
    AdvanceFrame(cfg, s.gc.at.job, s.c, w, pv);
    FramePv(cfg, s, s', pv);
  }

  lemma {:induction false} SweepDeleteKeepsOwn(cfg: Config, s: State, w: Weather)
    requires BornInv(cfg, s) && GcInv(cfg, s) && Enabled(cfg, s, SweepSteps(w)) && s.gc.at.Deleting?
    requires PvInv(cfg, s, s.gc.todo[0].key.1[4..])
    ensures PvInv(cfg, Apply(cfg, s, SweepSteps(w)), s.gc.todo[0].key.1[4..])
  {
    var s' := Apply(cfg, s, SweepSteps(w));
    var p, t := s.gc.todo[0].key.1[4..], s.gc.at.job;
    AdvanceKeepsClaims(cfg, s, t, w, s');
    RemoverStep(cfg, s, p, t, w, s');
  }

  lemma {:induction false} SweepDeleteKeepsGc(cfg: Config, s: State, w: Weather)
    requires Inv(cfg, s) && Enabled(cfg, s, SweepSteps(w)) && s.gc.at.Deleting?
    ensures GcInv(cfg, Apply(cfg, s, SweepSteps(w)))
  {
    var s' := Apply(cfg, s, SweepSteps(w));
    var it, t := s.gc.todo[0], s.gc.at.job;
    var p := it.key.1[4..];
    assert PvInv(cfg, s, p);
    RemoverStep(cfg, s, p, t, w, s');
    AdvanceKeepsKind(cfg, t, s.c, w);
    if Advance(cfg, t, s.c, w).0.pc.Returned? {
      NextItem(cfg, s, s');
    } else {
      forall i | 0 <= i < |s.gc.todo| ensures ItemInv(cfg, s'.born, s'.gc.todo[i]) {
        assert ItemInv(cfg, s.born, s.gc.todo[i]);
      }
      CollectorHasNoHook(cfg, t, s.c, w);
    }
  }

  lemma {:induction false} CollectorHasNoHook(cfg: Config, t: Job, c: Cluster, w: Weather)
    requires t.kind == Collect && Removing(t.pc)
    ensures var t' := Advance(cfg, t, c, w).0; Removing(t'.pc) || t'.pc.Returned?
  {
  }

  lemma {:induction false} RestartKeeps(cfg: Config, s: State)
    requires Inv(cfg, s)
    ensures Inv(cfg, Apply(cfg, s, Restart))
  {
    var s' := Apply(cfg, s, Restart);
    forall pv: string ensures PvInv(cfg, s', pv) {
      assert PvInv(cfg, s, pv);
    }
  }

  lemma {:induction false} StepKeeps(cfg: Config, s: State, e: Event)
    requires Inv(cfg, s) && Enabled(cfg, s, e)
    ensures Inv(cfg, Apply(cfg, s, e))
  {
    match e
    case ClaimCreated(_, _, _) => EnvironmentKeeps(cfg, s, e);
    case ClaimDeleted(_) => EnvironmentKeeps(cfg, s, e);
    case PhaseChanged(_, _) => EnvironmentKeeps(cfg, s, e);
    case PvsChanged(_) => EnvironmentKeeps(cfg, s, e);
    case ProvisionCalled(uid, _) => CallEventKeeps(cfg, s, e, PVName(uid));
    case DeleteCalled(p, _) => CallEventKeeps(cfg, s, e, p);
    case CallRegisters(p) => CallEventKeeps(cfg, s, e, p);
    case CallSteps(p, w) =>
      assert PvInv(cfg, s, p);
      if s.calls[p].job.kind == Provision {
        ProvisionStepKeeps(cfg, s, p, w);
      } else {
        DeleteStepKeeps(cfg, s, p, w);
      }
    case CallUnregisters(p) => CallEventKeeps(cfg, s, e, p);
    case CallReturns(p) => CallEventKeeps(cfg, s, e, p);
    case SweepStarts(todo) => SweepStartKeeps(cfg, s, todo);
    case SweepSteps(w) => if s.gc.at.Deleting? { SweepDeleteKeeps(cfg, s, w); } else { SweepCheckKeeps(cfg, s, w); }
    case Restart => RestartKeeps(cfg, s);
  }

  /** The invariant holds at every point of every run that starts in a state that has it. */
  lemma {:induction false} RunKeeps(cfg: Config, s: State, run: seq<Event>, n: nat)
    requires Inv(cfg, s) && IsRun(cfg, s, run) && n <= |run|
    ensures Inv(cfg, StateAt(cfg, s, run, n))
  {
    if n > 0 {
      RunKeeps(cfg, s, run, n - 1);
      assert EnabledAt(cfg, s, run, n - 1);
      StepKeeps(cfg, StateAt(cfg, s, run, n - 1), run[n - 1]);
    }
  }

  lemma {:induction false} ReachableInv(cfg: Config, s: State)
    requires Reachable(cfg, s)
    ensures Inv(cfg, s)
  {
    var s0: State, run: seq<Event>, n: nat :|
      Init(cfg, s0) && IsRun(cfg, s0, run) && n <= |run| && StateAt(cfg, s0, run, n) == s;
    InitEstablishes(cfg, s0);
    RunKeeps(cfg, s0, run, n);
  }
}
