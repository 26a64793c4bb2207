/** What holds over every run of the protocol. */
module Safety {
  import opened Kube
  import opened ServerJob
  import opened SweepMachine
  import opened Protocol
  import opened Invariant
  import opened Preservation
  import opened Strings
  import opened Text

  /** A PV is in the tracker from the registration of a Provision or Delete call on it until that call's
      unregistration, whichever way the call goes in between, and at no other time. */
  lemma {:induction false} TrackerExact(cfg: Config, s: State, pv: string)
    requires Reachable(cfg, s)
    ensures pv in s.tracker <==> pv in s.calls && s.calls[pv].phase.Running?
  {
    ReachableInv(cfg, s);
    assert PvInv(cfg, s, pv);
  }

  /** Event n of the run is the registration of a Provision call on pv that comes too late: the sweep has found
      pv untracked and has not finished with it. */
  ghost predicate RacesAt(cfg: Config, s: State, run: seq<Event>, n: nat, pv: string)
    requires n < |run|
  {
    var t := StateAt(cfg, s, run, n);
    && run[n] == CallRegisters(pv) && pv in t.calls && t.calls[pv].job.kind == Provision
    && PastTrackerCheck(cfg, t, pv)
  }

  ghost predicate RacesBefore(cfg: Config, s: State, run: seq<Event>, n: nat, pv: string)
    requires n <= |run|
  {
    exists m :: 0 <= m < n && RacesAt(cfg, s, run, m, pv)
  }

  /** `raced` holds the PVs on which a Provision call has registered too late. */
  lemma {:induction false} RacedIff(cfg: Config, s: State, run: seq<Event>, n: nat, pv: string)
    requires Init(cfg, s) && n <= |run|
    ensures pv in StateAt(cfg, s, run, n).raced <==> RacesBefore(cfg, s, run, n, pv)
  {
    if n > 0 {
      RacedIff(cfg, s, run, n - 1, pv);
      RacedStep(cfg, StateAt(cfg, s, run, n - 1), run[n - 1], pv);
      RacesBeforeNext(cfg, s, run, n - 1, pv);
    }
  }

  lemma {:induction false} RacesBeforeNext(cfg: Config, s: State, run: seq<Event>, n: nat, pv: string)
    requires n < |run|
    ensures RacesBefore(cfg, s, run, n + 1, pv) <==> RacesBefore(cfg, s, run, n, pv) || RacesAt(cfg, s, run, n, pv)
  {
  }

  lemma {:induction false} RacedStep(cfg: Config, s: State, e: Event, pv: string)
    ensures pv in Apply(cfg, s, e).raced <==>
      pv in s.raced || (e == CallRegisters(pv) && pv in s.calls && s.calls[pv].job.kind == Provision
                        && PastTrackerCheck(cfg, s, pv))
  {
  }

  /** A Provision call that registers while its claim exists is not too late. */
  lemma {:induction false} TimelyRegistration(cfg: Config, s: State, run: seq<Event>, n: nat, pv: string)
    requires Init(cfg, s) && IsRun(cfg, s, run) && n <= |run|
    requires forall m | 0 <= m < n && run[m] == CallRegisters(pv) ::
      var t := StateAt(cfg, s, run, m); ProvisionCall(t, pv) ==> LivePv(t, pv)
    ensures pv !in StateAt(cfg, s, run, n).raced
  {
    RacedIff(cfg, s, run, n, pv);
    InitEstablishes(cfg, s);
    if m :| 0 <= m < n && RacesAt(cfg, s, run, m, pv) {
      RunKeeps(cfg, s, run, m);
      PastCheckIsDead(cfg, StateAt(cfg, s, run, m), pv);
    }
  }

  predicate ProvisionCall(s: State, pv: string) {
    pv in s.calls && s.calls[pv].job.kind == Provision
  }

  /** The sweep gets past its tracker check only for PVs whose claim is gone. */
  lemma {:induction false} PastCheckIsDead(cfg: Config, s: State, pv: string)
    requires Inv(cfg, s) && PastTrackerCheck(cfg, s, pv)
    ensures DeadPv(s, pv) && (pv !in s.raced ==> !ProvisionRegistered(s, pv))
  {
    assert s.gc.todo[0].key.1[4..] == pv;
  }

  /** In every reachable state, across failures at any call, restarts, retries and concurrent sweeps. */
  lemma {:induction false} ResourceChain(cfg: Config, s: State, pv: string)
    requires Reachable(cfg, s) && pv !in s.raced
    ensures HasService(cfg, s, pv) ==> HasDeployment(cfg, s, pv)
    ensures HasDeployment(cfg, s, pv) ==> HasPvc(cfg, s, pv)
  {
    ReachableInv(cfg, s);
    assert PvInv(cfg, s, pv);
  }

  /** While the sweep is past its tracker check for pv, pv's claim is gone and, unless one registered too late,
      no Provision call on pv is registered. */
  lemma {:induction false} SweepExcludesProvision(cfg: Config, s: State, pv: string)
    requires Reachable(cfg, s) && PastTrackerCheck(cfg, s, pv)
    ensures DeadPv(s, pv) && (pv !in s.raced ==> !ProvisionRegistered(s, pv))
  {
    ReachableInv(cfg, s);
    PastCheckIsDead(cfg, s, pv);
  }

  predicate Exclusive(cfg: Config, s: State, pv: string) {
    !(PastTrackerCheck(cfg, s, pv) && ProvisionRegistered(s, pv))
  }

  ghost predicate ExclusiveUpTo(cfg: Config, s: State, run: seq<Event>, n: nat, pv: string)
    requires n <= |run|
  {
    forall m | 0 <= m <= n :: Exclusive(cfg, StateAt(cfg, s, run, m), pv)
  }

  /** The tracker keeps the sweep and Provision apart throughout a run if and only if no Provision call
      registers too late in it. */
  lemma {:induction false} ExclusionIff(cfg: Config, s: State, run: seq<Event>, n: nat, pv: string)
    requires Init(cfg, s) && IsRun(cfg, s, run) && n <= |run|
    ensures ExclusiveUpTo(cfg, s, run, n, pv) <==> !RacesBefore(cfg, s, run, n, pv)
  {
    if RacesBefore(cfg, s, run, n, pv) {
      var m :| 0 <= m < n && RacesAt(cfg, s, run, m, pv);
      RaceMeetsSweep(cfg, s, run, m, pv);
    } else {
      forall m | 0 <= m <= n ensures Exclusive(cfg, StateAt(cfg, s, run, m), pv) {
        TimelyExcludes(cfg, s, run, m, pv);
      }
    }
  }

  lemma {:induction false} RaceMeetsSweep(cfg: Config, s: State, run: seq<Event>, m: nat, pv: string)
    requires m < |run| && RacesAt(cfg, s, run, m, pv)
    ensures !Exclusive(cfg, StateAt(cfg, s, run, m + 1), pv)
  {
    LateMeetsSweep(cfg, StateAt(cfg, s, run, m), pv);
  }

  lemma {:induction false} TimelyExcludes(cfg: Config, s: State, run: seq<Event>, n: nat, pv: string)
    requires Init(cfg, s) && IsRun(cfg, s, run) && n <= |run|
    requires !RacesBefore(cfg, s, run, n, pv)
    ensures Exclusive(cfg, StateAt(cfg, s, run, n), pv)
  {
    InitEstablishes(cfg, s);
    RunKeeps(cfg, s, run, n);
    RacedIff(cfg, s, run, n, pv);
    if PastTrackerCheck(cfg, StateAt(cfg, s, run, n), pv) {
      PastCheckIsDead(cfg, StateAt(cfg, s, run, n), pv);
    }
  }

  lemma {:induction false} LateMeetsSweep(cfg: Config, s: State, pv: string)
    requires ProvisionCall(s, pv) && PastTrackerCheck(cfg, s, pv)
    ensures !Exclusive(cfg, Apply(cfg, s, CallRegisters(pv)), pv)
  {
  }

  /** Whatever happens in a reachable state, an object of a PV disappears only if the PV's claim is gone, and,
      unless a Provision call on the PV registered too late, while none is registered. */
  lemma {:induction false} OnlyStaleObjectsVanish(cfg: Config, s: State, e: Event, pv: string)
    requires Reachable(cfg, s) && Enabled(cfg, s, e)
    requires Loses(cfg, s, Apply(cfg, s, e), pv)
    ensures DeadPv(s, pv) && (pv !in s.raced ==> !ProvisionRegistered(s, pv))
  {
    ReachableInv(cfg, s);
    match e
    case CallSteps(p, w) =>
      assert PvInv(cfg, s, p);
      if p != pv {
        AdvanceFrame(cfg, s.calls[p].job, s.c, w, pv);
      } else if s.calls[p].job.kind == Provision {
        CreatorRemovesNothing(cfg, s.calls[p].job, s.c, w);
      }
    case SweepSteps(w) => SweepRemovesOnlyStale(cfg, s, w, pv);
    case _ => ReservedKey(cfg, pv);
  }

  predicate Loses(cfg: Config, s: State, s': State, pv: string) {
    || (HasPvc(cfg, s, pv) && !HasPvc(cfg, s', pv))
    || (HasDeployment(cfg, s, pv) && !HasDeployment(cfg, s', pv))
    || (HasService(cfg, s, pv) && !HasService(cfg, s', pv))
  }

  lemma {:induction false} SweepRemovesOnlyStale(cfg: Config, s: State, w: Weather, pv: string)
    requires Inv(cfg, s) && Enabled(cfg, s, SweepSteps(w)) && Loses(cfg, s, Apply(cfg, s, SweepSteps(w)), pv)
    ensures s.gc.at.Deleting? && PastTrackerCheck(cfg, s, pv)
    ensures DeadPv(s, pv) && (pv !in s.raced ==> !ProvisionRegistered(s, pv))
  {
    assert s.gc.at.Deleting?;
    NameSplits(s.gc.todo[0].key.1);
    assert ItemInv(cfg, s.born, s.gc.todo[0]);
    if s.gc.at.job.opts.pvName != pv {
      AdvanceFrame(cfg, s.gc.at.job, s.c, w, pv);
    }
  }

  lemma {:induction false} CreatorRemovesNothing(cfg: Config, t: Job, c: Cluster, w: Weather)
    requires Creating(t.pc) || t.pc.Returned?
    ensures var c' := Advance(cfg, t, c, w).1;
      c.pvcs.Keys <= c'.pvcs.Keys && c.deployments.Keys <= c'.deployments.Keys && c.services.Keys <= c'.services.Keys
  {
  }

  /** Event n of the run is the return, with ProvisioningFinished, of a Provision call on pv. */
  ghost predicate FinishesAt(cfg: Config, s: State, run: seq<Event>, n: nat, pv: string)
    requires n < |run|
  {
    var t := StateAt(cfg, s, run, n);
    run[n] == CallReturns(pv) && ProvisionCall(t, pv) && t.calls[pv].job.pc == Returned(true)
  }

  /** Event n of the run is the return, without error, of a Delete call on pv. */
  ghost predicate DeletedAt(cfg: Config, s: State, run: seq<Event>, n: nat, pv: string)
    requires n < |run|
  {
    var t := StateAt(cfg, s, run, n);
    && run[n] == CallReturns(pv) && pv in t.calls
    && t.calls[pv].job.kind == Delete && t.calls[pv].job.pc == Returned(true)
  }

  /** Once Provision(pv) has returned Finished, all three objects of pv are there for as long as the claim
      with that UID is. */
  lemma {:induction false} DurableVolumes(cfg: Config, s: State, run: seq<Event>, i: nat, j: nat, pv: string)
    requires Init(cfg, s) && IsRun(cfg, s, run) && i < j <= |run|
    requires FinishesAt(cfg, s, run, i, pv)
    requires LivePv(StateAt(cfg, s, run, j), pv)
    ensures var t := StateAt(cfg, s, run, j);
      HasService(cfg, t, pv) && HasDeployment(cfg, t, pv) && HasPvc(cfg, t, pv)
  {
    InitEstablishes(cfg, s);
    RunKeeps(cfg, s, run, j);
    assert PvInv(cfg, StateAt(cfg, s, run, j), pv);
    ProvisionedStays(cfg, s, run, i, j, pv);
  }

  lemma {:induction false} ProvisionedStays(cfg: Config, s: State, run: seq<Event>, i: nat, j: nat, pv: string)
    requires i < j <= |run| && FinishesAt(cfg, s, run, i, pv)
    ensures pv in StateAt(cfg, s, run, j).provisioned
  {
    var t := StateAt(cfg, s, run, j - 1);
    if j > i + 1 {
      ProvisionedStays(cfg, s, run, i, j - 1, pv);
      HistoryGrows(cfg, t, run[j - 1]);
    } else {
      ReturnRecorded(cfg, t, pv);
    }
  }

  lemma {:induction false} ReturnRecorded(cfg: Config, s: State, pv: string)
    requires ProvisionCall(s, pv) && s.calls[pv].job.pc == Returned(true)
    ensures pv in Apply(cfg, s, CallReturns(pv)).provisioned
  {
  }

  lemma {:induction false} HistoryGrows(cfg: Config, s: State, e: Event)
    ensures s.provisioned <= Apply(cfg, s, e).provisioned
    ensures forall pv | pv in Apply(cfg, s, e).seenBound && pv !in s.seenBound ::
      && e.CallSteps? && e.pv == pv && pv in s.calls && s.calls[pv].job.pc.WaitBound?
      && Advance(cfg, s.calls[pv].job, s.c, e.w).0.pc.BackendHook?
  {
  }

  /** The wait ends only on a claim read as Bound. */
  lemma {:induction false} WaitEndsBound(cfg: Config, t: Job, c: Cluster, w: Weather)
    requires t.pc.WaitBound? && Advance(cfg, t, c, w).0.pc.BackendHook?
    ensures var k := BackendKey(cfg, t.opts.pvName); k in c.pvcs && c.pvcs[k].bound
  {
  }

  /** Event n of the run is a Provision call on pv reading pv's backend claim and finding it Bound. */
  ghost predicate SeesBoundAt(cfg: Config, s: State, run: seq<Event>, n: nat, pv: string)
    requires n < |run|
  {
    var t := StateAt(cfg, s, run, n);
    && run[n].CallSteps? && run[n].pv == pv
    && ProvisionCall(t, pv) && t.calls[pv].job.pc.WaitBound?
    && HasPvc(cfg, t, pv) && t.c.pvcs[BackendKey(cfg, pv)].bound
  }

  /** A Service for pv exists only if some earlier step read pv's backend claim as Bound. */
  lemma {:induction false} BoundBeforeServing(cfg: Config, s: State, run: seq<Event>, n: nat, pv: string)
    requires Init(cfg, s) && IsRun(cfg, s, run) && n <= |run|
    requires HasService(cfg, StateAt(cfg, s, run, n), pv)
    ensures exists m :: 0 <= m < n && SeesBoundAt(cfg, s, run, m, pv)
  {
    InitEstablishes(cfg, s);
    RunKeeps(cfg, s, run, n);
    assert PvInv(cfg, StateAt(cfg, s, run, n), pv);
    var m := SeenBoundHasCause(cfg, s, run, n, pv);
    RunKeeps(cfg, s, run, m);
    assert EnabledAt(cfg, s, run, m);
    var t := StateAt(cfg, s, run, m);
    HistoryGrows(cfg, t, run[m]);
    assert PvInv(cfg, t, pv);
    WaitEndsBound(cfg, t.calls[pv].job, t.c, run[m].w);
    assert SeesBoundAt(cfg, s, run, m, pv);
  }

  /** History has a first moment. */
  lemma {:induction false} SeenBoundHasCause(cfg: Config, s: State, run: seq<Event>, n: nat, pv: string)
    returns (m: nat)
    requires n <= |run| && pv !in s.seenBound
    requires pv in StateAt(cfg, s, run, n).seenBound
    ensures m < n && pv !in StateAt(cfg, s, run, m).seenBound && pv in StateAt(cfg, s, run, m + 1).seenBound
  {
    if pv in StateAt(cfg, s, run, n - 1).seenBound {
      m := SeenBoundHasCause(cfg, s, run, n - 1, pv);
    } else {
      m := n - 1;
    }
  }

  /** The labels of the DNS name of a Service, from the host on: the Service, its namespace and the cluster's domain. */
  lemma {:induction false} DnsLabels(cfg: Config, name: string)
    requires '.' !in name && '.' !in cfg.ns
    ensures Split(ServiceDNS(cfg, name), ".") == [name, cfg.ns, "svc", "cluster", "local"]
  {
    var domain := "." + "svc" + "." + "cluster" + "." + "local";
    assert ServiceDNS(cfg, name) == name + "." + cfg.ns + domain;
    assert name + "." + cfg.ns + domain == name + "." + cfg.ns + "." + "svc" + "." + "cluster" + "." + "local";
    SplitFive(name, cfg.ns, "svc", "cluster", "local", ".");
  }

  /** Whatever the path, fresh or resumed: when a Provision call has come to its end with Finished, pv's Service
      selects the pods of pv's Deployment, whose volume mounts pv's existing backend claim, and the address it
      put in the PV is that Service's. */
  lemma {:induction false} FinishedIsWired(cfg: Config, s: State, pv: string)
    requires Reachable(cfg, s) && ProvisionRegistered(s, pv) && s.calls[pv].job.pc == Returned(true)
    requires pv !in s.raced
    ensures var k := BackendKey(cfg, pv);
      && k in s.c.services && k in s.c.deployments && k in s.c.pvcs
      && Selects(s.c.services[k].selector, s.c.deployments[k].labels)
      && (cfg.ns, s.c.deployments[k].claimName) == k
      && s.calls[pv].job.opts.address ==
           if cfg.useClusterIP then s.c.services[k].ip else k.1 + "." + cfg.ns + ".svc.cluster.local"
    ensures !cfg.useClusterIP && '.' !in BackendName(pv) && '.' !in cfg.ns ==>
      Split(s.calls[pv].job.opts.address, ".") == [BackendName(pv), cfg.ns, "svc", "cluster", "local"]
  {
    ReachableInv(cfg, s);
    assert PvInv(cfg, s, pv);
    if '.' !in BackendName(pv) && '.' !in cfg.ns { DnsLabels(cfg, BackendName(pv)); }
  }

  /** Objects are wired at all times and for every PV, also when a Provision call on it registered too late: where
      they exist, the Service selects the Deployment's pods, the Deployment's volume names the backend claim, and
      both carry the UID of the PV's claim. */
  lemma {:induction false} ObjectsAreWired(cfg: Config, s: State, pv: string)
    requires Reachable(cfg, s)
    ensures var k := BackendKey(cfg, pv);
      && (k in s.c.services && k in s.c.deployments ==>
            Selects(s.c.services[k].selector, s.c.deployments[k].labels))
      && (k in s.c.deployments ==>
            && Known(s.born, pv) && (cfg.ns, s.c.deployments[k].claimName) == k
            && PVC_UID in s.c.deployments[k].labels && pv == PVName(s.c.deployments[k].labels[PVC_UID])
            && PVC_NS in s.c.deployments[k].labels && PVC_NAME in s.c.deployments[k].labels
            && s.born[s.c.deployments[k].labels[PVC_UID]] ==
                 (s.c.deployments[k].labels[PVC_NS], s.c.deployments[k].labels[PVC_NAME]))
      && (k in s.c.pvcs ==> PVC_UID in s.c.pvcs[k].labels && pv == PVName(s.c.pvcs[k].labels[PVC_UID]))
  {
    ReachableInv(cfg, s);
    assert PvInv(cfg, s, pv);
    assert Known(s.born, pv) ==> pv == PVName(pv[4..]);
  }

  /** Every backend claim in the server namespace is one the sweep lists, with labels naming the claim it was
      made for and that claim's UID, and with a name from which the sweep recovers its PV. */
  lemma {:induction false} Recognisable(cfg: Config, s: State, k: Key)
    requires Reachable(cfg, s) && k in s.c.pvcs && Reserved(cfg, k)
    ensures Known(s.born, k.1[4..])
    ensures var pvc := s.c.pvcs[k]; var uid := k.1[4..][4..];
      && Selected(cfg, k, pvc) && HasClaimLabels(pvc)
      && uid in s.born && pvc.labels[PVC_UID] == uid && ClaimOf(pvc) == s.born[uid]
      && PvOf(Listed(k, pvc)) == PVName(uid) && k == BackendKey(cfg, PVName(uid))
  {
    var pv := k.1[4..];
    NameSplits(k.1);
    ReachableInv(cfg, s);
    BackendClaimItem(cfg, s, pv);
    BackendClaimScans(cfg, s, Listed(k, s.c.pvcs[k]));
  }

  lemma {:induction false} BackendClaimItem(cfg: Config, s: State, pv: string)
    requires Inv(cfg, s) && HasPvc(cfg, s, pv)
    ensures var k := BackendKey(cfg, pv); var pvc := s.c.pvcs[k];
      && Selected(cfg, k, pvc) && HasClaimLabels(pvc) && Known(s.born, pv)
      && pvc.labels[PVC_UID] == pv[4..] && ClaimOf(pvc) == s.born[pv[4..]]
      && ItemInv(cfg, s.born, Listed(k, pvc))
  {
    assert PvInv(cfg, s, pv);
  }

  lemma {:induction false} BackendClaimScans(cfg: Config, s: State, it: Listed)
    requires BornInv(cfg, s) && ItemInv(cfg, s.born, it) && "nfs-" <= it.key.1
    ensures PvOf(it) == it.key.1[4..] && it.key == BackendKey(cfg, PvOf(it))
  {
    ScanKnown(cfg, s.born, it);
  }
}
