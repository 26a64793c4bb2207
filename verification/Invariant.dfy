/** What every step of the protocol keeps. */
module Invariant {
  import opened Kube
  import opened ServerJob
  import opened SweepMachine
  import opened Protocol
  import opened Text

  /** The options a Provision call for `pv` is made with, as far as objects show them. */
  function OptsOf(born: map<string, Key>, pv: string): Opts
    requires Known(born, pv)
  {
    ProvisionOpts(pv, pv[4..], born[pv[4..]], 0)
  }

  predicate HasPvc(cfg: Config, s: State, pv: string) { BackendKey(cfg, pv) in s.c.pvcs }
  predicate HasDeployment(cfg: Config, s: State, pv: string) { BackendKey(cfg, pv) in s.c.deployments }
  predicate HasService(cfg: Config, s: State, pv: string) { BackendKey(cfg, pv) in s.c.services }

  predicate NoneLeft(cfg: Config, s: State, pv: string) {
    !HasPvc(cfg, s, pv) && !HasDeployment(cfg, s, pv) && !HasService(cfg, s, pv)
  }

  /** Service present implies Deployment present implies backend claim present. */
  predicate Chain(cfg: Config, s: State, pv: string) {
    && (HasService(cfg, s, pv) ==> HasDeployment(cfg, s, pv))
    && (HasDeployment(cfg, s, pv) ==> HasPvc(cfg, s, pv))
  }

  /** The objects of `pv` carry the labels, selector and claim reference of pv's claim. */
  predicate Wired(cfg: Config, s: State, pv: string) {
    var k := BackendKey(cfg, pv);
    && (k in s.c.pvcs ==> Known(s.born, pv) && s.c.pvcs[k].labels == PvcLabels(OptsOf(s.born, pv)))
    && (k in s.c.deployments ==>
          && Known(s.born, pv)
          && s.c.deployments[k].labels == DeploymentLabels(OptsOf(s.born, pv))
          && s.c.deployments[k].claimName == k.1)
    && (k in s.c.services ==> s.c.services[k].selector == map[NFS_SERVER := k.1])
  }

  /** A job that creates the objects of `pv`: its option fields name them, and it has waited for storage. */
  predicate CreatorInv(cfg: Config, s: State, pv: string, t: Job) {
    var k := BackendKey(cfg, pv);
    && t.opts.pvName == pv
    && Known(s.born, pv)
    && t.opts.pvcUID == pv[4..]
    && (t.opts.pvcNamespace, t.opts.pvcName) == s.born[pv[4..]]
    && (Creating(t.pc) || t.pc == Returned(false))
    && (AfterPvc(t.pc) ==> t.opts.backendPvcName == k.1)
    && (AfterDep(t.pc) ==> t.opts.deploymentName == k.1)
    && (AfterWait(t.pc) ==> pv in s.seenBound)
    && (AfterSvc(t.pc) ==> t.opts.serviceName == k.1)
  }

  /** What a creating job has been through is there, and the address it holds is right. */
  predicate CreatorHas(cfg: Config, s: State, pv: string, t: Job) {
    && (AfterPvc(t.pc) ==> HasPvc(cfg, s, pv))
    && (AfterDep(t.pc) ==> HasDeployment(cfg, s, pv))
    && (AfterSvc(t.pc) ==> HasService(cfg, s, pv))
    && (AfterAddress(t.pc) ==> t.opts.address == Address(cfg, s, pv))
  }

  /** What getNFSServerAddress returns for a PV whose Service exists. */
  function Address(cfg: Config, s: State, pv: string): string {
    var k := BackendKey(cfg, pv);
    if !cfg.useClusterIP then ServiceDNS(cfg, k.1) else if k in s.c.services then s.c.services[k].ip else ""
  }

  /** A job that deletes the objects of `pv`: the claim is gone. */
  predicate RemoverInv(s: State, pv: string, t: Job) {
    t.opts.pvName == pv && DeadPv(s, pv) && (Removing(t.pc) || t.pc.PvHook? || t.pc.Returned?)
  }

  /** What a deleting job has been through is gone. */
  predicate RemoverHas(cfg: Config, s: State, pv: string, t: Job) {
    && (PastSvc(t.pc) ==> !HasService(cfg, s, pv))
    && (PastDep(t.pc) ==> !HasDeployment(cfg, s, pv))
  }

  /** Nobody deletes beside a Provision call on `pv`: its claim is there, or the sweep will find it tracked. */
  predicate Guarded(s: State, pv: string) {
    LivePv(s, pv) || (Registered(s, pv) && pv !in s.raced)
  }

  predicate CallInv(cfg: Config, s: State, pv: string) {
    pv in s.calls ==> var call := s.calls[pv];
      && (call.job.kind == Provision || call.job.kind == Delete)
      && (call.phase.Entering? ==> call.job.pc.Configure? || call.job.kind == Delete)
      && (call.phase.Leaving? ==> call.job.pc.Returned?)
      && (call.job.kind == Provision ==>
            CreatorInv(cfg, s, pv, call.job) && (Guarded(s, pv) ==> CreatorHas(cfg, s, pv, call.job)))
      && (call.job.kind == Delete ==>
            RemoverInv(s, pv, call.job) && (pv !in s.raced ==> RemoverHas(cfg, s, pv, call.job)))
  }

  predicate PvInv(cfg: Config, s: State, pv: string) {
    && (pv in s.tracker <==> Registered(s, pv))
    && (pv in s.raced ==> DeadPv(s, pv))
    && (pv !in s.raced ==> Chain(cfg, s, pv))
    && Wired(cfg, s, pv)
    && (HasService(cfg, s, pv) ==> pv in s.seenBound)
    && CallInv(cfg, s, pv)
    && (pv in s.provisioned ==> Known(s.born, pv) && (LivePv(s, pv) ==> HasService(cfg, s, pv)))
  }

  /** An item of a sweep's list is either not ours, and its name does not scan, or a true backend claim. */
  predicate ItemInv(cfg: Config, born: map<string, Key>, it: Listed) {
    && it.key.0 == cfg.ns
    && ("nfs-" <= it.key.1 ==>
          && Known(born, it.key.1[4..])
          && it.pvc.labels == PvcLabels(OptsOf(born, it.key.1[4..])))
  }

  function PvNamed(it: Listed): string {
    if "nfs-" <= it.key.1 then it.key.1[4..] else ""
  }

  predicate StageInv(cfg: Config, s: State, it: Listed, at: Stage) {
    !at.CheckClaim? ==>
    && "nfs-" <= it.key.1
    && var pv := it.key.1[4..];
    && DeadPv(s, pv)
    && (!at.CheckTracker? && pv !in s.raced ==> !ProvisionRegistered(s, pv))
    && (at.Deleting? ==>
          && at.job.kind == Collect && RemoverInv(s, pv, at.job) && Removing(at.job.pc)
          && (pv !in s.raced ==> RemoverHas(cfg, s, pv, at.job)))
  }

  ghost predicate GcInv(cfg: Config, s: State) {
    s.gc.Sweeping? ==>
      && s.gc.todo != []
      && (forall i | 0 <= i < |s.gc.todo| :: ItemInv(cfg, s.born, s.gc.todo[i]))
      && StageInv(cfg, s, s.gc.todo[0], s.gc.at)
  }

  ghost predicate BornInv(cfg: Config, s: State) {
    forall u | u in s.born :: NoSpace(u) && !Reserved(cfg, s.born[u])
  }

  ghost predicate Inv(cfg: Config, s: State) {
    && BornInv(cfg, s)
    && GcInv(cfg, s)
    && (forall pv: string :: PvInv(cfg, s, pv))
  }

  lemma InitEstablishes(cfg: Config, s: State)
    requires Init(cfg, s)
    ensures Inv(cfg, s)
  {
    forall pv: string ensures PvInv(cfg, s, pv) {
      ReservedKey(cfg, pv);
    }
  }

  lemma ReservedKey(cfg: Config, pv: string)
    ensures Reserved(cfg, BackendKey(cfg, pv))
  {
    assert BackendName(pv)[..4] == "nfs-";
  }

  lemma NameSplits(name: string)
    requires "nfs-" <= name
    ensures name == BackendName(name[4..])
    ensures "pvc-" <= name[4..] ==> name[4..] == PVName(name[4..][4..])
  {
  }

  /** A one-word name with the prefix scans to the PV it was built from. */
  lemma ScanKnown(cfg: Config, born: map<string, Key>, it: Listed)
    requires ItemInv(cfg, born, it) && (forall u | u in born :: NoSpace(u))
    ensures PvOf(it) == PvNamed(it)
    ensures "nfs-" <= it.key.1 ==> it.key == BackendKey(cfg, PvOf(it))
  {
    if "nfs-" <= it.key.1 {
      var pv := it.key.1[4..];
      assert it.key.1 == BackendName(pv);
      assert pv == "pvc-" + pv[4..];
      assert NoSpace(pv) by {
        forall i | 0 <= i < |pv| ensures !IsSpace(pv[i]) {
          if i >= 4 { assert pv[i] == pv[4..][i - 4]; }
        }
      }
      ScanInvertsBackendName(pv);
    }
  }

  /** What another PV's invariant reads is untouched by a step that changes only the objects at `k`
      (and, if `pv` is in a call, that call). */
  predicate SameAt(s: State, s': State, k: Key, pv: string) {
    && (k in s.c.pvcs <==> k in s'.c.pvcs)
    && (k in s.c.pvcs ==> s.c.pvcs[k].labels == s'.c.pvcs[k].labels)
    && (k in s.c.deployments <==> k in s'.c.deployments)
    && (k in s.c.deployments ==> s.c.deployments[k] == s'.c.deployments[k])
    && (k in s.c.services <==> k in s'.c.services)
    && (k in s.c.services ==> s.c.services[k] == s'.c.services[k])
    && (pv in s.calls <==> pv in s'.calls)
    && (pv in s.calls ==> s.calls[pv] == s'.calls[pv])
    && (pv in s.tracker <==> pv in s'.tracker)
    && (pv in s.raced <==> pv in s'.raced)
    && (pv in s.seenBound ==> pv in s'.seenBound)
    && (pv in s'.provisioned ==> pv in s.provisioned)
  }

  /** UIDs keep their birthplace, and a claim that is gone stays gone. */
  ghost predicate NoRevival(s: State, s': State) {
    && (forall u | u in s.born :: u in s'.born && s'.born[u] == s.born[u])
    && (forall u | u in s.born && Live(s', u) :: Live(s, u))
  }

  lemma FramePv(cfg: Config, s: State, s': State, pv: string)
    requires PvInv(cfg, s, pv)
    requires SameAt(s, s', BackendKey(cfg, pv), pv)
    requires NoRevival(s, s')
    ensures PvInv(cfg, s', pv)
  {
  }
}
