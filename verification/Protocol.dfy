/**
 The provisioner process against its environment, as a transition system: users create and delete claims,
 storage binds them, PVs come and go, the controller calls Provision and Delete, the collector sweeps, any
 API call may fail, and the process may restart between any two steps.
 */
module Protocol {
  import opened Kube
  import opened ServerJob
  import opened SweepMachine
  import opened Text

  /** A call enters, adds its PV to the tracker, runs, takes its PV out of the tracker again, and leaves. */
  datatype Phase = Entering | Running | Leaving

  datatype Call = Call(phase: Phase, job: Job)

  /** The last four are history: where each UID was created, the PVs whose Provision has returned Finished,
      those whose backend claim a Provision call has read as Bound, and those on which a Provision call
      registered when the sweep had already found them untracked. */
  datatype State = State(
    c: Cluster,
    tracker: set<string>,
    calls: map<string, Call>,
    gc: Gc,
    born: map<string, Key>,
    provisioned: set<string>,
    seenBound: set<string>,
    raced: set<string>)

  datatype Event =
    | ClaimCreated(key: Key, uid: string, labels: map<string, string>)
    | ClaimDeleted(key: Key)
    | PhaseChanged(key: Key, bound: bool)
    | PvsChanged(pvs: set<string>)
    | ProvisionCalled(uid: string, ticks: nat)
    | DeleteCalled(pv: string, keeps: bool)
    | CallRegisters(pv: string)
    | CallSteps(pv: string, w: Weather)
    | CallUnregisters(pv: string)
    | CallReturns(pv: string)
    | SweepStarts(todo: seq<Listed>)
    | SweepSteps(w: Weather)
    | Restart

  /** Names only the provisioner creates and deletes. */
  predicate Reserved(cfg: Config, k: Key) {
    k.0 == cfg.ns && "nfs-" <= k.1
  }

  /** The claim with this UID exists. */
  predicate Live(s: State, uid: string) {
    uid in s.born && s.born[uid] in s.c.pvcs && s.c.pvcs[s.born[uid]].uid == uid
  }

  /** `pv` is the PV name of some claim ever created. */
  predicate Known(born: map<string, Key>, pv: string) {
    "pvc-" <= pv && pv[4..] in born
  }

  predicate LivePv(s: State, pv: string) {
    Known(s.born, pv) && Live(s, pv[4..])
  }

  /** The claim of `pv` was created and is gone. */
  predicate DeadPv(s: State, pv: string) {
    Known(s.born, pv) && !Live(s, pv[4..])
  }

  /** The PV is kept in the tracker: the call has registered and not yet unregistered. */
  predicate Registered(s: State, pv: string) {
    pv in s.calls && s.calls[pv].phase.Running?
  }

  predicate ProvisionRegistered(s: State, pv: string) {
    Registered(s, pv) && s.calls[pv].job.kind == Provision
  }

  /** The sweep has found pv untracked and has not finished with it. */
  predicate PastTrackerCheck(cfg: Config, s: State, pv: string) {
    && s.gc.Sweeping? && s.gc.todo != [] && s.gc.todo[0].key == BackendKey(cfg, pv)
    && (s.gc.at.CheckPv? || s.gc.at.Deleting?)
  }

  ghost predicate Enabled(cfg: Config, s: State, e: Event) {
    match e
    case ClaimCreated(k, uid, _) => !Reserved(cfg, k) && k !in s.c.pvcs && uid !in s.born && NoSpace(uid)
    case ClaimDeleted(k) => !Reserved(cfg, k)
    case PhaseChanged(k, _) => k in s.c.pvcs
    case PvsChanged(_) => true
    case ProvisionCalled(uid, _) => Live(s, uid) && PVName(uid) !in s.calls
    case DeleteCalled(pv, _) => pv in s.c.pvs && DeadPv(s, pv) && pv !in s.calls
    case CallRegisters(pv) => pv in s.calls && s.calls[pv].phase.Entering?
    case CallSteps(pv, _) => Registered(s, pv) && !s.calls[pv].job.pc.Returned?
    case CallUnregisters(pv) => Registered(s, pv) && s.calls[pv].job.pc.Returned?
    case CallReturns(pv) => pv in s.calls && s.calls[pv].phase.Leaving?
    case SweepStarts(todo) => s.gc.Idle? && IsListing(cfg, s.c, todo)
    case SweepSteps(_) => s.gc.Sweeping? && s.gc.todo != []
    case Restart => true
  }

  /** The state after an enabled event. */
  function Apply(cfg: Config, s: State, e: Event): State {
    match e
    case ClaimCreated(k, uid, labels) =>
      s.(c := s.c.(pvcs := s.c.pvcs[k := PVC(uid, labels, Meta(map[], []), false)]), born := s.born[uid := k])
    case ClaimDeleted(k) => s.(c := s.c.(pvcs := s.c.pvcs - {k}))
    case PhaseChanged(k, bound) =>
      if k in s.c.pvcs then s.(c := s.c.(pvcs := s.c.pvcs[k := s.c.pvcs[k].(bound := bound)])) else s
    case PvsChanged(pvs) => s.(c := s.c.(pvs := pvs))
    case ProvisionCalled(uid, ticks) =>
      if uid !in s.born then s else
      var pv := PVName(uid);
      s.(calls := s.calls[pv := Call(Entering, Job(Provision, ProvisionOpts(pv, uid, s.born[uid], ticks), Configure))])
    case DeleteCalled(pv, keeps) =>
      s.(calls :=
        s.calls[pv := Call(Entering, Job(Delete, DeleteOpts(pv), if keeps then Returned(true) else DelGetSvc))])
    case CallRegisters(pv) =>
      if pv !in s.calls then s else
      s.(tracker := s.tracker + {pv}, calls := s.calls[pv := s.calls[pv].(phase := Running)],
         raced := s.raced +
           (if s.calls[pv].job.kind == Provision && PastTrackerCheck(cfg, s, pv) then {pv} else {}))
    case CallSteps(pv, w) =>
      if pv !in s.calls then s else
      var (t, c) := Advance(cfg, s.calls[pv].job, s.c, w);
      s.(c := c, calls := s.calls[pv := s.calls[pv].(job := t)],
         seenBound := s.seenBound + (if s.calls[pv].job.pc.WaitBound? && t.pc.BackendHook? then {pv} else {}))
    case CallUnregisters(pv) =>
      if pv !in s.calls then s else
      s.(tracker := s.tracker - {pv}, calls := s.calls[pv := s.calls[pv].(phase := Leaving)])
    case CallReturns(pv) =>
      if pv !in s.calls then s else
      var t := s.calls[pv].job;
      s.(calls := s.calls - {pv},
         provisioned := s.provisioned + (if t.kind == Provision && t.pc == Returned(true) then {pv} else {}))
    case SweepStarts(todo) => s.(gc := Begin(todo))
    case SweepSteps(w) =>
      if s.gc.Idle? || s.gc.todo == [] then s else
      var (gc, c) := GcAdvance(cfg, s.gc, s.c, s.tracker, w);
      s.(gc := gc, c := c)
    case Restart => s.(tracker := {}, calls := map[], gc := Idle)
  }

  /** Before the provisioner has ever run: no reserved object, nothing in flight, and every claim's UID is
      accounted for. Other objects may exist. */
  ghost predicate Init(cfg: Config, s: State) {
    && (forall k | k in s.c.pvcs || k in s.c.deployments || k in s.c.services :: !Reserved(cfg, k))
    && (forall k | k in s.c.pvcs :: s.c.pvcs[k].uid in s.born)
    && (forall u | u in s.born :: NoSpace(u) && !Reserved(cfg, s.born[u]))
    && s.tracker == {} && s.calls == map[] && s.gc.Idle?
    && s.provisioned == {} && s.seenBound == {} && s.raced == {}
  }

  /** The state after the first n events of a run. */
  function StateAt(cfg: Config, s: State, run: seq<Event>, n: nat): State
    requires n <= |run|
  {
    if n == 0 then s else Apply(cfg, StateAt(cfg, s, run, n - 1), run[n - 1])
  }

  ghost predicate EnabledAt(cfg: Config, s: State, run: seq<Event>, n: int) {
    0 <= n < |run| && Enabled(cfg, StateAt(cfg, s, run, n), run[n])
  }

  /** Every event of the run is enabled when it happens. */
  ghost predicate IsRun(cfg: Config, s: State, run: seq<Event>) {
    forall n | 0 <= n < |run| :: EnabledAt(cfg, s, run, n)
  }

  ghost predicate Reachable(cfg: Config, s: State) {
    exists s0: State, run: seq<Event>, n: nat ::
      Init(cfg, s0) && IsRun(cfg, s0, run) && n <= |run| && StateAt(cfg, s0, run, n) == s
  }
}
