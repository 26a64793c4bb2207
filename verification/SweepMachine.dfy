/** One sweep of the garbage collector, as the sequence of its steps: list the backend claims, then for
    each one read the NFS claim, ask the tracker, read the PV, and delete the server. */
module SweepMachine {
  import opened Kube
  import opened ServerJob
  import opened Text

  datatype Listed = Listed(key: Key, pvc: PVC)

  /** Where the sweep stands with the first claim of its list. */
  datatype Stage = CheckClaim | CheckTracker | CheckPv | Deleting(job: Job)

  datatype Gc = Idle | Sweeping(todo: seq<Listed>, at: Stage)

  /** The collector's list call selects on this label in the server namespace. */
  predicate Selected(cfg: Config, k: Key, pvc: PVC) {
    k.0 == cfg.ns && CAS_TYPE in pvc.labels && pvc.labels[CAS_TYPE] == NFS_KERNEL
  }

  /** `todo` is what the list call may return: every selected claim once, in some order. */
  ghost predicate IsListing(cfg: Config, c: Cluster, todo: seq<Listed>) {
    && (forall i | 0 <= i < |todo| ::
          todo[i].key in c.pvcs && todo[i].pvc == c.pvcs[todo[i].key] && Selected(cfg, todo[i].key, todo[i].pvc))
    && (forall k | k in c.pvcs && Selected(cfg, k, c.pvcs[k]) :: Listed(k, c.pvcs[k]) in todo)
    && (forall i, j | 0 <= i < j < |todo| :: todo[i].key != todo[j].key)
  }

  predicate HasClaimLabels(pvc: PVC) {
    PVC_NAME in pvc.labels && PVC_NS in pvc.labels && PVC_UID in pvc.labels
  }

  /** The NFS claim a backend claim was made for. */
  function ClaimOf(pvc: PVC): Key
    requires HasClaimLabels(pvc)
  {
    (pvc.labels[PVC_NS], pvc.labels[PVC_NAME])
  }

  function Begin(todo: seq<Listed>): Gc {
    if todo == [] then Idle else Sweeping(todo, CheckClaim)
  }

  function CollectJob(pv: string): Job {
    Job(Collect, DeleteOpts(pv), DelGetSvc)
  }

  function PvOf(it: Listed): string {
    ScanPVName(it.key.1)
  }

  /** nfsPvcExists: Found(true) if the claim with the labelled UID is there. */
  function ClaimExists(c: Cluster, pvc: PVC, f: Fault): Reply<bool>
    requires HasClaimLabels(pvc)
  {
    match Read(c.pvcs, ClaimOf(pvc), f)
    case Failed => Failed
    case NotFound => Found(false)
    case Found(claim) => Found(claim.uid == pvc.labels[PVC_UID])
  }

  /** pvExists. */
  function PvExists(c: Cluster, pv: string, f: Fault): Reply<bool> {
    if f != Fine then Failed else Found(pv in c.pvs)
  }

  /** One step of a sweep. */
  function GcAdvance(cfg: Config, gc: Gc, c: Cluster, tracker: set<string>, w: Weather): (r: (Gc, Cluster))
    requires gc.Sweeping? && gc.todo != []
  {
    var it := gc.todo[0];
    var next := Begin(gc.todo[1..]);
    match gc.at
    case CheckClaim =>
      (if HasClaimLabels(it.pvc) && ClaimExists(c, it.pvc, w.fault) == Found(false) && PvOf(it) != ""
       then Sweeping(gc.todo, CheckTracker) else next, c)
    case CheckTracker => (if PvOf(it) in tracker then next else Sweeping(gc.todo, CheckPv), c)
    case CheckPv =>
      (if PvExists(c, PvOf(it), w.fault) == Found(false) then Sweeping(gc.todo, Deleting(CollectJob(PvOf(it))))
       else next, c)
    case Deleting(t) =>
      var (t', c') := Advance(cfg, t, c, w);
      (if t'.pc.Returned? then next else Sweeping(gc.todo, Deleting(t')), c')
  }
}
