/**
 The creation and deletion of one NFS server (backend claim, Deployment, Service), as the sequence of
 steps that one Provision call, one Delete call or one clean-up by the collector takes. A step is at most
 one API call, so that the protocol can interleave jobs between any two of them.
 */
module ServerJob {
  import opened Kube
  import opened Text

  const CAS_TYPE := "openebs.io/cas-type"
  const NFS_KERNEL := "nfs-kernel"
  const PERSISTENT_VOLUME := "persistent-volume"
  const PVC_NAME := "nfs.openebs.io/nfs-pvc-name"
  const PVC_UID := "nfs.openebs.io/nfs-pvc-uid"
  const PVC_NS := "nfs.openebs.io/nfs-pvc-namespace"
  const NFS_SERVER := "openebs.io/nfs-server"

  datatype Config = Config(ns: string, useClusterIP: bool)

  /** The options of one call. The last four fields are filled in as the call proceeds; `ticks` is how many
      ticks the wait for a bound claim sees before its timer fires. */
  datatype Opts = Opts(
    pvName: string, pvcName: string, pvcUID: string, pvcNamespace: string, ticks: nat,
    backendPvcName: string, deploymentName: string, serviceName: string, address: string)

  datatype Kind = Provision | Delete | Collect

  datatype Pc =
    | Configure | GetPvc | CreatePvc | GetDep | CreateDep | WaitBound(left: nat) | BackendHook
    | GetSvc | CreateSvc | GetAddress | BuildPv
    | DelGetSvc | DelSvc | DelGetDep | DelDep | DelGetPvc | DelPvc | PvHook
    | Returned(ok: bool)

  datatype Job = Job(kind: Kind, opts: Opts, pc: Pc)

  /** How far a creating call has come, and how far a deleting one. */
  predicate Creating(pc: Pc) {
    pc.Configure? || pc.GetPvc? || pc.CreatePvc? || AfterPvc(pc)
  }

  predicate AfterPvc(pc: Pc) {
    pc.GetDep? || pc.CreateDep? || AfterDep(pc)
  }

  predicate AfterDep(pc: Pc) {
    pc.WaitBound? || AfterWait(pc)
  }

  predicate AfterWait(pc: Pc) {
    pc.BackendHook? || pc.GetSvc? || pc.CreateSvc? || AfterSvc(pc)
  }

  predicate AfterSvc(pc: Pc) {
    pc.GetAddress? || AfterAddress(pc)
  }

  predicate AfterAddress(pc: Pc) {
    pc.BuildPv? || pc == Returned(true)
  }

  predicate Removing(pc: Pc) {
    pc.DelGetSvc? || pc.DelSvc? || PastSvc(pc)
  }

  predicate PastSvc(pc: Pc) {
    pc.DelGetDep? || pc.DelDep? || PastDep(pc)
  }

  predicate PastDep(pc: Pc) {
    pc.DelGetPvc? || pc.DelPvc?
  }

  predicate Writes(pc: Pc) {
    pc.CreatePvc? || pc.CreateDep? || pc.CreateSvc? || pc.DelSvc? || pc.DelDep? || pc.DelPvc?
  }

  function BackendKey(cfg: Config, pv: string): Key {
    (cfg.ns, BackendName(pv))
  }

  function ProvisionOpts(pv: string, uid: string, claim: Key, ticks: nat): Opts {
    Opts(pv, claim.1, uid, claim.0, ticks, "", "", "", "")
  }

  function DeleteOpts(pv: string): Opts {
    Opts(pv, "", "", "", 0, "", "", "", "")
  }

  /** getLabels and the three claim labels createBackendPVC adds to it. */
  function PvcLabels(o: Opts): (m: map<string, string>)
    ensures CAS_TYPE in m && m[CAS_TYPE] == NFS_KERNEL
    ensures PVC_NAME in m && m[PVC_NAME] == o.pvcName
    ensures PVC_UID in m && m[PVC_UID] == o.pvcUID
    ensures PVC_NS in m && m[PVC_NS] == o.pvcNamespace
    ensures PERSISTENT_VOLUME in m && m[PERSISTENT_VOLUME] == o.pvName
  {
    map[PERSISTENT_VOLUME := o.pvName, CAS_TYPE := NFS_KERNEL][PVC_NAME := o.pvcName][PVC_UID := o.pvcUID]
    [PVC_NS := o.pvcNamespace]
  }

  function DeploymentLabels(o: Opts): (m: map<string, string>)
    ensures NFS_SERVER in m && m[NFS_SERVER] == BackendName(o.pvName)
    ensures PVC_NAME in m && m[PVC_NAME] == o.pvcName
    ensures PVC_UID in m && m[PVC_UID] == o.pvcUID
    ensures PVC_NS in m && m[PVC_NS] == o.pvcNamespace
  {
    map[NFS_SERVER := BackendName(o.pvName)][PVC_NAME := o.pvcName][PVC_UID := o.pvcUID][PVC_NS := o.pvcNamespace]
  }

  function NewPvc(o: Opts, w: Weather): PVC
    requires w.hook.Accepted?
  {
    PVC(w.uid, PvcLabels(o), w.hook.meta, false)
  }

  function NewDeployment(o: Opts, w: Weather): Deployment
    requires w.hook.Accepted?
  {
    Deployment(DeploymentLabels(o), o.backendPvcName, w.hook.meta)
  }

  function NewService(o: Opts, w: Weather): Service
    requires w.hook.Accepted?
  {
    Service(map[NFS_SERVER := o.deploymentName], w.ip, w.hook.meta)
  }

  /** The cluster-local DNS name of a Service. */
  function ServiceDNS(cfg: Config, name: string): string {
    name + "." + cfg.ns + ".svc.cluster.local"
  }

  function Goto(t: Job, pc: Pc): Job {
    t.(pc := pc)
  }

  function Fail(t: Job): Job {
    t.(pc := Returned(false))
  }

  /** After the backend claim is gone, Delete still runs the hook on the NFS PV. */
  function AfterDelete(t: Job): Job {
    t.(pc := if t.kind == Delete then PvHook else Returned(true))
  }

  /** The collector deletes with a provisioner that has no hooks. */
  predicate HookRejects(t: Job, w: Weather) {
    t.kind != Collect && w.hook.Rejected?
  }

  /** One step of a job against cluster c in weather w. */
  function Advance(cfg: Config, t: Job, c: Cluster, w: Weather): (Job, Cluster) {
    var k := BackendKey(cfg, t.opts.pvName);
    var o := t.opts;
    match t.pc
    case Configure => (if w.fault == Fine then Goto(t, GetPvc) else Fail(t), c)
    case GetPvc =>
      (match Read(c.pvcs, k, w.fault)
       case Failed => Fail(t)
       case NotFound => Goto(t, CreatePvc)
       case Found(_) => Job(t.kind, o.(backendPvcName := k.1), GetDep), c)
    case CreatePvc =>
      if w.hook.Rejected? then (Fail(t), c) else
      var (pvcs, ok) := Create(c.pvcs, k, NewPvc(o, w), w.fault);
      (if ok then Job(t.kind, o.(backendPvcName := k.1), GetDep) else Fail(t), c.(pvcs := pvcs))
    case GetDep =>
      (match Read(c.deployments, k, w.fault)
       case Failed => Fail(t)
       case NotFound => Goto(t, CreateDep)
       case Found(_) => Job(t.kind, o.(deploymentName := k.1), WaitBound(o.ticks)), c)
    case CreateDep =>
      if w.hook.Rejected? then (Fail(t), c) else
      var (deployments, ok) := Create(c.deployments, k, NewDeployment(o, w), w.fault);
      (if ok then Job(t.kind, o.(deploymentName := k.1), WaitBound(o.ticks)) else Fail(t),
       c.(deployments := deployments))
    case WaitBound(left) =>
      (if left == 0 then Fail(t) else
       match Read(c.pvcs, k, w.fault)
       case Found(pvc) => Goto(t, if pvc.bound then BackendHook else WaitBound(left - 1))
       case _ => Fail(t), c)
    case BackendHook => (if w.hook.Rejected? then Fail(t) else Goto(t, GetSvc), c)
    case GetSvc =>
      (match Read(c.services, k, w.fault)
       case Failed => Fail(t)
       case NotFound => Goto(t, CreateSvc)
       case Found(_) => Job(t.kind, o.(serviceName := k.1), GetAddress), c)
    case CreateSvc =>
      if w.hook.Rejected? then (Fail(t), c) else
      var (services, ok) := Create(c.services, k, NewService(o, w), w.fault);
      (if ok then Job(t.kind, o.(serviceName := k.1), GetAddress) else Fail(t), c.(services := services))
    case GetAddress =>
      (if !cfg.useClusterIP then Job(t.kind, o.(address := ServiceDNS(cfg, o.serviceName)), BuildPv)
       else match Read(c.services, (cfg.ns, o.serviceName), w.fault)
         case Found(svc) => Job(t.kind, o.(address := svc.ip), BuildPv)
         case _ => Fail(t), c)
    case BuildPv => (Goto(t, Returned(w.hook.Accepted?)), c)
    case DelGetSvc =>
      (match Read(c.services, k, w.fault)
       case NotFound => Goto(t, DelGetDep)
       case Found(_) => Job(t.kind, o.(serviceName := k.1), DelSvc)
       case Failed => Goto(t, DelSvc), c)
    case DelSvc =>
      if HookRejects(t, w) then (Fail(t), c) else
      var (services, ok) := Remove(c.services, k, w.fault);
      (if ok then Goto(t, DelGetDep) else Fail(t), c.(services := services))
    case DelGetDep =>
      (match Read(c.deployments, k, w.fault)
       case NotFound => Goto(t, DelGetPvc)
       case Found(_) => Job(t.kind, o.(deploymentName := k.1), DelDep)
       case Failed => Goto(t, DelDep), c)
    case DelDep =>
      if HookRejects(t, w) then (Fail(t), c) else
      var (deployments, ok) := Remove(c.deployments, k, w.fault);
      (if ok then Goto(t, DelGetPvc) else Fail(t), c.(deployments := deployments))
    case DelGetPvc =>
      (match Read(c.pvcs, k, w.fault)
       case NotFound => AfterDelete(t)
       case Found(_) => Job(t.kind, o.(backendPvcName := k.1), DelPvc)
       case Failed => Goto(t, DelPvc), c)
    case DelPvc =>
      if HookRejects(t, w) then (Fail(t), c) else
      var (pvcs, ok) := Remove(c.pvcs, k, w.fault);
      (if ok then AfterDelete(t) else Fail(t), c.(pvcs := pvcs))
    case PvHook => (Goto(t, Returned(w.hook.Accepted?)), c)
    case Returned(_) => (t, c)
  }

  /** How many more steps a job can take. */
  function Rank(t: Job): nat {
    match t.pc
    case Configure => t.opts.ticks + 11
    case GetPvc => t.opts.ticks + 10
    case CreatePvc => t.opts.ticks + 9
    case GetDep => t.opts.ticks + 8
    case CreateDep => t.opts.ticks + 7
    case WaitBound(left) => left + 6
    case BackendHook => 5
    case GetSvc => 4
    case CreateSvc => 3
    case GetAddress => 2
    case BuildPv => 1
    case DelGetSvc => 7
    case DelSvc => 6
    case DelGetDep => 5
    case DelDep => 4
    case DelGetPvc => 3
    case DelPvc => 2
    case PvHook => 1
    case Returned(_) => 0
  }

  /** Every call returns: each step uses up one of a bounded number of steps. In particular the wait
      for a bound claim ends within its tick budget. */
  lemma JobTerminates(cfg: Config, t: Job, c: Cluster, w: Weather)
    requires !t.pc.Returned?
    ensures Rank(Advance(cfg, t, c, w).0) < Rank(t)
  {
    match t.pc
    case _ =>
  }
}
