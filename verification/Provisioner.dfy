/** The provisioner's methods, proved to take the steps of the protocol's jobs. */
module Provisioner {
  import opened Calls
  import opened Kube
  import opened Outcomes
  import opened ServerJob
  import opened SweepMachine
  import opened Solo
  import opened SweepSolo
  import opened Text
  import opened Tracker

  /** The API server in a given world. Each call first lets storage bind what the world says is bound by now. */
  class ApiServer {
    const world: World
    var c: Cluster
    var calls: nat

    constructor (world: World, c: Cluster)
      ensures this.world == world && this.c == c && calls == 0
    {
      this.world, this.c, calls := world, c, 0;
    }

    /** What the cluster and the call count are once call number `n` has let storage bind. */
    twostate predicate Asked()
      reads this
    {
      calls == old(calls) + 1 && c == Settle(old(c), world(old(calls)).binds)
    }

    method Consult() returns (w: Weather)
      modifies this
      ensures Asked() && w == world(old(calls))
    {
      w := world(calls);
      c, calls := Settle(c, w.binds), calls + 1;
    }

    method GetPvc(k: Key) returns (r: Reply<PVC>)
      modifies this
      ensures Asked() && r == Read(c.pvcs, k, world(old(calls)).fault)
    {
      var w := Consult();
      r := Read(c.pvcs, k, w.fault);
    }

    method GetDeployment(k: Key) returns (r: Reply<Deployment>)
      modifies this
      ensures Asked() && r == Read(c.deployments, k, world(old(calls)).fault)
    {
      var w := Consult();
      r := Read(c.deployments, k, w.fault);
    }

    method GetService(k: Key) returns (r: Reply<Service>)
      modifies this
      ensures Asked() && r == Read(c.services, k, world(old(calls)).fault)
    {
      var w := Consult();
      r := Read(c.services, k, w.fault);
    }

    method GetPv(pv: string) returns (r: Reply<()>)
      modifies this
      ensures Asked()
      ensures r == if world(old(calls)).fault != Fine then Failed else if pv in c.pvs then Found(()) else NotFound
    {
      var w := Consult();
      r := if w.fault != Fine then Failed else if pv in c.pvs then Found(()) else NotFound;
    }

    /** The create hook edits the object; if it fails there is no call. */
    method CreatePvc(k: Key, labels: map<string, string>) returns (ok: bool)
      modifies this
      ensures calls == old(calls) + 1
      ensures var w := world(old(calls)); var settled := Settle(old(c), w.binds);
        if w.hook.Rejected? then !ok && c == settled else
        var (pvcs, created) := Create(settled.pvcs, k, PVC(w.uid, labels, w.hook.meta, false), w.fault);
        ok == created && c == settled.(pvcs := pvcs)
    {
      var w := Consult();
      if w.hook.Rejected? { return false; }
      var (pvcs, created) := Create(c.pvcs, k, PVC(w.uid, labels, w.hook.meta, false), w.fault);
      c, ok := c.(pvcs := pvcs), created;
    }

    method CreateDeployment(k: Key, labels: map<string, string>, claimName: string) returns (ok: bool)
      modifies this
      ensures calls == old(calls) + 1
      ensures var w := world(old(calls)); var settled := Settle(old(c), w.binds);
        if w.hook.Rejected? then !ok && c == settled else
        var (ds, created) := Create(settled.deployments, k, Deployment(labels, claimName, w.hook.meta), w.fault);
        ok == created && c == settled.(deployments := ds)
    {
      var w := Consult();
      if w.hook.Rejected? { return false; }
      var (ds, created) := Create(c.deployments, k, Deployment(labels, claimName, w.hook.meta), w.fault);
      c, ok := c.(deployments := ds), created;
    }

    method CreateService(k: Key, selector: map<string, string>) returns (ok: bool)
      modifies this
      ensures calls == old(calls) + 1
      ensures var w := world(old(calls)); var settled := Settle(old(c), w.binds);
        if w.hook.Rejected? then !ok && c == settled else
        var (ss, created) := Create(settled.services, k, Service(selector, w.ip, w.hook.meta), w.fault);
        ok == created && c == settled.(services := ss)
    {
      var w := Consult();
      if w.hook.Rejected? { return false; }
      var (ss, created) := Create(c.services, k, Service(selector, w.ip, w.hook.meta), w.fault);
      c, ok := c.(services := ss), created;
    }

    /** The delete hook runs first, if the caller has hooks; if it fails there is no call. */
    method DeletePvc(k: Key, hooks: bool) returns (ok: bool)
      modifies this
      ensures calls == old(calls) + 1
      ensures var w := world(old(calls)); var settled := Settle(old(c), w.binds);
        if hooks && w.hook.Rejected? then !ok && c == settled else
        (c.pvcs, ok) == Remove(settled.pvcs, k, w.fault) && c == settled.(pvcs := c.pvcs)
    {
      var w := Consult();
      if hooks && w.hook.Rejected? { return false; }
      var (pvcs, removed) := Remove(c.pvcs, k, w.fault);
      c, ok := c.(pvcs := pvcs), removed;
    }

    method DeleteDeployment(k: Key, hooks: bool) returns (ok: bool)
      modifies this
      ensures calls == old(calls) + 1
      ensures var w := world(old(calls)); var settled := Settle(old(c), w.binds);
        if hooks && w.hook.Rejected? then !ok && c == settled else
        (c.deployments, ok) == Remove(settled.deployments, k, w.fault) && c == settled.(deployments := c.deployments)
    {
      var w := Consult();
      if hooks && w.hook.Rejected? { return false; }
      var (ds, removed) := Remove(c.deployments, k, w.fault);
      c, ok := c.(deployments := ds), removed;
    }

    method DeleteService(k: Key, hooks: bool) returns (ok: bool)
      modifies this
      ensures calls == old(calls) + 1
      ensures var w := world(old(calls)); var settled := Settle(old(c), w.binds);
        if hooks && w.hook.Rejected? then !ok && c == settled else
        (c.services, ok) == Remove(settled.services, k, w.fault) && c == settled.(services := c.services)
    {
      var w := Consult();
      if hooks && w.hook.Rejected? { return false; }
      var (ss, removed) := Remove(c.services, k, w.fault);
      c, ok := c.(services := ss), removed;
    }

    /** The claims the sweep's selector matches, in an order of the server's choosing. */
    method ListBackendClaims(cfg: Config) returns (err: bool, todo: seq<Listed>)
      modifies this
      ensures Asked() && (err <==> world(old(calls)).fault != Fine)
      ensures !err ==> IsListing(cfg, c, todo)
    {
      var w := Consult();
      err, todo := w.fault != Fine, [];
      var keys := set k | k in c.pvcs && Selected(cfg, k, c.pvcs[k]);
      var rest := keys;
      while rest != {}
        invariant rest <= keys
        invariant forall i | 0 <= i < |todo| :: todo[i].key in keys - rest && todo[i].pvc == c.pvcs[todo[i].key]
        invariant forall k | k in keys - rest :: Listed(k, c.pvcs[k]) in todo
        invariant forall i, j | 0 <= i < j < |todo| :: todo[i].key != todo[j].key
        decreases rest
      {
        var k :| k in rest;
        todo, rest := todo + [Listed(k, c.pvcs[k])], rest - {k};
      }
    }
  }

  /** The metadata a create hook leaves on the object, if it succeeds. */
  function MetaOf(w: Weather): Meta {
    if w.hook.Accepted? then w.hook.meta else Meta(map[], [])
  }

  /** The wait that started with cluster c at call n has not ended by call m: every read was served and found the
      claim unbound. */
  ghost predicate StillWaits(k: Key, c: Cluster, d: Cluster, w: World, n: nat, m: nat) {
    && n <= m && (forall x | n <= x < m :: Serves(w, x)) && (k in c.pvcs <==> k in d.pvcs)
    && (m > n ==> k in c.pvcs && !BoundBy(c.pvcs[k].bound, k, w, n, m - 1) && !d.pvcs[k].bound)
    && (m == n && k in c.pvcs ==> d.pvcs[k].bound == c.pvcs[k].bound)
  }

  /** A read, call number m, ends the wait with the claim bound, or with an error, or the wait goes on. */
  lemma WaitsOn(k: Key, c: Cluster, d: Cluster, d': Cluster, w: World, n: nat, m: nat, ticks: nat)
    requires StillWaits(k, c, d, w, n, m) && d' == Settle(d, w(m).binds) && m - n < ticks
    ensures Serves(w, m) && k in c.pvcs && d'.pvcs[k].bound ==> WaitsUntil(c.pvcs[k].bound, k, w, n, n, ticks, m - n)
    ensures Serves(w, m) && k in c.pvcs && !d'.pvcs[k].bound ==> StillWaits(k, c, d', w, n, m + 1)
    ensures !Serves(w, m) && k in c.pvcs ==> forall b: nat :: !WaitsUntil(c.pvcs[k].bound, k, w, n, n, ticks, b)
  {
    if k in c.pvcs {
      assert d'.pvcs[k].bound <==> BoundBy(c.pvcs[k].bound, k, w, n, m);
      if !Serves(w, m) {
        forall b: nat ensures !WaitsUntil(c.pvcs[k].bound, k, w, n, n, ticks, b) {
          NotBefore(c.pvcs[k].bound, k, w, n, m, ticks, b);
        }
      }
    }
  }

  lemma NotBefore(bound: bool, k: Key, w: World, n: nat, m: nat, ticks: nat, b: nat)
    requires n <= m && !Serves(w, m) && (m > n ==> !BoundBy(bound, k, w, n, m - 1))
    ensures !WaitsUntil(bound, k, w, n, n, ticks, b)
  {
  }

  lemma TimerFires(k: Key, c: Cluster, d: Cluster, w: World, n: nat, ticks: nat)
    requires StillWaits(k, c, d, w, n, n + ticks)
    ensures k in c.pvcs ==> forall b: nat :: !WaitsUntil(c.pvcs[k].bound, k, w, n, n, ticks, b)
  {
  }

  /** KernelNFSServerOptions: the inputs of one call and the names it fills in. */
  class ServerOptions {
    const pvName: string
    const pvcName: string
    const pvcUID: string
    const pvcNamespace: string
    const ticks: nat
    var backendPvcName: string
    var deploymentName: string
    var serviceName: string

    constructor (pvName: string, pvcName: string, pvcUID: string, pvcNamespace: string, ticks: nat)
      ensures Value("") == Opts(pvName, pvcName, pvcUID, pvcNamespace, ticks, "", "", "", "")
      ensures this.pvName == pvName && this.ticks == ticks
    {
      this.pvName, this.pvcName, this.pvcUID, this.pvcNamespace := pvName, pvcName, pvcUID, pvcNamespace;
      this.ticks := ticks;
      backendPvcName, deploymentName, serviceName := "", "", "";
    }

    function Value(address: string): Opts
      reads this
    {
      Opts(pvName, pvcName, pvcUID, pvcNamespace, ticks, backendPvcName, deploymentName, serviceName, address)
    }

    function GetLabels(): map<string, string> {
      map[PERSISTENT_VOLUME := pvName, CAS_TYPE := NFS_KERNEL]
    }
  }

  class NfsProvisioner {
    const cfg: Config
    const api: ApiServer
    const pvTracker: ProvisioningTracker
    /** Whether the hook field is set; the collector's provisioner has none. */
    const hooks: bool

    constructor (cfg: Config, api: ApiServer, pvTracker: ProvisioningTracker, hooks: bool)
      ensures this.cfg == cfg && this.api == api && this.pvTracker == pvTracker && this.hooks == hooks
    {
      this.cfg, this.api, this.pvTracker, this.hooks := cfg, api, pvTracker, hooks;
    }

    /** How a job that stands at `pc` with these options will end from the present state. */
    ghost function Outlook(kind: Kind, o: Opts, pc: Pc): End
      reads api
    {
      Finish(cfg, Job(kind, o, pc), api.c, api.world, api.calls)
    }

    ghost function Deleter(): Kind {
      if hooks then Delete else Collect
    }

    method CreateBackendPVC(opts: ServerOptions) returns (ok: bool)
      modifies api, opts
      ensures old(Outlook(Provision, opts.Value(""), GetPvc))
           == Outlook(Provision, opts.Value(""), if ok then GetDep else Returned(false))
      ensures ok ==> BackendKey(cfg, opts.pvName) in api.c.pvcs && opts.backendPvcName == BackendName(opts.pvName)
      ensures var n, w := old(api.calls), api.world; var s := SettledBy(old(api.c), w, n, api.calls);
        && ReadsOrCreates(w, n, BackendKey(cfg, opts.pvName),
             PVC(w(n + 1).uid,
               map["persistent-volume" := opts.pvName, "openebs.io/cas-type" := "nfs-kernel",
                   "nfs.openebs.io/nfs-pvc-name" := opts.pvcName, "nfs.openebs.io/nfs-pvc-uid" := opts.pvcUID,
                   "nfs.openebs.io/nfs-pvc-namespace" := opts.pvcNamespace],
               MetaOf(w(n + 1)), false),
             s.pvcs, api.c.pvcs, api.calls, ok)
        && api.c == s.(pvcs := api.c.pvcs)
    {
      var backendPvcName := BackendName(opts.pvName);
      var reply := api.GetPvc((cfg.ns, backendPvcName));
      if reply.Failed? {
        return false;
      } else if reply.Found? {
        opts.backendPvcName := backendPvcName;
        return true;
      }
      assert old(Outlook(Provision, opts.Value(""), GetPvc)) == Outlook(Provision, opts.Value(""), CreatePvc);
      var labels := opts.GetLabels();
      labels := labels[PVC_NAME := opts.pvcName];
      labels := labels[PVC_UID := opts.pvcUID];
      labels := labels[PVC_NS := opts.pvcNamespace];
      assert labels == PvcLabels(opts.Value(""));
      ok := api.CreatePvc((cfg.ns, backendPvcName), labels);
      if ok {
        opts.backendPvcName := backendPvcName;
      }
    }

    method CreateDeployment(opts: ServerOptions) returns (ok: bool)
      modifies api, opts
      ensures old(Outlook(Provision, opts.Value(""), GetDep))
           == Outlook(Provision, opts.Value(""), if ok then WaitBound(opts.ticks) else Returned(false))
      ensures ok ==> BackendKey(cfg, opts.pvName) in api.c.deployments
                     && opts.deploymentName == BackendName(opts.pvName)
      ensures var n, w := old(api.calls), api.world; var s := SettledBy(old(api.c), w, n, api.calls);
        && ReadsOrCreates(w, n, BackendKey(cfg, opts.pvName),
             Deployment(
               map["openebs.io/nfs-server" := BackendName(opts.pvName),
                   "nfs.openebs.io/nfs-pvc-name" := opts.pvcName, "nfs.openebs.io/nfs-pvc-uid" := opts.pvcUID,
                   "nfs.openebs.io/nfs-pvc-namespace" := opts.pvcNamespace],
               old(opts.backendPvcName), MetaOf(w(n + 1))),
             s.deployments, api.c.deployments, api.calls, ok)
        && api.c == s.(deployments := api.c.deployments)
    {
      var deployName := BackendName(opts.pvName);
      var reply := api.GetDeployment((cfg.ns, deployName));
      if reply.Failed? {
        return false;
      }
      if reply.Found? {
        opts.deploymentName := deployName;
        return true;
      }
      assert old(Outlook(Provision, opts.Value(""), GetDep)) == Outlook(Provision, opts.Value(""), CreateDep);
      var selector := map[NFS_SERVER := deployName];
      selector := selector[PVC_NAME := opts.pvcName];
      selector := selector[PVC_UID := opts.pvcUID];
      selector := selector[PVC_NS := opts.pvcNamespace];
      assert selector == DeploymentLabels(opts.Value(""));
      ok := api.CreateDeployment((cfg.ns, deployName), selector, opts.backendPvcName);
      if ok {
        opts.deploymentName := deployName;
      }
    }

    method CreateService(opts: ServerOptions) returns (ok: bool)
      modifies api, opts
      ensures old(Outlook(Provision, opts.Value(""), GetSvc))
           == Outlook(Provision, opts.Value(""), if ok then GetAddress else Returned(false))
      ensures ok ==> BackendKey(cfg, opts.pvName) in api.c.services && opts.serviceName == BackendName(opts.pvName)
      ensures var n, w := old(api.calls), api.world; var s := SettledBy(old(api.c), w, n, api.calls);
        && ReadsOrCreates(w, n, BackendKey(cfg, opts.pvName),
             Service(map["openebs.io/nfs-server" := old(opts.deploymentName)], w(n + 1).ip, MetaOf(w(n + 1))),
             s.services, api.c.services, api.calls, ok)
        && api.c == s.(services := api.c.services)
    {
      var svcName := BackendName(opts.pvName);
      var reply := api.GetService((cfg.ns, svcName));
      if reply.Failed? {
        return false;
      } else if reply.Found? {
        opts.serviceName := svcName;
        return true;
      }
      assert old(Outlook(Provision, opts.Value(""), GetSvc)) == Outlook(Provision, opts.Value(""), CreateSvc);
      ok := api.CreateService((cfg.ns, svcName), map[NFS_SERVER := opts.deploymentName]);
      if ok {
        opts.serviceName := svcName;
      }
    }

    /** Polls once a tick until the claim is bound, gone or unreadable, or the timer fires. */
    method WaitForPvcBound(opts: ServerOptions) returns (ok: bool)
      modifies api
      ensures old(Outlook(Provision, opts.Value(""), WaitBound(opts.ticks)))
           == Outlook(Provision, opts.Value(""), if ok then BackendHook else Returned(false))
      ensures ok ==> BackendKey(cfg, opts.pvName) in api.c.pvcs && api.c.pvcs[BackendKey(cfg, opts.pvName)].bound
      ensures api.calls <= old(api.calls) + opts.ticks + 1
      ensures var k := BackendKey(cfg, opts.pvName);
        ok <==> k in old(api.c.pvcs) && exists b: nat ::
          WaitsUntil(old(api.c.pvcs)[k].bound, k, api.world, old(api.calls), old(api.calls), opts.ticks, b)
      ensures api.c.deployments == old(api.c.deployments) && api.c.services == old(api.c.services)
      ensures api.c.pvcs.Keys == old(api.c.pvcs.Keys)
    {
      ghost var n, k := api.calls, BackendKey(cfg, opts.pvName);
      var left := opts.ticks;
      while left > 0
        invariant 0 <= left <= opts.ticks && api.calls == old(api.calls) + opts.ticks - left
        invariant api.c.deployments == old(api.c.deployments) && api.c.services == old(api.c.services)
        invariant api.c.pvcs.Keys == old(api.c.pvcs.Keys)
        invariant StillWaits(k, old(api.c), api.c, api.world, n, api.calls)
        invariant old(Outlook(Provision, opts.Value(""), WaitBound(opts.ticks)))
               == Outlook(Provision, opts.Value(""), WaitBound(left))
      {
        ghost var c := api.c;
        var reply := api.GetPvc(BackendKey(cfg, opts.pvName));
        WaitsOn(k, old(api.c), c, api.c, api.world, n, api.calls - 1, opts.ticks);
        match reply
        case Found(pvc) =>
          if pvc.bound {
            return true;
          }
          left := left - 1;
        case _ => return false;
      }
      TimerFires(k, old(api.c), api.c, api.world, n, opts.ticks);
      var _ := api.Consult();  // the timer fires
      ok := false;
    }

    method CreateNFSServer(opts: ServerOptions) returns (ok: bool)
      modifies api, opts
      ensures old(Outlook(Provision, opts.Value(""), GetPvc))
           == Outlook(Provision, opts.Value(""), if ok then GetAddress else Returned(false))
      ensures ok ==> opts.serviceName == BackendName(opts.pvName)
    {
      ok := CreateBackendPVC(opts);
      if !ok { return; }
      ok := CreateDeployment(opts);
      if !ok { return; }
      ok := WaitForPvcBound(opts);
      if !ok { return; }
      ok := RunBackendPVHook(opts);
      if !ok { return; }
      ok := CreateService(opts);
    }

    /** The hook on the backend PV, between the wait and the Service. */
    method RunBackendPVHook(opts: ServerOptions) returns (ok: bool)
      modifies api
      ensures old(Outlook(Provision, opts.Value(""), BackendHook))
           == Outlook(Provision, opts.Value(""), if ok then GetSvc else Returned(false))
      ensures ok == HookPasses(api.world, old(api.calls)) && api.calls == old(api.calls) + 1
      ensures api.c == Settle(old(api.c), api.world(old(api.calls)).binds)
    {
      var w := api.Consult();
      ok := w.hook.Accepted?;
    }

    method GetNFSServerAddress(opts: ServerOptions) returns (ok: bool, address: string)
      modifies api, opts
      ensures old(Outlook(Provision, opts.Value(""), GetPvc))
           == Outlook(Provision, opts.Value(address), if ok then BuildPv else Returned(false))
      ensures !ok ==> address == ""
      ensures ok && !cfg.useClusterIP ==>
        address == BackendName(opts.pvName) + "." + cfg.ns + ".svc.cluster.local"
    {
      address := "";
      ok := CreateNFSServer(opts);
      if !ok { return; }
      label created:
      if cfg.useClusterIP {
        var reply := api.GetService((cfg.ns, opts.serviceName));
        match reply
        case Found(svc) => address := svc.ip;
        case _ => ok := false;
      } else {
        var _ := api.Consult();
        address := opts.serviceName + "." + cfg.ns + ".svc.cluster.local";
      }
      assert old@created(Outlook(Provision, opts.Value(""), GetAddress))
          == Outlook(Provision, opts.Value(address), if ok then BuildPv else Returned(false));
    }

    /** Provision: true with the address the new PV points at, or false. Whatever happens in between, the PV is
        in the tracker while this runs and only then; `tracked` is the tracker as all the calls found it. */
    method ProvisionVolume(pvName: string, pvcUID: string, claim: Key, ticks: nat)
      returns (ok: bool, address: string, ghost tracked: set<string>)
      modifies api, pvTracker
      ensures var end := old(Finish(cfg, StartProvision(pvName, pvcUID, claim, ticks), api.c, api.world, api.calls));
        && api.c == end.c && api.calls == end.n && end.job.pc == Returned(ok)
        && (ok ==> address == end.job.opts.address)
      ensures tracked == old(pvTracker.request) + {pvName}
      ensures pvTracker.request == old(pvTracker.request) - {pvName}
      ensures ok ==> var k := BackendKey(cfg, pvName);
        && k in api.c.services && k in api.c.deployments && k in api.c.pvcs && api.c.pvcs[k].bound
      ensures var v, n, w, k := old(ViewOf(cfg, api.c, pvName)), old(api.calls), api.world, BackendKey(cfg, pvName);
        && (ok <==> Provisions(Finished, v, k, w, n, ticks))
        && (k in api.c.pvcs <==> v.pvc || MakesClaim(v, w, n))
        && (k in api.c.deployments <==> v.deployment || MakesDeployment(v, w, n))
        && (k in api.c.services <==> v.service || Provisions(ServiceMade, v, k, w, n, ticks))
      ensures !Serves(api.world, old(api.calls)) ==>
        !ok && api.calls == old(api.calls) + 1 && api.c == Settle(old(api.c), api.world(old(api.calls)).binds)
    {
      pvTracker.Add(pvName);
      var t := StartProvision(pvName, pvcUID, claim, ticks);
      EndsBuilt(cfg, t, api.c, t.opts, api.world, api.calls);
      ProvisionOutcome(cfg, pvName, pvcUID, claim, ticks, api.c, api.world, api.calls);
      ok, address, tracked := ProvisionKernel(pvName, pvcUID, claim, ticks);
      pvTracker.Delete(pvName);
    }

    /** `tracked` is the tracker throughout, which this does not change. */
    method ProvisionKernel(pvName: string, pvcUID: string, claim: Key, ticks: nat)
      returns (ok: bool, address: string, ghost tracked: set<string>)
      modifies api
      ensures tracked == pvTracker.request
      ensures var end := old(Finish(cfg, StartProvision(pvName, pvcUID, claim, ticks), api.c, api.world, api.calls));
        && api.c == end.c && api.calls == end.n && end.job.pc == Returned(ok)
        && (ok ==> address == end.job.opts.address)
      ensures !Serves(api.world, old(api.calls)) ==>
        !ok && api.calls == old(api.calls) + 1 && api.c == Settle(old(api.c), api.world(old(api.calls)).binds)
    {
      ghost var t := StartProvision(pvName, pvcUID, claim, ticks);
      tracked := pvTracker.request;
      var w := api.Consult();
      if w.fault != Fine {
        return false, "", tracked;
      }
      var opts := new ServerOptions(pvName, claim.1, pvcUID, claim.0, ticks);
      assert old(Outlook(Provision, t.opts, Configure)) == Outlook(Provision, opts.Value(""), GetPvc);
      ok, address := GetNFSServerAddress(opts);
      if !ok { return; }
      label addressed:
      w := api.Consult();
      ok := w.hook.Accepted?;
      assert old@addressed(Outlook(Provision, opts.Value(address), BuildPv))
          == Outlook(Provision, opts.Value(address), Returned(ok));
    }

    /** The second half of DeleteService, behind the read. */
    method RemoveService(opts: ServerOptions) returns (ok: bool)
      modifies api
      ensures old(Outlook(Deleter(), opts.Value(""), DelSvc))
           == Outlook(Deleter(), opts.Value(""), if ok then DelGetDep else Returned(false))
      ensures ok ==> BackendKey(cfg, opts.pvName) !in api.c.services
      ensures ok <==> Deletes(hooks, api.world, old(api.calls))
      ensures var k := BackendKey(cfg, opts.pvName);
        k in api.c.services <==> k in old(api.c.services) && !Clears(hooks, api.world, old(api.calls))
    {
      ok := api.DeleteService(BackendKey(cfg, opts.pvName), hooks);
    }

    method DeleteService(opts: ServerOptions) returns (ok: bool)
      modifies api, opts
      ensures old(Outlook(Deleter(), opts.Value(""), DelGetSvc))
           == Outlook(Deleter(), opts.Value(""), if ok then DelGetDep else Returned(false))
      ensures ok ==> BackendKey(cfg, opts.pvName) !in api.c.services
      ensures var k, n := BackendKey(cfg, opts.pvName), old(api.calls);
        && (ok <==> Past(k in old(api.c.services), hooks, api.world, n))
        && (k in api.c.services <==> k in old(api.c.services) && !Clears(hooks, api.world, n + 1))
    {
      var svcName := BackendName(opts.pvName);
      var reply := api.GetService((cfg.ns, svcName));
      if reply.Found? {
        opts.serviceName := svcName;
      } else if reply.NotFound? {
        return true;
      }
      assert old(Outlook(Deleter(), opts.Value(""), DelGetSvc)) == Outlook(Deleter(), opts.Value(""), DelSvc);
      ok := RemoveService(opts);
    }

    /** The second half of DeleteDeployment, behind the read. */
    method RemoveDeployment(opts: ServerOptions) returns (ok: bool)
      modifies api
      ensures old(Outlook(Deleter(), opts.Value(""), DelDep))
           == Outlook(Deleter(), opts.Value(""), if ok then DelGetPvc else Returned(false))
      ensures ok ==> BackendKey(cfg, opts.pvName) !in api.c.deployments
      ensures ok <==> Deletes(hooks, api.world, old(api.calls))
      ensures var k := BackendKey(cfg, opts.pvName);
        k in api.c.deployments <==> k in old(api.c.deployments) && !Clears(hooks, api.world, old(api.calls))
    {
      ok := api.DeleteDeployment(BackendKey(cfg, opts.pvName), hooks);
    }

    method DeleteDeployment(opts: ServerOptions) returns (ok: bool)
      modifies api, opts
      ensures old(Outlook(Deleter(), opts.Value(""), DelGetDep))
           == Outlook(Deleter(), opts.Value(""), if ok then DelGetPvc else Returned(false))
      ensures ok ==> BackendKey(cfg, opts.pvName) !in api.c.deployments
      ensures var k, n := BackendKey(cfg, opts.pvName), old(api.calls);
        && (ok <==> Past(k in old(api.c.deployments), hooks, api.world, n))
        && (k in api.c.deployments <==> k in old(api.c.deployments) && !Clears(hooks, api.world, n + 1))
    {
      var deployName := BackendName(opts.pvName);
      var reply := api.GetDeployment((cfg.ns, deployName));
      if reply.Found? {
        opts.deploymentName := deployName;
      } else if reply.NotFound? {
        return true;
      }
      assert old(Outlook(Deleter(), opts.Value(""), DelGetDep)) == Outlook(Deleter(), opts.Value(""), DelDep);
      ok := RemoveDeployment(opts);
    }

    /** The second half of DeleteBackendPVC, behind the read. */
    method RemoveBackendPVC(opts: ServerOptions) returns (ok: bool)
      modifies api
      ensures old(Outlook(Deleter(), opts.Value(""), DelPvc))
           == Outlook(Deleter(), opts.Value(""),
                if !ok then Returned(false) else if hooks then PvHook else Returned(true))
      ensures ok ==> BackendKey(cfg, opts.pvName) !in api.c.pvcs
      ensures ok <==> Deletes(hooks, api.world, old(api.calls))
      ensures var k := BackendKey(cfg, opts.pvName);
        k in api.c.pvcs <==> k in old(api.c.pvcs) && !Clears(hooks, api.world, old(api.calls))
    {
      ok := api.DeletePvc(BackendKey(cfg, opts.pvName), hooks);
    }

    method DeleteBackendPVC(opts: ServerOptions) returns (ok: bool)
      modifies api, opts
      ensures old(Outlook(Deleter(), opts.Value(""), DelGetPvc))
           == Outlook(Deleter(), opts.Value(""),
                if !ok then Returned(false) else if hooks then PvHook else Returned(true))
      ensures ok ==> BackendKey(cfg, opts.pvName) !in api.c.pvcs
      ensures var k, n := BackendKey(cfg, opts.pvName), old(api.calls);
        && (ok <==> Past(k in old(api.c.pvcs), hooks, api.world, n))
        && (k in api.c.pvcs <==> k in old(api.c.pvcs) && !Clears(hooks, api.world, n + 1))
    {
      var backendPvcName := BackendName(opts.pvName);
      var reply := api.GetPvc((cfg.ns, backendPvcName));
      if reply.Found? {
        opts.backendPvcName := backendPvcName;
      } else if reply.NotFound? {
        return true;
      }
      assert old(Outlook(Deleter(), opts.Value(""), DelGetPvc)) == Outlook(Deleter(), opts.Value(""), DelPvc);
      ok := RemoveBackendPVC(opts);
    }

    method DeleteNFSServer(opts: ServerOptions) returns (ok: bool)
      modifies api, opts
      ensures old(Outlook(Deleter(), opts.Value(""), DelGetSvc))
           == Outlook(Deleter(), opts.Value(""),
                if !ok then Returned(false) else if hooks then PvHook else Returned(true))
    {
      ok := DeleteService(opts);
      if !ok { return; }
      ok := DeleteDeployment(opts);
      if !ok { return; }
      ok := DeleteBackendPVC(opts);
    }

    /** `o` is what the call makes of its options, `tracked` the tracker throughout. */
    method DeleteKernel(pvName: string) returns (ok: bool, ghost o: Opts, ghost tracked: set<string>)
      modifies api
      ensures tracked == pvTracker.request
      ensures old(Outlook(Deleter(), DeleteOpts(pvName), DelGetSvc))
           == Outlook(Deleter(), o, if !ok then Returned(false) else if hooks then PvHook else Returned(true))
    {
      var opts := new ServerOptions(pvName, "", "", "", 0);
      assert opts.Value("") == DeleteOpts(pvName);
      ok := DeleteNFSServer(opts);
      o, tracked := opts.Value(""), pvTracker.request;
    }

    /** The hook on the NFS PV, after the deletion. */
    method RunNfsPVHook(ghost o: Opts) returns (ok: bool)
      modifies api
      ensures old(Outlook(Delete, o, PvHook)) == Outlook(Delete, o, Returned(ok))
      ensures ok == HookPasses(api.world, old(api.calls)) && api.calls == old(api.calls) + 1
      ensures api.c == Settle(old(api.c), api.world(old(api.calls)).binds)
    {
      var w := api.Consult();
      ok := w.hook.Accepted?;
    }

    /** Delete: a retained volume, or one whose server is not ours, is left as it is. The hook on the NFS PV runs
        only if there are hooks. */
    method DeleteVolume(pvName: string, keeps: bool) returns (ok: bool, ghost tracked: set<string>)
      modifies api, pvTracker
      ensures keeps ==> ok && api.c == old(api.c)
      ensures !keeps ==>
        var end := old(Finish(cfg, Job(Deleter(), DeleteOpts(pvName), DelGetSvc), api.c, api.world, api.calls));
        api.c == end.c && api.calls == end.n && end.job.pc == Returned(ok)
      ensures !keeps ==> DeletedAsOwed(cfg, hooks, pvName, old(api.c), api.c, api.world, old(api.calls), ok)
      ensures tracked == old(pvTracker.request) + {pvName}
      ensures pvTracker.request == old(pvTracker.request) - {pvName}
    {
      pvTracker.Add(pvName);
      ok, tracked := true, pvTracker.request;
      if !keeps {
        DeleteOutcome(cfg, Deleter(), pvName, api.c, api.world, api.calls);
        ghost var o;
        ok, o, tracked := DeleteKernel(pvName);
        if ok && hooks {
          ok := RunNfsPVHook(o);
        }
      }
      pvTracker.Delete(pvName);
    }
  }

  method NfsPvcExists(api: ApiServer, pvc: PVC) returns (r: Reply<bool>)
    modifies api
    ensures !HasClaimLabels(pvc) ==> r == Failed && api.calls == old(api.calls) && api.c == old(api.c)
    ensures HasClaimLabels(pvc) ==>
      api.calls == old(api.calls) + 1 && api.c == Settle(old(api.c), api.world(old(api.calls)).binds)
      && r == ClaimExists(api.c, pvc, api.world(old(api.calls)).fault)
    ensures r.Failed? || r.Found?
    ensures r.Failed? <==>
      (exists x :: x in {"nfs.openebs.io/nfs-pvc-name", "nfs.openebs.io/nfs-pvc-namespace",
                         "nfs.openebs.io/nfs-pvc-uid"} && x !in pvc.labels)
      || !Serves(api.world, old(api.calls))
    ensures r.Found? ==>
      var k := (pvc.labels["nfs.openebs.io/nfs-pvc-namespace"], pvc.labels["nfs.openebs.io/nfs-pvc-name"]);
      r.obj <==> k in api.c.pvcs && api.c.pvcs[k].uid == pvc.labels["nfs.openebs.io/nfs-pvc-uid"]
  {
    if PVC_NAME !in pvc.labels || PVC_NS !in pvc.labels || PVC_UID !in pvc.labels {
      return Failed;
    }
    var reply := api.GetPvc((pvc.labels[PVC_NS], pvc.labels[PVC_NAME]));
    match reply
    case Failed => r := Failed;
    case NotFound => r := Found(false);
    case Found(claim) => r := Found(claim.uid == pvc.labels[PVC_UID]);
  }

  method DeleteBackendStaleResources(cfg: Config, api: ApiServer, tracker: ProvisioningTracker, pv: string)
    returns (ok: bool)
    modifies api
    ensures var end := old(Finish(cfg, CollectJob(pv), api.c, api.world, api.calls));
      api.c == end.c && api.calls == end.n && end.job.pc == Returned(ok)
    ensures DeletedAsOwed(cfg, false, pv, old(api.c), api.c, api.world, old(api.calls), ok)
  {
    DeleteOutcome(cfg, Collect, pv, api.c, api.world, api.calls);
    var p := new NfsProvisioner(cfg, api, tracker, false);
    var opts := new ServerOptions(pv, "", "", "", 0);
    assert opts.Value("") == DeleteOpts(pv);
    ok := p.DeleteNFSServer(opts);
  }

  /** The sweep's checks of one backend claim, claim before tracker before PV, and its clean-up. */
  method CleanUpItem(cfg: Config, api: ApiServer, tracker: ProvisioningTracker, it: Listed)
    modifies api
    ensures (api.c, api.calls)
         == old(GcFinish(cfg, Sweeping([it], CheckClaim), api.c, tracker.request, api.world, api.calls))
  {
    assert Begin([it][1..]) == Idle;
    var pvcExists := NfsPvcExists(api, it.pvc);
    if pvcExists != Found(false) { return; }
    var pv := ScanPVName(it.key.1);
    if pv == "" { return; }
    assert old(GcFinish(cfg, Sweeping([it], CheckClaim), api.c, tracker.request, api.world, api.calls))
        == GcFinish(cfg, Sweeping([it], CheckTracker), api.c, tracker.request, api.world, api.calls);
    ghost var tracked, waiting := Sweeping([it], CheckTracker), Sweeping([it], CheckPv);
    assert GcFinish(cfg, tracked, api.c, tracker.request, api.world, api.calls)
        == GcFinish(cfg, if pv in tracker.request then Idle else waiting,
             api.c, tracker.request, api.world, api.calls);
    var busy := tracker.Inprogress(pv);
    if busy { return; }
    label checked:
    var pvReply := api.GetPv(pv);
    if !pvReply.NotFound? {
      assert old@checked(GcFinish(cfg, waiting, api.c, tracker.request, api.world, api.calls))
          == GcFinish(cfg, Idle, api.c, tracker.request, api.world, api.calls);
      return;
    }
    assert old@checked(GcFinish(cfg, Sweeping([it], CheckPv), api.c, tracker.request, api.world, api.calls))
        == GcFinish(cfg, Sweeping([it], Deleting(CollectJob(pv))), api.c, tracker.request, api.world, api.calls);
    DeletingIsJob(cfg, it, CollectJob(pv), api.c, tracker.request, api.world, api.calls);
    var _ := DeleteBackendStaleResources(cfg, api, tracker, pv);
  }

  /** One sweep: for the list the server returned, it leaves the cluster the sweep's steps lead to. */
  method CleanUpStalePvc(cfg: Config, api: ApiServer, tracker: ProvisioningTracker)
    returns (err: bool, ghost todo: seq<Listed>)
    modifies api
    ensures err <==> api.world(old(api.calls)).fault != Fine
    ensures var listed := Settle(old(api.c), api.world(old(api.calls)).binds);
      if err then api.c == listed else
      && IsListing(cfg, listed, todo)
      && (forall k, pvc :: Listed(k, pvc) in todo <==>
            k in listed.pvcs && listed.pvcs[k] == pvc && k.0 == cfg.ns
            && "openebs.io/cas-type" in pvc.labels && pvc.labels["openebs.io/cas-type"] == "nfs-kernel")
      && (api.c, api.calls) ==
           GcFinish(cfg, Begin(todo), listed, tracker.request, api.world, old(api.calls) + 1)
  {
    var list;
    err, list := api.ListBackendClaims(cfg);
    todo := list;
    if err { return; }
    ghost var c0, n0 := api.c, api.calls;
    assert list[0..] == list;
    for i := 0 to |list|
      invariant GcFinish(cfg, Begin(list), c0, tracker.request, api.world, n0)
             == GcFinish(cfg, Begin(list[i..]), api.c, tracker.request, api.world, api.calls)
    {
      assert list[i..][..1] == [list[i]] && list[i..][1..] == list[i + 1..];
      SweepByItems(cfg, list[i..], CheckClaim, api.c, tracker.request, api.world, api.calls);
      CleanUpItem(cfg, api, tracker, list[i]);
    }
    assert list[|list|..] == [];
  }
}
