/** What a whole Provision or Delete comes to, by the answers to its calls. */
module Outcomes {
  import opened Calls
  import opened Kube
  import opened ServerJob
  import opened Solo

  /** A Provision returns without error if and only if all the calls it depends on go well; it leaves exactly the
      objects that were there and those whose turn came, and whose create call left them. */
  lemma {:induction false} ProvisionOutcome(
    cfg: Config, pv: string, uid: string, claim: Key, ticks: nat, c: Cluster, w: World, n: nat)
    ensures var end := Finish(cfg, StartProvision(pv, uid, claim, ticks), c, w, n);
      var v, k := ViewOf(cfg, c, pv), BackendKey(cfg, pv);
      && (end.job.pc == Returned(true) <==> Provisions(Finished, v, k, w, n, ticks))
      && (k in end.c.pvcs <==> v.pvc || MakesClaim(v, w, n))
      && (k in end.c.deployments <==> v.deployment || MakesDeployment(v, w, n))
      && (k in end.c.services <==> v.service || Provisions(ServiceMade, v, k, w, n, ticks))
  {
    var t := StartProvision(pv, uid, claim, ticks);
    var s := Settle(c, w(n).binds);
    if Serves(w, n) {
      ClaimOutcome(cfg, Goto(t, GetPvc), s, w, n + 1);
      ClaimShift(Finished, cfg, c, pv, w, n, ticks);
      ClaimShift(ServiceMade, cfg, c, pv, w, n, ticks);
    }
  }

  /** A deletion returns without error, and leaves an object, exactly as it owes; clean-up by the collector is the same
      without hooks. */
  lemma {:induction false} DeleteOutcome(cfg: Config, kind: Kind, pv: string, c: Cluster, w: World, n: nat)
    requires kind == Delete || kind == Collect
    ensures var end := Finish(cfg, Job(kind, DeleteOpts(pv), DelGetSvc), c, w, n);
      DeletedAsOwed(cfg, kind == Delete, pv, c, end.c, w, n, end.job.pc == Returned(true))
  {
    var t := Job(kind, DeleteOpts(pv), DelGetSvc);
    DeleteServiceOutcome(cfg, t, c, w, n);
    OwedInTurn(cfg, kind == Delete, pv, c, Finish(cfg, t, c, w, n), w, n);
  }

  /** In particular, with hooks: if an object is there when its turn comes and the hook on its delete call fails,
      the call ends with an error, and this object and those after it are still there. */
  lemma {:induction false} FailedDeleteHookStops(cfg: Config, pv: string, c: Cluster, w: World, n: nat)
    ensures var end := Finish(cfg, Job(Delete, DeleteOpts(pv), DelGetSvc), c, w, n);
      var v, k := ViewOf(cfg, c, pv), BackendKey(cfg, pv);
      && (v.service && w(n + 1).hook.Rejected? ==>
            end.job.pc == Returned(false) && k in end.c.services
            && (v.deployment ==> k in end.c.deployments) && (v.pvc ==> k in end.c.pvcs))
      && (v.deployment && w(ReadsDeploymentAt(v, w, n) + 1).hook.Rejected? ==>
            end.job.pc == Returned(false) && k in end.c.deployments && (v.pvc ==> k in end.c.pvcs))
      && (v.pvc && w(ReadsClaimAt(v, w, n) + 1).hook.Rejected? ==>
            end.job.pc == Returned(false) && k in end.c.pvcs)
  {
    DeleteOutcome(cfg, Delete, pv, c, w, n);
    DeleteReturns(cfg, Job(Delete, DeleteOpts(pv), DelGetSvc), c, w, n);
  }
}
