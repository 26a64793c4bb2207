/**
 What a Provision and a Delete come to, said of the calls they make and of nothing else: which call is answered how,
 counted from the first. The steps of the machine are proved to agree, from the last to the first.
 */
module Calls {
  import opened Kube
  import opened ServerJob
  import opened Solo

  /** What the cluster has of a PV, and whether the provisioner is to give out cluster IPs. */
  datatype View = View(pvc: bool, bound: bool, deployment: bool, service: bool, clusterIP: bool)

  function ViewOf(cfg: Config, c: Cluster, pv: string): View {
    var k := BackendKey(cfg, pv);
    View(k in c.pvcs, k in c.pvcs && c.pvcs[k].bound, k in c.deployments, k in c.services, cfg.useClusterIP)
  }

  /** Call number m is served. */
  predicate Serves(w: World, m: nat) {
    w(m).fault == Fine
  }

  predicate HookPasses(w: World, m: nat) {
    w(m).hook.Accepted?
  }

  /** Call number m, a create call with its hook, succeeds. */
  predicate Creates(w: World, m: nat) {
    HookPasses(w, m) && Serves(w, m)
  }

  /** Call number m, a create call with its hook, leaves an object, even if it reports an error. */
  predicate Stores(w: World, m: nat) {
    HookPasses(w, m) && w(m).fault != Lost
  }

  /** An object that is there takes one call, to read it; one that is not takes a second one, to create it. */
  function Calls(present: bool): nat {
    if present then 1 else 2
  }

  /** The cluster by call number n or, where there is a second call, by call number n + 1. */
  function SettledBy(c: Cluster, w: World, n: nat, calls: nat): Cluster {
    if calls <= n + 1 then Settle(c, w(n).binds) else Settle(Settle(c, w(n).binds), w(n + 1).binds)
  }

  /** What reading an object in call number n, and creating `made` in the next one if it is not there, comes to. */
  ghost predicate ReadsOrCreates<T(!new)>(
    w: World, n: nat, k: Key, made: T, before: map<Key, T>, after: map<Key, T>, calls: nat, ok: bool)
  {
    if !Serves(w, n) then !ok && after == before && calls == n + 1
    else if k in before then ok && after == before && calls == n + 1
    else ok == Creates(w, n + 1) && after == (if Stores(w, n + 1) then before[k := made] else before) && calls == n + 2
  }

  /** By the time of call number m the claim is bound: it was before call `from`, or storage has bound it since. */
  ghost predicate BoundBy(bound: bool, k: Key, w: World, from: nat, m: nat) {
    bound || exists x :: from <= x <= m && k in w(x).binds
  }

  /** The wait that starts with call number n ends with call number n + b: all its reads are served, this one is the
      first to find the claim bound, and the timer allows that many ticks. */
  ghost predicate WaitsUntil(bound: bool, k: Key, w: World, from: nat, n: nat, ticks: nat, b: nat) {
    && b < ticks
    && (forall m | n <= m <= n + b :: Serves(w, m))
    && BoundBy(bound, k, w, from, n + b)
    && (b == 0 || !BoundBy(bound, k, w, from, n + b - 1))
  }

  /** What is asked: does the whole call succeed, or is a Service made? */
  datatype Goal = Finished | ServiceMade

  predicate FromAddress(v: View, w: World, n: nat) {
    (v.clusterIP ==> Serves(w, n)) && HookPasses(w, n + 1)
  }

  predicate FromService(goal: Goal, v: View, w: World, n: nat) {
    Serves(w, n) &&
    match goal
    case ServiceMade => !v.service && Stores(w, n + 1)
    case Finished => (v.service || Creates(w, n + 1)) && FromAddress(v, w, n + Calls(v.service))
  }

  /** The hook on the backend PV, and what comes after it. */
  predicate FromHook(goal: Goal, v: View, w: World, n: nat) {
    HookPasses(w, n) && FromService(goal, v, w, n + 1)
  }

  ghost predicate FromWait(goal: Goal, v: View, k: Key, w: World, from: nat, n: nat, ticks: nat) {
    exists b: nat :: WaitsThrough(goal, v, k, w, from, n, ticks, b)
  }

  ghost predicate WaitsThrough(goal: Goal, v: View, k: Key, w: World, from: nat, n: nat, ticks: nat, b: nat) {
    WaitsUntil(v.bound, k, w, from, n, ticks, b) && FromHook(goal, v, w, n + b + 1)
  }

  ghost predicate FromDeployment(goal: Goal, v: View, k: Key, w: World, from: nat, n: nat, ticks: nat) {
    && Serves(w, n) && (v.deployment || Creates(w, n + 1))
    && FromWait(goal, v, k, w, from, n + Calls(v.deployment), ticks)
  }

  ghost predicate FromClaim(goal: Goal, v: View, k: Key, w: World, from: nat, n: nat, ticks: nat) {
    && Serves(w, n)
    && if v.pvc then FromDeployment(goal, v, k, w, from, n + 1, ticks)
       else Creates(w, n + 1) && FromDeployment(goal, v, k, w, n + 2, n + 2, ticks)
  }

  /** A Provision whose first step is number n reaches its goal. That step settles the configuration. */
  ghost predicate Provisions(goal: Goal, v: View, k: Key, w: World, n: nat, ticks: nat) {
    Serves(w, n) && FromClaim(goal, v, k, w, n, n + 1, ticks)
  }

  /** It makes a backend claim: configuration and read are served, there is none, and the create call leaves one. */
  predicate MakesClaim(v: View, w: World, n: nat) {
    Serves(w, n) && Serves(w, n + 1) && !v.pvc && Stores(w, n + 2)
  }

  /** It makes a Deployment: the same of the Deployment, once the backend claim is there or was created. */
  predicate MakesDeployment(v: View, w: World, n: nat) {
    && Serves(w, n) && Serves(w, n + 1) && (v.pvc || Creates(w, n + 2))
    && var m := n + 1 + Calls(v.pvc); Serves(w, m) && !v.deployment && Stores(w, m + 1)
  }

  /** What a job at hand comes to from its present step, as far as the claim and Deployment are there to stay. */
  ghost predicate Comes(cfg: Config, t: Job, c: Cluster, w: World, n: nat, finished: bool, serviceMade: bool) {
    ComesTo(BackendKey(cfg, t.opts.pvName), c, Finish(cfg, t, c, w, n), finished, serviceMade)
  }

  ghost predicate ComesTo(k: Key, c: Cluster, end: End, finished: bool, serviceMade: bool) {
    && end.job.pc.Returned? && (end.job.pc.ok <==> finished)
    && (k in end.c.services <==> k in c.services || serviceMade)
  }

  ghost predicate KeepsRest(cfg: Config, t: Job, c: Cluster, w: World, n: nat) {
    RestKept(BackendKey(cfg, t.opts.pvName), c, Finish(cfg, t, c, w, n))
  }

  ghost predicate RestKept(k: Key, c: Cluster, end: End) {
    (k in end.c.pvcs <==> k in c.pvcs) && (k in end.c.deployments <==> k in c.deployments)
  }

  lemma {:induction false} AddressOutcome(cfg: Config, t: Job, c: Cluster, w: World, n: nat)
    requires t.pc.GetAddress? && t.opts.serviceName == BackendKey(cfg, t.opts.pvName).1
    requires BackendKey(cfg, t.opts.pvName) in c.services
    ensures Comes(cfg, t, c, w, n, FromAddress(ViewOf(cfg, c, t.opts.pvName), w, n), false)
    ensures KeepsRest(cfg, t, c, w, n)
  {
    var s := Settle(c, w(n).binds);
    var t' := Advance(cfg, t, s, w(n)).0;
    assert Finish(cfg, t, c, w, n) == Finish(cfg, t', s, w, n + 1);
    if t'.pc.BuildPv? {
      assert Finish(cfg, t', s, w, n + 1)
          == End(Goto(t', Returned(HookPasses(w, n + 1))), Settle(s, w(n + 1).binds), n + 2);
    }
  }

  lemma {:induction false} ServiceOutcome(cfg: Config, t: Job, c: Cluster, w: World, n: nat)
    requires t.pc.GetSvc?
    ensures var v := ViewOf(cfg, c, t.opts.pvName);
      Comes(cfg, t, c, w, n, FromService(Finished, v, w, n), FromService(ServiceMade, v, w, n))
    ensures KeepsRest(cfg, t, c, w, n)
  {
    var k, s := BackendKey(cfg, t.opts.pvName), Settle(c, w(n).binds);
    var t' := Advance(cfg, t, s, w(n)).0;
    assert Finish(cfg, t, c, w, n) == Finish(cfg, t', s, w, n + 1);
    if t'.pc.GetAddress? {
      AddressOutcome(cfg, t', s, w, n + 1);
    } else if t'.pc.CreateSvc? {
      CreateServiceOutcome(cfg, t', s, w, n + 1);
    }
  }

  lemma {:induction false} CreateServiceOutcome(cfg: Config, t: Job, c: Cluster, w: World, n: nat)
    requires t.pc.CreateSvc? && BackendKey(cfg, t.opts.pvName) !in c.services
    ensures Comes(cfg, t, c, w, n,
              Creates(w, n) && FromAddress(ViewOf(cfg, c, t.opts.pvName), w, n + 1), Stores(w, n))
    ensures KeepsRest(cfg, t, c, w, n)
  {
    var s := Settle(c, w(n).binds);
    var (t', c') := Advance(cfg, t, s, w(n));
    assert Finish(cfg, t, c, w, n) == Finish(cfg, t', c', w, n + 1);
    if t'.pc.GetAddress? {
      AddressOutcome(cfg, t', c', w, n + 1);
    }
  }

  lemma {:induction false} HookOutcome(cfg: Config, t: Job, c: Cluster, w: World, n: nat)
    requires t.pc.BackendHook?
    ensures var v := ViewOf(cfg, c, t.opts.pvName);
      Comes(cfg, t, c, w, n, FromHook(Finished, v, w, n), FromHook(ServiceMade, v, w, n))
    ensures KeepsRest(cfg, t, c, w, n)
  {
    var s := Settle(c, w(n).binds);
    var t' := Advance(cfg, t, s, w(n)).0;
    assert Finish(cfg, t, c, w, n) == Finish(cfg, t', s, w, n + 1);
    if t'.pc.GetSvc? {
      ServiceOutcome(cfg, t', s, w, n + 1);
    }
  }

  /** What the wait that starts with call number n comes to. */
  ghost predicate WaitComesTo(cfg: Config, pv: string, left: nat, c: Cluster, end: End, w: World, n: nat) {
    var v, k := ViewOf(cfg, c, pv), BackendKey(cfg, pv);
    && ComesTo(k, c, end, FromWait(Finished, v, k, w, n, n, left), FromWait(ServiceMade, v, k, w, n, n, left))
    && RestKept(k, c, end)
  }

  lemma {:induction false} WaitOutcome(cfg: Config, t: Job, c: Cluster, w: World, n: nat)
    requires t.pc.WaitBound? && BackendKey(cfg, t.opts.pvName) in c.pvcs
    ensures WaitComesTo(cfg, t.opts.pvName, t.pc.left, c, Finish(cfg, t, c, w, n), w, n)
    decreases t.pc.left
  {
    var pv, s := t.opts.pvName, Settle(c, w(n).binds);
    var t' := WaitAdvances(cfg, t, c, w, n);
    var end := Finish(cfg, t', s, w, n + 1);
    if t'.pc.BackendHook? {
      HookOutcome(cfg, t', s, w, n + 1);
      WaitEnds(cfg, pv, t.pc.left, c, end, w, n);
    } else if t'.pc.WaitBound? {
      WaitOutcome(cfg, t', s, w, n + 1);
      WaitGoesOn(cfg, pv, t.pc.left, c, end, w, n);
    } else {
      WaitFails(cfg, pv, t.pc.left, c, end, w, n);
    }
  }

  lemma {:induction false} WaitEnds(cfg: Config, pv: string, left: nat, c: Cluster, end: End, w: World, n: nat)
    requires var k, s := BackendKey(cfg, pv), Settle(c, w(n).binds);
      && left > 0 && Serves(w, n) && k in c.pvcs && s.pvcs[k].bound && RestKept(k, s, end)
      && ComesTo(k, s, end, FromHook(Finished, ViewOf(cfg, s, pv), w, n + 1),
           FromHook(ServiceMade, ViewOf(cfg, s, pv), w, n + 1))
    ensures WaitComesTo(cfg, pv, left, c, end, w, n)
  {
    WaitStep(Finished, cfg, c, pv, w, n, left);
    WaitStep(ServiceMade, cfg, c, pv, w, n, left);
    HookView(cfg, c, pv, w, n);
  }

  lemma {:induction false} WaitGoesOn(cfg: Config, pv: string, left: nat, c: Cluster, end: End, w: World, n: nat)
    requires var k, s := BackendKey(cfg, pv), Settle(c, w(n).binds);
      && left > 0 && Serves(w, n) && k in c.pvcs && !s.pvcs[k].bound
      && WaitComesTo(cfg, pv, left - 1, s, end, w, n + 1)
    ensures WaitComesTo(cfg, pv, left, c, end, w, n)
  {
    WaitStep(Finished, cfg, c, pv, w, n, left);
    WaitStep(ServiceMade, cfg, c, pv, w, n, left);
  }

  lemma {:induction false} WaitFails(cfg: Config, pv: string, left: nat, c: Cluster, end: End, w: World, n: nat)
    requires BackendKey(cfg, pv) in c.pvcs && (left == 0 || !Serves(w, n))
    requires end.job.pc == Returned(false) && end.c == Settle(c, w(n).binds)
    ensures WaitComesTo(cfg, pv, left, c, end, w, n)
  {
    WaitStep(Finished, cfg, c, pv, w, n, left);
    WaitStep(ServiceMade, cfg, c, pv, w, n, left);
  }

  /** What comes after the wait does not depend on when the claim was bound. */
  lemma {:induction false} HookView(cfg: Config, c: Cluster, pv: string, w: World, n: nat)
    ensures forall goal, m: nat ::
      FromHook(goal, ViewOf(cfg, Settle(c, w(n).binds), pv), w, m) <==> FromHook(goal, ViewOf(cfg, c, pv), w, m)
  {
  }

  /** A tick of the wait: it goes on while the claim is there and unbound, and a failed read ends it. */
  lemma {:induction false} WaitAdvances(cfg: Config, t: Job, c: Cluster, w: World, n: nat) returns (t': Job)
    requires t.pc.WaitBound? && BackendKey(cfg, t.opts.pvName) in c.pvcs
    ensures var s := Settle(c, w(n).binds);
      && Finish(cfg, t, c, w, n) == Finish(cfg, t', s, w, n + 1) && t'.opts.pvName == t.opts.pvName
      && t'.pc == if t.pc.left == 0 || !Serves(w, n) then Returned(false)
                  else if s.pvcs[BackendKey(cfg, t.opts.pvName)].bound then BackendHook else WaitBound(t.pc.left - 1)
  {
    t' := Advance(cfg, t, Settle(c, w(n).binds), w(n)).0;
  }

  /** The wait by its first tick. */
  lemma {:induction false} WaitStep(goal: Goal, cfg: Config, c: Cluster, pv: string, w: World, n: nat, ticks: nat)
    requires BackendKey(cfg, pv) in c.pvcs
    ensures var v, k, s := ViewOf(cfg, c, pv), BackendKey(cfg, pv), Settle(c, w(n).binds);
      FromWait(goal, v, k, w, n, n, ticks) <==>
        ticks > 0 && Serves(w, n) &&
        if s.pvcs[k].bound then FromHook(goal, v, w, n + 1)
        else FromWait(goal, ViewOf(cfg, s, pv), k, w, n + 1, n + 1, ticks - 1)
  {
    var v, k, s := ViewOf(cfg, c, pv), BackendKey(cfg, pv), Settle(c, w(n).binds);
    var u := ViewOf(cfg, s, pv);
    assert BoundBy(v.bound, k, w, n, n) <==> s.pvcs[k].bound;
    if s.pvcs[k].bound {
      BoundAtOnce(goal, v, k, w, n, ticks);
    } else if ticks > 0 {
      BoundLater(goal, v, u, k, w, n, ticks);
    }
  }

  lemma {:induction false} BoundAtOnce(goal: Goal, v: View, k: Key, w: World, n: nat, ticks: nat)
    requires BoundBy(v.bound, k, w, n, n)
    ensures FromWait(goal, v, k, w, n, n, ticks) <==> ticks > 0 && Serves(w, n) && FromHook(goal, v, w, n + 1)
  {
    forall b: nat | b > 0 ensures !WaitsUntil(v.bound, k, w, n, n, ticks, b) {
      BoundStays(v.bound, k, w, n, n, n + b - 1);
    }
    if ticks > 0 && Serves(w, n) && FromHook(goal, v, w, n + 1) {
      assert WaitsThrough(goal, v, k, w, n, n, ticks, 0);
    }
  }

  lemma {:induction false} BoundLater(goal: Goal, v: View, u: View, k: Key, w: World, n: nat, ticks: nat)
    requires ticks > 0 && !BoundBy(v.bound, k, w, n, n) && u == v.(bound := false)
    ensures FromWait(goal, v, k, w, n, n, ticks)
       <==> Serves(w, n) && FromWait(goal, u, k, w, n + 1, n + 1, ticks - 1)
  {
    if Serves(w, n) && FromWait(goal, u, k, w, n + 1, n + 1, ticks - 1) {
      var b: nat :| WaitsThrough(goal, u, k, w, n + 1, n + 1, ticks - 1, b);
      ThroughLater(goal, v, u, k, w, n, ticks, b);
    }
    if FromWait(goal, v, k, w, n, n, ticks) {
      var b: nat :| WaitsThrough(goal, v, k, w, n, n, ticks, b);
      assert b > 0;
      ThroughLater(goal, v, u, k, w, n, ticks, b - 1);
    }
  }

  lemma {:induction false} ThroughLater(goal: Goal, v: View, u: View, k: Key, w: World, n: nat, ticks: nat, b: nat)
    requires ticks > 0 && !BoundBy(v.bound, k, w, n, n) && u == v.(bound := false)
    ensures Serves(w, n) && WaitsThrough(goal, u, k, w, n + 1, n + 1, ticks - 1, b)
       <==> WaitsThrough(goal, v, k, w, n, n, ticks, b + 1)
  {
    LaterWait(v.bound, u.bound, k, w, n, ticks, b);
    assert n + 1 + b + 1 == n + (b + 1) + 1;
    assert FromHook(goal, u, w, n + 1 + b + 1) <==> FromHook(goal, v, w, n + (b + 1) + 1);
  }

  lemma {:induction false} BoundStays(bound: bool, k: Key, w: World, from: nat, m: nat, later: nat)
    requires BoundBy(bound, k, w, from, m) && later >= m
    ensures BoundBy(bound, k, w, from, later)
  {
  }

  lemma {:induction false} LaterWait(bound: bool, later: bool, k: Key, w: World, n: nat, ticks: nat, b: nat)
    requires ticks > 0 && !BoundBy(bound, k, w, n, n) && !later
    ensures Serves(w, n) && WaitsUntil(later, k, w, n + 1, n + 1, ticks - 1, b)
       <==> WaitsUntil(bound, k, w, n, n, ticks, b + 1)
  {
    assert !bound && k !in w(n).binds;
    assert forall m: nat | m >= n :: BoundBy(bound, k, w, n, m) <==> BoundBy(later, k, w, n + 1, m);
  }

  /** When the wait is reckoned from a later call, what was bound in between counts as bound before. */
  ghost predicate Reckoned(v: View, u: View, k: Key, w: World, from: nat, later: nat) {
    && from <= later && u.service == v.service && u.clusterIP == v.clusterIP
    && (u.bound <==> v.bound || exists x :: from <= x < later && k in w(x).binds)
  }

  lemma {:induction false} WaitShift(
    goal: Goal, v: View, u: View, k: Key, w: World, from: nat, later: nat, n: nat, ticks: nat)
    requires Reckoned(v, u, k, w, from, later) && later <= n
    ensures FromWait(goal, v, k, w, from, n, ticks) <==> FromWait(goal, u, k, w, later, n, ticks)
  {
    forall b: nat
      ensures WaitsThrough(goal, v, k, w, from, n, ticks, b) <==> WaitsThrough(goal, u, k, w, later, n, ticks, b)
    {
      ThroughShift(goal, v, u, k, w, from, later, n, ticks, b);
    }
  }

  lemma {:induction false} ThroughShift(
    goal: Goal, v: View, u: View, k: Key, w: World, from: nat, later: nat, n: nat, ticks: nat, b: nat)
    requires Reckoned(v, u, k, w, from, later) && later <= n
    ensures WaitsThrough(goal, v, k, w, from, n, ticks, b) <==> WaitsThrough(goal, u, k, w, later, n, ticks, b)
  {
    BoundShift(v, u, k, w, from, later, n + b);
    if b > 0 { BoundShift(v, u, k, w, from, later, n + b - 1); }
    assert FromHook(goal, v, w, n + b + 1) <==> FromHook(goal, u, w, n + b + 1);
  }

  lemma {:induction false} BoundShift(v: View, u: View, k: Key, w: World, from: nat, later: nat, m: nat)
    requires Reckoned(v, u, k, w, from, later) && later <= m
    ensures BoundBy(v.bound, k, w, from, m) <==> BoundBy(u.bound, k, w, later, m)
  {
  }

  /** The cluster after storage has been at work once. */
  lemma {:induction false} SettledView(cfg: Config, c: Cluster, pv: string, w: World, n: nat)
    ensures var u := ViewOf(cfg, Settle(c, w(n).binds), pv); var v := ViewOf(cfg, c, pv);
      && u == v.(bound := u.bound)
      && (v.pvc ==> Reckoned(v, u, BackendKey(cfg, pv), w, n, n + 1)) && (!v.pvc ==> u == v)
  {
  }

  ghost predicate DeploymentComes(cfg: Config, t: Job, c: Cluster, w: World, n: nat) {
    DeploymentComesTo(cfg, t.opts.pvName, t.opts.ticks, c, Finish(cfg, t, c, w, n), w, n)
  }

  ghost predicate DeploymentComesTo(cfg: Config, pv: string, ticks: nat, c: Cluster, end: End, w: World, n: nat) {
    var v, k := ViewOf(cfg, c, pv), BackendKey(cfg, pv);
    && ComesTo(k, c, end, FromDeployment(Finished, v, k, w, n, n, ticks),
         FromDeployment(ServiceMade, v, k, w, n, n, ticks))
    && k in end.c.pvcs
    && (k in end.c.deployments <==> k in c.deployments || (Serves(w, n) && Stores(w, n + 1)))
  }

  lemma {:induction false} DeploymentOutcome(cfg: Config, t: Job, c: Cluster, w: World, n: nat)
    requires t.pc.GetDep? && BackendKey(cfg, t.opts.pvName) in c.pvcs
    ensures DeploymentComes(cfg, t, c, w, n)
  {
    var pv, ticks, s := t.opts.pvName, t.opts.ticks, Settle(c, w(n).binds);
    var t' := ReadsDeployment(cfg, t, c, w, n);
    var end := Finish(cfg, t', s, w, n + 1);
    if !Serves(w, n) {
      assert end == End(t', s, n + 1);
    } else if BackendKey(cfg, pv) in c.deployments {
      WaitOutcome(cfg, t', s, w, n + 1);
      DeploymentFound(cfg, pv, ticks, c, end, w, n);
    } else {
      CreateDeploymentOutcome(cfg, t', s, w, n + 1);
      DeploymentAbsent(cfg, pv, ticks, c, end, w, n);
    }
  }

  lemma {:induction false} DeploymentFound(cfg: Config, pv: string, ticks: nat, c: Cluster, end: End, w: World, n: nat)
    requires var k := BackendKey(cfg, pv); k in c.pvcs && k in c.deployments
    requires Serves(w, n) && WaitComesTo(cfg, pv, ticks, Settle(c, w(n).binds), end, w, n + 1)
    ensures DeploymentComesTo(cfg, pv, ticks, c, end, w, n)
  {
    var v, u, k := ViewOf(cfg, c, pv), ViewOf(cfg, Settle(c, w(n).binds), pv), BackendKey(cfg, pv);
    SettledView(cfg, c, pv, w, n);
    WaitsIfFound(Finished, v, u, k, w, n, ticks);
    WaitsIfFound(ServiceMade, v, u, k, w, n, ticks);
    SettledFirst(k, Settle(c, w(n).binds), c, end,
      FromWait(Finished, u, k, w, n + 1, n + 1, ticks), FromDeployment(Finished, v, k, w, n, n, ticks),
      FromWait(ServiceMade, u, k, w, n + 1, n + 1, ticks), FromDeployment(ServiceMade, v, k, w, n, n, ticks));
  }

  lemma {:induction false} WaitsIfFound(goal: Goal, v: View, u: View, k: Key, w: World, n: nat, ticks: nat)
    requires Reckoned(v, u, k, w, n, n + 1) && Serves(w, n) && v.deployment
    ensures FromDeployment(goal, v, k, w, n, n, ticks) <==> FromWait(goal, u, k, w, n + 1, n + 1, ticks)
  {
    WaitShift(goal, v, u, k, w, n, n + 1, n + 1, ticks);
  }

  lemma {:induction false} WaitsIfAbsent(goal: Goal, v: View, u: View, k: Key, w: World, n: nat, ticks: nat)
    requires Reckoned(v, u, k, w, n, n + 1) && Serves(w, n) && !v.deployment
    ensures FromDeployment(goal, v, k, w, n, n, ticks)
       <==> Creates(w, n + 1) && FromWait(goal, u, k, w, n + 1, n + 2, ticks)
  {
    WaitShift(goal, v, u, k, w, n, n + 1, n + 2, ticks);
  }

  /** Storage at work before leaves the same outcome. */
  lemma {:induction false} SettledFirst(k: Key, s: Cluster, c: Cluster, end: End, f: bool, f': bool, m: bool, m': bool)
    requires ComesTo(k, s, end, f, m) && s.services == c.services && (f <==> f') && (m <==> m')
    ensures ComesTo(k, c, end, f', m')
  {
  }

  /** Where the read of the Deployment leads. */
  lemma {:induction false} ReadsDeployment(cfg: Config, t: Job, c: Cluster, w: World, n: nat) returns (t': Job)
    requires t.pc.GetDep?
    ensures Finish(cfg, t, c, w, n) == Finish(cfg, t', Settle(c, w(n).binds), w, n + 1)
    ensures t'.pc == (if !Serves(w, n) then Returned(false)
                      else if BackendKey(cfg, t.opts.pvName) in c.deployments then WaitBound(t.opts.ticks)
                      else CreateDep)
    ensures t'.opts.pvName == t.opts.pvName && t'.opts.ticks == t.opts.ticks
  {
    t' := Advance(cfg, t, Settle(c, w(n).binds), w(n)).0;
  }

  lemma {:induction false} DeploymentAbsent(cfg: Config, pv: string, ticks: nat, c: Cluster, end: End, w: World, n: nat)
    requires var k := BackendKey(cfg, pv); k in c.pvcs && k !in c.deployments
    requires Serves(w, n) && DeploymentMade(cfg, pv, ticks, Settle(c, w(n).binds), end, w, n + 1)
    ensures DeploymentComesTo(cfg, pv, ticks, c, end, w, n)
  {
    var v, u, k := ViewOf(cfg, c, pv), ViewOf(cfg, Settle(c, w(n).binds), pv), BackendKey(cfg, pv);
    SettledView(cfg, c, pv, w, n);
    WaitsIfAbsent(Finished, v, u, k, w, n, ticks);
    WaitsIfAbsent(ServiceMade, v, u, k, w, n, ticks);
    SettledFirst(k, Settle(c, w(n).binds), c, end,
      Creates(w, n + 1) && FromWait(Finished, u, k, w, n + 1, n + 2, ticks),
      FromDeployment(Finished, v, k, w, n, n, ticks),
      Creates(w, n + 1) && FromWait(ServiceMade, u, k, w, n + 1, n + 2, ticks),
      FromDeployment(ServiceMade, v, k, w, n, n, ticks));
  }

  lemma {:induction false} ShiftBoth(v: View, u: View, k: Key, w: World, from: nat, later: nat, n: nat, ticks: nat)
    requires Reckoned(v, u, k, w, from, later) && later <= n
    ensures FromWait(Finished, v, k, w, from, n, ticks) <==> FromWait(Finished, u, k, w, later, n, ticks)
    ensures FromWait(ServiceMade, v, k, w, from, n, ticks) <==> FromWait(ServiceMade, u, k, w, later, n, ticks)
  {
    WaitShift(Finished, v, u, k, w, from, later, n, ticks);
    WaitShift(ServiceMade, v, u, k, w, from, later, n, ticks);
  }

  /** What creating the Deployment in call number n comes to. */
  ghost predicate DeploymentMade(cfg: Config, pv: string, ticks: nat, c: Cluster, end: End, w: World, n: nat) {
    var v, k := ViewOf(cfg, c, pv), BackendKey(cfg, pv);
    && ComesTo(k, c, end, Creates(w, n) && FromWait(Finished, v, k, w, n, n + 1, ticks),
         Creates(w, n) && FromWait(ServiceMade, v, k, w, n, n + 1, ticks))
    && k in end.c.pvcs && (k in end.c.deployments <==> Stores(w, n))
  }

  lemma {:induction false} CreateDeploymentOutcome(cfg: Config, t: Job, c: Cluster, w: World, n: nat)
    requires t.pc.CreateDep?
    requires var k := BackendKey(cfg, t.opts.pvName); k in c.pvcs && k !in c.deployments
    ensures DeploymentMade(cfg, t.opts.pvName, t.opts.ticks, c, Finish(cfg, t, c, w, n), w, n)
  {
    var t', c' := CreatesDeployment(cfg, t, c, w, n);
    if Creates(w, n) {
      WaitOutcome(cfg, t', c', w, n + 1);
      DeploymentWaits(cfg, t.opts.pvName, t.opts.ticks, c, c', Finish(cfg, t', c', w, n + 1), w, n);
    } else {
      assert Finish(cfg, t', c', w, n + 1) == End(t', c', n + 1);
    }
  }

  /** Where the creation of the Deployment leads. */
  lemma {:induction false} CreatesDeployment(cfg: Config, t: Job, c: Cluster, w: World, n: nat)
    returns (t': Job, c': Cluster)
    requires t.pc.CreateDep? && BackendKey(cfg, t.opts.pvName) !in c.deployments
    ensures Finish(cfg, t, c, w, n) == Finish(cfg, t', c', w, n + 1)
    ensures t'.pc == if Creates(w, n) then WaitBound(t.opts.ticks) else Returned(false)
    ensures t'.opts.pvName == t.opts.pvName && t'.opts.ticks == t.opts.ticks
    ensures var s, k := Settle(c, w(n).binds), BackendKey(cfg, t.opts.pvName);
      c'.pvcs == s.pvcs && c'.services == s.services && (k in c'.deployments <==> Stores(w, n))
  {
    var r := Advance(cfg, t, Settle(c, w(n).binds), w(n));
    t', c' := r.0, r.1;
  }

  lemma {:induction false} DeploymentWaits(
    cfg: Config, pv: string, ticks: nat, c: Cluster, c': Cluster, end: End, w: World, n: nat)
    requires var s, k := Settle(c, w(n).binds), BackendKey(cfg, pv);
      k in c.pvcs && c'.pvcs == s.pvcs && c'.services == s.services && k in c'.deployments
    requires Creates(w, n) && WaitComesTo(cfg, pv, ticks, c', end, w, n + 1)
    ensures DeploymentMade(cfg, pv, ticks, c, end, w, n)
  {
    SettledView(cfg, c, pv, w, n);
    ShiftBoth(ViewOf(cfg, c, pv), ViewOf(cfg, c', pv), BackendKey(cfg, pv), w, n, n + 1, n + 1, ticks);
  }

  ghost predicate ClaimComes(cfg: Config, t: Job, c: Cluster, w: World, n: nat) {
    ClaimComesTo(cfg, t.opts.pvName, t.opts.ticks, c, Finish(cfg, t, c, w, n), w, n)
  }

  ghost predicate ClaimComesTo(cfg: Config, pv: string, ticks: nat, c: Cluster, end: End, w: World, n: nat) {
    var v, k := ViewOf(cfg, c, pv), BackendKey(cfg, pv);
    && ComesTo(k, c, end, FromClaim(Finished, v, k, w, n, n, ticks), FromClaim(ServiceMade, v, k, w, n, n, ticks))
    && (k in end.c.pvcs <==> v.pvc || (Serves(w, n) && Stores(w, n + 1)))
    && (k in end.c.deployments <==> v.deployment || DeploymentFromClaim(v, w, n))
  }

  lemma {:induction false} ClaimOutcome(cfg: Config, t: Job, c: Cluster, w: World, n: nat)
    requires t.pc.GetPvc?
    ensures ClaimComes(cfg, t, c, w, n)
  {
    var pv, ticks, s := t.opts.pvName, t.opts.ticks, Settle(c, w(n).binds);
    var t' := ReadsClaim(cfg, t, c, w, n);
    var end := Finish(cfg, t', s, w, n + 1);
    if !Serves(w, n) {
      assert end == End(t', s, n + 1);
    } else if BackendKey(cfg, pv) in c.pvcs {
      DeploymentOutcome(cfg, t', s, w, n + 1);
      ClaimFound(cfg, pv, ticks, c, end, w, n);
    } else {
      CreateClaimOutcome(cfg, t', s, w, n + 1);
      ClaimAbsent(cfg, pv, ticks, c, end, w, n);
    }
  }

  /** Where the read of the backend claim leads. */
  lemma {:induction false} ReadsClaim(cfg: Config, t: Job, c: Cluster, w: World, n: nat) returns (t': Job)
    requires t.pc.GetPvc?
    ensures Finish(cfg, t, c, w, n) == Finish(cfg, t', Settle(c, w(n).binds), w, n + 1)
    ensures t'.pc == (if !Serves(w, n) then Returned(false)
                      else if BackendKey(cfg, t.opts.pvName) in c.pvcs then GetDep else CreatePvc)
    ensures t'.opts.pvName == t.opts.pvName && t'.opts.ticks == t.opts.ticks
  {
    t' := Advance(cfg, t, Settle(c, w(n).binds), w(n)).0;
  }

  lemma {:induction false} ClaimFound(cfg: Config, pv: string, ticks: nat, c: Cluster, end: End, w: World, n: nat)
    requires BackendKey(cfg, pv) in c.pvcs
    requires Serves(w, n) && DeploymentComesTo(cfg, pv, ticks, Settle(c, w(n).binds), end, w, n + 1)
    ensures ClaimComesTo(cfg, pv, ticks, c, end, w, n)
  {
    var v, u, k := ViewOf(cfg, c, pv), ViewOf(cfg, Settle(c, w(n).binds), pv), BackendKey(cfg, pv);
    SettledView(cfg, c, pv, w, n);
    DeploymentIfFound(Finished, v, u, k, w, n, ticks);
    DeploymentIfFound(ServiceMade, v, u, k, w, n, ticks);
    SettledFirst(k, Settle(c, w(n).binds), c, end,
      FromDeployment(Finished, u, k, w, n + 1, n + 1, ticks), FromClaim(Finished, v, k, w, n, n, ticks),
      FromDeployment(ServiceMade, u, k, w, n + 1, n + 1, ticks), FromClaim(ServiceMade, v, k, w, n, n, ticks));
  }

  lemma {:induction false} DeploymentIfFound(goal: Goal, v: View, u: View, k: Key, w: World, n: nat, ticks: nat)
    requires Reckoned(v, u, k, w, n, n + 1) && Serves(w, n) && v.pvc && u.deployment == v.deployment
    ensures FromClaim(goal, v, k, w, n, n, ticks) <==> FromDeployment(goal, u, k, w, n + 1, n + 1, ticks)
  {
    DeploymentShift(goal, v, u, k, w, n, n + 1, n + 1, ticks);
  }

  lemma {:induction false} ClaimAbsent(cfg: Config, pv: string, ticks: nat, c: Cluster, end: End, w: World, n: nat)
    requires BackendKey(cfg, pv) !in c.pvcs
    requires Serves(w, n) && ClaimMade(cfg, pv, ticks, Settle(c, w(n).binds), end, w, n + 1)
    ensures ClaimComesTo(cfg, pv, ticks, c, end, w, n)
  {
    SettledView(cfg, c, pv, w, n);
  }

  predicate DeploymentFromClaim(v: View, w: World, n: nat) {
    Serves(w, n) && (v.pvc || Creates(w, n + 1)) && var m := n + Calls(v.pvc); Serves(w, m) && Stores(w, m + 1)
  }

  /** What creating the backend claim in call number n comes to. */
  ghost predicate ClaimMade(cfg: Config, pv: string, ticks: nat, c: Cluster, end: End, w: World, n: nat) {
    var v, k := ViewOf(cfg, c, pv), BackendKey(cfg, pv);
    && ComesTo(k, c, end, Creates(w, n) && FromDeployment(Finished, v, k, w, n + 1, n + 1, ticks),
         Creates(w, n) && FromDeployment(ServiceMade, v, k, w, n + 1, n + 1, ticks))
    && (k in end.c.pvcs <==> Stores(w, n))
    && (k in end.c.deployments <==> v.deployment || (Creates(w, n) && Serves(w, n + 1) && Stores(w, n + 2)))
  }

  lemma {:induction false} CreateClaimOutcome(cfg: Config, t: Job, c: Cluster, w: World, n: nat)
    requires t.pc.CreatePvc? && BackendKey(cfg, t.opts.pvName) !in c.pvcs
    ensures ClaimMade(cfg, t.opts.pvName, t.opts.ticks, c, Finish(cfg, t, c, w, n), w, n)
  {
    var t', c' := CreatesClaim(cfg, t, c, w, n);
    if Creates(w, n) {
      DeploymentOutcome(cfg, t', c', w, n + 1);
      ClaimGoesOn(cfg, t.opts.pvName, t.opts.ticks, c, c', Finish(cfg, t', c', w, n + 1), w, n);
    } else {
      assert Finish(cfg, t', c', w, n + 1) == End(t', c', n + 1);
    }
  }

  /** Where the creation of the backend claim leads. */
  lemma {:induction false} CreatesClaim(cfg: Config, t: Job, c: Cluster, w: World, n: nat)
    returns (t': Job, c': Cluster)
    requires t.pc.CreatePvc? && BackendKey(cfg, t.opts.pvName) !in c.pvcs
    ensures Finish(cfg, t, c, w, n) == Finish(cfg, t', c', w, n + 1)
    ensures t'.pc == if Creates(w, n) then GetDep else Returned(false)
    ensures t'.opts.pvName == t.opts.pvName && t'.opts.ticks == t.opts.ticks
    ensures var k := BackendKey(cfg, t.opts.pvName);
      && c'.deployments == c.deployments && c'.services == c.services
      && (k in c'.pvcs <==> Stores(w, n)) && (k in c'.pvcs ==> !c'.pvcs[k].bound)
  {
    var r := Advance(cfg, t, Settle(c, w(n).binds), w(n));
    t', c' := r.0, r.1;
  }

  lemma {:induction false} ClaimGoesOn(
    cfg: Config, pv: string, ticks: nat, c: Cluster, c': Cluster, end: End, w: World, n: nat)
    requires var k := BackendKey(cfg, pv);
      && k !in c.pvcs && k in c'.pvcs && !c'.pvcs[k].bound
      && c'.deployments == c.deployments && c'.services == c.services
    requires Creates(w, n) && DeploymentComesTo(cfg, pv, ticks, c', end, w, n + 1)
    ensures ClaimMade(cfg, pv, ticks, c, end, w, n)
  {
    var v, u, k := ViewOf(cfg, c, pv), ViewOf(cfg, c', pv), BackendKey(cfg, pv);
    DeploymentShift(Finished, v, u, k, w, n + 1, n + 1, n + 1, ticks);
    DeploymentShift(ServiceMade, v, u, k, w, n + 1, n + 1, n + 1, ticks);
  }

  lemma {:induction false} DeploymentShift(
    goal: Goal, v: View, u: View, k: Key, w: World, from: nat, later: nat, n: nat, ticks: nat)
    requires Reckoned(v, u, k, w, from, later) && later <= n && u.deployment == v.deployment
    ensures FromDeployment(goal, v, k, w, from, n, ticks) <==> FromDeployment(goal, u, k, w, later, n, ticks)
  {
    WaitShift(goal, v, u, k, w, from, later, n + Calls(v.deployment), ticks);
  }

  lemma {:induction false} ClaimShift(goal: Goal, cfg: Config, c: Cluster, pv: string, w: World, n: nat, ticks: nat)
    ensures var v, u, k := ViewOf(cfg, c, pv), ViewOf(cfg, Settle(c, w(n).binds), pv), BackendKey(cfg, pv);
      FromClaim(goal, v, k, w, n, n + 1, ticks) <==> FromClaim(goal, u, k, w, n + 1, n + 1, ticks)
  {
    SettledView(cfg, c, pv, w, n);
    if ViewOf(cfg, c, pv).pvc {
      DeploymentShift(goal, ViewOf(cfg, c, pv), ViewOf(cfg, Settle(c, w(n).binds), pv), BackendKey(cfg, pv), w,
        n, n + 1, n + 2, ticks);
    }
  }

  /** Call number m, a delete call with its hook if there are hooks, succeeds. */
  predicate Deletes(hooks: bool, w: World, m: nat) {
    (hooks ==> HookPasses(w, m)) && Serves(w, m)
  }

  /** Call number m, a delete call with its hook if there are hooks, removes the object, even if it reports an
      error. */
  predicate Clears(hooks: bool, w: World, m: nat) {
    (hooks ==> HookPasses(w, m)) && w(m).fault != Lost
  }

  /** The read, call number n, finds no object, so nothing is deleted. Any other answer leads to the deletion. */
  predicate Skips(present: bool, w: World, n: nat) {
    !present && Serves(w, n)
  }

  predicate Past(present: bool, hooks: bool, w: World, n: nat) {
    Skips(present, w, n) || Deletes(hooks, w, n + 1)
  }

  /** The call after those spent on an object. */
  function Next(present: bool, w: World, n: nat): nat {
    if Skips(present, w, n) then n + 1 else n + 2
  }

  /** Where the deletion comes to the Deployment, and to the backend claim. */
  function ReadsDeploymentAt(v: View, w: World, n: nat): nat {
    Next(v.service, w, n)
  }

  function ReadsClaimAt(v: View, w: World, n: nat): nat {
    Next(v.deployment, w, ReadsDeploymentAt(v, w, n))
  }

  predicate PastService(v: View, hooks: bool, w: World, n: nat) {
    Past(v.service, hooks, w, n)
  }

  predicate PastDeployment(v: View, hooks: bool, w: World, n: nat) {
    PastService(v, hooks, w, n) && Past(v.deployment, hooks, w, ReadsDeploymentAt(v, w, n))
  }

  predicate PastClaim(v: View, hooks: bool, w: World, n: nat) {
    PastDeployment(v, hooks, w, n) && Past(v.pvc, hooks, w, ReadsClaimAt(v, w, n))
  }

  /** A deletion from cluster c to cluster d returns without error if and only if for each object in turn the read
      finds none, or the hook on its delete call and the call itself succeed, and, where there are hooks, the last
      one does. An object is left exactly if its turn does not come, or its delete call does not remove it. */
  predicate DeletedAsOwed(cfg: Config, hooks: bool, pv: string, c: Cluster, d: Cluster, w: World, n: nat, ok: bool) {
    var v, k := ViewOf(cfg, c, pv), BackendKey(cfg, pv);
    && (ok <==> PastClaim(v, hooks, w, n) && (hooks ==> HookPasses(w, Next(v.pvc, w, ReadsClaimAt(v, w, n)))))
    && (k in d.services <==> v.service && !Clears(hooks, w, n + 1))
    && (k in d.deployments <==>
          (v.deployment && !(PastService(v, hooks, w, n) && Clears(hooks, w, ReadsDeploymentAt(v, w, n) + 1))))
    && (k in d.pvcs <==>
          (v.pvc && !(PastDeployment(v, hooks, w, n) && Clears(hooks, w, ReadsClaimAt(v, w, n) + 1))))
  }

  lemma {:induction false} OwedInTurn(cfg: Config, hooks: bool, pv: string, c: Cluster, end: End, w: World, n: nat)
    requires ServiceDeleted(ViewOf(cfg, c, pv), hooks, BackendKey(cfg, pv), end, w, n)
    ensures DeletedAsOwed(cfg, hooks, pv, c, end.c, w, n, end.job.pc == Returned(true))
  {
  }

  lemma {:induction false} DeleteReturns(cfg: Config, t: Job, c: Cluster, w: World, n: nat)
    ensures Finish(cfg, t, c, w, n).job.pc.Returned?
    decreases Rank(t)
  {
    if !t.pc.Returned? {
      var settled := Settle(c, w(n).binds);
      JobTerminates(cfg, t, settled, w(n));
      var (t', c') := Advance(cfg, t, settled, w(n));
      DeleteReturns(cfg, t', c', w, n + 1);
    }
  }

  predicate FromDeploymentRead(v: View, hooks: bool, w: World, n: nat) {
    Past(v.deployment, hooks, w, n) && FromClaimRead(v, hooks, w, Next(v.deployment, w, n))
  }

  /** From its read of the Deployment, call number n, on, the deletion comes to clear the backend claim. */
  predicate ClearsClaimFrom(deployment: bool, hooks: bool, w: World, n: nat) {
    Past(deployment, hooks, w, n) && Clears(hooks, w, Next(deployment, w, n) + 1)
  }

  predicate FromClaimRead(v: View, hooks: bool, w: World, n: nat) {
    Past(v.pvc, hooks, w, n) && (hooks ==> HookPasses(w, Next(v.pvc, w, n)))
  }

  /** The deletion by its read of the Service: where it goes on, and with what. */
  lemma {:induction false} LeavesService(cfg: Config, t: Job, c: Cluster, w: World, n: nat)
    returns (t': Job, c': Cluster, m: nat)
    requires t.kind != Provision && t.pc.DelGetSvc?
    ensures Finish(cfg, t, c, w, n) == Finish(cfg, t', c', w, m)
    ensures t'.kind == t.kind && t'.opts.pvName == t.opts.pvName
    ensures var k, hooks := BackendKey(cfg, t.opts.pvName), t.kind == Delete; var present := k in c.services;
      && (if Past(present, hooks, w, n) then t'.pc.DelGetDep? && m == Next(present, w, n) else t'.pc == Returned(false))
      && (k in c'.services <==> present && !Clears(hooks, w, n + 1))
      && (k in c'.deployments <==> k in c.deployments) && (k in c'.pvcs <==> k in c.pvcs)
  {
    var k, s := BackendKey(cfg, t.opts.pvName), Settle(c, w(n).binds);
    if Skips(k in c.services, w, n) {
      t', c', m := Advance(cfg, t, s, w(n)).0, s, n + 1;
    } else {
      var t1 := Advance(cfg, t, s, w(n)).0;
      assert t1.pc.DelSvc? && Finish(cfg, t, c, w, n) == Finish(cfg, t1, s, w, n + 1);
      t', c' := ClearsService(cfg, t1, s, w, n + 1);
      m := n + 2;
    }
  }

  lemma {:induction false} ClearsService(cfg: Config, t: Job, c: Cluster, w: World, n: nat)
    returns (t': Job, c': Cluster)
    requires t.kind != Provision && t.pc.DelSvc?
    ensures Finish(cfg, t, c, w, n) == Finish(cfg, t', c', w, n + 1)
    ensures t'.kind == t.kind && t'.opts.pvName == t.opts.pvName
    ensures var k, hooks := BackendKey(cfg, t.opts.pvName), t.kind == Delete;
      && (if Deletes(hooks, w, n) then t'.pc.DelGetDep? else t'.pc == Returned(false))
      && (k in c'.services <==> k in c.services && !Clears(hooks, w, n))
      && (k in c'.deployments <==> k in c.deployments) && (k in c'.pvcs <==> k in c.pvcs)
  {
    var r := Advance(cfg, t, Settle(c, w(n).binds), w(n));
    t', c' := r.0, r.1;
  }

  /** The deletion by its read of the Deployment: where it goes on, and with what. */
  lemma {:induction false} LeavesDeployment(cfg: Config, t: Job, c: Cluster, w: World, n: nat)
    returns (t': Job, c': Cluster, m: nat)
    requires t.kind != Provision && t.pc.DelGetDep?
    ensures Finish(cfg, t, c, w, n) == Finish(cfg, t', c', w, m)
    ensures t'.kind == t.kind && t'.opts.pvName == t.opts.pvName
    ensures var k, hooks := BackendKey(cfg, t.opts.pvName), t.kind == Delete; var present := k in c.deployments;
      && (if Past(present, hooks, w, n) then t'.pc.DelGetPvc? && m == Next(present, w, n) else t'.pc == Returned(false))
      && (k in c'.deployments <==> present && !Clears(hooks, w, n + 1))
      && (k in c'.services <==> k in c.services) && (k in c'.pvcs <==> k in c.pvcs)
  {
    var k, s := BackendKey(cfg, t.opts.pvName), Settle(c, w(n).binds);
    if Skips(k in c.deployments, w, n) {
      t', c', m := Advance(cfg, t, s, w(n)).0, s, n + 1;
    } else {
      var t1 := Advance(cfg, t, s, w(n)).0;
      assert t1.pc.DelDep? && Finish(cfg, t, c, w, n) == Finish(cfg, t1, s, w, n + 1);
      t', c' := ClearsDeployment(cfg, t1, s, w, n + 1);
      m := n + 2;
    }
  }

  lemma {:induction false} ClearsDeployment(cfg: Config, t: Job, c: Cluster, w: World, n: nat)
    returns (t': Job, c': Cluster)
    requires t.kind != Provision && t.pc.DelDep?
    ensures Finish(cfg, t, c, w, n) == Finish(cfg, t', c', w, n + 1)
    ensures t'.kind == t.kind && t'.opts.pvName == t.opts.pvName
    ensures var k, hooks := BackendKey(cfg, t.opts.pvName), t.kind == Delete;
      && (if Deletes(hooks, w, n) then t'.pc.DelGetPvc? else t'.pc == Returned(false))
      && (k in c'.deployments <==> k in c.deployments && !Clears(hooks, w, n))
      && (k in c'.services <==> k in c.services) && (k in c'.pvcs <==> k in c.pvcs)
  {
    var r := Advance(cfg, t, Settle(c, w(n).binds), w(n));
    t', c' := r.0, r.1;
  }

  /** The deletion by its read of the backend claim: where it goes on, and with what. */
  lemma {:induction false} LeavesClaim(cfg: Config, t: Job, c: Cluster, w: World, n: nat)
    returns (t': Job, c': Cluster, m: nat)
    requires t.kind != Provision && t.pc.DelGetPvc?
    ensures Finish(cfg, t, c, w, n) == Finish(cfg, t', c', w, m)
    ensures t'.kind == t.kind && t'.opts.pvName == t.opts.pvName
    ensures var k, hooks := BackendKey(cfg, t.opts.pvName), t.kind == Delete; var present := k in c.pvcs;
      && (if !Past(present, hooks, w, n) then t'.pc == Returned(false)
          else t'.pc == (if hooks then PvHook else Returned(true)) && m == Next(present, w, n))
      && (k in c'.pvcs <==> present && !Clears(hooks, w, n + 1))
      && (k in c'.services <==> k in c.services) && (k in c'.deployments <==> k in c.deployments)
  {
    var k, s := BackendKey(cfg, t.opts.pvName), Settle(c, w(n).binds);
    if Skips(k in c.pvcs, w, n) {
      t', c', m := Advance(cfg, t, s, w(n)).0, s, n + 1;
    } else {
      var t1 := Advance(cfg, t, s, w(n)).0;
      assert t1.pc.DelPvc? && Finish(cfg, t, c, w, n) == Finish(cfg, t1, s, w, n + 1);
      t', c' := ClearsClaim(cfg, t1, s, w, n + 1);
      m := n + 2;
    }
  }

  lemma {:induction false} ClearsClaim(cfg: Config, t: Job, c: Cluster, w: World, n: nat) returns (t': Job, c': Cluster)
    requires t.kind != Provision && t.pc.DelPvc?
    ensures Finish(cfg, t, c, w, n) == Finish(cfg, t', c', w, n + 1)
    ensures t'.kind == t.kind && t'.opts.pvName == t.opts.pvName
    ensures var k, hooks := BackendKey(cfg, t.opts.pvName), t.kind == Delete;
      && t'.pc == (if !Deletes(hooks, w, n) then Returned(false) else if hooks then PvHook else Returned(true))
      && (k in c'.pvcs <==> k in c.pvcs && !Clears(hooks, w, n))
      && (k in c'.services <==> k in c.services) && (k in c'.deployments <==> k in c.deployments)
  {
    var r := Advance(cfg, t, Settle(c, w(n).binds), w(n));
    t', c' := r.0, r.1;
  }

  /** What a deletion that reads the Deployment in call number n comes to. */
  ghost predicate DeploymentDeleted(v: View, hooks: bool, k: Key, c: Cluster, end: End, w: World, n: nat) {
    && (end.job.pc == Returned(true) <==> FromDeploymentRead(v, hooks, w, n))
    && (k in end.c.services <==> k in c.services)
    && (k in end.c.deployments <==> (v.deployment && !Clears(hooks, w, n + 1)))
    && (k in end.c.pvcs <==> v.pvc && !ClearsClaimFrom(v.deployment, hooks, w, n))
  }

  /** What a deletion that reads the Service in call number n comes to. */
  ghost predicate ServiceDeleted(v: View, hooks: bool, k: Key, end: End, w: World, n: nat) {
    var past, m := Past(v.service, hooks, w, n), Next(v.service, w, n);
    && (end.job.pc == Returned(true) <==> past && FromDeploymentRead(v, hooks, w, m))
    && (k in end.c.services <==> v.service && !Clears(hooks, w, n + 1))
    && (k in end.c.deployments <==> v.deployment && !(past && Clears(hooks, w, m + 1)))
    && (k in end.c.pvcs <==> v.pvc && !(past && ClearsClaimFrom(v.deployment, hooks, w, m)))
  }

  lemma {:induction false} DeleteServiceOutcome(cfg: Config, t: Job, c: Cluster, w: World, n: nat)
    requires t.kind != Provision && t.pc.DelGetSvc?
    ensures ServiceDeleted(ViewOf(cfg, c, t.opts.pvName), t.kind == Delete, BackendKey(cfg, t.opts.pvName),
              Finish(cfg, t, c, w, n), w, n)
  {
    var t', c', m := LeavesService(cfg, t, c, w, n);
    var v, k, hooks := ViewOf(cfg, c, t.opts.pvName), BackendKey(cfg, t.opts.pvName), t.kind == Delete;
    var end := Finish(cfg, t', c', w, m);
    if Past(v.service, hooks, w, n) {
      DeleteDeploymentOutcome(cfg, t', c', w, m);
      PastTheService(v, ViewOf(cfg, c', t.opts.pvName), hooks, k, c', end, w, n, m);
    } else {
      assert end == End(t', c', m);
    }
  }

  lemma {:induction false} PastTheService(
    v: View, u: View, hooks: bool, k: Key, c': Cluster, end: End, w: World, n: nat, m: nat)
    requires u.deployment == v.deployment && u.pvc == v.pvc
    requires m == Next(v.service, w, n) && Past(v.service, hooks, w, n)
    requires k in c'.services <==> v.service && !Clears(hooks, w, n + 1)
    requires DeploymentDeleted(u, hooks, k, c', end, w, m)
    ensures ServiceDeleted(v, hooks, k, end, w, n)
  {
  }

  lemma {:induction false} DeleteDeploymentOutcome(cfg: Config, t: Job, c: Cluster, w: World, n: nat)
    requires t.kind != Provision && t.pc.DelGetDep?
    ensures DeploymentDeleted(ViewOf(cfg, c, t.opts.pvName), t.kind == Delete, BackendKey(cfg, t.opts.pvName), c,
              Finish(cfg, t, c, w, n), w, n)
  {
    var t', c', m := LeavesDeployment(cfg, t, c, w, n);
    var v, k, hooks := ViewOf(cfg, c, t.opts.pvName), BackendKey(cfg, t.opts.pvName), t.kind == Delete;
    var end := Finish(cfg, t', c', w, m);
    if Past(v.deployment, hooks, w, n) {
      DeleteClaimOutcome(cfg, t', c', w, m);
      PastTheDeployment(v, ViewOf(cfg, c', t.opts.pvName), hooks, k, c, c', end, w, n, m);
    } else {
      assert end == End(t', c', m);
    }
  }

  lemma {:induction false} PastTheDeployment(
    v: View, u: View, hooks: bool, k: Key, c: Cluster, c': Cluster, end: End, w: World, n: nat, m: nat)
    requires u.pvc == v.pvc && m == Next(v.deployment, w, n) && Past(v.deployment, hooks, w, n)
    requires k in c'.services <==> k in c.services
    requires k in c'.deployments <==> v.deployment && !Clears(hooks, w, n + 1)
    requires ClaimDeleted(u, hooks, k, c', end, w, m)
    ensures DeploymentDeleted(v, hooks, k, c, end, w, n)
  {
  }

  /** What a deletion that reads the backend claim in call number n comes to. */
  ghost predicate ClaimDeleted(v: View, hooks: bool, k: Key, c: Cluster, end: End, w: World, n: nat) {
    && (end.job.pc == Returned(true) <==> FromClaimRead(v, hooks, w, n))
    && (k in end.c.services <==> k in c.services)
    && (k in end.c.deployments <==> k in c.deployments)
    && (k in end.c.pvcs <==> (v.pvc && !Clears(hooks, w, n + 1)))
  }

  lemma {:induction false} DeleteClaimOutcome(cfg: Config, t: Job, c: Cluster, w: World, n: nat)
    requires t.kind != Provision && t.pc.DelGetPvc?
    ensures ClaimDeleted(ViewOf(cfg, c, t.opts.pvName), t.kind == Delete, BackendKey(cfg, t.opts.pvName), c,
              Finish(cfg, t, c, w, n), w, n)
  {
    var t', c', m := LeavesClaim(cfg, t, c, w, n);
    LastHookOutcome(cfg, t', c', w, m);
  }

  lemma {:induction false} LastHookOutcome(cfg: Config, t: Job, c: Cluster, w: World, n: nat)
    requires t.pc.PvHook? || t.pc.Returned?
    ensures var end, k := Finish(cfg, t, c, w, n), BackendKey(cfg, t.opts.pvName);
      && end.job.pc == (if t.pc.Returned? then t.pc else Returned(HookPasses(w, n)))
      && end.c.services == c.services && end.c.deployments == c.deployments && end.c.pvcs.Keys == c.pvcs.Keys
  {
    if t.pc.PvHook? {
      var s := Settle(c, w(n).binds);
      assert Finish(cfg, t, c, w, n) == End(Goto(t, Returned(HookPasses(w, n))), s, n + 1);
    }
  }
}
