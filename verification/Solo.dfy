/** A job run to its end with no other activity: only API failures, hooks and storage binding intervene. */
module Solo {
  import opened Kube
  import opened ServerJob

  /** The weather of the n-th step since the process started. */
  type World = nat -> Weather

  datatype End = End(job: Job, c: Cluster, n: nat)

  function Finish(cfg: Config, t: Job, c: Cluster, w: World, n: nat): End
    decreases Rank(t)
  {
    if t.pc.Returned? then End(t, c, n) else
    var settled := Settle(c, w(n).binds);
    JobTerminates(cfg, t, settled, w(n));
    var (t', c') := Advance(cfg, t, settled, w(n));
    Finish(cfg, t', c', w, n + 1)
  }

  /** The cluster a job leaves behind when it is stopped after j steps, for instance by a crash. */
  function StoppedAfter(cfg: Config, t: Job, c: Cluster, w: World, n: nat, j: nat): Cluster
    decreases j
  {
    if j == 0 || t.pc.Returned? then c else
    var (t', c') := Advance(cfg, t, Settle(c, w(n).binds), w(n));
    StoppedAfter(cfg, t', c', w, n + 1, j - 1)
  }

  function StartProvision(pv: string, uid: string, claim: Key, ticks: nat): Job {
    Job(Provision, ProvisionOpts(pv, uid, claim, ticks), Configure)
  }

  function StartDelete(pv: string): Job {
    Job(Delete, DeleteOpts(pv), DelGetSvc)
  }

  /** The cluster in which pv's three objects exist: those that were there are kept, the others are as built
      from the options, and the backend claim is bound. */
  function Provisioned(cfg: Config, c: Cluster, o: Opts, a: Weather): Cluster
    requires a.hook.Accepted?
  {
    var k := BackendKey(cfg, o.pvName);
    Cluster(
      c.pvcs[k := (if k in c.pvcs then c.pvcs[k] else NewPvc(o, a)).(bound := true)],
      c.deployments[k := if k in c.deployments then c.deployments[k]
                         else NewDeployment(o.(backendPvcName := k.1), a)],
      c.services[k := if k in c.services then c.services[k] else NewService(o.(deploymentName := k.1), a)],
      c.pvs)
  }

  function Unprovisioned(cfg: Config, c: Cluster, pv: string): Cluster {
    var k := BackendKey(cfg, pv);
    Cluster(c.pvcs - {k}, c.deployments - {k}, c.services - {k}, c.pvs)
  }

  /** The worlds of several runs differ in what fails and when, but the server assigns the same UID and IP,
      hooks that succeed yield the same metadata, and storage binds only pv's backend claim. */
  ghost predicate Agrees(cfg: Config, w: World, o: Opts, a: Weather) {
    && a.hook.Accepted?
    && forall n: nat ::
         && w(n).uid == a.uid && w(n).ip == a.ip && (w(n).hook.Accepted? ==> w(n).hook == a.hook)
         && w(n).binds <= {BackendKey(cfg, o.pvName)}
  }

  /** Nothing fails, and storage binds the backend claim at once. */
  ghost predicate Calm(cfg: Config, w: World, pv: string) {
    forall n: nat :: w(n).fault == Fine && w(n).hook.Accepted? && w(n).binds == {BackendKey(cfg, pv)}
  }

  /** `o` is what a call made with options `base` has made of them. */
  predicate Continues(o: Opts, base: Opts) {
    && o.pvName == base.pvName && o.pvcName == base.pvcName && o.pvcUID == base.pvcUID
    && o.pvcNamespace == base.pvcNamespace && o.ticks == base.ticks
  }

  /** A creating job run alone keeps what it has built. */
  predicate Built(cfg: Config, t: Job, c: Cluster, base: Opts) {
    var k := BackendKey(cfg, base.pvName);
    && t.kind == Provision && Continues(t.opts, base)
    && (Creating(t.pc) || t.pc == Returned(false))
    && (AfterPvc(t.pc) ==> k in c.pvcs && t.opts.backendPvcName == k.1)
    && (AfterDep(t.pc) ==> k in c.deployments && t.opts.deploymentName == k.1)
    && (AfterWait(t.pc) ==> k in c.pvcs && c.pvcs[k].bound)
    && (AfterSvc(t.pc) ==> k in c.services && t.opts.serviceName == k.1)
  }

  /** Whatever fails or gets bound, a creating job keeps what it has built; one that ends without error has
      all three objects, the claim bound. */
  lemma {:induction false} EndsBuilt(cfg: Config, t: Job, c: Cluster, base: Opts, w: World, n: nat)
    requires Built(cfg, t, c, base)
    ensures var end := Finish(cfg, t, c, w, n); Built(cfg, end.job, end.c, base)
    decreases Rank(t)
  {
    if !t.pc.Returned? {
      var settled := Settle(c, w(n).binds);
      JobTerminates(cfg, t, settled, w(n));
      BuiltStep(cfg, t, settled, base, w(n));
      var (t', c') := Advance(cfg, t, settled, w(n));
      EndsBuilt(cfg, t', c', base, w, n + 1);
    }
  }

  lemma {:induction false} BuiltStep(cfg: Config, t: Job, c: Cluster, base: Opts, w: Weather)
    requires Built(cfg, t, c, base)
    ensures var (t', c') := Advance(cfg, t, c, w); Built(cfg, t', c', base)
  {
    if t.pc.CreatePvc? || t.pc.CreateDep? || t.pc.CreateSvc? {
      BuiltByWriting(cfg, t, c, base, w);
    } else {
      BuiltByReading(cfg, t, c, base, w);
    }
  }

  lemma {:induction false} BuiltByReading(cfg: Config, t: Job, c: Cluster, base: Opts, w: Weather)
    requires Built(cfg, t, c, base) && !(t.pc.CreatePvc? || t.pc.CreateDep? || t.pc.CreateSvc?)
    ensures var (t', c') := Advance(cfg, t, c, w); c' == c && Built(cfg, t', c', base)
  {
  }

  lemma {:induction false} BuiltByWriting(cfg: Config, t: Job, c: Cluster, base: Opts, w: Weather)
    requires Built(cfg, t, c, base) && (t.pc.CreatePvc? || t.pc.CreateDep? || t.pc.CreateSvc?)
    ensures var (t', c') := Advance(cfg, t, c, w); Built(cfg, t', c', base)
  {
  }

  lemma {:induction false} SettleStays(cfg: Config, t: Job, c: Cluster, base: Opts, a: Weather, binds: set<Key>)
    requires a.hook.Accepted? && Built(cfg, t, c, base) && binds <= {BackendKey(cfg, base.pvName)}
    ensures Built(cfg, t, Settle(c, binds), base)
    ensures Provisioned(cfg, Settle(c, binds), base, a) == Provisioned(cfg, c, base, a)
  {
    var k := BackendKey(cfg, base.pvName);
    assert Provisioned(cfg, Settle(c, binds), base, a).pvcs == Provisioned(cfg, c, base, a).pvcs;
  }

  /** A step of a creating job does not change where the cluster is heading. */
  lemma {:induction false} StepStays(cfg: Config, t: Job, c: Cluster, base: Opts, a: Weather, w: Weather)
    requires a.hook.Accepted? && Built(cfg, t, c, base)
    requires w.uid == a.uid && w.ip == a.ip && (w.hook.Accepted? ==> w.hook == a.hook)
    ensures var (t', c') := Advance(cfg, t, c, w);
      Built(cfg, t', c', base) && Provisioned(cfg, c', base, a) == Provisioned(cfg, c, base, a)
  {
    if t.pc.CreatePvc? {
      PvcStepStays(cfg, t, c, base, a, w);
    } else if t.pc.CreateDep? {
      DeploymentStepStays(cfg, t, c, base, a, w);
    } else if t.pc.CreateSvc? {
      ServiceStepStays(cfg, t, c, base, a, w);
    } else {
      BuiltByReading(cfg, t, c, base, w);
    }
  }

  lemma {:induction false} PvcStepStays(cfg: Config, t: Job, c: Cluster, base: Opts, a: Weather, w: Weather)
    requires a.hook.Accepted? && Built(cfg, t, c, base) && t.pc.CreatePvc?
    requires w.uid == a.uid && w.ip == a.ip && (w.hook.Accepted? ==> w.hook == a.hook)
    ensures var (t', c') := Advance(cfg, t, c, w);
      Built(cfg, t', c', base) && Provisioned(cfg, c', base, a) == Provisioned(cfg, c, base, a)
  {
    if w.hook.Accepted? {
      assert NewPvc(t.opts, w) == NewPvc(base, a);
      assert Provisioned(cfg, Advance(cfg, t, c, w).1, base, a).pvcs == Provisioned(cfg, c, base, a).pvcs;
    }
  }

  lemma {:induction false} DeploymentStepStays(cfg: Config, t: Job, c: Cluster, base: Opts, a: Weather, w: Weather)
    requires a.hook.Accepted? && Built(cfg, t, c, base) && t.pc.CreateDep?
    requires w.uid == a.uid && w.ip == a.ip && (w.hook.Accepted? ==> w.hook == a.hook)
    ensures var (t', c') := Advance(cfg, t, c, w);
      Built(cfg, t', c', base) && Provisioned(cfg, c', base, a) == Provisioned(cfg, c, base, a)
  {
    if w.hook.Accepted? {
      assert NewDeployment(t.opts, w) ==
             NewDeployment(base.(backendPvcName := BackendKey(cfg, base.pvName).1), a);
      assert Provisioned(cfg, Advance(cfg, t, c, w).1, base, a).deployments ==
             Provisioned(cfg, c, base, a).deployments;
    }
  }

  lemma {:induction false} ServiceStepStays(cfg: Config, t: Job, c: Cluster, base: Opts, a: Weather, w: Weather)
    requires a.hook.Accepted? && Built(cfg, t, c, base) && t.pc.CreateSvc?
    requires w.uid == a.uid && w.ip == a.ip && (w.hook.Accepted? ==> w.hook == a.hook)
    ensures var (t', c') := Advance(cfg, t, c, w);
      Built(cfg, t', c', base) && Provisioned(cfg, c', base, a) == Provisioned(cfg, c, base, a)
  {
    if w.hook.Accepted? {
      assert Provisioned(cfg, Advance(cfg, t, c, w).1, base, a).services ==
             Provisioned(cfg, c, base, a).services;
    }
  }

  lemma {:induction false} StoppedHeadsTheSameWay(
    cfg: Config, t: Job, c: Cluster, base: Opts, a: Weather, w: World, n: nat, j: nat)
    requires Agrees(cfg, w, base, a) && Built(cfg, t, c, base)
    ensures Provisioned(cfg, StoppedAfter(cfg, t, c, w, n, j), base, a) == Provisioned(cfg, c, base, a)
    decreases j
  {
    if j > 0 && !t.pc.Returned? {
      var settled := Settle(c, w(n).binds);
      SettleStays(cfg, t, c, base, a, w(n).binds);
      StepStays(cfg, t, settled, base, a, w(n));
      var (t', c') := Advance(cfg, t, settled, w(n));
      StoppedHeadsTheSameWay(cfg, t', c', base, a, w, n + 1, j - 1);
    }
  }

  /** A job that ends without error has reached the cluster it was heading for. */
  lemma {:induction false} EndsProvisioned(
    cfg: Config, t: Job, c: Cluster, base: Opts, a: Weather, w: World, n: nat)
    requires Agrees(cfg, w, base, a) && Built(cfg, t, c, base)
    ensures var end := Finish(cfg, t, c, w, n);
      Built(cfg, end.job, end.c, base)
      && (end.job.pc == Returned(true) ==> end.c == Provisioned(cfg, c, base, a))
    decreases Rank(t)
  {
    if t.pc.Returned? {
      if t.pc.ok {
        var k, p := BackendKey(cfg, base.pvName), Provisioned(cfg, c, base, a);
        assert p.pvcs == c.pvcs && p.deployments == c.deployments && p.services == c.services;
      }
    } else {
      var settled := Settle(c, w(n).binds);
      SettleStays(cfg, t, c, base, a, w(n).binds);
      StepStays(cfg, t, settled, base, a, w(n));
      JobTerminates(cfg, t, settled, w(n));
      var (t', c') := Advance(cfg, t, settled, w(n));
      EndsProvisioned(cfg, t', c', base, a, w, n + 1);
    }
  }

  /** A creating job in a calm world, with at least one tick to see the claim bound, does not fail. */
  lemma {:induction false} CalmSucceeds(cfg: Config, t: Job, c: Cluster, base: Opts, w: World, n: nat)
    requires Calm(cfg, w, base.pvName) && base.ticks > 0
    requires Built(cfg, t, c, base) && t.pc != Returned(false)
    requires t.pc.CreatePvc? ==> BackendKey(cfg, base.pvName) !in c.pvcs
    requires t.pc.CreateDep? ==> BackendKey(cfg, base.pvName) !in c.deployments
    requires t.pc.CreateSvc? ==> BackendKey(cfg, base.pvName) !in c.services
    requires t.pc.WaitBound? ==> t.pc.left > 0
    ensures Finish(cfg, t, c, w, n).job.pc == Returned(true)
    decreases Rank(t)
  {
    if !t.pc.Returned? {
      var settled := Settle(c, w(n).binds);
      BuiltStep(cfg, t, settled, base, w(n));
      JobTerminates(cfg, t, settled, w(n));
      CalmStep(cfg, t, c, base, w(n));
      var (t', c') := Advance(cfg, t, settled, w(n));
      CalmSucceeds(cfg, t', c', base, w, n + 1);
    }
  }

  lemma {:induction false} CalmStep(cfg: Config, t: Job, c: Cluster, base: Opts, w: Weather)
    requires w.fault == Fine && w.hook.Accepted? && w.binds == {BackendKey(cfg, base.pvName)} && base.ticks > 0
    requires Built(cfg, t, c, base) && !t.pc.Returned?
    requires t.pc.CreatePvc? ==> BackendKey(cfg, base.pvName) !in c.pvcs
    requires t.pc.CreateDep? ==> BackendKey(cfg, base.pvName) !in c.deployments
    requires t.pc.CreateSvc? ==> BackendKey(cfg, base.pvName) !in c.services
    requires t.pc.WaitBound? ==> t.pc.left > 0
    ensures var (t', c') := Advance(cfg, t, Settle(c, w.binds), w); var k := BackendKey(cfg, base.pvName);
      && t'.pc != Returned(false)
      && (t'.pc.CreatePvc? ==> k !in c'.pvcs)
      && (t'.pc.CreateDep? ==> k !in c'.deployments)
      && (t'.pc.CreateSvc? ==> k !in c'.services)
      && (t'.pc.WaitBound? ==> t'.pc.left > 0)
  {
  }

  /** A run cut short: in world w, from step n, after j steps. */
  datatype Stop = Stop(w: World, n: nat, j: nat)

  /** The cluster after a job has been started over and over and stopped each time. */
  function AfterStops(cfg: Config, t: Job, c: Cluster, stops: seq<Stop>): Cluster
    decreases |stops|
  {
    if stops == [] then c else
    AfterStops(cfg, t, StoppedAfter(cfg, t, c, stops[0].w, stops[0].n, stops[0].j), stops[1..])
  }

  lemma {:induction false} StopsHeadTheSameWay(
    cfg: Config, t: Job, c: Cluster, a: Weather, stops: seq<Stop>)
    requires t.kind == Provision && t.pc.Configure?
    requires a.hook.Accepted? && forall i | 0 <= i < |stops| :: Agrees(cfg, stops[i].w, t.opts, a)
    ensures Provisioned(cfg, AfterStops(cfg, t, c, stops), t.opts, a) == Provisioned(cfg, c, t.opts, a)
    decreases |stops|
  {
    if stops != [] {
      StoppedHeadsTheSameWay(cfg, t, c, t.opts, a, stops[0].w, stops[0].n, stops[0].j);
      StopsHeadTheSameWay(
        cfg, t, StoppedAfter(cfg, t, c, stops[0].w, stops[0].n, stops[0].j), a, stops[1..]);
    }
  }

  /** Where the server assigns the same UID and IP and hooks yield the same metadata in all runs, creation that
      succeeds after any number of stops ends in the very cluster of an uninterrupted run that succeeds. */
  lemma {:induction false} ResumeExactly(
    cfg: Config, t: Job, c: Cluster, a: Weather, stops: seq<Stop>, w2: World, n2: nat, w3: World, n3: nat)
    requires t.kind == Provision && t.pc.Configure?
    requires forall i | 0 <= i < |stops| :: Agrees(cfg, stops[i].w, t.opts, a)
    requires Agrees(cfg, w2, t.opts, a) && Agrees(cfg, w3, t.opts, a)
    ensures var resumed, straight := Finish(cfg, t, AfterStops(cfg, t, c, stops), w2, n2), Finish(cfg, t, c, w3, n3);
      resumed.job.pc == Returned(true) && straight.job.pc == Returned(true) ==> resumed.c == straight.c
  {
    var mid := AfterStops(cfg, t, c, stops);
    StopsHeadTheSameWay(cfg, t, c, a, stops);
    EndsProvisioned(cfg, t, mid, t.opts, a, w2, n2);
    EndsProvisioned(cfg, t, c, t.opts, a, w3, n3);
  }

  /** The same objects, but for the UID, cluster IP and hook metadata of pv's. */
  predicate Alike(cfg: Config, c: Cluster, d: Cluster, pv: string) {
    Unprovisioned(cfg, c, pv) == Unprovisioned(cfg, d, pv) && AlikeAt(c, d, BackendKey(cfg, pv))
  }

  predicate AlikeAt(c: Cluster, d: Cluster, k: Key) {
    && (k in c.pvcs <==> k in d.pvcs)
    && (k in c.pvcs ==> c.pvcs[k].labels == d.pvcs[k].labels && c.pvcs[k].bound == d.pvcs[k].bound)
    && (k in c.deployments <==> k in d.deployments)
    && (k in c.deployments ==> c.deployments[k].labels == d.deployments[k].labels
                               && c.deployments[k].claimName == d.deployments[k].claimName)
    && (k in c.services <==> k in d.services)
    && (k in c.services ==> c.services[k].selector == d.services[k].selector)
  }

  /** Jobs that differ at most in the address they have read. */
  predicate AlikeJobs(t: Job, u: Job) {
    t.kind == u.kind && t.pc == u.pc && t.opts.(address := "") == u.opts.(address := "")
  }

  /** The same weather, with nothing particular assigned. */
  function Plain(w: Weather): Weather {
    Weather(w.fault, if w.hook.Accepted? then Accepted(Meta(map[], [])) else Rejected, "", "", w.binds)
  }

  function PlainWorld(w: World): World {
    (n: nat) => Plain(w(n))
  }

  ghost predicate BindsOnly(w: World, k: Key) {
    forall n: nat :: w(n).binds <= {k}
  }

  lemma {:induction false} AlikeSettled(cfg: Config, c: Cluster, d: Cluster, pv: string, binds: set<Key>)
    requires Alike(cfg, c, d, pv) && binds <= {BackendKey(cfg, pv)}
    ensures Alike(cfg, Settle(c, binds), Settle(d, binds), pv)
  {
    assert Unprovisioned(cfg, Settle(c, binds), pv).pvcs == Unprovisioned(cfg, c, pv).pvcs;
    assert Unprovisioned(cfg, Settle(d, binds), pv).pvcs == Unprovisioned(cfg, d, pv).pvcs;
  }

  /** A job touches no objects but its PV's. */
  lemma {:induction false} TouchesOnlyOwn(cfg: Config, t: Job, c: Cluster, w: Weather)
    ensures Unprovisioned(cfg, Advance(cfg, t, c, w).1, t.opts.pvName) == Unprovisioned(cfg, c, t.opts.pvName)
  {
    if Writes(t.pc) {
      WritesOnlyOwn(cfg, t, c, w);
    }
  }

  lemma {:induction false} WritesOnlyOwn(cfg: Config, t: Job, c: Cluster, w: Weather)
    requires Writes(t.pc)
    ensures Unprovisioned(cfg, Advance(cfg, t, c, w).1, t.opts.pvName) == Unprovisioned(cfg, c, t.opts.pvName)
  {
    var k := BackendKey(cfg, t.opts.pvName);
    RemoveOnlyAt(c.pvcs, k, w.fault);
    RemoveOnlyAt(c.deployments, k, w.fault);
    RemoveOnlyAt(c.services, k, w.fault);
    if w.hook.Accepted? {
      CreateOnlyAt(c.pvcs, k, NewPvc(t.opts, w), w.fault);
      CreateOnlyAt(c.deployments, k, NewDeployment(t.opts, w), w.fault);
      CreateOnlyAt(c.services, k, NewService(t.opts, w), w.fault);
    }
  }

  lemma {:induction false} CreateOnlyAt<T>(objects: map<Key, T>, k: Key, obj: T, f: Fault)
    ensures Create(objects, k, obj, f).0 - {k} == objects - {k}
  {
  }

  lemma {:induction false} RemoveOnlyAt<T>(objects: map<Key, T>, k: Key, f: Fault)
    ensures Remove(objects, k, f).0 - {k} == objects - {k}
  {
    assert objects - {k} - {k} == objects - {k};
  }

  /** What the server assigns makes no difference to the course of a creating job. */
  lemma {:induction false} AlikeStep(cfg: Config, t: Job, u: Job, c: Cluster, d: Cluster, base: Opts, w: Weather)
    requires AlikeJobs(t, u) && Alike(cfg, c, d, base.pvName) && Built(cfg, t, c, base)
    ensures var (t', c') := Advance(cfg, t, c, w); var (u', d') := Advance(cfg, u, d, Plain(w));
      AlikeJobs(t', u') && Alike(cfg, c', d', base.pvName)
  {
    TouchesOnlyOwn(cfg, t, c, w);
    TouchesOnlyOwn(cfg, u, d, Plain(w));
    if t.pc.CreatePvc? {
      AlikePvc(cfg, t, u, c, d, w);
    } else if t.pc.CreateDep? {
      AlikeDeployment(cfg, t, u, c, d, w);
    } else if t.pc.CreateSvc? {
      AlikeService(cfg, t, u, c, d, w);
    } else {
      AlikeRead(cfg, t, u, c, d, base, w);
    }
  }

  lemma {:induction false} AlikeRead(cfg: Config, t: Job, u: Job, c: Cluster, d: Cluster, base: Opts, w: Weather)
    requires AlikeJobs(t, u) && AlikeAt(c, d, BackendKey(cfg, base.pvName)) && Built(cfg, t, c, base)
    requires !Writes(t.pc)
    ensures var (t', c') := Advance(cfg, t, c, w); var (u', d') := Advance(cfg, u, d, Plain(w));
      AlikeJobs(t', u') && c' == c && d' == d
  {
    if AfterWait(t.pc) {
      AlikeReadLate(cfg, t, u, c, d, base, w);
    } else {
      AlikeReadEarly(cfg, t, u, c, d, base, w);
    }
  }

  lemma {:induction false} AlikeReadEarly(cfg: Config, t: Job, u: Job, c: Cluster, d: Cluster, base: Opts, w: Weather)
    requires AlikeJobs(t, u) && AlikeAt(c, d, BackendKey(cfg, base.pvName)) && Built(cfg, t, c, base)
    requires !Writes(t.pc) && !AfterWait(t.pc)
    ensures var (t', c') := Advance(cfg, t, c, w); var (u', d') := Advance(cfg, u, d, Plain(w));
      AlikeJobs(t', u') && c' == c && d' == d
  {
  }

  lemma {:induction false} AlikeReadLate(cfg: Config, t: Job, u: Job, c: Cluster, d: Cluster, base: Opts, w: Weather)
    requires AlikeJobs(t, u) && AlikeAt(c, d, BackendKey(cfg, base.pvName)) && Built(cfg, t, c, base)
    requires !Writes(t.pc) && AfterWait(t.pc)
    ensures var (t', c') := Advance(cfg, t, c, w); var (u', d') := Advance(cfg, u, d, Plain(w));
      AlikeJobs(t', u') && c' == c && d' == d
  {
  }

  lemma {:induction false} AlikePvc(cfg: Config, t: Job, u: Job, c: Cluster, d: Cluster, w: Weather)
    requires AlikeJobs(t, u) && AlikeAt(c, d, BackendKey(cfg, t.opts.pvName)) && t.pc.CreatePvc?
    ensures var (t', c') := Advance(cfg, t, c, w); var (u', d') := Advance(cfg, u, d, Plain(w));
      AlikeJobs(t', u') && AlikeAt(c', d', BackendKey(cfg, t.opts.pvName))
  {
    if w.hook.Accepted? {
      assert NewPvc(t.opts, w).labels == NewPvc(u.opts, Plain(w)).labels;
    }
  }

  lemma {:induction false} AlikeDeployment(cfg: Config, t: Job, u: Job, c: Cluster, d: Cluster, w: Weather)
    requires AlikeJobs(t, u) && AlikeAt(c, d, BackendKey(cfg, t.opts.pvName)) && t.pc.CreateDep?
    ensures var (t', c') := Advance(cfg, t, c, w); var (u', d') := Advance(cfg, u, d, Plain(w));
      AlikeJobs(t', u') && AlikeAt(c', d', BackendKey(cfg, t.opts.pvName))
  {
    if w.hook.Accepted? {
      assert NewDeployment(t.opts, w).labels == NewDeployment(u.opts, Plain(w)).labels;
    }
  }

  lemma {:induction false} AlikeService(cfg: Config, t: Job, u: Job, c: Cluster, d: Cluster, w: Weather)
    requires AlikeJobs(t, u) && AlikeAt(c, d, BackendKey(cfg, t.opts.pvName)) && t.pc.CreateSvc?
    ensures var (t', c') := Advance(cfg, t, c, w); var (u', d') := Advance(cfg, u, d, Plain(w));
      AlikeJobs(t', u') && AlikeAt(c', d', BackendKey(cfg, t.opts.pvName))
  {
    if w.hook.Accepted? {
      assert NewService(t.opts, w).selector == NewService(u.opts, Plain(w)).selector;
    }
  }

  lemma {:induction false} AlikeEnds(
    cfg: Config, t: Job, u: Job, c: Cluster, d: Cluster, base: Opts, w: World, n: nat)
    requires AlikeJobs(t, u) && Alike(cfg, c, d, base.pvName) && Built(cfg, t, c, base)
    requires BindsOnly(w, BackendKey(cfg, base.pvName))
    ensures var x, y := Finish(cfg, t, c, w, n), Finish(cfg, u, d, PlainWorld(w), n);
      x.job.pc == y.job.pc && Alike(cfg, x.c, y.c, base.pvName)
    decreases Rank(t)
  {
    if !t.pc.Returned? {
      AlikeOnce(cfg, t, u, c, d, base, w, n);
      var (t', c') := Advance(cfg, t, Settle(c, w(n).binds), w(n));
      var (u', d') := Advance(cfg, u, Settle(d, w(n).binds), Plain(w(n)));
      JobTerminates(cfg, t, Settle(c, w(n).binds), w(n));
      JobTerminates(cfg, u, Settle(d, w(n).binds), Plain(w(n)));
      AlikeEnds(cfg, t', u', c', d', base, w, n + 1);
    }
  }

  lemma {:induction false} AlikeOnce(cfg: Config, t: Job, u: Job, c: Cluster, d: Cluster, base: Opts, w: World, n: nat)
    requires AlikeJobs(t, u) && Alike(cfg, c, d, base.pvName) && Built(cfg, t, c, base)
    requires BindsOnly(w, BackendKey(cfg, base.pvName))
    ensures var (t', c') := Advance(cfg, t, Settle(c, w(n).binds), w(n));
      var (u', d') := Advance(cfg, u, Settle(d, w(n).binds), Plain(w(n)));
      AlikeJobs(t', u') && Alike(cfg, c', d', base.pvName) && Built(cfg, t', c', base)
  {
    AlikeSettled(cfg, c, d, base.pvName, w(n).binds);
    AlikeStep(cfg, t, u, Settle(c, w(n).binds), Settle(d, w(n).binds), base, w(n));
    BuiltStep(cfg, t, Settle(c, w(n).binds), base, w(n));
  }

  lemma {:induction false} AlikeStopped(
    cfg: Config, t: Job, u: Job, c: Cluster, d: Cluster, base: Opts, w: World, n: nat, j: nat)
    requires AlikeJobs(t, u) && Alike(cfg, c, d, base.pvName) && Built(cfg, t, c, base)
    requires BindsOnly(w, BackendKey(cfg, base.pvName))
    ensures Alike(cfg, StoppedAfter(cfg, t, c, w, n, j), StoppedAfter(cfg, u, d, PlainWorld(w), n, j), base.pvName)
    decreases j
  {
    if j > 0 && !t.pc.Returned? {
      AlikeOnce(cfg, t, u, c, d, base, w, n);
      var (t', c') := Advance(cfg, t, Settle(c, w(n).binds), w(n));
      var (u', d') := Advance(cfg, u, Settle(d, w(n).binds), Plain(w(n)));
      AlikeStopped(cfg, t', u', c', d', base, w, n + 1, j - 1);
    }
  }

  function PlainStop(x: Stop): Stop {
    Stop(PlainWorld(x.w), x.n, x.j)
  }

  function PlainStops(stops: seq<Stop>): seq<Stop> {
    seq(|stops|, i requires 0 <= i < |stops| => PlainStop(stops[i]))
  }

  lemma {:induction false} AlikeAfterStops(cfg: Config, t: Job, c: Cluster, d: Cluster, stops: seq<Stop>)
    requires t.kind == Provision && t.pc.Configure? && Alike(cfg, c, d, t.opts.pvName)
    requires forall i | 0 <= i < |stops| :: BindsOnly(stops[i].w, BackendKey(cfg, t.opts.pvName))
    ensures Alike(cfg, AfterStops(cfg, t, c, stops), AfterStops(cfg, t, d, PlainStops(stops)), t.opts.pvName)
    decreases |stops|
  {
    if stops != [] {
      var x, plain := stops[0], PlainStops(stops);
      AlikeStopped(cfg, t, t, c, d, t.opts, x.w, x.n, x.j);
      AlikeAfterStops(cfg, t, StoppedAfter(cfg, t, c, x.w, x.n, x.j),
        StoppedAfter(cfg, t, d, PlainWorld(x.w), x.n, x.j), stops[1..]);
      assert plain[0] == PlainStop(x) && plain[1..] == PlainStops(stops[1..]);
    }
  }

  /** createNFSServer stopped anywhere and started again any number of times, by any failures or crashes: if it
      ends without error then, it ends in the cluster of one uninterrupted run that ends without error. */
  lemma {:induction false} CrashResumeUnlessItFails(
    cfg: Config, t: Job, c: Cluster, stops: seq<Stop>, w2: World, n2: nat, w3: World, n3: nat)
    requires t.kind == Provision && t.pc.Configure?
    requires forall i | 0 <= i < |stops| :: BindsOnly(stops[i].w, BackendKey(cfg, t.opts.pvName))
    requires BindsOnly(w2, BackendKey(cfg, t.opts.pvName)) && BindsOnly(w3, BackendKey(cfg, t.opts.pvName))
    ensures var resumed, straight := Finish(cfg, t, AfterStops(cfg, t, c, stops), w2, n2), Finish(cfg, t, c, w3, n3);
      resumed.job.pc == Returned(true) && straight.job.pc == Returned(true)
      ==> Alike(cfg, resumed.c, straight.c, t.opts.pvName)
  {
    var mid, plain := AfterStops(cfg, t, c, stops), AfterStops(cfg, t, c, PlainStops(stops));
    AlikeAfterStops(cfg, t, c, c, stops);
    AlikeEnds(cfg, t, t, mid, plain, t.opts, w2, n2);
    AlikeEnds(cfg, t, t, c, c, t.opts, w3, n3);
    ResumeExactly(cfg, t, c, CALM, PlainStops(stops), PlainWorld(w2), n2, PlainWorld(w3), n3);
  }

  /** And it does end without error once nothing fails any more and there is a tick to see the claim bound. */
  lemma {:induction false} CrashResume(
    cfg: Config, t: Job, c: Cluster, stops: seq<Stop>, w2: World, n2: nat, w3: World, n3: nat)
    requires t.kind == Provision && t.pc.Configure? && t.opts.ticks > 0
    requires forall i | 0 <= i < |stops| :: BindsOnly(stops[i].w, BackendKey(cfg, t.opts.pvName))
    requires Calm(cfg, w2, t.opts.pvName) && Calm(cfg, w3, t.opts.pvName)
    ensures var resumed, straight := Finish(cfg, t, AfterStops(cfg, t, c, stops), w2, n2), Finish(cfg, t, c, w3, n3);
      && resumed.job.pc == Returned(true) && straight.job.pc == Returned(true)
      && Alike(cfg, resumed.c, straight.c, t.opts.pvName)
  {
    CalmSucceeds(cfg, t, AfterStops(cfg, t, c, stops), t.opts, w2, n2);
    CalmSucceeds(cfg, t, c, t.opts, w3, n3);
    CrashResumeUnlessItFails(cfg, t, c, stops, w2, n2, w3, n3);
  }

  predicate PastPvc(pc: Pc) {
    pc.PvHook? || pc == Returned(true)
  }

  /** A deleting job run alone. */
  predicate Razed(cfg: Config, t: Job, c: Cluster, pv: string) {
    var k := BackendKey(cfg, pv);
    && t.kind != Provision && t.opts.pvName == pv
    && (Removing(t.pc) || PastPvc(t.pc) || t.pc == Returned(false))
    && (PastSvc(t.pc) || PastPvc(t.pc) ==> k !in c.services)
    && (PastDep(t.pc) || PastPvc(t.pc) ==> k !in c.deployments)
    && (PastPvc(t.pc) ==> k !in c.pvcs)
  }

  lemma {:induction false} RazeStep(cfg: Config, t: Job, c: Cluster, pv: string, w: Weather)
    requires Razed(cfg, t, c, pv)
    ensures var (t', c') := Advance(cfg, t, c, w);
      Razed(cfg, t', c', pv) && Unprovisioned(cfg, c', pv) == Unprovisioned(cfg, c, pv)
  {
    TouchesOnlyOwn(cfg, t, c, w);
    if t.pc.DelSvc? || t.pc.DelDep? || t.pc.DelPvc? {
      RazeWrites(cfg, t, c, pv, w);
    }
  }

  lemma {:induction false} RazeWrites(cfg: Config, t: Job, c: Cluster, pv: string, w: Weather)
    requires Razed(cfg, t, c, pv) && (t.pc.DelSvc? || t.pc.DelDep? || t.pc.DelPvc?)
    ensures var (t', c') := Advance(cfg, t, c, w); Razed(cfg, t', c', pv)
  {
  }

  /** Deletion that ends without error has removed exactly pv's three objects; a failed one has removed
      nothing else. */
  lemma {:induction false} EndsUnprovisioned(cfg: Config, t: Job, c: Cluster, pv: string, w: World, n: nat)
    requires Razed(cfg, t, c, pv) && BindsOnly(w, BackendKey(cfg, pv))
    ensures var end := Finish(cfg, t, c, w, n);
      && Unprovisioned(cfg, end.c, pv) == Unprovisioned(cfg, c, pv)
      && (end.job.pc == Returned(true) ==> end.c == Unprovisioned(cfg, c, pv))
    decreases Rank(t)
  {
    if t.pc.Returned? {
      if t.pc.ok {
        var u := Unprovisioned(cfg, c, pv);
        assert u.pvcs == c.pvcs && u.deployments == c.deployments && u.services == c.services;
      }
    } else {
      var settled := Settle(c, w(n).binds);
      assert Unprovisioned(cfg, settled, pv).pvcs == Unprovisioned(cfg, c, pv).pvcs;
      RazeStep(cfg, t, settled, pv, w(n));
      JobTerminates(cfg, t, settled, w(n));
      var (t', c') := Advance(cfg, t, settled, w(n));
      EndsUnprovisioned(cfg, t', c', pv, w, n + 1);
    }
  }

  lemma {:induction false} EndsTouchingOnlyOwn(cfg: Config, t: Job, c: Cluster, w: World, n: nat)
    requires BindsOnly(w, BackendKey(cfg, t.opts.pvName))
    ensures Unprovisioned(cfg, Finish(cfg, t, c, w, n).c, t.opts.pvName) == Unprovisioned(cfg, c, t.opts.pvName)
    decreases Rank(t)
  {
    if !t.pc.Returned? {
      var settled := Settle(c, w(n).binds);
      assert Unprovisioned(cfg, settled, t.opts.pvName).pvcs == Unprovisioned(cfg, c, t.opts.pvName).pvcs;
      TouchesOnlyOwn(cfg, t, settled, w(n));
      JobTerminates(cfg, t, settled, w(n));
      StepKeepsName(cfg, t, settled, w(n));
      var (t', c') := Advance(cfg, t, settled, w(n));
      EndsTouchingOnlyOwn(cfg, t', c', w, n + 1);
    }
  }

  lemma {:induction false} StepKeepsName(cfg: Config, t: Job, c: Cluster, w: Weather)
    ensures Advance(cfg, t, c, w).0.opts.pvName == t.opts.pvName
  {
  }

  /** A deleting job to which nothing fails succeeds. */
  lemma {:induction false} CalmDeletionSucceeds(cfg: Config, t: Job, c: Cluster, w: World, n: nat)
    requires t.kind != Provision && (Removing(t.pc) || PastPvc(t.pc))
    requires forall m: nat :: w(m).fault == Fine && w(m).hook.Accepted?
    ensures Finish(cfg, t, c, w, n).job.pc == Returned(true)
    decreases Rank(t)
  {
    if !t.pc.Returned? {
      var settled := Settle(c, w(n).binds);
      JobTerminates(cfg, t, settled, w(n));
      CalmDeletionStep(cfg, t, settled, w(n));
      var (t', c') := Advance(cfg, t, settled, w(n));
      CalmDeletionSucceeds(cfg, t', c', w, n + 1);
    }
  }

  lemma {:induction false} CalmDeletionStep(cfg: Config, t: Job, c: Cluster, w: Weather)
    requires t.kind != Provision && (Removing(t.pc) || PastPvc(t.pc)) && w.fault == Fine && w.hook.Accepted?
    ensures var t' := Advance(cfg, t, c, w).0; t'.kind == t.kind && (Removing(t'.pc) || PastPvc(t'.pc))
  {
    match t.pc
    case _ =>
  }

  /** Delete undoes Provision: on a cluster without objects of pv, a Provision, successful or not, followed by a
      Delete that succeeds changes nothing. */
  lemma {:induction false} DeleteUndoesProvision(
    cfg: Config, pv: string, uid: string, claim: Key, ticks: nat, c: Cluster, w: World, n: nat)
    requires BindsOnly(w, BackendKey(cfg, pv)) && Unprovisioned(cfg, c, pv) == c
    requires var p := Finish(cfg, StartProvision(pv, uid, claim, ticks), c, w, n);
      Finish(cfg, StartDelete(pv), p.c, w, p.n).job.pc == Returned(true)
    ensures var p := Finish(cfg, StartProvision(pv, uid, claim, ticks), c, w, n);
      Finish(cfg, StartDelete(pv), p.c, w, p.n).c == c
  {
    var t := StartProvision(pv, uid, claim, ticks);
    var p := Finish(cfg, t, c, w, n);
    EndsTouchingOnlyOwn(cfg, t, c, w, n);
    EndsUnprovisioned(cfg, StartDelete(pv), p.c, pv, w, p.n);
  }
}
