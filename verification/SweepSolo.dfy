/** A whole sweep with no other activity: what it removes, in which order it may look, and how far an API
    error reaches. */
module SweepSolo {
  import opened Kube
  import opened ServerJob
  import opened SweepMachine
  import opened Solo
  import opened Text

  function Left(gc: Gc): nat {
    if gc.Idle? then 0 else |gc.todo|
  }

  function StageRank(gc: Gc): nat {
    if gc.Idle? then 0 else
    match gc.at
    case CheckClaim => 3
    case CheckTracker => 2
    case CheckPv => 1
    case Deleting(_) => 0
  }

  function JobRank(gc: Gc): nat {
    if gc.Sweeping? && gc.at.Deleting? then Rank(gc.at.job) else 0
  }

  /** The step asks the API server something. */
  predicate Asks(gc: Gc) {
    gc.Sweeping? && gc.todo != [] && !gc.at.CheckTracker? && (gc.at.CheckClaim? ==> HasClaimLabels(gc.todo[0].pvc))
  }

  lemma {:induction false} SweepProgresses(cfg: Config, gc: Gc, c: Cluster, tracker: set<string>, w: Weather)
    requires gc.Sweeping? && gc.todo != []
    ensures var gc' := GcAdvance(cfg, gc, c, tracker, w).0;
      Left(gc') < Left(gc) || (Left(gc') == Left(gc)
        && (StageRank(gc') < StageRank(gc) || (StageRank(gc') == StageRank(gc) && JobRank(gc') < JobRank(gc))))
  {
    if gc.at.Deleting? && !gc.at.job.pc.Returned? {
      JobTerminates(cfg, gc.at.job, c, w);
    }
  }

  /** The cluster a sweep leaves, and how many API calls have been made by then. */
  function GcFinish(cfg: Config, gc: Gc, c: Cluster, tracker: set<string>, w: World, n: nat): (Cluster, nat)
    decreases Left(gc), StageRank(gc), JobRank(gc)
  {
    if gc.Idle? || gc.todo == [] then (c, n) else
    var settled := if Asks(gc) then Settle(c, w(n).binds) else c;
    SweepProgresses(cfg, gc, settled, tracker, w(n));
    var (gc', c') := GcAdvance(cfg, gc, settled, tracker, w(n));
    GcFinish(cfg, gc', c', tracker, w, if Asks(gc) then n + 1 else n)
  }

  /** No claim with this name and UID, not being worked on, no PV: the collector's notion of stale. */
  predicate Stale(c: Cluster, tracker: set<string>, it: Listed) {
    && HasClaimLabels(it.pvc)
    && !(ClaimOf(it.pvc) in c.pvcs && c.pvcs[ClaimOf(it.pvc)].uid == it.pvc.labels[PVC_UID])
    && PvOf(it) != "" && PvOf(it) !in tracker && PvOf(it) !in c.pvs
  }

  /** For the backend claim of a PV: its labels name no claim with that UID, and the PV is neither tracked nor there. */
  lemma {:induction false} StaleBackend(cfg: Config, c: Cluster, tracker: set<string>, pv: string, pvc: PVC)
    requires NoSpace(pv) && pv != ""
    requires "nfs.openebs.io/nfs-pvc-name" in pvc.labels && "nfs.openebs.io/nfs-pvc-namespace" in pvc.labels
    requires "nfs.openebs.io/nfs-pvc-uid" in pvc.labels
    ensures Stale(c, tracker, Listed((cfg.ns, "nfs-" + pv), pvc)) <==>
      var claim := (pvc.labels["nfs.openebs.io/nfs-pvc-namespace"], pvc.labels["nfs.openebs.io/nfs-pvc-name"]);
      && (claim in c.pvcs ==> c.pvcs[claim].uid != pvc.labels["nfs.openebs.io/nfs-pvc-uid"])
      && pv !in tracker && pv !in c.pvs
    ensures Target(cfg, Listed((cfg.ns, "nfs-" + pv), pvc)) == (cfg.ns, "nfs-" + pv)
  {
    ScanInvertsBackendName(pv);
  }

  function Target(cfg: Config, it: Listed): Key {
    BackendKey(cfg, PvOf(it))
  }

  function Targets(cfg: Config, c: Cluster, tracker: set<string>, todo: seq<Listed>): set<Key> {
    set i | 0 <= i < |todo| && Stale(c, tracker, todo[i]) :: Target(cfg, todo[i])
  }

  function Minus(c: Cluster, ks: set<Key>): Cluster {
    Cluster(c.pvcs - ks, c.deployments - ks, c.services - ks, c.pvs)
  }

  /** Nothing else happens: storage binds nothing. */
  ghost predicate Quiet(w: World) {
    forall n: nat :: w(n).binds == {}
  }

  ghost predicate FineIn(w: World, from: nat, to: nat) {
    forall m | from <= m < to :: w(m).fault == Fine
  }

  lemma {:induction false} SettleNothing(c: Cluster)
    ensures Settle(c, {}) == c
  {
    assert Settle(c, {}).pvcs == c.pvcs;
  }

  /** A sweep over a list is a sweep over its first item followed by a sweep over the rest. */
  lemma {:induction false} SweepByItems(
    cfg: Config, todo: seq<Listed>, at: Stage, c: Cluster, tracker: set<string>, w: World, n: nat)
    requires todo != []
    ensures var (c1, n1) := GcFinish(cfg, Sweeping(todo[..1], at), c, tracker, w, n);
      GcFinish(cfg, Sweeping(todo, at), c, tracker, w, n)
        == GcFinish(cfg, Begin(todo[1..]), c1, tracker, w, n1)
    decreases StageRank(Sweeping(todo, at)), JobRank(Sweeping(todo, at))
  {
    var gc, one := Sweeping(todo, at), Sweeping(todo[..1], at);
    assert one.todo[0] == todo[0] && one.todo[1..] == [];
    var settled := if Asks(gc) then Settle(c, w(n).binds) else c;
    SweepProgresses(cfg, gc, settled, tracker, w(n));
    var (gc', c') := GcAdvance(cfg, gc, settled, tracker, w(n));
    if gc'.Sweeping? && gc'.todo == todo && Left(gc') == Left(gc) {
      SweepByItems(cfg, todo, gc'.at, c', tracker, w, if Asks(gc) then n + 1 else n);
    }
  }

  /** While deleting, a sweep over one item is the deleting job itself. */
  lemma {:induction false} DeletingIsJob(
    cfg: Config, it: Listed, t: Job, c: Cluster, tracker: set<string>, w: World, n: nat)
    requires !t.pc.Returned?
    ensures var end := Finish(cfg, t, c, w, n);
      GcFinish(cfg, Sweeping([it], Deleting(t)), c, tracker, w, n) == (end.c, end.n)
    decreases Rank(t)
  {
    var settled := Settle(c, w(n).binds);
    JobTerminates(cfg, t, settled, w(n));
    var (t', c') := Advance(cfg, t, settled, w(n));
    if !t'.pc.Returned? {
      DeletingIsJob(cfg, it, t', c', tracker, w, n + 1);
    }
  }

  /** Without faults the collector's deletion succeeds. */
  lemma {:induction false} FineDeletionSucceeds(cfg: Config, t: Job, c: Cluster, w: World, n: nat)
    requires t.kind == Collect && (Removing(t.pc) || t.pc == Returned(true))
    requires FineIn(w, n, Finish(cfg, t, c, w, n).n)
    ensures Finish(cfg, t, c, w, n).job.pc == Returned(true)
    decreases Rank(t)
  {
    if !t.pc.Returned? {
      var settled := Settle(c, w(n).binds);
      JobTerminates(cfg, t, settled, w(n));
      var (t', c') := Advance(cfg, t, settled, w(n));
      FinishAdvances(cfg, t', c', w, n + 1);
      assert w(n).fault == Fine;
      FineDeletionSucceeds(cfg, t', c', w, n + 1);
    }
  }

  lemma {:induction false} FinishAdvances(cfg: Config, t: Job, c: Cluster, w: World, n: nat)
    ensures n <= Finish(cfg, t, c, w, n).n
    decreases Rank(t)
  {
    if !t.pc.Returned? {
      var settled := Settle(c, w(n).binds);
      JobTerminates(cfg, t, settled, w(n));
      var (t', c') := Advance(cfg, t, settled, w(n));
      FinishAdvances(cfg, t', c', w, n + 1);
    }
  }

  /** d is c with some objects missing; PVs are not touched. */
  ghost predicate Shrunk(d: Cluster, c: Cluster) {
    && d.pvs == c.pvs
    && (forall k | k in d.pvcs :: k in c.pvcs && d.pvcs[k] == c.pvcs[k])
    && d.deployments.Keys <= c.deployments.Keys && d.services.Keys <= c.services.Keys
  }

  lemma {:induction false} DeletionShrinks(cfg: Config, t: Job, c: Cluster, w: World, n: nat)
    requires Quiet(w) && (Removing(t.pc) || PastPvc(t.pc) || t.pc.Returned?)
    ensures Shrunk(Finish(cfg, t, c, w, n).c, c)
    decreases Rank(t)
  {
    if !t.pc.Returned? {
      SettleNothing(c);
      JobTerminates(cfg, t, c, w(n));
      DeletionStepShrinks(cfg, t, c, w(n));
      var (t', c') := Advance(cfg, t, c, w(n));
      DeletionShrinks(cfg, t', c', w, n + 1);
    }
  }

  lemma {:induction false} DeletionStepShrinks(cfg: Config, t: Job, c: Cluster, w: Weather)
    requires Removing(t.pc) || PastPvc(t.pc)
    ensures var (t', c') := Advance(cfg, t, c, w);
      Shrunk(c', c) && (Removing(t'.pc) || PastPvc(t'.pc) || t'.pc.Returned?)
  {
    match t.pc
    case _ =>
  }

  /** What the sweep's work on an item, from call n to call n', may have made of cluster c: nothing unless the
      item is `stale`, and then nothing except to the item's own objects, all of which go if no call fails. */
  ghost predicate Outcome(
    cfg: Config, it: Listed, stale: bool, c: Cluster, w: World, n: nat, end: (Cluster, nat))
  {
    && n <= end.1 && Shrunk(end.0, c)
    && (!stale ==> end.0 == c)
    && Unprovisioned(cfg, end.0, PvOf(it)) == Unprovisioned(cfg, c, PvOf(it))
    && (stale && FineIn(w, n, end.1) ==> end.0 == Unprovisioned(cfg, c, PvOf(it)))
  }

  /** One step of a sweep in a quiet world. */
  lemma {:induction false} GcStep(cfg: Config, gc: Gc, c: Cluster, tracker: set<string>, w: World, n: nat)
    requires Quiet(w) && gc.Sweeping? && gc.todo != []
    ensures var (gc', c') := GcAdvance(cfg, gc, c, tracker, w(n));
      GcFinish(cfg, gc, c, tracker, w, n) == GcFinish(cfg, gc', c', tracker, w, if Asks(gc) then n + 1 else n)
  {
    SettleNothing(c);
  }

  lemma {:induction false} ItemDeletes(cfg: Config, it: Listed, c: Cluster, tracker: set<string>, w: World, n: nat)
    requires Quiet(w)
    ensures Outcome(cfg, it, true, c, w, n,
              GcFinish(cfg, Sweeping([it], Deleting(CollectJob(PvOf(it)))), c, tracker, w, n))
  {
    var t := CollectJob(PvOf(it));
    DeletingIsJob(cfg, it, t, c, tracker, w, n);
    EndsUnprovisioned(cfg, t, c, PvOf(it), w, n);
    FinishAdvances(cfg, t, c, w, n);
    DeletionShrinks(cfg, t, c, w, n);
    if FineIn(w, n, Finish(cfg, t, c, w, n).n) {
      FineDeletionSucceeds(cfg, t, c, w, n);
    }
  }

  lemma {:induction false} FineAtFirst(w: World, n: nat, to: nat)
    requires n < to
    ensures FineIn(w, n, to) ==> w(n).fault == Fine && FineIn(w, n + 1, to)
  {
  }

  lemma {:induction false} ItemFromPv(cfg: Config, it: Listed, c: Cluster, tracker: set<string>, w: World, n: nat)
    requires Quiet(w)
    ensures Outcome(cfg, it, PvOf(it) !in c.pvs, c, w, n,
              GcFinish(cfg, Sweeping([it], CheckPv), c, tracker, w, n))
  {
    GcStep(cfg, Sweeping([it], CheckPv), c, tracker, w, n);
    ItemDeletes(cfg, it, c, tracker, w, n + 1);
    FineAtFirst(w, n, GcFinish(cfg, Sweeping([it], CheckPv), c, tracker, w, n).1);
  }

  lemma {:induction false} ItemFromTracker(cfg: Config, it: Listed, c: Cluster, tracker: set<string>, w: World, n: nat)
    requires Quiet(w)
    ensures Outcome(cfg, it, PvOf(it) !in tracker && PvOf(it) !in c.pvs, c, w, n,
              GcFinish(cfg, Sweeping([it], CheckTracker), c, tracker, w, n))
  {
    GcStep(cfg, Sweeping([it], CheckTracker), c, tracker, w, n);
    ItemFromPv(cfg, it, c, tracker, w, n);
  }

  /** What a sweep does about one item, whatever fails. */
  lemma {:induction false} ItemEffect(cfg: Config, it: Listed, c: Cluster, tracker: set<string>, w: World, n: nat)
    requires Quiet(w)
    ensures Outcome(cfg, it, Stale(c, tracker, it), c, w, n,
              GcFinish(cfg, Sweeping([it], CheckClaim), c, tracker, w, n))
  {
    var gc := Sweeping([it], CheckClaim);
    GcStep(cfg, gc, c, tracker, w, n);
    if HasClaimLabels(it.pvc) {
      ItemFromTracker(cfg, it, c, tracker, w, n + 1);
      FineAtFirst(w, n, GcFinish(cfg, gc, c, tracker, w, n).1);
    }
  }

  /** The objects at x are the same in c and d. */
  predicate SameObjects(c: Cluster, d: Cluster, x: Key) {
    && (x in c.pvcs <==> x in d.pvcs) && (x in c.pvcs ==> c.pvcs[x] == d.pvcs[x])
    && (x in c.deployments <==> x in d.deployments) && (x in c.deployments ==> c.deployments[x] == d.deployments[x])
    && (x in c.services <==> x in d.services) && (x in c.services ==> c.services[x] == d.services[x])
  }

  predicate NoObjects(c: Cluster, x: Key) {
    x !in c.pvcs && x !in c.deployments && x !in c.services
  }

  lemma {:induction false} UnprovisionedElsewhere(cfg: Config, c: Cluster, d: Cluster, pv: string, x: Key)
    requires Unprovisioned(cfg, c, pv) == Unprovisioned(cfg, d, pv) && x != BackendKey(cfg, pv)
    ensures SameObjects(c, d, x)
  {
    var u, v := Unprovisioned(cfg, c, pv), Unprovisioned(cfg, d, pv);
    assert x in u.pvcs <==> x in c.pvcs;
    assert x in v.pvcs <==> x in d.pvcs;
    assert x in u.deployments <==> x in c.deployments;
    assert x in v.deployments <==> x in d.deployments;
    assert x in u.services <==> x in c.services;
    assert x in v.services <==> x in d.services;
  }

  /** Only its claim keeps the item from being stale. */
  predicate KeptByClaim(c: Cluster, tracker: set<string>, it: Listed) {
    && HasClaimLabels(it.pvc)
    && ClaimOf(it.pvc) in c.pvcs && c.pvcs[ClaimOf(it.pvc)].uid == it.pvc.labels[PVC_UID]
    && PvOf(it) != "" && PvOf(it) !in tracker && PvOf(it) !in c.pvs
  }

  /** No item is kept by a claim that is itself the backend claim of a stale item before it. */
  ghost predicate Independent(cfg: Config, c: Cluster, tracker: set<string>, todo: seq<Listed>) {
    forall j, i | 0 <= j < i < |todo| && Stale(c, tracker, todo[j]) && KeptByClaim(c, tracker, todo[i]) ::
      ClaimOf(todo[i].pvc) != Target(cfg, todo[j])
  }

  /** d is what the sweep has left of c so far, and it finds in d stale what was stale in c. */
  ghost predicate SameEvidence(c: Cluster, d: Cluster, tracker: set<string>, todo: seq<Listed>) {
    Shrunk(d, c) && forall i | 0 <= i < |todo| :: Stale(d, tracker, todo[i]) <==> Stale(c, tracker, todo[i])
  }

  /** What is stale stays stale. */
  lemma {:induction false} StaleStays(c: Cluster, d: Cluster, tracker: set<string>, it: Listed)
    requires Shrunk(d, c) && Stale(c, tracker, it)
    ensures Stale(d, tracker, it)
  {
  }

  lemma {:induction false} SameEvidenceLater(
    cfg: Config, c: Cluster, d: Cluster, d': Cluster, tracker: set<string>, todo: seq<Listed>)
    requires todo != [] && Independent(cfg, c, tracker, todo) && SameEvidence(c, d, tracker, todo)
    requires Shrunk(d', d) && (!Stale(d, tracker, todo[0]) ==> d' == d)
    requires Unprovisioned(cfg, d', PvOf(todo[0])) == Unprovisioned(cfg, d, PvOf(todo[0]))
    ensures Independent(cfg, c, tracker, todo[1..]) && SameEvidence(c, d', tracker, todo[1..])
  {
    forall i | 0 <= i < |todo[1..]|
      ensures Stale(d', tracker, todo[1..][i]) <==> Stale(c, tracker, todo[1..][i])
    {
      assert todo[1..][i] == todo[i + 1];
      StillKept(cfg, c, d, d', tracker, todo, i + 1);
    }
  }

  lemma {:induction false} StillKept(
    cfg: Config, c: Cluster, d: Cluster, d': Cluster, tracker: set<string>, todo: seq<Listed>, i: nat)
    requires 0 < i < |todo| && Independent(cfg, c, tracker, todo) && SameEvidence(c, d, tracker, todo)
    requires Shrunk(d', d) && (!Stale(d, tracker, todo[0]) ==> d' == d)
    requires Unprovisioned(cfg, d', PvOf(todo[0])) == Unprovisioned(cfg, d, PvOf(todo[0]))
    ensures Stale(d', tracker, todo[i]) <==> Stale(c, tracker, todo[i])
  {
    var it := todo[i];
    if Stale(c, tracker, it) {
      StaleStays(c, d', tracker, it);
    } else if KeptByClaim(d, tracker, it) && Stale(d, tracker, todo[0]) {
      assert KeptByClaim(c, tracker, it);
      UnprovisionedElsewhere(cfg, d', d, PvOf(todo[0]), ClaimOf(it.pvc));
    }
  }

  lemma {:induction false} TargetsOfRest(cfg: Config, c: Cluster, tracker: set<string>, todo: seq<Listed>)
    requires todo != []
    ensures Targets(cfg, c, tracker, todo) ==
      (if Stale(c, tracker, todo[0]) then {Target(cfg, todo[0])} else {}) + Targets(cfg, c, tracker, todo[1..])
  {
    var rest := Targets(cfg, c, tracker, todo[1..]);
    forall i | 0 <= i < |todo| && Stale(c, tracker, todo[i]) && i > 0 ensures Target(cfg, todo[i]) in rest {
      assert todo[1..][i - 1] == todo[i];
    }
    forall i | 0 <= i < |todo[1..]| && Stale(c, tracker, todo[1..][i])
      ensures Target(cfg, todo[1..][i]) in Targets(cfg, c, tracker, todo)
    {
      assert todo[1..][i] == todo[i + 1];
    }
  }

  lemma {:induction false} SweepRemovesTargets(
    cfg: Config, todo: seq<Listed>, c: Cluster, d: Cluster, tracker: set<string>, w: World, n: nat)
    requires Quiet(w) && (forall m: nat :: w(m).fault == Fine)
    requires Independent(cfg, c, tracker, todo) && SameEvidence(c, d, tracker, todo)
    ensures GcFinish(cfg, Begin(todo), d, tracker, w, n).0 == Minus(d, Targets(cfg, c, tracker, todo))
    decreases |todo|
  {
    if todo == [] {
      var m := Minus(d, {});
      assert m.pvcs == d.pvcs && m.deployments == d.deployments && m.services == d.services;
    } else {
      var it := todo[0];
      assert todo[..1] == [it];
      ItemEffect(cfg, it, d, tracker, w, n);
      var (d', n') := GcFinish(cfg, Sweeping([it], CheckClaim), d, tracker, w, n);
      SweepByItems(cfg, todo, CheckClaim, d, tracker, w, n);
      SameEvidenceLater(cfg, c, d, d', tracker, todo);
      SweepRemovesTargets(cfg, todo[1..], c, d', tracker, w, n');
      TargetsOfRest(cfg, c, tracker, todo);
      MinusTwice(d, if Stale(c, tracker, it) then {Target(cfg, it)} else {}, Targets(cfg, c, tracker, todo[1..]));
    }
  }

  lemma {:induction false} MinusTwice(c: Cluster, a: set<Key>, b: set<Key>)
    ensures Minus(Minus(c, a), b) == Minus(c, a + b)
    ensures a == {} ==> Minus(c, a) == c
  {
    assert c.pvcs - a - b == c.pvcs - (a + b);
    assert c.deployments - a - b == c.deployments - (a + b);
    assert c.services - a - b == c.services - (a + b);
    assert a == {} ==> c.pvcs - a == c.pvcs && c.deployments - a == c.deployments && c.services - a == c.services;
  }

  /** The keys of the objects a sweep owes the cluster to remove. */
  function StaleKeys(cfg: Config, c: Cluster, tracker: set<string>): set<Key> {
    set k | k in c.pvcs && Selected(cfg, k, c.pvcs[k]) && Stale(c, tracker, Listed(k, c.pvcs[k]))
      :: Target(cfg, Listed(k, c.pvcs[k]))
  }

  lemma {:induction false} TargetsOfListing(cfg: Config, c: Cluster, tracker: set<string>, todo: seq<Listed>)
    requires IsListing(cfg, c, todo)
    ensures Targets(cfg, c, tracker, todo) == StaleKeys(cfg, c, tracker)
  {
    forall x | x in StaleKeys(cfg, c, tracker) ensures x in Targets(cfg, c, tracker, todo) {
      var k :| k in c.pvcs && Selected(cfg, k, c.pvcs[k]) && Stale(c, tracker, Listed(k, c.pvcs[k]))
        && x == Target(cfg, Listed(k, c.pvcs[k]));
      assert Listed(k, c.pvcs[k]) in todo;
      var i :| 0 <= i < |todo| && todo[i] == Listed(k, c.pvcs[k]);
    }
    forall i | 0 <= i < |todo| && Stale(c, tracker, todo[i])
      ensures Target(cfg, todo[i]) in StaleKeys(cfg, c, tracker)
    {
      assert todo[i] == Listed(todo[i].key, c.pvcs[todo[i].key]);
    }
  }

  /** Run alone and without errors, a sweep leaves the initial cluster minus exactly the objects of the stale
      PVs, in whatever order the server lists the claims. */
  lemma {:induction false} SweepRefinement(
    cfg: Config, c: Cluster, todo: seq<Listed>, tracker: set<string>, w: World, n: nat)
    requires IsListing(cfg, c, todo) && Independent(cfg, c, tracker, todo)
    requires Quiet(w) && (forall m: nat :: w(m).fault == Fine)
    ensures GcFinish(cfg, Begin(todo), c, tracker, w, n).0 == Minus(c, StaleKeys(cfg, c, tracker))
  {
    SweepRemovesTargets(cfg, todo, c, c, tracker, w, n);
    TargetsOfListing(cfg, c, tracker, todo);
  }

  /** Whatever fails, a sweep leaves alone what is not the target of a stale item. */
  lemma {:induction false} SweepTouchesOnlyTargets(
    cfg: Config, todo: seq<Listed>, c: Cluster, d: Cluster, tracker: set<string>, w: World, n: nat, x: Key)
    requires Quiet(w) && Independent(cfg, c, tracker, todo) && SameEvidence(c, d, tracker, todo)
    requires forall i | 0 <= i < |todo| && Stale(c, tracker, todo[i]) :: x != Target(cfg, todo[i])
    ensures SameObjects(GcFinish(cfg, Begin(todo), d, tracker, w, n).0, d, x)
    decreases |todo|
  {
    if todo != [] {
      var it := todo[0];
      assert todo[..1] == [it];
      ItemEffect(cfg, it, d, tracker, w, n);
      var (d', n') := GcFinish(cfg, Sweeping([it], CheckClaim), d, tracker, w, n);
      SweepByItems(cfg, todo, CheckClaim, d, tracker, w, n);
      SameEvidenceLater(cfg, c, d, d', tracker, todo);
      SweepTouchesOnlyTargets(cfg, todo[1..], c, d', tracker, w, n', x);
      if x != Target(cfg, it) {
        UnprovisionedElsewhere(cfg, d', d, PvOf(it), x);
      }
    }
  }

  /** Whatever fails, a sweep creates nothing. */
  lemma {:induction false} SweepCreatesNothing(
    cfg: Config, todo: seq<Listed>, d: Cluster, tracker: set<string>, w: World, n: nat, x: Key)
    requires Quiet(w) && NoObjects(d, x)
    ensures NoObjects(GcFinish(cfg, Begin(todo), d, tracker, w, n).0, x)
    decreases |todo|
  {
    if todo != [] {
      var it := todo[0];
      assert todo[..1] == [it];
      SweepByItems(cfg, todo, CheckClaim, d, tracker, w, n);
      ItemEffect(cfg, it, d, tracker, w, n);
      var (d', n') := GcFinish(cfg, Sweeping([it], CheckClaim), d, tracker, w, n);
      SweepCreatesNothing(cfg, todo[1..], d', tracker, w, n', x);
    }
  }

  /** Where the sweep stands when it comes to item i. */
  function ReachItem(cfg: Config, todo: seq<Listed>, c: Cluster, tracker: set<string>, w: World, n: nat, i: nat)
    : (Cluster, nat)
    requires i <= |todo|
  {
    if i == 0 then (c, n) else
    var (d, m) := ReachItem(cfg, todo, c, tracker, w, n, i - 1);
    GcFinish(cfg, Sweeping([todo[i - 1]], CheckClaim), d, tracker, w, m)
  }

  lemma {:induction false} SweepFromItem(
    cfg: Config, todo: seq<Listed>, c: Cluster, tracker: set<string>, w: World, n: nat, i: nat)
    requires i <= |todo|
    ensures var (d, m) := ReachItem(cfg, todo, c, tracker, w, n, i);
      GcFinish(cfg, Begin(todo), c, tracker, w, n) == GcFinish(cfg, Begin(todo[i..]), d, tracker, w, m)
  {
    if i == 0 {
      assert todo[0..] == todo;
    } else {
      SweepFromItem(cfg, todo, c, tracker, w, n, i - 1);
      var (d, m) := ReachItem(cfg, todo, c, tracker, w, n, i - 1);
      assert todo[i - 1..][..1] == [todo[i - 1]] && todo[i - 1..][1..] == todo[i..];
      SweepByItems(cfg, todo[i - 1..], CheckClaim, d, tracker, w, m);
    }
  }

  /** A sweep only ever takes objects away. */
  lemma {:induction false} ReachShrinks(
    cfg: Config, todo: seq<Listed>, c: Cluster, tracker: set<string>, w: World, n: nat, j: nat, i: nat)
    requires j <= i <= |todo| && Quiet(w)
    ensures Shrunk(ReachItem(cfg, todo, c, tracker, w, n, i).0, ReachItem(cfg, todo, c, tracker, w, n, j).0)
  {
    if j < i {
      ReachShrinks(cfg, todo, c, tracker, w, n, j, i - 1);
      var (d, m) := ReachItem(cfg, todo, c, tracker, w, n, i - 1);
      ItemEffect(cfg, todo[i - 1], d, tracker, w, m);
    }
  }

  /** An item that is stale when the sweep comes to it, and whose calls succeed, has no objects in the end. */
  lemma {:induction false} StaleItemGoes(
    cfg: Config, todo: seq<Listed>, c: Cluster, tracker: set<string>, w: World, n: nat, i: nat)
    requires i < |todo| && Quiet(w)
    requires var (d, m) := ReachItem(cfg, todo, c, tracker, w, n, i);
      Stale(d, tracker, todo[i]) && FineIn(w, m, ReachItem(cfg, todo, c, tracker, w, n, i + 1).1)
    ensures NoObjects(ReachItem(cfg, todo, c, tracker, w, n, i + 1).0, Target(cfg, todo[i]))
    ensures NoObjects(GcFinish(cfg, Begin(todo), c, tracker, w, n).0, Target(cfg, todo[i]))
  {
    var (d, m) := ReachItem(cfg, todo, c, tracker, w, n, i);
    var (d', m') := ReachItem(cfg, todo, c, tracker, w, n, i + 1);
    ItemEffect(cfg, todo[i], d, tracker, w, m);
    assert d' == Unprovisioned(cfg, d, PvOf(todo[i]));
    SweepFromItem(cfg, todo, c, tracker, w, n, i + 1);
    SweepCreatesNothing(cfg, todo[i + 1..], d', tracker, w, m', Target(cfg, todo[i]));
  }

  /** An API error on one backend claim does not change the outcome for another: whatever fails elsewhere, a
      stale item loses all its objects if its own calls succeed; and an item that is not stale, whose PV no stale
      item is named for, keeps its objects. */
  lemma {:induction false} SweepIsolation(
    cfg: Config, c: Cluster, todo: seq<Listed>, tracker: set<string>, w: World, n: nat, i: nat)
    requires IsListing(cfg, c, todo) && Quiet(w) && i < |todo|
    ensures var end := GcFinish(cfg, Begin(todo), c, tracker, w, n).0;
      var from := ReachItem(cfg, todo, c, tracker, w, n, i).1;
      var to := ReachItem(cfg, todo, c, tracker, w, n, i + 1).1;
      && (Stale(c, tracker, todo[i]) && FineIn(w, from, to) ==> NoObjects(end, Target(cfg, todo[i])))
      && (Independent(cfg, c, tracker, todo)
          && (forall j | 0 <= j < |todo| && Stale(c, tracker, todo[j]) :: PvOf(todo[j]) != PvOf(todo[i]))
          ==> SameObjects(end, c, Target(cfg, todo[i])))
  {
    var it, x := todo[i], Target(cfg, todo[i]);
    if Stale(c, tracker, it) {
      ReachShrinks(cfg, todo, c, tracker, w, n, 0, i);
      StaleStays(c, ReachItem(cfg, todo, c, tracker, w, n, i).0, tracker, it);
      if FineIn(w, ReachItem(cfg, todo, c, tracker, w, n, i).1, ReachItem(cfg, todo, c, tracker, w, n, i + 1).1) {
        StaleItemGoes(cfg, todo, c, tracker, w, n, i);
      }
    } else if Independent(cfg, c, tracker, todo)
           && (forall j | 0 <= j < |todo| && Stale(c, tracker, todo[j]) :: PvOf(todo[j]) != PvOf(it)) {
      forall j | 0 <= j < |todo| && Stale(c, tracker, todo[j]) ensures x != Target(cfg, todo[j]) {
        assert BackendName(PvOf(todo[j]))[4..] == PvOf(todo[j]);
        assert BackendName(PvOf(it))[4..] == PvOf(it);
      }
      SweepTouchesOnlyTargets(cfg, todo, c, c, tracker, w, n, x);
    }
  }

  /** Every listed claim has the one-word name that is built for its PV. */
  ghost predicate ProperNames(cfg: Config, todo: seq<Listed>) {
    forall i | 0 <= i < |todo| :: todo[i].key == Target(cfg, todo[i])
  }

  /** An item kept by the backend claim of a stale item before it is swept as well. */
  lemma {:induction false} DependentItemGoes(
    cfg: Config, todo: seq<Listed>, c: Cluster, tracker: set<string>, w: World, n: nat, j: nat, i: nat)
    requires Quiet(w) && (forall m: nat :: w(m).fault == Fine) && j < i < |todo|
    requires Stale(c, tracker, todo[j]) && KeptByClaim(c, tracker, todo[i])
    requires ClaimOf(todo[i].pvc) == Target(cfg, todo[j])
    ensures NoObjects(GcFinish(cfg, Begin(todo), c, tracker, w, n).0, Target(cfg, todo[i]))
  {
    ReachShrinks(cfg, todo, c, tracker, w, n, 0, j);
    StaleStays(c, ReachItem(cfg, todo, c, tracker, w, n, j).0, tracker, todo[j]);
    StaleItemGoes(cfg, todo, c, tracker, w, n, j);
    ReachShrinks(cfg, todo, c, tracker, w, n, j + 1, i);
    ReachShrinks(cfg, todo, c, tracker, w, n, 0, i);
    StaleItemGoes(cfg, todo, c, tracker, w, n, i);
  }

  /** For properly named backend claims, an error-free sweep meets SweepRefinement exactly when the listing is
      independent. */
  lemma {:induction false} SweepRefinementIff(
    cfg: Config, c: Cluster, todo: seq<Listed>, tracker: set<string>, w: World, n: nat)
    requires IsListing(cfg, c, todo) && ProperNames(cfg, todo)
    requires Quiet(w) && (forall m: nat :: w(m).fault == Fine)
    ensures GcFinish(cfg, Begin(todo), c, tracker, w, n).0 == Minus(c, StaleKeys(cfg, c, tracker))
       <==> Independent(cfg, c, tracker, todo)
  {
    if j, i :| 0 <= j < i < |todo| && Stale(c, tracker, todo[j]) && KeptByClaim(c, tracker, todo[i])
               && ClaimOf(todo[i].pvc) == Target(cfg, todo[j]) {
      DependentItemGoes(cfg, todo, c, tracker, w, n, j, i);
      KeptIsNotOwed(cfg, c, todo, tracker, i);
    } else {
      SweepRefinement(cfg, c, todo, tracker, w, n);
    }
  }

  lemma {:induction false} KeptIsNotOwed(cfg: Config, c: Cluster, todo: seq<Listed>, tracker: set<string>, i: nat)
    requires IsListing(cfg, c, todo) && ProperNames(cfg, todo) && i < |todo| && !Stale(c, tracker, todo[i])
    ensures todo[i].key in Minus(c, StaleKeys(cfg, c, tracker)).pvcs && todo[i].key == Target(cfg, todo[i])
  {
    TargetsOfListing(cfg, c, tracker, todo);
  }

  /** Such listings exist: an NFS volume whose claim is itself a backend claim, listed after that claim's own
      clean-up. */
  lemma {:induction false} DependentListing(cfg: Config, p: string, q: string) returns (c: Cluster, todo: seq<Listed>)
    requires p != q && p != "" && q != "" && NoSpace(p) && NoSpace(q)
    ensures IsListing(cfg, c, todo) && ProperNames(cfg, todo) && !Independent(cfg, c, {}, todo)
  {
    var x, y, meta := BackendKey(cfg, p), BackendKey(cfg, q), Meta(map[], []);
    assert x.1[4..] == p && y.1[4..] == q;
    ScanInvertsBackendName(p);
    ScanInvertsBackendName(q);
    var first := PVC("", PvcLabels(ProvisionOpts(p, "", ("", ""), 0)), meta, true);
    var second := PVC("", PvcLabels(ProvisionOpts(q, "", x, 0)), meta, true);
    c := Cluster(map[x := first, y := second], map[], map[], {});
    todo := [Listed(x, first), Listed(y, second)];
    assert ClaimOf(first) == ("", "");
    assert y != ("", "") && x != ("", "");
    assert Stale(c, {}, todo[0]) && KeptByClaim(c, {}, todo[1]);
  }
}
