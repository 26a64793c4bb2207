/** The methods' runs are runs of the protocol: what is proved of every interleaving holds of the code. */
module Bridge {
  import opened Kube
  import opened ServerJob
  import opened SweepMachine
  import opened Protocol
  import opened Runs
  import opened Safety
  import opened Solo
  import opened SweepSolo
  import opened Text

  /** Storage binding pv's backend claim, or nothing, is at most one event. */
  lemma {:induction false} SettleIsEvent(cfg: Config, s: State, k: Key, binds: set<Key>) returns (events: seq<Event>)
    requires binds <= {k}
    ensures IsRun(cfg, s, events) && EndOf(cfg, s, events) == s.(c := Settle(s.c, binds))
  {
    if k in binds && k in s.c.pvcs {
      events := [PhaseChanged(k, true)];
      OneEvent(cfg, s, PhaseChanged(k, true));
      assert Settle(s.c, binds).pvcs == s.c.pvcs[k := s.c.pvcs[k].(bound := true)];
    } else {
      events := [];
      assert Settle(s.c, binds).pvcs == s.c.pvcs;
    }
  }

  /** A registered call, run to its end as the code runs it, is a run of the protocol. */
  lemma {:induction false} CallIsRun(cfg: Config, s: State, pv: string, w: World, n: nat) returns (run: seq<Event>)
    requires Registered(s, pv) && s.calls[pv].job.opts.pvName == pv
    requires BindsOnly(w, BackendKey(cfg, pv))
    ensures IsRun(cfg, s, run)
    ensures var end, t := Finish(cfg, s.calls[pv].job, s.c, w, n), EndOf(cfg, s, run);
      && t.c == end.c && t.calls == s.calls[pv := Call(Running, end.job)]
      && t.tracker == s.tracker && t.gc == s.gc && t.provisioned == s.provisioned && end.job.pc.Returned?
    decreases Rank(s.calls[pv].job)
  {
    var t := s.calls[pv].job;
    run := [];
    if t.pc.Returned? {
      assert s.calls[pv := s.calls[pv]] == s.calls;
    } else {
      var first := SettleIsEvent(cfg, s, BackendKey(cfg, pv), w(n).binds);
      var mid := s.(c := Settle(s.c, w(n).binds));
      var e := CallSteps(pv, w(n));
      var next := Apply(cfg, mid, e);
      StepKeepsName(cfg, t, mid.c, w(n));
      JobTerminates(cfg, t, mid.c, w(n));
      var rest := CallIsRun(cfg, next, pv, w, n + 1);
      Prepended(cfg, mid, e, rest);
      Appended(cfg, s, first, [e] + rest);
      run := first + ([e] + rest);
    }
  }

  /** Event n of the run is the return of a call on pv that has come to its end with `job`. */
  ghost predicate ReturnsAt(cfg: Config, s: State, run: seq<Event>, n: nat, pv: string, job: Job)
    requires n < |run|
  {
    var t := StateAt(cfg, s, run, n);
    run[n] == CallReturns(pv) && pv in t.calls && t.calls[pv].job == job
  }

  /** Provision as the method runs it, with its registration and the deferred removal from the tracker, is a run
      of the protocol that leaves the cluster the method leaves, and tracker and calls as they were. It returns
      what the method returns, and Finished is recorded. */
  lemma {:induction false} ProvisionIsRun(cfg: Config, s: State, uid: string, ticks: nat, w: World, n: nat)
    returns (run: seq<Event>)
    requires Live(s, uid) && PVName(uid) !in s.calls
    requires BindsOnly(w, BackendKey(cfg, PVName(uid)))
    ensures IsRun(cfg, s, run) && run != []
    ensures var pv, t := PVName(uid), EndOf(cfg, s, run);
      var end := Finish(cfg, StartProvision(pv, uid, s.born[uid], ticks), s.c, w, n);
      && t.c == end.c && t.tracker == s.tracker - {pv} && t.calls == s.calls && t.gc == s.gc
      && ReturnsAt(cfg, s, run, |run| - 1, pv, end.job)
      && (FinishesAt(cfg, s, run, |run| - 1, pv) <==> end.job.pc == Returned(true))
      && t.provisioned == s.provisioned + (if end.job.pc == Returned(true) then {pv} else {})
  {
    var pv := PVName(uid);
    var t := StartProvision(pv, uid, s.born[uid], ticks);
    run := BracketIsRun(cfg, s, ProvisionCalled(uid, ticks), pv, w, n);
    FinishKeepsKind(cfg, t, s.c, w, n);
  }

  /** The same for Delete. */
  lemma {:induction false} DeleteIsRun(cfg: Config, s: State, pv: string, w: World, n: nat) returns (run: seq<Event>)
    requires pv in s.c.pvs && DeadPv(s, pv) && pv !in s.calls
    requires BindsOnly(w, BackendKey(cfg, pv))
    ensures IsRun(cfg, s, run) && run != []
    ensures var t, end := EndOf(cfg, s, run), Finish(cfg, StartDelete(pv), s.c, w, n);
      && t.c == end.c && t.tracker == s.tracker - {pv} && t.calls == s.calls && t.gc == s.gc
      && ReturnsAt(cfg, s, run, |run| - 1, pv, end.job) && t.provisioned == s.provisioned
      && (DeletedAt(cfg, s, run, |run| - 1, pv) <==> end.job.pc == Returned(true))
  {
    run := BracketIsRun(cfg, s, DeleteCalled(pv, false), pv, w, n);
    FinishKeepsKind(cfg, StartDelete(pv), s.c, w, n);
  }

  lemma {:induction false} FinishKeepsKind(cfg: Config, t: Job, c: Cluster, w: World, n: nat)
    ensures Finish(cfg, t, c, w, n).job.kind == t.kind
    decreases Rank(t)
  {
    if !t.pc.Returned? {
      var settled := Settle(c, w(n).binds);
      JobTerminates(cfg, t, settled, w(n));
      StepKeepsKind(cfg, t, settled, w(n));
      var (t', c') := Advance(cfg, t, settled, w(n));
      FinishKeepsKind(cfg, t', c', w, n + 1);
    }
  }

  lemma {:induction false} StepKeepsKind(cfg: Config, t: Job, c: Cluster, w: Weather)
    ensures Advance(cfg, t, c, w).0.kind == t.kind
  {
  }

  lemma {:induction false} BracketIsRun(cfg: Config, s: State, e: Event, pv: string, w: World, n: nat)
    returns (run: seq<Event>)
    requires Enabled(cfg, s, e) && pv !in s.calls
    requires (e.ProvisionCalled? && pv == PVName(e.uid)) || (e.DeleteCalled? && pv == e.pv)
    requires BindsOnly(w, BackendKey(cfg, pv))
    ensures IsRun(cfg, s, run) && run != []
    ensures var t, end := EndOf(cfg, s, run), Finish(cfg, Apply(cfg, s, e).calls[pv].job, s.c, w, n);
      && t.c == end.c && t.tracker == s.tracker - {pv} && t.calls == s.calls && t.gc == s.gc
      && t.provisioned == s.provisioned + Recorded(end.job, pv)
      && ReturnsAt(cfg, s, run, |run| - 1, pv, end.job)
  {
    var before := CallWorks(cfg, s, e, pv, w, n);
    run := CallLeaves(cfg, s, before, pv);
  }

  lemma {:induction false} CallWorks(cfg: Config, s: State, e: Event, pv: string, w: World, n: nat)
    returns (run: seq<Event>)
    requires Enabled(cfg, s, e) && pv !in s.calls
    requires (e.ProvisionCalled? && pv == PVName(e.uid)) || (e.DeleteCalled? && pv == e.pv)
    requires BindsOnly(w, BackendKey(cfg, pv))
    ensures IsRun(cfg, s, run)
    ensures var t, end := EndOf(cfg, s, run), Finish(cfg, Apply(cfg, s, e).calls[pv].job, s.c, w, n);
      && t.c == end.c && t.gc == s.gc && t.provisioned == s.provisioned && end.job.pc.Returned?
      && Registered(t, pv) && t.calls[pv].job == end.job
      && t.tracker - {pv} == s.tracker - {pv} && t.calls - {pv} == s.calls
  {
    var entered := Apply(cfg, s, e);
    var registered := Apply(cfg, entered, CallRegisters(pv));
    run := CallIsRun(cfg, registered, pv, w, n);
    Prepended(cfg, entered, CallRegisters(pv), run);
    Prepended(cfg, s, e, [CallRegisters(pv)] + run);
    run := [e] + ([CallRegisters(pv)] + run);
  }

  /** What a call that returns with this job adds to the history. */
  function Recorded(job: Job, pv: string): set<string> {
    if job.kind == Provision && job.pc == Returned(true) then {pv} else {}
  }

  /** A call that has come to its end unregisters and returns. */
  lemma {:induction false} CallLeaves(cfg: Config, s: State, before: seq<Event>, pv: string) returns (run: seq<Event>)
    requires IsRun(cfg, s, before)
    requires var t := EndOf(cfg, s, before); Registered(t, pv) && t.calls[pv].job.pc.Returned?
    ensures IsRun(cfg, s, run) && run != []
    ensures var t, u := EndOf(cfg, s, before), EndOf(cfg, s, run);
      && u.c == t.c && u.gc == t.gc && u.born == t.born
      && u.tracker == t.tracker - {pv} && u.calls == t.calls - {pv}
      && u.provisioned == t.provisioned + Recorded(t.calls[pv].job, pv)
      && ReturnsAt(cfg, s, run, |run| - 1, pv, t.calls[pv].job)
  {
    var t := EndOf(cfg, s, before);
    Extended(cfg, s, before, CallUnregisters(pv));
    var almost := before + [CallUnregisters(pv)];
    Extended(cfg, s, almost, CallReturns(pv));
    run := almost + [CallReturns(pv)];
    StateAtPrefix(cfg, s, almost, [CallReturns(pv)], |almost|);
    assert EndOf(cfg, s, almost).calls - {pv} == t.calls - {pv};
  }

  /** A sweep run to its end as the code runs it is a run of the protocol. */
  lemma {:induction false} SweepIsRun(cfg: Config, s: State, w: World, n: nat) returns (run: seq<Event>)
    requires Quiet(w) && (s.gc.Sweeping? ==> s.gc.todo != [])
    ensures IsRun(cfg, s, run)
    ensures var t := EndOf(cfg, s, run);
      && t.gc.Idle? && t.c == GcFinish(cfg, s.gc, s.c, s.tracker, w, n).0
      && t.tracker == s.tracker && t.calls == s.calls
    decreases Left(s.gc), StageRank(s.gc), JobRank(s.gc)
  {
    run := [];
    if s.gc.Sweeping? {
      var e := SweepSteps(w(n));
      var next := Apply(cfg, s, e);
      GcStep(cfg, s.gc, s.c, s.tracker, w, n);
      SweepProgresses(cfg, s.gc, s.c, s.tracker, w(n));
      var rest := SweepIsRun(cfg, next, w, if Asks(s.gc) then n + 1 else n);
      Prepended(cfg, s, e, rest);
      run := [e] + rest;
    }
  }

  /** The clean-up as the method runs it, from the listing on, which is API call number n, is a run of the
      protocol that leaves the cluster the method leaves, and tracker and calls as they were. */
  lemma {:induction false} CleanUpIsRun(cfg: Config, s: State, todo: seq<Listed>, w: World, n: nat)
    returns (run: seq<Event>)
    requires Quiet(w) && s.gc.Idle? && IsListing(cfg, s.c, todo)
    ensures IsRun(cfg, s, run) && run != [] && run[0] == SweepStarts(todo)
    ensures var t := EndOf(cfg, s, run);
      && t.gc.Idle? && t.c == GcFinish(cfg, Begin(todo), s.c, s.tracker, w, n + 1).0
      && t.tracker == s.tracker && t.calls == s.calls
  {
    var listed := Apply(cfg, s, SweepStarts(todo));
    var rest := SweepIsRun(cfg, listed, w, n + 1);
    Prepended(cfg, s, SweepStarts(todo), rest);
    run := [SweepStarts(todo)] + rest;
  }
}
