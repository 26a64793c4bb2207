/** Putting runs together. */
module Runs {
  import opened ServerJob
  import opened Protocol

  function EndOf(cfg: Config, s: State, run: seq<Event>): State {
    StateAt(cfg, s, run, |run|)
  }

  lemma StateAtNext(cfg: Config, s: State, run: seq<Event>, n: nat)
    requires n < |run|
    ensures StateAt(cfg, s, run, n + 1) == Apply(cfg, StateAt(cfg, s, run, n), run[n])
  {
  }

  lemma {:induction false} StateAtPrefix(cfg: Config, s: State, a: seq<Event>, b: seq<Event>, n: nat)
    requires n <= |a|
    ensures StateAt(cfg, s, a + b, n) == StateAt(cfg, s, a, n)
  {
    if n > 0 {
      StateAtPrefix(cfg, s, a, b, n - 1);
      assert (a + b)[n - 1] == a[n - 1];
    }
  }

  lemma {:induction false} StateAtAppended(cfg: Config, s: State, a: seq<Event>, b: seq<Event>, n: nat)
    requires n <= |b|
    ensures StateAt(cfg, s, a + b, |a| + n) == StateAt(cfg, EndOf(cfg, s, a), b, n)
  {
    if n == 0 {
      StateAtPrefix(cfg, s, a, b, |a|);
    } else {
      StateAtAppended(cfg, s, a, b, n - 1);
      assert (a + b)[|a| + n - 1] == b[n - 1];
      StateAtNext(cfg, s, a + b, |a| + n - 1);
      StateAtNext(cfg, EndOf(cfg, s, a), b, n - 1);
    }
  }

  /** A run from the end of a run continues it. */
  lemma Appended(cfg: Config, s: State, a: seq<Event>, b: seq<Event>)
    requires IsRun(cfg, s, a) && IsRun(cfg, EndOf(cfg, s, a), b)
    ensures IsRun(cfg, s, a + b) && EndOf(cfg, s, a + b) == EndOf(cfg, EndOf(cfg, s, a), b)
  {
    forall n | 0 <= n < |a + b| ensures EnabledAt(cfg, s, a + b, n) {
      if n < |a| {
        assert EnabledAt(cfg, s, a, n);
        StateAtPrefix(cfg, s, a, b, n);
      } else {
        assert EnabledAt(cfg, EndOf(cfg, s, a), b, n - |a|);
        StateAtAppended(cfg, s, a, b, n - |a|);
      }
    }
    StateAtAppended(cfg, s, a, b, |b|);
  }

  lemma OneEvent(cfg: Config, s: State, e: Event)
    ensures EndOf(cfg, s, [e]) == Apply(cfg, s, e)
    ensures Enabled(cfg, s, e) ==> IsRun(cfg, s, [e])
  {
    assert StateAt(cfg, s, [e], 0) == s;
    assert Enabled(cfg, s, e) ==> EnabledAt(cfg, s, [e], 0);
  }

  lemma Prepended(cfg: Config, s: State, e: Event, run: seq<Event>)
    requires Enabled(cfg, s, e) && IsRun(cfg, Apply(cfg, s, e), run)
    ensures IsRun(cfg, s, [e] + run) && EndOf(cfg, s, [e] + run) == EndOf(cfg, Apply(cfg, s, e), run)
  {
    OneEvent(cfg, s, e);
    Appended(cfg, s, [e], run);
  }

  lemma Extended(cfg: Config, s: State, run: seq<Event>, e: Event)
    requires IsRun(cfg, s, run) && Enabled(cfg, EndOf(cfg, s, run), e)
    ensures IsRun(cfg, s, run + [e]) && EndOf(cfg, s, run + [e]) == Apply(cfg, EndOf(cfg, s, run), e)
  {
    OneEvent(cfg, EndOf(cfg, s, run), e);
    Appended(cfg, s, run, [e]);
  }

  /** A state reached from a reachable state is reachable. */
  lemma StaysReachable(cfg: Config, s: State, run: seq<Event>)
    requires Reachable(cfg, s) && IsRun(cfg, s, run)
    ensures Reachable(cfg, EndOf(cfg, s, run))
  {
    var s0: State, past: seq<Event>, n: nat :|
      Init(cfg, s0) && IsRun(cfg, s0, past) && n <= |past| && StateAt(cfg, s0, past, n) == s;
    var before := past[..n];
    assert before + past[n..] == past;
    StateAtPrefix(cfg, s0, before, past[n..], n);
    forall m | 0 <= m < n ensures EnabledAt(cfg, s0, before, m) {
      assert EnabledAt(cfg, s0, past, m);
      StateAtPrefix(cfg, s0, before, past[n..], m);
    }
    Appended(cfg, s0, before, run);
    assert StateAt(cfg, s0, before + run, |before + run|) == EndOf(cfg, s, run);
  }
}
