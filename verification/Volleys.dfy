/** Processes that stand before their send and make it one after the other. */
module Volleys {
  import opened Options
  import opened Counting
  import opened Records
  import opened Processes
  import opened Service

  /** About to send a message that `f` counts. */
  predicate Armed(cfg: Config, p: Proc, f: Op -> bool) {
    Live(p) && Shape(p) && p.pc == Sending && f(SendOp(cfg, p))
  }

  /** The `n` processes from `first` on are armed. */
  predicate Loaded(cfg: Config, procs: seq<Proc>, first: nat, n: nat, f: Op -> bool) {
    first + n <= |procs| && forall j :: first <= j < first + n ==> Armed(cfg, procs[j], f)
  }

  const IDLE := Env(None, None, 0, false)

  lemma Sends(cfg: Config, s: Sys, pid: nat, f: Op -> bool)
    requires pid < |s.procs| && Armed(cfg, s.procs[pid], f)
    ensures var a := Advance(pid, Returns, IDLE);
            && Enabled(cfg, s, a)
            && Step(cfg, s, a).w == s.w.(oplog := s.w.oplog + [SendOp(cfg, s.procs[pid])])
            && Step(cfg, s, a).procs == s.procs[pid := ProcAfter(cfg, s, pid, Returns, IDLE)]
  {
    assert OpOf(cfg, s, pid, IDLE) == SendOp(cfg, s.procs[pid]);
  }

  /** A run that, from its state `i` on, leaves every document as it is while `k` messages that `f`
      counts are delivered. */
  ghost predicate Fired(
    cfg: Config, states: seq<Sys>, actions: seq<Action>, i: nat, k: nat, f: Op -> bool)
  {
    && IsRun(cfg, states, actions) && i <= |actions|
    && (forall m :: i <= m <= |actions| ==> states[m].w.convs == states[i].w.convs)
    && Count(states[|actions|].w.oplog, f) == Count(states[i].w.oplog, f) + k
  }

  lemma Prolongs(
    cfg: Config, states: seq<Sys>, actions: seq<Action>, i: nat, k: nat, f: Op -> bool, a: Action, t: Sys)
    requires Fired(cfg, states, actions, i, k, f) && IsRun(cfg, states + [t], actions + [a])
    requires t.w.convs == states[|actions|].w.convs
    requires Count(t.w.oplog, f) == Count(states[|actions|].w.oplog, f) + 1
    ensures Fired(cfg, states + [t], actions + [a], i, k + 1, f)
  {
    assert forall m :: i <= m <= |actions| ==> (states + [t])[m] == states[m];
  }

  lemma FireNext(
    cfg: Config, states: seq<Sys>, actions: seq<Action>, i: nat, k: nat, f: Op -> bool, first: nat, n: nat)
    returns (longer: seq<Sys>, more: seq<Action>)
    requires Fired(cfg, states, actions, i, k, f) && Loaded(cfg, states[|actions|].procs, first, n, f) && n > 0
    ensures Fired(cfg, longer, more, i, k + 1, f) && longer[i] == states[i]
    ensures Loaded(cfg, longer[|more|].procs, first + 1, n - 1, f)
  {
    var s, a := states[|actions|], Advance(first, Returns, IDLE);
    Sends(cfg, s, first, f);
    CountAppend(s.w.oplog, SendOp(cfg, s.procs[first]), f);
    longer, more := states + [Step(cfg, s, a)], actions + [a];
    RunExtends(cfg, states, actions, a);
    Prolongs(cfg, states, actions, i, k, f, a, Step(cfg, s, a));
  }

  lemma {:induction false} Fire(
    cfg: Config, states: seq<Sys>, actions: seq<Action>, i: nat, k: nat, f: Op -> bool, first: nat, n: nat)
    returns (longer: seq<Sys>, more: seq<Action>)
    requires Fired(cfg, states, actions, i, k, f) && Loaded(cfg, states[|actions|].procs, first, n, f)
    ensures Fired(cfg, longer, more, i, k + n, f) && longer[i] == states[i]
    decreases n
  {
    if n == 0 {
      longer, more := states, actions;
    } else {
      longer, more := FireNext(cfg, states, actions, i, k, f, first, n);
      longer, more := Fire(cfg, longer, more, i, k + 1, f, first + 1, n - 1);
    }
  }

  /** From a reachable state, all its armed processes can deliver while no document changes. */
  lemma Volley(cfg: Config, s: Sys, first: nat, n: nat, f: Op -> bool)
    returns (states: seq<Sys>, actions: seq<Action>, i: nat)
    requires Reachable(cfg, s) && Loaded(cfg, s.procs, first, n, f)
    ensures Fired(cfg, states, actions, i, n, f) && states[i] == s
  {
    states, actions :| IsRun(cfg, states, actions) && states[|actions|] == s;
    i := |actions|;
    states, actions := Fire(cfg, states, actions, i, 0, f, first, n);
  }
}
