/** How far Jane may lag behind an escalation: messages sent on a stale snapshot. */
module Quiet {
  import opened Options
  import opened Counting
  import opened Records
  import opened Processes
  import opened Service
  import opened Soundness

  /** An attempt that read the conversation as not escalated and may still send. */
  predicate MaySend(p: Proc, c: nat) {
    && Live(p) && p.role.Attempt? && p.conv == Some(c)
    && (p.pc == Touching || p.pc == LoggingInbound || p.pc == Answering || p.pc == Sending)
    && p.snap.Some? && p.snap.value.state != Escalated
  }

  function Pending(c: nat): Proc -> bool { (p: Proc) => MaySend(p, c) }
  function JaneSend(c: nat): Op -> bool { (op: Op) => op.Send? && op.conv == c && op.sender.Jane? }

  ghost predicate QuietInvariant(cfg: Config, s: Sys) {
    && AllSound(s)
    && Count(s.procs, LiveAttempts()) <= cfg.slots
    && forall c :: IsEscalated(s, c) ==> Count(s.procs, Pending(c)) < cfg.slots
  }

  /** While a conversation is escalated, no process starts to be a pending sender. */
  lemma NoNewPending(s: Sys, p: Proc, op: Op, applied: bool, r: Response, fault: Fault, env: Env, c: nat)
    requires Sound(p) && Live(p) && Fits(p.pc, op) && r == Respond(s.w, op, env)
    requires IsEscalated(s, c) && MaySend(After(p, op, applied, r, fault, env, s.clock), c)
    ensures MaySend(p, c) && !op.Send?
  {
    var q := After(p, op, applied, r, fault, env, s.clock);
    assert fault == Returns;
    assert q.pc == NextPc(if applied then Mark(p, op) else p, r, env);
  }

  /** Whoever sends as Jane on a conversation was a pending sender. */
  lemma SenderWasPending(cfg: Config, s: Sys, pid: nat, env: Env, c: nat)
    requires AllSound(s) && CanAdvance(s, pid) && JaneSend(c)(OpOf(cfg, s, pid, env))
    ensures MaySend(s.procs[pid], c)
  {
    RequestSigned(cfg, s.procs[pid], env, pid);
  }

  lemma PendingShrinks(cfg: Config, s: Sys, a: Action, c: nat, pid: nat)
    requires AllSound(s) && Enabled(cfg, s, a) && IsEscalated(s, c)
    requires pid < |Step(cfg, s, a).procs| && MaySend(Step(cfg, s, a).procs[pid], c)
    ensures pid < |s.procs| && MaySend(s.procs[pid], c)
  {
    if a.Advance? && a.pid == pid {
      var op := OpOf(cfg, s, pid, a.env);
      NoNewPending(s, s.procs[pid], op, Applies(cfg, s, pid, a.fault, a.env), Respond(s.w, op, a.env), a.fault,
          a.env, c);
    }
  }

  /** A step on an escalated conversation never raises the sum of messages sent and still pending. */
  lemma LagStep(cfg: Config, s: Sys, a: Action, c: nat)
    requires AllSound(s) && Enabled(cfg, s, a) && IsEscalated(s, c)
    ensures var t := Step(cfg, s, a);
            Count(t.procs, Pending(c)) + Count(t.w.oplog, JaneSend(c))
            <= Count(s.procs, Pending(c)) + Count(s.w.oplog, JaneSend(c))
  {
    match a {
      case Start(job) => CountAppend(s.procs, Spawn(Attempt(job, s.jobs[job].msg), s.clock), Pending(c));
      case Arrive(role) => CountAppend(s.procs, Spawn(role, s.clock), Pending(c));
      case Advance(pid, fault, env) =>
        var op, q := OpOf(cfg, s, pid, env), ProcAfter(cfg, s, pid, fault, env);
        CountUpdate(s.procs, pid, q, Pending(c));
        CountAppend(s.w.oplog, op, JaneSend(c));
        if MaySend(q, c) {
          NoNewPending(s, s.procs[pid], op, Applies(cfg, s, pid, fault, env), Respond(s.w, op, env), fault, env, c);
        }
        if JaneSend(c)(op) {
          SenderWasPending(cfg, s, pid, env, c);
        }
      case Crash(pid, _) => CountUpdate(s.procs, pid, s.procs[pid].(alive := false), Pending(c));
      case Expire(ref) => CountAppend(s.w.oplog, ExpireClaim(ref), JaneSend(c));
      case _ =>
    }
  }

  lemma SlotsStep(cfg: Config, s: Sys, a: Action)
    requires QuietInvariant(cfg, s) && Enabled(cfg, s, a)
    ensures Count(Step(cfg, s, a).procs, LiveAttempts()) <= cfg.slots
  {
    match a {
      case Start(job) => CountAppend(s.procs, Spawn(Attempt(job, s.jobs[job].msg), s.clock), LiveAttempts());
      case Arrive(role) => CountAppend(s.procs, Spawn(role, s.clock), LiveAttempts());
      case Advance(pid, fault, env) =>
        AdvanceMoves(cfg, s, pid, fault, env);
        CountUpdate(s.procs, pid, ProcAfter(cfg, s, pid, fault, env), LiveAttempts());
      case Crash(pid, _) => CountUpdate(s.procs, pid, s.procs[pid].(alive := false), LiveAttempts());
      case _ =>
    }
  }

  lemma StateBecomesEscalated(w: World, op: Op, c: nat)
    requires Effective(w, op) && c < |Apply(w, op).convs| && Apply(w, op).convs[c].state == Escalated
    requires !(c < |w.convs| && w.convs[c].state == Escalated)
    ensures (op.SetEscalated? && op.conv == c) || (op.InsertConv? && op.doc.state == Escalated)
  {
  }

  /** Only an escalation's own write makes a conversation escalated. */
  lemma EscalationBegins(cfg: Config, s: Sys, a: Action, c: nat)
    requires AllSound(s) && Enabled(cfg, s, a) && !IsEscalated(s, c) && IsEscalated(Step(cfg, s, a), c)
    ensures a.Advance? && s.procs[a.pid].pc == Escalating && Applies(cfg, s, a.pid, a.fault, a.env)
  {
    if a.Advance? {
      var op := OpOf(cfg, s, a.pid, a.env);
      RequestSigned(cfg, s.procs[a.pid], a.env, a.pid);
      if Applies(cfg, s, a.pid, a.fault, a.env) {
        StateBecomesEscalated(s.w, op, c);
      }
    }
  }

  /** The attempt that escalates occupies a slot and has nothing left to send. */
  lemma LagBegins(cfg: Config, s: Sys, a: Action, c: nat)
    requires QuietInvariant(cfg, s) && Enabled(cfg, s, a) && !IsEscalated(s, c) && IsEscalated(Step(cfg, s, a), c)
    ensures Count(Step(cfg, s, a).procs, Pending(c)) < cfg.slots
  {
    EscalationBegins(cfg, s, a, c);
    var p, q := s.procs[a.pid], ProcAfter(cfg, s, a.pid, a.fault, a.env);
    assert !MaySend(p, c) && !MaySend(q, c);
    CountUpdate(s.procs, a.pid, q, Pending(c));
    CountMonoStrict(s.procs, Pending(c), LiveAttempts(), a.pid);
  }

  lemma QuietStep(cfg: Config, s: Sys, a: Action)
    requires QuietInvariant(cfg, s) && Enabled(cfg, s, a)
    ensures QuietInvariant(cfg, Step(cfg, s, a))
  {
    SoundStep(cfg, s, a);
    SlotsStep(cfg, s, a);
    var t := Step(cfg, s, a);
    forall c | IsEscalated(t, c) ensures Count(t.procs, Pending(c)) < cfg.slots {
      if IsEscalated(s, c) {
        LagStep(cfg, s, a, c);
        SendsOnlyGrow(cfg, s, a, c);
      } else {
        LagBegins(cfg, s, a, c);
      }
    }
  }

  lemma SendsOnlyGrow(cfg: Config, s: Sys, a: Action, c: nat)
    requires Enabled(cfg, s, a)
    ensures Count(s.w.oplog, JaneSend(c)) <= Count(Step(cfg, s, a).w.oplog, JaneSend(c))
  {
    if a.Advance? {
      CountAppend(s.w.oplog, OpOf(cfg, s, a.pid, a.env), JaneSend(c));
    } else if a.Expire? {
      CountAppend(s.w.oplog, ExpireClaim(a.ref), JaneSend(c));
    }
  }

  lemma {:induction false} QuietInRun(cfg: Config, states: seq<Sys>, actions: seq<Action>, k: nat)
    requires IsRun(cfg, states, actions) && k <= |actions|
    ensures QuietInvariant(cfg, states[k])
  {
    if k == 0 {
      assert Count(INITIAL.procs, LiveAttempts()) == 0;
    } else {
      QuietInRun(cfg, states, actions, k - 1);
      assert Follows(cfg, states, actions, k - 1);
      QuietStep(cfg, states[k - 1], actions[k - 1]);
    }
  }

  lemma LagStepInRun(cfg: Config, states: seq<Sys>, actions: seq<Action>, c: nat, k: nat)
    requires IsRun(cfg, states, actions) && k < |actions| && IsEscalated(states[k], c)
    ensures Count(states[k + 1].procs, Pending(c)) + Count(states[k + 1].w.oplog, JaneSend(c))
            <= Count(states[k].procs, Pending(c)) + Count(states[k].w.oplog, JaneSend(c))
  {
    QuietInRun(cfg, states, actions, k);
    var s, a := states[k], actions[k];
    assert Follows(cfg, states, actions, k);
    LagStep(cfg, s, a, c);
  }

  lemma {:induction false} LagInRun(cfg: Config, states: seq<Sys>, actions: seq<Action>, c: nat, i: nat, j: nat)
    requires IsRun(cfg, states, actions) && i <= j <= |actions|
    requires forall k :: i <= k <= j ==> IsEscalated(states[k], c)
    ensures Count(states[j].procs, Pending(c)) + Count(states[j].w.oplog, JaneSend(c))
            <= Count(states[i].procs, Pending(c)) + Count(states[i].w.oplog, JaneSend(c))
  {
    if i < j {
      LagInRun(cfg, states, actions, c, i, j - 1);
      LagStepInRun(cfg, states, actions, c, j - 1);
    }
  }

  /** Bounded lag: during any stretch in which a conversation stays escalated, Jane delivers at
      most `slots - 1` messages on it, in every interleaving. */
  lemma BoundedLag(cfg: Config, states: seq<Sys>, actions: seq<Action>, c: nat, i: nat, j: nat)
    requires IsRun(cfg, states, actions) && i <= j <= |actions|
    requires forall k :: i <= k <= j ==> IsEscalated(states[k], c)
    ensures Count(states[j].w.oplog, JaneSend(c)) - Count(states[i].w.oplog, JaneSend(c)) <= cfg.slots - 1
  {
    QuietInRun(cfg, states, actions, i);
    LagInRun(cfg, states, actions, c, i, j);
  }

  lemma PendingInRun(cfg: Config, states: seq<Sys>, actions: seq<Action>, c: nat, k: nat, pid: nat)
    requires IsRun(cfg, states, actions) && k < |actions| && IsEscalated(states[k], c)
    requires pid < |states[k + 1].procs| && MaySend(states[k + 1].procs[pid], c)
    ensures pid < |states[k].procs| && MaySend(states[k].procs[pid], c)
  {
    QuietInRun(cfg, states, actions, k);
    var s, a := states[k], actions[k];
    assert Follows(cfg, states, actions, k);
    PendingShrinks(cfg, s, a, c, pid);
  }

  /** A message delivered during the stretch comes from an attempt that had already taken its
      unescalated snapshot when the stretch began. */
  lemma {:induction false} LateSenderReadBefore(
    cfg: Config, states: seq<Sys>, actions: seq<Action>, c: nat, i: nat, j: nat, pid: nat)
    requires IsRun(cfg, states, actions) && i <= j <= |actions|
    requires forall k :: i <= k <= j ==> IsEscalated(states[k], c)
    requires pid < |states[j].procs| && MaySend(states[j].procs[pid], c)
    ensures pid < |states[i].procs| && MaySend(states[i].procs[pid], c)
  {
    if i < j {
      PendingInRun(cfg, states, actions, c, j - 1, pid);
      LateSenderReadBefore(cfg, states, actions, c, i, j - 1, pid);
    }
  }

  /** Every message Jane sends during the stretch is sent by an attempt that had read the
      conversation, unescalated, before the stretch began. */
  lemma LateSendsAreOld(
    cfg: Config, states: seq<Sys>, actions: seq<Action>, c: nat, i: nat, k: nat)
    requires IsRun(cfg, states, actions) && i <= k < |actions| && actions[k].Advance?
    requires forall m :: i <= m <= k ==> IsEscalated(states[m], c)
    requires CanAdvance(states[k], actions[k].pid)
    requires JaneSend(c)(OpOf(cfg, states[k], actions[k].pid, actions[k].env))
    ensures actions[k].pid < |states[i].procs| && MaySend(states[i].procs[actions[k].pid], c)
  {
    QuietInRun(cfg, states, actions, k);
    SenderWasPending(cfg, states[k], actions[k].pid, actions[k].env, c);
    LateSenderReadBefore(cfg, states, actions, c, i, k, actions[k].pid);
  }
}
