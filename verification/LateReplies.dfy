/** How far agents may lag behind a resolve: replies sent on a reading that is out of date. */
module LateReplies {
  import opened Options
  import opened Counting
  import opened Records
  import opened Processes
  import opened Service
  import opened Soundness

  /** Past the check of the state and not yet sent: the state is not read again on the way. */
  predicate BetweenCheckAndSend(p: Proc) {
    p.role.AgentReply? && (p.pc == Claiming || p.pc == ReadingRegistry || p.pc == Sending)
  }

  predicate HoldsEscalated(p: Proc) {
    p.snap.Some? && p.snap.value.state == Escalated
  }

  /** A request that read the conversation as escalated and may still send. */
  predicate MayReply(p: Proc, c: nat) {
    Live(p) && BetweenCheckAndSend(p) && p.conv == Some(c) && HoldsEscalated(p)
  }

  function Pending(c: nat): Proc -> bool { (p: Proc) => MayReply(p, c) }
  function AgentSend(c: nat): Op -> bool { (op: Op) => op.Send? && op.conv == c && op.sender.Agent? }

  ghost predicate AllRead(s: Sys) {
    AllSound(s) && forall i :: 0 <= i < |s.procs| && BetweenCheckAndSend(s.procs[i]) ==> HoldsEscalated(s.procs[i])
  }

  /** A request passes the check only by reading the conversation as escalated. */
  lemma PassesByReading(p: Proc, op: Op, applied: bool, r: Response, fault: Fault, env: Env, now: real)
    requires Shape(p) && Live(p) && Fits(p.pc, op)
    requires BetweenCheckAndSend(After(p, op, applied, r, fault, env, now))
    ensures var q := After(p, op, applied, r, fault, env, now);
            && fault == Returns && !op.Send? && q.conv == p.conv
            && (if p.pc == ReadingConv then r.Found? && q.snap == Some(r.doc) && r.doc.state == Escalated
                else BetweenCheckAndSend(p) && q.snap == p.snap)
  {
    var q := After(p, op, applied, r, fault, env, now);
    assert fault == Returns;
    assert q.pc == NextPc(if applied then Mark(p, op) else p, r, env);
  }

  lemma ReadStep(cfg: Config, s: Sys, a: Action)
    requires AllRead(s) && Enabled(cfg, s, a)
    ensures AllRead(Step(cfg, s, a))
  {
    SoundStep(cfg, s, a);
    if a.Advance? && BetweenCheckAndSend(ProcAfter(cfg, s, a.pid, a.fault, a.env)) {
      var op := OpOf(cfg, s, a.pid, a.env);
      PassesByReading(s.procs[a.pid], op, Applies(cfg, s, a.pid, a.fault, a.env), Respond(s.w, op, a.env), a.fault,
                      a.env, s.clock);
    }
  }

  lemma {:induction false} ReadInRun(cfg: Config, states: seq<Sys>, actions: seq<Action>, k: nat)
    requires IsRun(cfg, states, actions) && k <= |actions|
    ensures AllRead(states[k])
  {
    if k == 0 {
      assert AllSound(INITIAL);
    } else {
      ReadInRun(cfg, states, actions, k - 1);
      assert Follows(cfg, states, actions, k - 1);
      ReadStep(cfg, states[k - 1], actions[k - 1]);
    }
  }

  /** While a conversation is not escalated, no request starts to be a pending sender. */
  lemma NoNewPending(s: Sys, p: Proc, op: Op, applied: bool, r: Response, fault: Fault, env: Env, c: nat)
    requires Sound(p) && Live(p) && Fits(p.pc, op) && Signed(p, op) && r == Respond(s.w, op, env)
    requires !IsEscalated(s, c) && MayReply(After(p, op, applied, r, fault, env, s.clock), c)
    ensures MayReply(p, c) && !op.Send?
  {
    PassesByReading(p, op, applied, r, fault, env, s.clock);
  }

  /** Whoever sends as an agent on a conversation was a pending sender. */
  lemma SenderWasPending(cfg: Config, s: Sys, pid: nat, env: Env, c: nat)
    requires AllRead(s) && CanAdvance(s, pid) && AgentSend(c)(OpOf(cfg, s, pid, env))
    ensures MayReply(s.procs[pid], c)
  {
    RequestSigned(cfg, s.procs[pid], env, pid);
  }

  lemma PendingShrinks(cfg: Config, s: Sys, a: Action, c: nat, pid: nat)
    requires AllRead(s) && Enabled(cfg, s, a) && !IsEscalated(s, c)
    requires pid < |Step(cfg, s, a).procs| && MayReply(Step(cfg, s, a).procs[pid], c)
    ensures pid < |s.procs| && MayReply(s.procs[pid], c)
  {
    if a.Advance? && a.pid == pid {
      var op := OpOf(cfg, s, pid, a.env);
      RequestSigned(cfg, s.procs[pid], a.env, pid);
      NoNewPending(s, s.procs[pid], op, Applies(cfg, s, pid, a.fault, a.env), Respond(s.w, op, a.env), a.fault,
                   a.env, c);
    }
  }

  /** A pending sender that sends is no longer pending, and no other process becomes one. */
  lemma AdvancePends(cfg: Config, s: Sys, pid: nat, fault: Fault, env: Env, c: nat)
    requires AllRead(s) && CanAdvance(s, pid) && !IsEscalated(s, c)
    ensures One(MayReply(ProcAfter(cfg, s, pid, fault, env), c)) + One(AgentSend(c)(OpOf(cfg, s, pid, env)))
            <= One(MayReply(s.procs[pid], c))
  {
    var op := OpOf(cfg, s, pid, env);
    RequestSigned(cfg, s.procs[pid], env, pid);
    if MayReply(ProcAfter(cfg, s, pid, fault, env), c) {
      NoNewPending(s, s.procs[pid], op, Applies(cfg, s, pid, fault, env), Respond(s.w, op, env), fault, env, c);
    } else if AgentSend(c)(op) {
      SenderWasPending(cfg, s, pid, env, c);
    }
  }

  lemma AdvanceIs(cfg: Config, s: Sys, pid: nat, fault: Fault, env: Env)
    requires CanAdvance(s, pid)
    ensures var t, op := Step(cfg, s, Advance(pid, fault, env)), OpOf(cfg, s, pid, env);
            && t.procs == s.procs[pid := ProcAfter(cfg, s, pid, fault, env)]
            && t.w.oplog == if Applies(cfg, s, pid, fault, env) then s.w.oplog + [op] else s.w.oplog
  {
  }

  lemma AdvanceLags(cfg: Config, s: Sys, pid: nat, fault: Fault, env: Env, c: nat)
    requires AllRead(s) && CanAdvance(s, pid) && !IsEscalated(s, c)
    ensures var t := Step(cfg, s, Advance(pid, fault, env));
            Count(t.procs, Pending(c)) + Count(t.w.oplog, AgentSend(c))
            <= Count(s.procs, Pending(c)) + Count(s.w.oplog, AgentSend(c))
  {
    AdvancePends(cfg, s, pid, fault, env, c);
    AdvanceIs(cfg, s, pid, fault, env);
    NeverMore(s.w.oplog, OpOf(cfg, s, pid, env), Applies(cfg, s, pid, fault, env), AgentSend(c),
              s.procs, pid, ProcAfter(cfg, s, pid, fault, env), Pending(c));
  }

  /** A step on a conversation that is not escalated never raises the sum of replies sent and still
      pending. */
  lemma LagStep(cfg: Config, s: Sys, a: Action, c: nat)
    requires AllRead(s) && Enabled(cfg, s, a) && !IsEscalated(s, c)
    ensures var t := Step(cfg, s, a);
            Count(t.procs, Pending(c)) + Count(t.w.oplog, AgentSend(c))
            <= Count(s.procs, Pending(c)) + Count(s.w.oplog, AgentSend(c))
  {
    match a {
      case Start(job) => CountAppend(s.procs, Spawn(Attempt(job, s.jobs[job].msg), s.clock), Pending(c));
      case Arrive(role) => CountAppend(s.procs, Spawn(role, s.clock), Pending(c));
      case Advance(pid, fault, env) => AdvanceLags(cfg, s, pid, fault, env, c);
      case Crash(pid, _) => CountUpdate(s.procs, pid, s.procs[pid].(alive := false), Pending(c));
      case Expire(ref) => CountAppend(s.w.oplog, ExpireClaim(ref), AgentSend(c));
      case _ =>
    }
  }

  lemma LagStepInRun(cfg: Config, states: seq<Sys>, actions: seq<Action>, c: nat, k: nat)
    requires IsRun(cfg, states, actions) && k < |actions| && !IsEscalated(states[k], c)
    ensures Count(states[k + 1].procs, Pending(c)) + Count(states[k + 1].w.oplog, AgentSend(c))
            <= Count(states[k].procs, Pending(c)) + Count(states[k].w.oplog, AgentSend(c))
  {
    ReadInRun(cfg, states, actions, k);
    var s, a := states[k], actions[k];
    assert Follows(cfg, states, actions, k);
    LagStep(cfg, s, a, c);
  }

  lemma {:induction false} LagInRun(cfg: Config, states: seq<Sys>, actions: seq<Action>, c: nat, i: nat, j: nat)
    requires IsRun(cfg, states, actions) && i <= j <= |actions|
    requires forall k :: i <= k < j ==> !IsEscalated(states[k], c)
    ensures Count(states[j].procs, Pending(c)) + Count(states[j].w.oplog, AgentSend(c))
            <= Count(states[i].procs, Pending(c)) + Count(states[i].w.oplog, AgentSend(c))
  {
    if i < j {
      LagInRun(cfg, states, actions, c, i, j - 1);
      LagStepInRun(cfg, states, actions, c, j - 1);
    }
  }

  /** During any stretch in which a conversation is not escalated, agents deliver at most as many
      messages on it as there were requests past their check when the stretch began. */
  lemma RepliesAfterResolve(cfg: Config, states: seq<Sys>, actions: seq<Action>, c: nat, i: nat, j: nat)
    requires IsRun(cfg, states, actions) && i <= j <= |actions|
    requires forall k :: i <= k < j ==> !IsEscalated(states[k], c)
    ensures Count(states[j].w.oplog, AgentSend(c)) - Count(states[i].w.oplog, AgentSend(c))
            <= Count(states[i].procs, Pending(c))
  {
    LagInRun(cfg, states, actions, c, i, j);
  }

  lemma PendingInRun(cfg: Config, states: seq<Sys>, actions: seq<Action>, c: nat, k: nat, pid: nat)
    requires IsRun(cfg, states, actions) && k < |actions| && !IsEscalated(states[k], c)
    requires pid < |states[k + 1].procs| && MayReply(states[k + 1].procs[pid], c)
    ensures pid < |states[k].procs| && MayReply(states[k].procs[pid], c)
    ensures states[k].procs[pid].snap == states[k + 1].procs[pid].snap
  {
    ReadInRun(cfg, states, actions, k);
    var s, a := states[k], actions[k];
    assert Follows(cfg, states, actions, k);
    PendingShrinks(cfg, s, a, c, pid);
    if a.Advance? && a.pid == pid {
      var op := OpOf(cfg, s, pid, a.env);
      PassesByReading(s.procs[pid], op, Applies(cfg, s, pid, a.fault, a.env), Respond(s.w, op, a.env), a.fault, a.env,
                      s.clock);
    }
  }

  lemma {:induction false} LateSenderReadBefore(
    cfg: Config, states: seq<Sys>, actions: seq<Action>, c: nat, i: nat, j: nat, pid: nat)
    requires IsRun(cfg, states, actions) && i <= j <= |actions|
    requires forall k :: i <= k < j ==> !IsEscalated(states[k], c)
    requires pid < |states[j].procs| && MayReply(states[j].procs[pid], c)
    ensures pid < |states[i].procs| && MayReply(states[i].procs[pid], c)
    ensures states[i].procs[pid].snap == states[j].procs[pid].snap
  {
    if i < j {
      PendingInRun(cfg, states, actions, c, j - 1, pid);
      LateSenderReadBefore(cfg, states, actions, c, i, j - 1, pid);
    }
  }

  /** Every message an agent sends during the stretch is sent by a request that held, when the
      stretch began, the very reading of the conversation as escalated on which it sends. */
  lemma LateRepliesAreOld(cfg: Config, states: seq<Sys>, actions: seq<Action>, c: nat, i: nat, k: nat)
    requires IsRun(cfg, states, actions) && i <= k < |actions| && actions[k].Advance?
    requires forall m :: i <= m < k ==> !IsEscalated(states[m], c)
    requires CanAdvance(states[k], actions[k].pid)
    requires AgentSend(c)(OpOf(cfg, states[k], actions[k].pid, actions[k].env))
    ensures actions[k].pid < |states[i].procs| && MayReply(states[i].procs[actions[k].pid], c)
    ensures states[i].procs[actions[k].pid].snap == states[k].procs[actions[k].pid].snap
  {
    ReadInRun(cfg, states, actions, k);
    SenderWasPending(cfg, states[k], actions[k].pid, actions[k].env, c);
    LateSenderReadBefore(cfg, states, actions, c, i, k, actions[k].pid);
  }
}
