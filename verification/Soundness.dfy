/** What each program counter says about the effects its process has had so far. */
module Soundness {
  import opened Options
  import opened Records
  import opened Processes
  import opened Service

  predicate Sound(p: Proc) {
    && Shape(p)
    && (p.logged ==> p.sent)
    && (p.escalated ==> p.role.Attempt? && p.logged && p.answer.None?)
    && (p.notified ==> p.escalated)
    && (p.sent ==> p.conv.Some? && p.context.Some?)
    && (!Claims(p) ==> !p.owns && !p.sent)
    && (p.role.AgentReply? || p.role.ResolveOnly? || p.role.CloseRequest? ==> p.conv == Some(p.role.target))
    && match p.pc
       case Resolving => !p.owns && !p.sent && p.conv.None?
       case Claiming => !p.owns && !p.sent
       case Finding => p.owns == p.role.Attempt? && !p.sent
       case Creating => p.owns == p.role.Attempt? && !p.sent
       case Touching => p.owns == p.role.Attempt? && !p.sent
       case LoggingInbound => p.owns && !p.sent
       case Answering => p.owns && !p.sent && p.snap.value.state != Escalated
       case Sending => p.owns && !p.sent && (p.role.Attempt? ==> p.snap.value.state != Escalated)
       case LoggingReply => p.owns && p.sent && !p.logged
       case Escalating => p.owns && p.logged && !p.escalated && p.answer.None?
       case Notifying => p.owns && p.escalated && !p.notified
       case Releasing => p.owns && (p.role.AgentReply? ==> !p.logged)
       case CheckingClaim => !p.owns && !p.sent
       case Rereading => !p.owns && !p.sent
       case ReadingConv => !p.owns && !p.sent
       case ReadingRegistry => p.owns && !p.sent
       case MarkingSent => p.owns && p.sent && !p.logged
       case ReadingForResolve => p.role.AgentReply? ==> p.owns && p.logged
       case WritingResolve => p.role.AgentReply? ==> p.owns && p.logged
       case Ended(Completed) => Claims(p) ==> p.owns && (p.role.AgentReply? ==> p.logged)
       case Ended(Raised) => true
       case Ended(_) => !p.owns && !p.sent
       case _ => true
  }

  /** A task acts on a conversation that exists: documents are never deleted. */
  predicate Placed(w: World, p: Proc) {
    IsTask(p) && p.conv.Some? ==> p.conv.value < |w.convs|
  }

  predicate AllSound(s: Sys) {
    forall i :: 0 <= i < |s.procs| ==> Sound(s.procs[i]) && Placed(s.w, s.procs[i])
  }

  lemma ConvsGrow(w: World, op: Op)
    ensures |w.convs| <= |Perform(w, op).convs|
  {
  }

  /** A process that raises is left in a sound state, whether or not its operation took effect. */
  lemma FailSound(p: Proc, op: Op, applied: bool, now: real)
    requires Sound(p) && Live(p) && Fits(p.pc, op)
    ensures Sound(Fail(if applied then Mark(p, op) else p, now))
  {
  }

  /** What a normal return tells a process about the documents. */
  predicate Informs(w: World, p: Proc, op: Op, applied: bool, r: Response) {
    && (op.InsertClaim? ==> applied == !r.Duplicate?)
    && (op.DeleteClaim? ==> op.ref in w.claims || !applied)
    && (op.Send? || op.InsertRow? || op.Notify? ==> applied)
    && (op.SetEscalated? && Placed(w, p) ==> applied)
  }

  lemma RespondInforms(cfg: Config, w: World, p: Proc, env: Env, nonce: nat)
    requires Sound(p) && Live(p)
    ensures var op := Request(cfg, p, env, nonce);
            Informs(w, p, op, Effective(w, op), Respond(w, op, env))
  {
  }

  lemma ResumeSoundTask(w: World, p: Proc, op: Op, applied: bool, r: Response, env: Env, now: real)
    requires Sound(p) && Placed(w, p) && Live(p) && Fits(p.pc, op) && Informs(w, p, op, applied, r)
    requires IsTask(p)
    ensures Sound(Resume(if applied then Mark(p, op) else p, r, env, now))
  {
  }

  lemma ResumeSoundRequest(w: World, p: Proc, op: Op, applied: bool, r: Response, env: Env, now: real)
    requires Sound(p) && Live(p) && Fits(p.pc, op) && Informs(w, p, op, applied, r)
    requires !IsTask(p)
    ensures Sound(Resume(if applied then Mark(p, op) else p, r, env, now))
  {
  }

  lemma ResumePlaced(w: World, p: Proc, op: Op, env: Env, now: real)
    requires Sound(p) && Placed(w, p) && Live(p) && Fits(p.pc, op)
    ensures var q := if Effective(w, op) then Mark(p, op) else p;
            Placed(Perform(w, op), Resume(q, Respond(w, op, env), env, now))
  {
    ConvsGrow(w, op);
  }

  lemma AfterSound(cfg: Config, s: Sys, pid: nat, fault: Fault, env: Env)
    requires CanAdvance(s, pid) && Sound(s.procs[pid]) && Placed(s.w, s.procs[pid])
    ensures Sound(ProcAfter(cfg, s, pid, fault, env))
    ensures Placed(Step(cfg, s, Advance(pid, fault, env)).w, ProcAfter(cfg, s, pid, fault, env))
  {
    var p, op := s.procs[pid], OpOf(cfg, s, pid, env);
    ConvsGrow(s.w, op);
    if fault == Returns {
      RespondInforms(cfg, s.w, p, env, pid);
      if IsTask(p) {
        ResumeSoundTask(s.w, p, op, Effective(s.w, op), Respond(s.w, op, env), env, s.clock);
      } else {
        ResumeSoundRequest(s.w, p, op, Effective(s.w, op), Respond(s.w, op, env), env, s.clock);
      }
      ResumePlaced(s.w, p, op, env, s.clock);
    } else {
      FailSound(p, op, Applies(cfg, s, pid, fault, env), s.clock);
    }
  }

  lemma SoundStep(cfg: Config, s: Sys, a: Action)
    requires AllSound(s) && Enabled(cfg, s, a)
    ensures AllSound(Step(cfg, s, a))
  {
    if a.Advance? {
      AfterSound(cfg, s, a.pid, a.fault, a.env);
      ConvsGrow(s.w, OpOf(cfg, s, a.pid, a.env));
    }
  }

  /** Everything the invariants need to know about one move of one process. */
  ghost predicate MakesMove(s: Sys, t: Sys, pid: nat, op: Op, applied: bool) {
    && pid < |s.procs| && Live(s.procs[pid]) && Sound(s.procs[pid])
    && |t.procs| == |s.procs| && t.procs == s.procs[pid := t.procs[pid]]
    && Flagged(s.procs[pid], op, applied, t.procs[pid])
    && Steady(s.procs[pid], t.procs[pid])
    && Fits(s.procs[pid].pc, op) && Signed(s.procs[pid], op)
    && (applied ==> Effective(s.w, op))
    && t.w == (if applied then Apply(s.w, op) else s.w)
    && t.clock == s.clock
  }

  lemma AdvanceMoves(cfg: Config, s: Sys, pid: nat, fault: Fault, env: Env)
    requires AllSound(s) && CanAdvance(s, pid)
    ensures MakesMove(s, Step(cfg, s, Advance(pid, fault, env)), pid, OpOf(cfg, s, pid, env),
                      Applies(cfg, s, pid, fault, env))
  {
    var p, op := s.procs[pid], OpOf(cfg, s, pid, env);
    RequestSigned(cfg, p, env, pid);
    AfterFlagged(p, op, Applies(cfg, s, pid, fault, env), Respond(s.w, op, env), fault, env, s.clock);
    AfterSteady(p, op, Applies(cfg, s, pid, fault, env), Respond(s.w, op, env), fault, env, s.clock);
  }
}
