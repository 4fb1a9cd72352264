/** What an attempt has done for its message by the time it completes. */
module Completion {
  import opened Options
  import opened Phone
  import opened Records
  import opened Processes
  import opened Service
  import opened Soundness

  /** It knows its sender's brand and conversation. */
  predicate Briefed(p: Proc) {
    p.role.Attempt? && p.context.Some? && p.conv.Some? && p.snap.Some?
  }

  /** What the customer said is in the log of the conversation. */
  ghost predicate Heard(w: World, p: Proc)
    requires Briefed(p)
  {
    exists at: real :: Row(p.conv.value, FromCustomer, p.role.msg.text, at) in w.rows
  }

  /** What Jane says: the engine's answer, if there is one. */
  function Said(p: Proc): string {
    if p.answer.Some? then p.answer.value else "Let me check that and get back to you shortly!"
  }

  /** That was delivered to its sender, from the number the sender wrote to. */
  predicate Delivered(w: World, p: Proc)
    requires Briefed(p)
  {
    && p.sent
    && Send(p.conv.value, Jane(p.role.msg.id, p.answer.None?), Addressed(p.role.msg.sender), p.role.msg.number,
            p.context.value.token, Said(p)) in w.oplog
  }

  /** Its reply is in the log of the conversation. */
  ghost predicate Logged(w: World, p: Proc)
    requires Briefed(p)
  {
    p.logged && exists at: real :: Row(p.conv.value, FromJane(p.answer.None?), Said(p), at) in w.rows
  }

  /** Its conversation was escalated for want of an answer. */
  ghost predicate HandedOver(w: World, p: Proc)
    requires Briefed(p)
  {
    && p.escalated
    && exists at: real ::
         SetEscalated(p.conv.value, "No exact match in operational_facts for this question.", at) in w.oplog
  }

  /** Somebody was told about the question. */
  predicate Told(w: World, p: Proc)
    requires Briefed(p)
  {
    && p.notified
    && Notify(p.conv.value, p.role.msg.text, "No exact match in operational_facts for this question.",
              p.context.value.inbox) in w.oplog
  }

  predicate FoundEscalated(p: Proc)
    requires Briefed(p)
  {
    p.snap.value.state == Escalated
  }

  /** What a completed attempt did: it logged what the customer said; it kept silent if it had found
      the conversation escalated; otherwise it delivered and logged its reply and, if it had no
      answer, escalated and notified. */
  ghost predicate Concluded(w: World, p: Proc) {
    && Briefed(p) && p.owns && Heard(w, p)
    && (if FoundEscalated(p) then !p.sent && !p.logged && !p.escalated && !p.notified
        else
          && Delivered(w, p) && Logged(w, p)
          && (if p.answer.None? then HandedOver(w, p) && Told(w, p) else !p.escalated && !p.notified))
  }

  /** What an attempt has done at each of its program counters. */
  ghost predicate Trail(w: World, p: Proc) {
    match p.pc
    case Answering => Briefed(p) && Heard(w, p)
    case Sending => Briefed(p) && Heard(w, p)
    case LoggingReply => Briefed(p) && !FoundEscalated(p) && Heard(w, p) && Delivered(w, p)
    case Escalating => Briefed(p) && !FoundEscalated(p) && Heard(w, p) && Delivered(w, p) && Logged(w, p)
    case Notifying =>
      && Briefed(p) && !FoundEscalated(p) && p.answer.None?
      && Heard(w, p) && Delivered(w, p) && Logged(w, p) && HandedOver(w, p)
    case Ended(Completed) => Concluded(w, p)
    case _ => true
  }

  ghost predicate TrailAt(s: Sys, i: nat) {
    i < |s.procs| && s.procs[i].role.Attempt? ==> Trail(s.w, s.procs[i])
  }

  ghost predicate AllTrails(s: Sys) {
    AllSound(s) && forall i: nat :: TrailAt(s, i)
  }

  /** Rows and log only grow. */
  ghost predicate Grows(w: World, y: World) {
    (forall row :: row in w.rows ==> row in y.rows) && (forall op :: op in w.oplog ==> op in y.oplog)
  }

  lemma PerformGrows(w: World, op: Op)
    ensures Grows(w, Perform(w, op))
  {
  }

  lemma TrailGrows(w: World, y: World, p: Proc)
    requires p.role.Attempt? && Trail(w, p) && Grows(w, y)
    ensures Trail(y, p)
  {
  }

  /** An attempt whose worker is lost leaves what it had done. */
  lemma TrailOutlives(w: World, p: Proc)
    requires p.role.Attempt? && Trail(w, p) && Live(p)
    ensures Trail(w, p.(alive := false))
  {
  }

  lemma ListeningTrail(cfg: Config, s: Sys, pid: nat, env: Env)
    requires AllTrails(s) && CanAdvance(s, pid) && s.procs[pid].role.Attempt?
    requires s.procs[pid].pc == LoggingInbound || s.procs[pid].pc == Answering
    ensures Trail(Step(cfg, s, Advance(pid, Returns, env)).w, ProcAfter(cfg, s, pid, Returns, env))
  {
    var p, y := s.procs[pid], Step(cfg, s, Advance(pid, Returns, env)).w;
    PerformGrows(s.w, OpOf(cfg, s, pid, env));
    if p.pc == LoggingInbound {
      assert Row(p.conv.value, FromCustomer, p.role.msg.text, p.at) in y.rows;
    } else {
      assert TrailAt(s, pid);
    }
  }

  lemma SendingTrail(cfg: Config, s: Sys, pid: nat, env: Env)
    requires AllTrails(s) && CanAdvance(s, pid) && s.procs[pid].role.Attempt? && s.procs[pid].pc == Sending
    ensures Trail(Step(cfg, s, Advance(pid, Returns, env)).w, ProcAfter(cfg, s, pid, Returns, env))
  {
    assert TrailAt(s, pid);
    PerformGrows(s.w, OpOf(cfg, s, pid, env));
    var p := s.procs[pid];
    assert SendOp(cfg, p) == Send(p.conv.value, Jane(p.role.msg.id, p.answer.None?), Addressed(p.role.msg.sender),
                                  p.role.msg.number, p.context.value.token, Said(p));
  }

  lemma LoggingTrail(cfg: Config, s: Sys, pid: nat, env: Env)
    requires AllTrails(s) && CanAdvance(s, pid) && s.procs[pid].role.Attempt? && s.procs[pid].pc == LoggingReply
    ensures Trail(Step(cfg, s, Advance(pid, Returns, env)).w, ProcAfter(cfg, s, pid, Returns, env))
  {
    assert TrailAt(s, pid);
    var p, q := s.procs[pid], ProcAfter(cfg, s, pid, Returns, env);
    PerformGrows(s.w, OpOf(cfg, s, pid, env));
    assert ReplyRow(p) == Row(p.conv.value, FromJane(p.answer.None?), Said(p), p.at);
  }

  lemma EscalatingTrail(cfg: Config, s: Sys, pid: nat, env: Env)
    requires AllTrails(s) && CanAdvance(s, pid) && s.procs[pid].role.Attempt? && s.procs[pid].pc == Escalating
    ensures Trail(Step(cfg, s, Advance(pid, Returns, env)).w, ProcAfter(cfg, s, pid, Returns, env))
  {
    assert TrailAt(s, pid);
    var p, q := s.procs[pid], ProcAfter(cfg, s, pid, Returns, env);
    PerformGrows(s.w, OpOf(cfg, s, pid, env));
    assert SetEscalated(q.conv.value, ESCALATION_REASON, p.at) in Step(cfg, s, Advance(pid, Returns, env)).w.oplog;
  }

  lemma NotifyingTrail(cfg: Config, s: Sys, pid: nat, env: Env)
    requires AllTrails(s) && CanAdvance(s, pid) && s.procs[pid].role.Attempt? && s.procs[pid].pc == Notifying
    ensures Trail(Step(cfg, s, Advance(pid, Returns, env)).w, ProcAfter(cfg, s, pid, Returns, env))
  {
    assert TrailAt(s, pid);
    var p, q := s.procs[pid], ProcAfter(cfg, s, pid, Returns, env);
    PerformGrows(s.w, OpOf(cfg, s, pid, env));
  }

  predicate LeavesNoTrail(pc: Pc) {
    pc == Resolving || pc == Claiming || pc == Finding || pc == Creating || pc == Touching || pc == Releasing
  }

  /** Nothing is claimed of the other program counters, nor after a raise. */
  lemma OtherTrail(cfg: Config, s: Sys, pid: nat, fault: Fault, env: Env)
    requires AllSound(s) && CanAdvance(s, pid) && s.procs[pid].role.Attempt?
    requires fault != Returns || LeavesNoTrail(s.procs[pid].pc)
    ensures var q := ProcAfter(cfg, s, pid, fault, env);
            q.pc != Answering && q.pc != Sending && q.pc != LoggingReply && q.pc != Escalating && q.pc != Notifying
            && q.pc != Ended(Completed)
  {
  }

  lemma MoverTrail(cfg: Config, s: Sys, pid: nat, fault: Fault, env: Env)
    requires AllTrails(s) && CanAdvance(s, pid) && s.procs[pid].role.Attempt?
    ensures Trail(Step(cfg, s, Advance(pid, fault, env)).w, ProcAfter(cfg, s, pid, fault, env))
  {
    var pc := s.procs[pid].pc;
    if fault != Returns || LeavesNoTrail(pc) {
      OtherTrail(cfg, s, pid, fault, env);
    } else if pc == LoggingInbound || pc == Answering {
      ListeningTrail(cfg, s, pid, env);
    } else if pc == Sending {
      SendingTrail(cfg, s, pid, env);
    } else if pc == LoggingReply {
      LoggingTrail(cfg, s, pid, env);
    } else if pc == Escalating {
      EscalatingTrail(cfg, s, pid, env);
    } else {
      NotifyingTrail(cfg, s, pid, env);
    }
  }

  lemma StepGrows(cfg: Config, s: Sys, a: Action)
    requires Enabled(cfg, s, a)
    ensures Grows(s.w, Step(cfg, s, a).w)
  {
    if a.Advance? {
      PerformGrows(s.w, OpOf(cfg, s, a.pid, a.env));
    } else if a.Expire? {
      PerformGrows(s.w, ExpireClaim(a.ref));
    }
  }

  /** The processes that do not move. */
  lemma OthersStay(cfg: Config, s: Sys, a: Action, i: nat)
    requires Enabled(cfg, s, a) && !(a.Advance? && a.pid == i) && i < |Step(cfg, s, a).procs|
    ensures var q := Step(cfg, s, a).procs[i];
            if i < |s.procs| then q == s.procs[i] || (Live(s.procs[i]) && q == s.procs[i].(alive := false))
            else q.snap.None? && (q.role.Attempt? ==> q.pc == Resolving)
  {
  }

  lemma TrailStep(cfg: Config, s: Sys, a: Action, i: nat)
    requires AllTrails(s) && Enabled(cfg, s, a)
    ensures TrailAt(Step(cfg, s, a), i)
  {
    var t := Step(cfg, s, a);
    if i < |t.procs| && t.procs[i].role.Attempt? {
      if a.Advance? && a.pid == i {
        AdvanceMoves(cfg, s, i, a.fault, a.env);
        MoverTrail(cfg, s, i, a.fault, a.env);
      } else {
        OthersStay(cfg, s, a, i);
        if i < |s.procs| {
          assert TrailAt(s, i);
          StepGrows(cfg, s, a);
          TrailGrows(s.w, t.w, s.procs[i]);
          if t.procs[i] != s.procs[i] { TrailOutlives(t.w, s.procs[i]); }
        }
      }
    }
  }

  lemma {:induction false} TrailsInRun(cfg: Config, states: seq<Sys>, actions: seq<Action>, k: nat)
    requires IsRun(cfg, states, actions) && k <= |actions|
    ensures AllTrails(states[k])
  {
    if k == 0 {
      assert AllSound(INITIAL);
    } else {
      TrailsInRun(cfg, states, actions, k - 1);
      assert Follows(cfg, states, actions, k - 1);
      SoundStep(cfg, states[k - 1], actions[k - 1]);
      forall i: nat ensures TrailAt(states[k], i) {
        TrailStep(cfg, states[k - 1], actions[k - 1], i);
      }
    }
  }

  /** The document was there, just so, in an earlier state of the run or the present one. */
  ghost predicate Seen(states: seq<Sys>, k: nat, c: nat, doc: Conversation) {
    exists r: nat :: r <= k && r < |states| && c < |states[r].w.convs| && states[r].w.convs[c] == doc
  }

  ghost predicate ReadTruly(states: seq<Sys>, k: nat, p: Proc) {
    Claims(p) && p.conv.Some? && p.snap.Some? ==> Seen(states, k, p.conv.value, p.snap.value)
  }

  /** What is read is a conversation together with its document. */
  lemma ReadsBoth(w: World, p: Proc, op: Op, applied: bool, fault: Fault, env: Env, now: real)
    requires Shape(p) && Live(p) && Claims(p) && Fits(p.pc, op) && Signed(p, op)
    ensures var r := Respond(w, op, env);
            var q := After(p, op, applied, r, fault, env, now);
            && q.role == p.role
            && ((q.conv == p.conv && q.snap == p.snap) || (r.Found? && q.conv == Some(r.conv) && q.snap == Some(r.doc)))
  {
  }

  lemma SeenStill(states: seq<Sys>, k: nat, p: Proc, q: Proc)
    requires k > 0 && ReadTruly(states, k - 1, p) && q.role == p.role && q.conv == p.conv && q.snap == p.snap
    ensures ReadTruly(states, k, q)
  {
  }

  lemma MoverReads(cfg: Config, states: seq<Sys>, actions: seq<Action>, k: nat)
    requires IsRun(cfg, states, actions) && 0 < k <= |actions| && AllSound(states[k - 1]) && actions[k - 1].Advance?
    requires actions[k - 1].pid < |states[k - 1].procs| && Claims(states[k - 1].procs[actions[k - 1].pid])
    requires ReadTruly(states, k - 1, states[k - 1].procs[actions[k - 1].pid])
    ensures actions[k - 1].pid < |states[k].procs| && ReadTruly(states, k, states[k].procs[actions[k - 1].pid])
  {
    assert Follows(cfg, states, actions, k - 1);
    var s, a := states[k - 1], actions[k - 1];
    var op := OpOf(cfg, s, a.pid, a.env);
    var r, p, q := Respond(s.w, op, a.env), s.procs[a.pid], states[k].procs[a.pid];
    RequestSigned(cfg, p, a.env, a.pid);
    ReadsBoth(s.w, p, op, Applies(cfg, s, a.pid, a.fault, a.env), a.fault, a.env, s.clock);
    if q.conv == p.conv && q.snap == p.snap {
      SeenStill(states, k, p, q);
    } else if r.conv < |s.w.convs| {
      assert states[k - 1].w.convs[r.conv] == r.doc;
    } else {
      CreatedDocument(cfg, s, a.pid, a.fault, a.env);
      assert states[k].w.convs[r.conv] == r.doc;
    }
  }

  /** What an insertion answers is there once it has taken effect. */
  lemma CreatedDocument(cfg: Config, s: Sys, pid: nat, fault: Fault, env: Env)
    requires AllSound(s) && CanAdvance(s, pid)
    ensures var r := Respond(s.w, OpOf(cfg, s, pid, env), env);
            var y := Step(cfg, s, Advance(pid, fault, env)).w;
            r.Found? && r.conv >= |s.w.convs| && fault != Refused ==> r.conv < |y.convs| && y.convs[r.conv] == r.doc
  {
  }

  lemma ReadsContinue(cfg: Config, states: seq<Sys>, actions: seq<Action>, k: nat, i: nat)
    requires IsRun(cfg, states, actions) && 0 < k <= |actions| && AllSound(states[k - 1]) && i < |states[k].procs|
    requires i < |states[k - 1].procs| ==> ReadTruly(states, k - 1, states[k - 1].procs[i])
    ensures ReadTruly(states, k, states[k].procs[i])
  {
    assert Follows(cfg, states, actions, k - 1);
    var s, a := states[k - 1], actions[k - 1];
    if !(a.Advance? && a.pid == i) {
      OthersStay(cfg, s, a, i);
      if i < |s.procs| {
        SeenStill(states, k, s.procs[i], states[k].procs[i]);
      }
    } else if Claims(s.procs[i]) {
      MoverReads(cfg, states, actions, k);
    } else {
      AdvanceMoves(cfg, s, i, a.fault, a.env);
    }
  }

  lemma {:induction false} ReadsInRun(cfg: Config, states: seq<Sys>, actions: seq<Action>, k: nat, i: nat)
    requires IsRun(cfg, states, actions) && k <= |actions| && i < |states[k].procs|
    ensures ReadTruly(states, k, states[k].procs[i])
  {
    if k == 0 {
    } else {
      TrailsInRun(cfg, states, actions, k - 1);
      if i < |states[k - 1].procs| {
        ReadsInRun(cfg, states, actions, k - 1, i);
      }
      ReadsContinue(cfg, states, actions, k, i);
    }
  }

  /** The registry's answer to the attempt. */
  ghost predicate ResolvedTo(
    states: seq<Sys>, actions: seq<Action>, k: nat, pid: nat, context: Option<Context>)
  {
    exists m: nat ::
      && m < k && m < |actions| && m < |states| && actions[m].Advance? && actions[m].pid == pid
      && actions[m].fault == Returns && pid < |states[m].procs| && states[m].procs[pid].pc == Resolving
      && actions[m].env.context == context
  }

  /** The reply engine's answer to the attempt. */
  ghost predicate EngineSaid(states: seq<Sys>, actions: seq<Action>, k: nat, pid: nat, answer: Option<string>) {
    exists m: nat ::
      && m < k && m < |actions| && m < |states| && actions[m].Advance? && actions[m].pid == pid
      && actions[m].fault == Returns && pid < |states[m].procs| && states[m].procs[pid].pc == Answering
      && actions[m].env.answer == answer
  }

  /** It has its answer, or has used it. */
  predicate Speaking(p: Proc) {
    p.pc == Sending || p.sent
  }

  ghost predicate Informed(states: seq<Sys>, actions: seq<Action>, k: nat, pid: nat) {
    k < |states| && pid < |states[k].procs| && states[k].procs[pid].role.Attempt? ==>
      && (states[k].procs[pid].context.Some? ==> ResolvedTo(states, actions, k, pid, states[k].procs[pid].context))
      && (Speaking(states[k].procs[pid]) ==> EngineSaid(states, actions, k, pid, states[k].procs[pid].answer))
  }

  /** Where an attempt's context and answer come from. */
  lemma AttemptInforms(p: Proc, op: Op, applied: bool, r: Response, fault: Fault, env: Env, now: real)
    requires Sound(p) && Live(p) && p.role.Attempt? && Fits(p.pc, op)
    ensures var q := After(p, op, applied, r, fault, env, now);
            && (q.context == p.context
                || (p.pc == Resolving && fault == Returns && r.ContextIs? && q.context == r.context))
            && (Speaking(q) ==>
                  || (Speaking(p) && q.answer == p.answer)
                  || (p.pc == Answering && fault == Returns && q.answer == if r.AnswerIs? then r.answer else p.answer))
  {
  }

  lemma MoverInformed(cfg: Config, states: seq<Sys>, actions: seq<Action>, k: nat)
    requires IsRun(cfg, states, actions) && 0 < k <= |actions| && AllSound(states[k - 1]) && actions[k - 1].Advance?
    requires actions[k - 1].pid < |states[k - 1].procs| && states[k - 1].procs[actions[k - 1].pid].role.Attempt?
    requires Informed(states, actions, k - 1, actions[k - 1].pid)
    ensures Informed(states, actions, k, actions[k - 1].pid)
  {
    assert Follows(cfg, states, actions, k - 1);
    var s, a := states[k - 1], actions[k - 1];
    var op := OpOf(cfg, s, a.pid, a.env);
    var r := Respond(s.w, op, a.env);
    AttemptInforms(s.procs[a.pid], op, Applies(cfg, s, a.pid, a.fault, a.env), r, a.fault, a.env, s.clock);
    assert s.procs[a.pid].pc == Resolving ==> r == ContextIs(a.env.context);
    assert s.procs[a.pid].pc == Answering ==> r == AnswerIs(a.env.answer);
  }

  lemma InformedContinues(cfg: Config, states: seq<Sys>, actions: seq<Action>, k: nat, pid: nat)
    requires IsRun(cfg, states, actions) && 0 < k <= |actions| && AllSound(states[k - 1])
    requires Informed(states, actions, k - 1, pid)
    ensures Informed(states, actions, k, pid)
  {
    assert Follows(cfg, states, actions, k - 1);
    var s, a := states[k - 1], actions[k - 1];
    if pid < |states[k].procs| && states[k].procs[pid].role.Attempt? {
      if a.Advance? && a.pid == pid {
        AdvanceMoves(cfg, s, pid, a.fault, a.env);
        MoverInformed(cfg, states, actions, k);
      } else {
        OthersStay(cfg, s, a, pid);
      }
    }
  }

  lemma {:induction false} InformedInRun(cfg: Config, states: seq<Sys>, actions: seq<Action>, k: nat, pid: nat)
    requires IsRun(cfg, states, actions) && k <= |actions|
    ensures Informed(states, actions, k, pid)
  {
    if k == 0 {
    } else {
      InformedInRun(cfg, states, actions, k - 1, pid);
      TrailsInRun(cfg, states, actions, k - 1);
      InformedContinues(cfg, states, actions, k, pid);
    }
  }

  /** In every run a completed attempt has done all that its message asked for. The document on which
      it decided to speak or to keep silent was the conversation at an earlier moment, its brand,
      inbox and token are what the registry answered it, and its answer is the engine's. */
  lemma CompletedAttempts(cfg: Config, states: seq<Sys>, actions: seq<Action>, k: nat, pid: nat)
    requires IsRun(cfg, states, actions) && k <= |actions| && pid < |states[k].procs|
    requires states[k].procs[pid].role.Attempt? && states[k].procs[pid].pc == Ended(Completed)
    ensures var p := states[k].procs[pid];
            && Concluded(states[k].w, p)
            && Seen(states, k, p.conv.value, p.snap.value)
            && ResolvedTo(states, actions, k, pid, p.context)
            && (!FoundEscalated(p) ==> EngineSaid(states, actions, k, pid, p.answer))
  {
    TrailsInRun(cfg, states, actions, k);
    InformedInRun(cfg, states, actions, k, pid);
    assert TrailAt(states[k], pid);
    ReadsInRun(cfg, states, actions, k, pid);
  }
}
