/** The conversation state machine as every interleaving drives it. */
module StateMachine {
  import opened Options
  import opened Records
  import opened Processes
  import opened Service
  import opened Soundness

  /** The reason is set exactly while escalated. */
  predicate Reasoned(doc: Conversation) {
    doc.escalatedReason.Some? <==> doc.state == Escalated
  }

  ghost predicate Unique(convs: seq<Conversation>) {
    forall i, j :: 0 <= i < |convs| && 0 <= j < |convs| && HasKey(convs[j], convs[i].phoneHash, convs[i].brand) ==>
          i == j
  }

  ghost predicate ConvInvariant(s: Sys) {
    && AllSound(s)
    && Unique(s.w.convs)
    && forall c :: 0 <= c < |s.w.convs| ==> Reasoned(s.w.convs[c])
  }

  /** The state changes one update may make. */
  predicate Edge(before: ConvState, after: ConvState, op: Op) {
    match op
    case SetEscalated(_, _, _) => after == Escalated
    case SetResolved(_, _, _) => after == JaneHandling
    case SetClosed(_) => before == JaneHandling && after == Closed
    case _ => after == before
  }

  /** Who a conversation is with never changes; its stored number can only be removed. */
  predicate SameIdentity(before: Conversation, after: Conversation) {
    && after.phoneHash == before.phoneHash && after.brand == before.brand
    && after.phoneNumberId == before.phoneNumberId && after.createdAt == before.createdAt
    && (after.phoneEncrypted == before.phoneEncrypted || after.phoneEncrypted == None)
  }

  lemma EditEdge(w: World, op: Op)
    requires Effective(w, op) && EditsConv(op)
    ensures var before := w.convs[op.conv];
            Edge(before.state, Edit(before, op).state, op) && SameIdentity(before, Edit(before, op))
            && (Reasoned(before) ==> Reasoned(Edit(before, op)))
  {
  }

  lemma WorldEdges(w: World, op: Op, c: nat)
    requires Effective(w, op) && c < |w.convs|
    requires op.InsertConv? ==> op.doc.state == JaneHandling && op.doc.escalatedReason == None
    ensures c < |Apply(w, op).convs| && SameIdentity(w.convs[c], Apply(w, op).convs[c])
    ensures Edge(w.convs[c].state, Apply(w, op).convs[c].state, op)
            || (Apply(w, op).convs[c] == w.convs[c])
    ensures Apply(w, op).convs[c] == w.convs[c] || (EditsConv(op) && op.conv == c)
    ensures Reasoned(w.convs[c]) ==> Reasoned(Apply(w, op).convs[c])
  {
    if EditsConv(op) {
      EditEdge(w, op);
    }
  }

  lemma UniqueAfter(w: World, op: Op)
    requires Effective(w, op) && Unique(w.convs)
    requires op.InsertConv? ==> op.doc.state == JaneHandling && op.doc.escalatedReason == None
    ensures Unique(Apply(w, op).convs)
  {
    var after := Apply(w, op).convs;
    forall i, j | 0 <= i < |after| && 0 <= j < |after| && HasKey(after[j], after[i].phoneHash, after[i].brand)
      ensures i == j
    {
      if i < |w.convs| { WorldEdges(w, op, i); }
      if j < |w.convs| { WorldEdges(w, op, j); }
      if i < |w.convs| && j < |w.convs| {
        assert HasKey(w.convs[j], w.convs[i].phoneHash, w.convs[i].brand);
      }
    }
  }

  lemma ConvStep(cfg: Config, s: Sys, a: Action)
    requires ConvInvariant(s) && Enabled(cfg, s, a)
    ensures ConvInvariant(Step(cfg, s, a))
  {
    SoundStep(cfg, s, a);
    if a.Advance? && Applies(cfg, s, a.pid, a.fault, a.env) {
      var op := OpOf(cfg, s, a.pid, a.env);
      RequestSigned(cfg, s.procs[a.pid], a.env, a.pid);
      UniqueAfter(s.w, op);
      forall c | 0 <= c < |s.w.convs| ensures Reasoned(Apply(s.w, op).convs[c]) { WorldEdges(s.w, op, c); }
    } else if a.Expire? {
      UniqueAfter(s.w, ExpireClaim(a.ref));
    }
  }

  lemma {:induction false} ConvsInRun(cfg: Config, states: seq<Sys>, actions: seq<Action>, k: nat)
    requires IsRun(cfg, states, actions) && k <= |actions|
    ensures ConvInvariant(states[k])
  {
    if k == 0 {
      assert ConvInvariant(INITIAL);
    } else {
      ConvsInRun(cfg, states, actions, k - 1);
      assert Follows(cfg, states, actions, k - 1);
      ConvStep(cfg, states[k - 1], actions[k - 1]);
    }
  }

  /** In every reachable state there is one conversation per customer and brand, and a reason
      exactly on the escalated ones. */
  lemma ConversationsAreSound(cfg: Config, s: Sys)
    requires Reachable(cfg, s)
    ensures Unique(s.w.convs)
    ensures forall c :: 0 <= c < |s.w.convs| ==>
              (s.w.convs[c].escalatedReason.Some? <==> s.w.convs[c].state == Escalated)
  {
    var states, actions :| IsRun(cfg, states, actions) && states[|actions|] == s;
    ConvsInRun(cfg, states, actions, |actions|);
  }

  /** One step of the service: no edge from escalated to closed, the only way out of escalated is
      a resolve's write to jane_handling, and identity fields stay. */
  lemma StateEdges(cfg: Config, s: Sys, a: Action, c: nat)
    requires AllSound(s) && Enabled(cfg, s, a) && c < |s.w.convs|
    ensures var t := Step(cfg, s, a);
            && c < |t.w.convs| && SameIdentity(s.w.convs[c], t.w.convs[c])
            && (s.w.convs[c].state == Escalated && t.w.convs[c].state != Escalated ==>
                  t.w.convs[c].state == JaneHandling && a.Advance?
                  && s.procs[a.pid].pc == WritingResolve && s.procs[a.pid].conv == Some(c))
            && (t.w.convs[c].state == Closed && s.w.convs[c].state != Closed ==> s.w.convs[c].state == JaneHandling)
  {
    if a.Advance? && Applies(cfg, s, a.pid, a.fault, a.env) {
      RequestSigned(cfg, s.procs[a.pid], a.env, a.pid);
      WorldEdges(s.w, OpOf(cfg, s, a.pid, a.env), c);
    }
  }

  /** The step at which a process reads, for its resolve, that the conversation is escalated. */
  predicate ReadsEscalated(cfg: Config, s: Sys, a: Action, pid: nat, c: nat) {
    && a.Advance? && a.pid == pid && a.fault == Returns && CanAdvance(s, pid)
    && s.procs[pid].pc == ReadingForResolve && s.procs[pid].conv == Some(c) && IsEscalated(s, c)
  }

  lemma OnlyReadingLeadsToWriting(p: Proc, op: Op, applied: bool, r: Response, fault: Fault, env: Env, now: real)
    requires Shape(p) && Live(p)
    requires After(p, op, applied, r, fault, env, now).pc == WritingResolve
    ensures fault == Returns && p.pc == ReadingForResolve && r.Found? && r.doc.state == Escalated
    ensures After(p, op, applied, r, fault, env, now).conv == p.conv
  {
  }

  lemma ResolveWasRead(cfg: Config, s: Sys, a: Action, pid: nat, c: nat)
    requires AllSound(s) && Enabled(cfg, s, a) && pid < |Step(cfg, s, a).procs|
    requires Step(cfg, s, a).procs[pid].pc == WritingResolve && Step(cfg, s, a).procs[pid].conv == Some(c)
    requires pid < |s.procs| ==> s.procs[pid].pc != WritingResolve || s.procs[pid].conv != Some(c)
    ensures ReadsEscalated(cfg, s, a, pid, c)
  {
    if a.Advance? && a.pid == pid {
      var op := OpOf(cfg, s, pid, a.env);
      OnlyReadingLeadsToWriting(s.procs[pid], op, Applies(cfg, s, pid, a.fault, a.env), Respond(s.w, op, a.env),
                                a.fault, a.env, s.clock);
      assert op == FindById(c);
    }
  }

  lemma ResolveReadInRun(cfg: Config, states: seq<Sys>, actions: seq<Action>, k: nat, pid: nat, c: nat)
    requires IsRun(cfg, states, actions) && k < |actions|
    requires pid < |states[k + 1].procs| && states[k + 1].procs[pid].pc == WritingResolve
             && states[k + 1].procs[pid].conv == Some(c)
    ensures ReadsEscalated(cfg, states[k], actions[k], pid, c)
            || (pid < |states[k].procs| && states[k].procs[pid].pc == WritingResolve
                && states[k].procs[pid].conv == Some(c))
  {
    ConvsInRun(cfg, states, actions, k);
    var s, a := states[k], actions[k];
    assert Follows(cfg, states, actions, k);
    if !(pid < |s.procs| && s.procs[pid].pc == WritingResolve && s.procs[pid].conv == Some(c)) {
      ResolveWasRead(cfg, s, a, pid, c);
    }
  }

  /** The write of a resolve is preceded by its own read of an escalated conversation. */
  lemma {:induction false} ReadBeforeResolve(
    cfg: Config, states: seq<Sys>, actions: seq<Action>, k: nat, pid: nat, c: nat) returns (r: nat)
    requires IsRun(cfg, states, actions) && k <= |actions|
    requires pid < |states[k].procs| && states[k].procs[pid].pc == WritingResolve
             && states[k].procs[pid].conv == Some(c)
    ensures r < k && ReadsEscalated(cfg, states[r], actions[r], pid, c)
  {
    ResolveReadInRun(cfg, states, actions, k - 1, pid, c);
    if ReadsEscalated(cfg, states[k - 1], actions[k - 1], pid, c) {
      r := k - 1;
    } else {
      r := ReadBeforeResolve(cfg, states, actions, k - 1, pid, c);
    }
  }

  /** Leaving escalated: the step is the write of a resolve, and that resolve had itself read the
      conversation as escalated earlier in the run. */
  lemma LeavingEscalated(cfg: Config, states: seq<Sys>, actions: seq<Action>, k: nat, c: nat) returns (r: nat)
    requires IsRun(cfg, states, actions) && k < |actions|
    requires IsEscalated(states[k], c) && !IsEscalated(states[k + 1], c)
    ensures c < |states[k + 1].w.convs| && states[k + 1].w.convs[c].state == JaneHandling
    ensures actions[k].Advance? && r < k && ReadsEscalated(cfg, states[r], actions[r], actions[k].pid, c)
    ensures actions[k].pid < |states[k].procs| && states[k].procs[actions[k].pid].pc == WritingResolve
  {
    ConvsInRun(cfg, states, actions, k);
    assert Follows(cfg, states, actions, k);
    StateEdges(cfg, states[k], actions[k], c);
    r := ReadBeforeResolve(cfg, states, actions, k, actions[k].pid, c);
  }
}
