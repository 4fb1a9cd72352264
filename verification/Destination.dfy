/** Where the messages of one conversation go, and from which business number. */
module Destination {
  import opened Options
  import opened Phone
  import opened Text
  import opened Records
  import opened Processes
  import opened Service
  import opened Soundness
  import opened StateMachine

  /** Decryption undoes encryption, whatever the nonce. */
  ghost predicate CipherInverts(cfg: Config) {
    forall x, nonce :: cfg.decrypt(cfg.encrypt(x, nonce)) == x
  }

  ghost predicate HashInjective(cfg: Config) {
    forall x, y :: cfg.hash(x) == cfg.hash(y) ==> x == y
  }

  /** The business number of each brand. */
  type Lines = Option<string> -> string

  /** A raw number without outer white space. */
  predicate Clean(raw: string) {
    Strip(raw) == raw
  }

  /** Each brand has one business number, and raw numbers come without outer white space. */
  predicate Routed(line: Lines, s: Sys, a: Action) {
    match a
    case Enqueue(msg) => Clean(msg.sender)
    case Arrive(role) => role.EchoTask? ==> Clean(role.msg.sender)
    case Advance(pid, _, env) =>
      CanAdvance(s, pid) && IsTask(s.procs[pid]) && s.procs[pid].pc == Resolving && env.context.Some? ==>
        line(env.context.value.brand) == s.procs[pid].role.msg.number
    case _ => true
  }

  predicate GoodDoc(cfg: Config, line: Lines, doc: Conversation) {
    && doc.phoneNumberId == line(doc.brand)
    && (doc.phoneEncrypted.Some? ==>
          cfg.hash(cfg.decrypt(doc.phoneEncrypted.value)) == doc.phoneHash
          && Addressed(cfg.decrypt(doc.phoneEncrypted.value)) == cfg.decrypt(doc.phoneEncrypted.value))
  }

  /** What a process knows about the conversation it acts on. */
  predicate GoodProc(cfg: Config, line: Lines, convs: seq<Conversation>, p: Proc) {
    && (IsTask(p) ==>
          && Clean(p.role.msg.sender)
          && (p.context.Some? ==> line(p.context.value.brand) == p.role.msg.number)
          && (p.conv.Some? ==>
                p.context.Some? && p.conv.value < |convs|
                && HasKey(convs[p.conv.value], cfg.hash(Normalize(p.role.msg.sender)), p.context.value.brand)))
    && (p.role.AgentReply? && p.snap.Some? ==>
          && p.conv.Some? && p.conv.value < |convs| && GoodDoc(cfg, line, p.snap.value)
          && HasKey(convs[p.conv.value], p.snap.value.phoneHash, p.snap.value.brand))
  }

  predicate GoodSend(cfg: Config, line: Lines, convs: seq<Conversation>, op: Op) {
    op.Send? ==>
      op.conv < |convs| && cfg.hash(op.to) == convs[op.conv].phoneHash && op.line == line(convs[op.conv].brand)
  }

  ghost predicate Addressable(cfg: Config, line: Lines, s: Sys) {
    && AllSound(s)
    && CleanJobs(line, s.jobs)
    && (forall c :: 0 <= c < |s.w.convs| ==> GoodDoc(cfg, line, s.w.convs[c]))
    && (forall i :: 0 <= i < |s.procs| ==> GoodProc(cfg, line, s.w.convs, s.procs[i]))
    && (forall n :: 0 <= n < |s.w.oplog| ==> GoodSend(cfg, line, s.w.convs, s.w.oplog[n]))
  }

  lemma RequestGood(cfg: Config, line: Lines, w: World, p: Proc, env: Env, nonce: nat)
    requires CipherInverts(cfg) && Sound(p) && Live(p) && GoodProc(cfg, line, w.convs, p)
    ensures var op := Request(cfg, p, env, nonce);
            (op.InsertConv? ==> GoodDoc(cfg, line, op.doc)) && GoodSend(cfg, line, w.convs, op)
  {
    if p.pc == Creating {
      AddressingNormal(p.role.msg.sender);
    } else if p.pc == Sending && p.role.Attempt? {
      AddressedIsNormal(p.role.msg.sender);
    }
  }

  /** What a lookup returns is the conversation of the one who asked. */
  predicate Answers(cfg: Config, p: Proc, convs: seq<Conversation>, r: Response) {
    r.Found? ==>
      && r.conv < |convs| && HasKey(convs[r.conv], r.doc.phoneHash, r.doc.brand)
      && (p.pc == Finding || p.pc == Creating ==>
            p.context.Some? && IsTask(p) && HasKey(r.doc, cfg.hash(Normalize(p.role.msg.sender)),
                p.context.value.brand))
      && (p.pc != Finding && p.pc != Creating ==> p.conv == Some(r.conv))
  }

  lemma RespondAnswers(cfg: Config, w: World, p: Proc, env: Env, nonce: nat)
    requires Shape(p) && Live(p)
    ensures var op := Request(cfg, p, env, nonce);
            Answers(cfg, p, Perform(w, op).convs, Respond(w, op, env))
  {
    var op := Request(cfg, p, env, nonce);
    RequestSigned(cfg, p, env, nonce);
    if p.pc == Finding {
      assert op == FindByKey(cfg.hash(Normalize(p.role.msg.sender)), p.context.value.brand);
    } else if p.pc == Creating {
      assert op.InsertConv?;
    } else {
      assert !op.FindByKey? && !op.InsertConv?;
    }
  }

  /** Documents keep their keys, so what was true of their keys stays true. */
  predicate KeysPersist(before: seq<Conversation>, after: seq<Conversation>) {
    && |before| <= |after|
    && forall c :: 0 <= c < |before| ==> SameIdentity(before[c], after[c])
  }

  lemma KeysPersistAfter(w: World, op: Op)
    requires op.InsertConv? ==> op.doc.state == JaneHandling && op.doc.escalatedReason == None
    ensures KeysPersist(w.convs, Perform(w, op).convs)
  {
    forall c | 0 <= c < |w.convs| ensures SameIdentity(w.convs[c], Perform(w, op).convs[c]) {
      if Effective(w, op) { WorldEdges(w, op, c); }
    }
  }

  lemma TaskGood(
    cfg: Config, line: Lines, before: seq<Conversation>, after: seq<Conversation>,
    p: Proc, r: Response, q: Proc)
    requires GoodProc(cfg, line, before, p) && KeysPersist(before, after) && Learns(p, r, q) && IsTask(p)
    requires Answers(cfg, p, after, r)
    requires p.pc == Resolving ==> p.conv.None? && !r.Found?
    requires p.pc == Resolving && r.ContextIs? && r.context.Some? ==>
               line(r.context.value.brand) == p.role.msg.number
    requires p.pc != ReadingRegistry
    ensures GoodProc(cfg, line, after, q)
  {
  }

  lemma ReplyGood(
    cfg: Config, line: Lines, before: seq<Conversation>, after: seq<Conversation>,
    p: Proc, r: Response, q: Proc)
    requires GoodProc(cfg, line, before, p) && KeysPersist(before, after) && Learns(p, r, q) && !IsTask(p)
    requires Answers(cfg, p, after, r) && (r.Found? ==> GoodDoc(cfg, line, r.doc))
    ensures GoodProc(cfg, line, after, q)
  {
  }

  lemma GoodPersists(
    cfg: Config, line: Lines, before: seq<Conversation>, after: seq<Conversation>, p: Proc, op: Op)
    requires KeysPersist(before, after)
    ensures GoodProc(cfg, line, before, p) ==> GoodProc(cfg, line, after, p)
    ensures GoodSend(cfg, line, before, op) ==> GoodSend(cfg, line, after, op)
  {
  }

  lemma DocsStayGood(cfg: Config, line: Lines, w: World, op: Op)
    requires forall c :: 0 <= c < |w.convs| ==> GoodDoc(cfg, line, w.convs[c])
    requires op.InsertConv? ==>
               op.doc.state == JaneHandling && op.doc.escalatedReason == None && GoodDoc(cfg, line, op.doc)
    ensures forall c :: 0 <= c < |Perform(w, op).convs| ==> GoodDoc(cfg, line, Perform(w, op).convs[c])
  {
    KeysPersistAfter(w, op);
  }

  /** A process that returns normally still knows only its own conversation. */
  lemma ReturnedGood(cfg: Config, line: Lines, s: Sys, pid: nat, env: Env)
    requires CipherInverts(cfg) && Addressable(cfg, line, s) && CanAdvance(s, pid)
    requires Routed(line, s, Advance(pid, Returns, env))
    ensures GoodProc(cfg, line, Perform(s.w, OpOf(cfg, s, pid, env)).convs, ProcAfter(cfg, s, pid, Returns, env))
  {
    var p, op, q := s.procs[pid], OpOf(cfg, s, pid, env), ProcAfter(cfg, s, pid, Returns, env);
    var r, after := Respond(s.w, op, env), Perform(s.w, op).convs;
    RequestSigned(cfg, p, env, pid);
    RequestGood(cfg, line, s.w, p, env, pid);
    RespondAnswers(cfg, s.w, p, env, pid);
    KeysPersistAfter(s.w, op);
    AfterLearns(p, op, Effective(s.w, op), r, Returns, env, s.clock);
    if Learns(p, r, q) && IsTask(p) {
      TaskGood(cfg, line, s.w.convs, after, p, r, q);
    } else if Learns(p, r, q) {
      ReplyGood(cfg, line, s.w.convs, after, p, r, q);
    }
  }

  lemma SameData(cfg: Config, line: Lines, convs: seq<Conversation>, p: Proc, q: Proc)
    requires GoodProc(cfg, line, convs, p)
    requires q.role == p.role && q.context == p.context && q.conv == p.conv && q.snap == p.snap
    ensures GoodProc(cfg, line, convs, q)
  {
  }

  lemma MovedGood(cfg: Config, line: Lines, s: Sys, pid: nat, fault: Fault, env: Env)
    requires CipherInverts(cfg) && Addressable(cfg, line, s) && CanAdvance(s, pid)
    requires Routed(line, s, Advance(pid, fault, env))
    ensures GoodProc(cfg, line, Step(cfg, s, Advance(pid, fault, env)).w.convs, ProcAfter(cfg, s, pid, fault, env))
  {
    var p, op := s.procs[pid], OpOf(cfg, s, pid, env);
    if fault == Returns {
      ReturnedGood(cfg, line, s, pid, env);
    } else {
      RequestSigned(cfg, p, env, pid);
      KeysPersistAfter(s.w, op);
      GoodPersists(cfg, line, s.w.convs, Perform(s.w, op).convs, p, op);
      RaisingKeepsData(p, op, Applies(cfg, s, pid, fault, env), Respond(s.w, op, env), fault, env, s.clock);
      SameData(cfg, line, Step(cfg, s, Advance(pid, fault, env)).w.convs, p, ProcAfter(cfg, s, pid, fault, env));
    }
  }

  lemma AddressableAdvance(cfg: Config, line: Lines, s: Sys, pid: nat, fault: Fault, env: Env)
    requires CipherInverts(cfg) && Addressable(cfg, line, s) && CanAdvance(s, pid)
    requires Routed(line, s, Advance(pid, fault, env))
    ensures var t := Step(cfg, s, Advance(pid, fault, env));
            && (forall c :: 0 <= c < |t.w.convs| ==> GoodDoc(cfg, line, t.w.convs[c]))
            && (forall i :: 0 <= i < |t.procs| ==> GoodProc(cfg, line, t.w.convs, t.procs[i]))
            && (forall n :: 0 <= n < |t.w.oplog| ==> GoodSend(cfg, line, t.w.convs, t.w.oplog[n]))
  {
    var op, t := OpOf(cfg, s, pid, env), Step(cfg, s, Advance(pid, fault, env));
    MovedGood(cfg, line, s, pid, fault, env);
    RequestSigned(cfg, s.procs[pid], env, pid);
    RequestGood(cfg, line, s.w, s.procs[pid], env, pid);
    if Applies(cfg, s, pid, fault, env) {
      KeysPersistAfter(s.w, op);
      DocsStayGood(cfg, line, s.w, op);
      forall i | 0 <= i < |t.procs| ensures GoodProc(cfg, line, t.w.convs, t.procs[i]) {
        if i != pid { GoodPersists(cfg, line, s.w.convs, t.w.convs, s.procs[i], op); }
      }
      forall n | 0 <= n < |t.w.oplog| ensures GoodSend(cfg, line, t.w.convs, t.w.oplog[n]) {
        GoodPersists(cfg, line, s.w.convs, t.w.convs, s.procs[pid], t.w.oplog[n]);
      }
    }
  }

  predicate CleanJobs(line: Lines, jobs: seq<Job>) {
    forall j :: 0 <= j < |jobs| ==> Clean(jobs[j].msg.sender)
  }

  lemma SettledClean(line: Lines, jobs: seq<Job>, p: Proc, redelivered: bool)
    requires CleanJobs(line, jobs)
    ensures CleanJobs(line, Settle(jobs, p)) && CleanJobs(line, AfterCrash(jobs, p, redelivered))
  {
  }

  lemma JobsStep(cfg: Config, line: Lines, s: Sys, a: Action)
    requires Enabled(cfg, s, a) && Routed(line, s, a) && CleanJobs(line, s.jobs)
    ensures CleanJobs(line, Step(cfg, s, a).jobs)
  {
    match a {
      case Advance(pid, fault, env) => SettledClean(line, s.jobs, ProcAfter(cfg, s, pid, fault, env), false);
      case Crash(pid, redelivered) => SettledClean(line, s.jobs, s.procs[pid], redelivered);
      case _ =>
    }
  }

  lemma SpawnGood(cfg: Config, line: Lines, convs: seq<Conversation>, role: Role, now: real)
    requires role.Attempt? || role.EchoTask? ==> Clean(role.msg.sender)
    ensures GoodProc(cfg, line, convs, Spawn(role, now))
  {
  }

  lemma AddressableStep(cfg: Config, line: Lines, s: Sys, a: Action)
    requires CipherInverts(cfg) && Addressable(cfg, line, s) && Enabled(cfg, s, a) && Routed(line, s, a)
    ensures Addressable(cfg, line, Step(cfg, s, a))
  {
    SoundStep(cfg, s, a);
    JobsStep(cfg, line, s, a);
    match a {
      case Start(job) => SpawnGood(cfg, line, s.w.convs, Attempt(job, s.jobs[job].msg), s.clock);
      case Arrive(role) => SpawnGood(cfg, line, s.w.convs, role, s.clock);
      case Advance(pid, fault, env) => AddressableAdvance(cfg, line, s, pid, fault, env);
      case Crash(pid, _) => SameData(cfg, line, s.w.convs, s.procs[pid], s.procs[pid].(alive := false));
      case _ =>
    }
  }

  predicate RoutedAt(line: Lines, states: seq<Sys>, actions: seq<Action>, k: nat) {
    k < |actions| && k < |states| && Routed(line, states[k], actions[k])
  }

  ghost predicate RoutedRun(line: Lines, states: seq<Sys>, actions: seq<Action>) {
    forall k: nat :: k < |actions| ==> RoutedAt(line, states, actions, k)
  }

  lemma AddressableInitially(cfg: Config, line: Lines)
    ensures Addressable(cfg, line, INITIAL)
  {
  }

  lemma AddressableStepInRun(
    cfg: Config, line: Lines, states: seq<Sys>, actions: seq<Action>, k: nat)
    requires CipherInverts(cfg) && IsRun(cfg, states, actions) && RoutedRun(line, states, actions) && k < |actions|
    requires Addressable(cfg, line, states[k])
    ensures Addressable(cfg, line, states[k + 1])
  {
    assert Follows(cfg, states, actions, k);
    var s, a := states[k], actions[k];
    assert RoutedAt(line, states, actions, k);
    AddressableStep(cfg, line, s, a);
  }

  lemma {:induction false} AddressableInRun(
    cfg: Config, line: Lines, states: seq<Sys>, actions: seq<Action>, k: nat)
    requires CipherInverts(cfg) && IsRun(cfg, states, actions) && RoutedRun(line, states, actions) && k <= |actions|
    ensures Addressable(cfg, line, states[k])
  {
    if k == 0 {
      AddressableInitially(cfg, line);
    } else {
      AddressableInRun(cfg, line, states, actions, k - 1);
      AddressableStepInRun(cfg, line, states, actions, k - 1);
    }
  }

  /** One destination per conversation: whoever sends on it, Jane or an agent, sends from the same
      business number to the same customer number, whose hash is the conversation's. */
  lemma OneDestination(
    cfg: Config, line: Lines, states: seq<Sys>, actions: seq<Action>, k: nat, m: nat, n: nat)
    requires CipherInverts(cfg) && IsRun(cfg, states, actions) && RoutedRun(line, states, actions) && k <= |actions|
    requires m < |states[k].w.oplog| && n < |states[k].w.oplog|
    requires states[k].w.oplog[m].Send? && states[k].w.oplog[n].Send?
             && states[k].w.oplog[m].conv == states[k].w.oplog[n].conv
    ensures var first, second := states[k].w.oplog[m], states[k].w.oplog[n];
            && first.conv < |states[k].w.convs|
            && cfg.hash(first.to) == cfg.hash(second.to) == states[k].w.convs[first.conv].phoneHash
            && first.line == second.line == states[k].w.convs[first.conv].phoneNumberId
            && (HashInjective(cfg) ==> first.to == second.to)
  {
    AddressableInRun(cfg, line, states, actions, k);
    assert GoodSend(cfg, line, states[k].w.convs, states[k].w.oplog[m]);
    assert GoodSend(cfg, line, states[k].w.convs, states[k].w.oplog[n]);
  }
}
