/** What every operation says and does, field by field: who wrote each entry of the log, with which
    contents, and what it made of the documents. */
module Contents {
  import opened Options
  import opened Phone
  import opened Records
  import opened Processes
  import opened Service
  import opened Soundness
  import opened LateReplies
  import opened Completion

  const REASON: string := "No exact match in operational_facts for this question."

  /** What a process may insert in the message log. */
  predicate WritesRow(p: Proc, row: Row) {
    && p.conv == Some(row.conv) && row.at == p.at
    && match row.kind
       case FromCustomer => p.role.Attempt? && row.body == p.role.msg.text
       case FromJane(holding) => p.role.Attempt? && holding == p.answer.None? && row.body == Said(p)
       case FromAgent(channel, email, id) =>
         match p.role
         case AgentReply(_, body, agentEmail, agentId, _, agentChannel) =>
           channel == agentChannel && email == Some(agentEmail) && id == Some(agentId) && row.body == body
         case EchoTask(msg) => channel == "whatsapp_echo" && email == None && id == None && row.body == msg.text
         case _ => false
  }

  /** What a process may send, to whom and from which number. */
  predicate WritesSend(cfg: Config, p: Proc, op: Op)
    requires op.Send?
  {
    && p.context.Some? && op.token == p.context.value.token
    && match p.role
       case Attempt(_, msg) =>
         && p.conv == Some(op.conv) && op.sender == Jane(msg.id, p.answer.None?)
         && op.to == Addressed(msg.sender) && op.line == msg.number && op.body == Said(p)
       case AgentReply(target, body, _, _, key, _) =>
         && p.snap.Some? && p.snap.value.phoneEncrypted.Some?
         && op.conv == target && op.sender == Agent(key)
         && op.to == Addressed(cfg.decrypt(p.snap.value.phoneEncrypted.value))
         && op.line == p.snap.value.phoneNumberId && op.body == body
       case _ => false
  }

  /** Under which provenance a process resolves a conversation. */
  predicate WritesResolve(role: Role, via: Option<string>, agent: Option<string>) {
    match role
    case AgentReply(_, _, email, _, _, channel) => via == Some(channel) && agent == Some(email)
    case ResolveOnly(_, email) => via == Some("manual") && agent == Some(email)
    case EchoTask(_) => via == Some("whatsapp_echo") && agent == None
    case _ => false
  }

  predicate WritesClaim(role: Role, ref: ClaimRef) {
    match role
    case Attempt(_, msg) => ref == Inbound(msg.id)
    case AgentReply(_, _, _, _, key, _) => ref == Reply(key)
    case _ => false
  }

  /** The document of a new conversation. */
  predicate WritesConversation(cfg: Config, p: Proc, pid: nat, doc: Conversation) {
    && IsTask(p) && p.context.Some?
    && doc.phoneHash == cfg.hash(Normalize(p.role.msg.sender))
    && doc.phoneEncrypted == Some(cfg.encrypt(Normalize(p.role.msg.sender), pid))
    && doc.phoneNumberId == p.role.msg.number && doc.brand == p.context.value.brand
    && doc.state == JaneHandling && doc.escalatedReason == None && doc.escalatedAt == None
    && doc.lastMessageAt == p.at && doc.createdAt == p.at && doc.resolvedVia == None && doc.resolvedBy == None
  }

  /** What a process may write, given what it is and what it has read. */
  predicate Writes(cfg: Config, p: Proc, pid: nat, op: Op) {
    match op
    case InsertClaim(ref, at) => WritesClaim(p.role, ref) && at == p.at
    case MarkSent(ref) => p.role.AgentReply? && WritesClaim(p.role, ref)
    case DeleteClaim(ref, late) => WritesClaim(p.role, ref) && late == p.sent
    case InsertConv(doc) => WritesConversation(cfg, p, pid, doc)
    case Touch(c, at) => IsTask(p) && p.conv == Some(c) && at == p.at
    case SetEscalated(c, reason, at) => p.role.Attempt? && p.conv == Some(c) && reason == REASON && at == p.at
    case SetResolved(c, via, agent) => p.conv == Some(c) && WritesResolve(p.role, via, agent)
    case SetClosed(c) => p.role == CloseRequest(c)
    case UnsetPhone(_, cutoff) => p.role.PurgeJob? && cutoff == p.at - (p.role.days as real) * 86400.0
    case InsertRow(row) => WritesRow(p, row)
    case Send(_, _, _, _, _, _) => WritesSend(cfg, p, op)
    case Notify(c, question, reason, inbox) =>
      && p.role.Attempt? && p.conv == Some(c) && p.context.Some?
      && question == p.role.msg.text && reason == REASON && inbox == p.context.value.inbox
    case _ => false
  }

  /** One conversation has changed to `doc`. */
  predicate Replaces(w: World, y: World, c: nat, doc: Conversation, op: Op) {
    c < |w.convs| && y == w.(convs := w.convs[c := doc], oplog := w.oplog + [op])
  }

  /** What an operation makes of the documents when it takes effect. */
  predicate Makes(w: World, op: Op, y: World) {
    match op
    case InsertClaim(ref, at) =>
      ref !in w.claims && y == w.(claims := w.claims[ref := Claim(at, false)], oplog := w.oplog + [op])
    case MarkSent(ref) =>
      && ref in w.claims
      && y == w.(claims := w.claims[ref := Claim(w.claims[ref].createdAt, true)], oplog := w.oplog + [op])
    case DeleteClaim(ref, _) => ref in w.claims && y == w.(claims := w.claims - {ref}, oplog := w.oplog + [op])
    case ExpireClaim(ref) => ref in w.claims && y == w.(claims := w.claims - {ref}, oplog := w.oplog + [op])
    case InsertConv(doc) =>
      && (forall c :: 0 <= c < |w.convs| ==> w.convs[c].phoneHash != doc.phoneHash || w.convs[c].brand != doc.brand)
      && y == w.(convs := w.convs + [doc], oplog := w.oplog + [op])
    case Touch(c, at) => c < |w.convs| && Replaces(w, y, c, w.convs[c].(lastMessageAt := at), op)
    case SetEscalated(c, reason, at) =>
      && c < |w.convs|
      && Replaces(w, y, c,
                  w.convs[c].(state := Escalated, escalatedReason := Some(reason), escalatedAt := Some(at)), op)
    case SetResolved(c, via, agent) =>
      && c < |w.convs|
      && Replaces(w, y, c,
                  w.convs[c].(state := JaneHandling, escalatedReason := None,
                              resolvedVia := if via.Some? then via else w.convs[c].resolvedVia,
                              resolvedBy := if agent.Some? then agent else w.convs[c].resolvedBy), op)
    case SetClosed(c) =>
      && c < |w.convs| && w.convs[c].state == JaneHandling
      && Replaces(w, y, c, w.convs[c].(state := Closed), op)
    case UnsetPhone(c, cutoff) =>
      && c < |w.convs| && w.convs[c].state != Escalated && w.convs[c].lastMessageAt < cutoff
      && w.convs[c].phoneEncrypted.Some? && Replaces(w, y, c, w.convs[c].(phoneEncrypted := None), op)
    case InsertRow(row) => y == w.(rows := w.rows + [row], oplog := w.oplog + [op])
    case Send(_, _, _, _, _, _) => y == w.(oplog := w.oplog + [op])
    case Notify(_, _, _, _) => y == w.(oplog := w.oplog + [op])
    case _ => false
  }

  lemma ApplyMakes(w: World, op: Op)
    requires Effective(w, op)
    ensures Makes(w, op, Apply(w, op))
  {
  }

  lemma SendWrites(cfg: Config, p: Proc)
    requires Sound(p) && Live(p) && p.pc == Sending
    ensures WritesSend(cfg, p, SendOp(cfg, p))
  {
  }

  lemma RowWrites(cfg: Config, p: Proc, env: Env, pid: nat)
    requires Sound(p) && Live(p) && (p.pc == LoggingInbound || p.pc == LoggingReply || p.pc == LoggingEcho)
    ensures Request(cfg, p, env, pid).InsertRow? && WritesRow(p, Request(cfg, p, env, pid).row)
  {
  }

  lemma ResolveWrites(cfg: Config, p: Proc, env: Env, pid: nat)
    requires Sound(p) && Live(p) && p.pc == WritingResolve
    ensures Writes(cfg, p, pid, Request(cfg, p, env, pid))
  {
    assert Request(cfg, p, env, pid) == SetResolved(p.conv.value, Some(ResolvedVia(p.role)), ResolvedBy(p.role));
  }

  lemma ClaimWrites(cfg: Config, p: Proc, env: Env, pid: nat)
    requires Sound(p) && Live(p) && (p.pc == Claiming || p.pc == MarkingSent || p.pc == Releasing)
    ensures Writes(cfg, p, pid, Request(cfg, p, env, pid))
  {
  }

  lemma DocumentWrites(cfg: Config, p: Proc, env: Env, pid: nat)
    requires Sound(p) && Live(p)
    requires p.pc == Creating || p.pc == Touching || p.pc == Escalating || p.pc == Closing || p.pc == Purging
    ensures Writes(cfg, p, pid, Request(cfg, p, env, pid))
  {
  }

  lemma NoticeWrites(cfg: Config, p: Proc, env: Env, pid: nat)
    requires Sound(p) && Live(p) && p.pc == Notifying
    ensures Writes(cfg, p, pid, Request(cfg, p, env, pid))
  {
  }

  /** The awaits that write; the others only read. */
  predicate IsWrite(pc: Pc) {
    || pc == Sending || pc == LoggingInbound || pc == LoggingReply || pc == LoggingEcho || pc == WritingResolve
    || pc == Claiming || pc == MarkingSent || pc == Releasing || pc == Creating || pc == Touching
    || pc == Escalating || pc == Closing || pc == Purging || pc == Notifying
  }

  lemma OnlyTheseWrite(cfg: Config, w: World, p: Proc, env: Env, pid: nat)
    requires Shape(p) && Live(p) && !IsWrite(p.pc)
    ensures !Effective(w, Request(cfg, p, env, pid))
  {
  }

  /** What the query or the unique index of a write asks of the documents. */
  predicate Possible(w: World, op: Op) {
    match op
    case InsertClaim(ref, _) => ref !in w.claims
    case MarkSent(ref) => ref in w.claims
    case DeleteClaim(ref, _) => ref in w.claims
    case InsertConv(doc) =>
      forall c :: 0 <= c < |w.convs| ==> w.convs[c].phoneHash != doc.phoneHash || w.convs[c].brand != doc.brand
    case Touch(c, _) => c < |w.convs|
    case SetEscalated(c, _, _) => c < |w.convs|
    case SetResolved(c, _, _) => c < |w.convs|
    case SetClosed(c) => c < |w.convs| && w.convs[c].state == JaneHandling
    case UnsetPhone(c, cutoff) =>
      && c < |w.convs| && w.convs[c].state != Escalated && w.convs[c].lastMessageAt < cutoff
      && w.convs[c].phoneEncrypted.Some?
    case _ => true
  }

  lemma PossibleIsEffective(cfg: Config, w: World, p: Proc, pid: nat, op: Op)
    requires Writes(cfg, p, pid, op)
    ensures Possible(w, op) <==> Effective(w, op)
  {
  }

  lemma RequestWrites(cfg: Config, p: Proc, env: Env, pid: nat)
    requires Sound(p) && Live(p) && IsWrite(p.pc)
    ensures Writes(cfg, p, pid, Request(cfg, p, env, pid))
  {
    match p.pc
    case Sending => SendWrites(cfg, p);
    case LoggingInbound => RowWrites(cfg, p, env, pid);
    case LoggingReply => RowWrites(cfg, p, env, pid);
    case LoggingEcho => RowWrites(cfg, p, env, pid);
    case WritingResolve => ResolveWrites(cfg, p, env, pid);
    case Claiming => ClaimWrites(cfg, p, env, pid);
    case MarkingSent => ClaimWrites(cfg, p, env, pid);
    case Releasing => ClaimWrites(cfg, p, env, pid);
    case Notifying => NoticeWrites(cfg, p, env, pid);
    case _ => DocumentWrites(cfg, p, env, pid);
  }

  /** How a step adds an entry to the log, and what that entry makes of the documents: a claim a day
      old expires, or a process writes what it has to write at the await it has come to. */
  ghost predicate Adds(cfg: Config, s: Sys, a: Action, t: Sys, op: Op) {
    && Makes(s.w, op, t.w)
    && match a
       case Expire(ref) =>
         op == ExpireClaim(ref) && ref in s.w.claims && s.clock >= s.w.claims[ref].createdAt + 86400.0
       case Advance(pid, fault, _) =>
         && CanAdvance(s, pid) && fault != Refused
         && Fits(s.procs[pid].pc, op) && Writes(cfg, s.procs[pid], pid, op)
       case _ => false
  }

  ghost predicate AddsOne(cfg: Config, s: Sys, a: Action, t: Sys) {
    exists op :: Adds(cfg, s, a, t, op)
  }

  lemma StepContents(cfg: Config, s: Sys, a: Action)
    requires AllSound(s) && Enabled(cfg, s, a)
    ensures Step(cfg, s, a).w == s.w || AddsOne(cfg, s, a, Step(cfg, s, a))
  {
    if a.Advance? && Applies(cfg, s, a.pid, a.fault, a.env) {
      var op := OpOf(cfg, s, a.pid, a.env);
      if !IsWrite(s.procs[a.pid].pc) { OnlyTheseWrite(cfg, s.w, s.procs[a.pid], a.env, a.pid); }
      RequestWrites(cfg, s.procs[a.pid], a.env, a.pid);
      ApplyMakes(s.w, op);
      assert Adds(cfg, s, a, Step(cfg, s, a), op);
    } else if a.Expire? {
      ApplyMakes(s.w, ExpireClaim(a.ref));
      assert Adds(cfg, s, a, Step(cfg, s, a), ExpireClaim(a.ref));
    }
  }

  /** Every step of a run leaves the documents as they are or adds one entry, with just its effect. */
  lemma EveryStep(cfg: Config, states: seq<Sys>, actions: seq<Action>, k: nat)
    requires IsRun(cfg, states, actions) && k < |actions|
    ensures states[k + 1].w == states[k].w || AddsOne(cfg, states[k], actions[k], states[k + 1])
  {
    TrailsInRun(cfg, states, actions, k);
    assert Follows(cfg, states, actions, k);
    StepContents(cfg, states[k], actions[k]);
  }

  /** A process at a write writes what it has to write, and unless the call is refused, or the write
      matches nothing, the documents change by just that. */
  ghost predicate Does(cfg: Config, s: Sys, pid: nat, fault: Fault, t: Sys, op: Op) {
    && CanAdvance(s, pid) && Fits(s.procs[pid].pc, op) && Writes(cfg, s.procs[pid], pid, op)
    && (if fault != Refused && Possible(s.w, op) then Makes(s.w, op, t.w) else t.w == s.w)
  }

  ghost predicate DoesOne(cfg: Config, s: Sys, pid: nat, fault: Fault, t: Sys) {
    exists op :: Does(cfg, s, pid, fault, t, op)
  }

  lemma AdvanceDoes(cfg: Config, s: Sys, pid: nat, fault: Fault, env: Env)
    requires AllSound(s) && CanAdvance(s, pid)
    ensures var t := Step(cfg, s, Advance(pid, fault, env));
            if IsWrite(s.procs[pid].pc) then DoesOne(cfg, s, pid, fault, t) else t.w == s.w
  {
    var p, op := s.procs[pid], OpOf(cfg, s, pid, env);
    if IsWrite(p.pc) {
      RequestWrites(cfg, p, env, pid);
      PossibleIsEffective(cfg, s.w, p, pid, op);
      if Effective(s.w, op) { ApplyMakes(s.w, op); }
      assert Does(cfg, s, pid, fault, Step(cfg, s, Advance(pid, fault, env)), op);
    } else {
      OnlyTheseWrite(cfg, s.w, p, env, pid);
    }
  }

  /** What a process may ask, given what it is and what it has read. */
  predicate Asks(cfg: Config, p: Proc, op: Op) {
    match op
    case LookUp(number) =>
      || (IsTask(p) && p.pc == Resolving && number == p.role.msg.number)
      || (p.role.AgentReply? && p.pc == ReadingRegistry && p.snap.Some? && number == p.snap.value.phoneNumberId)
    case ReadFacts(brand, text) =>
      p.role.Attempt? && p.context.Some? && brand == p.context.value.brand && text == p.role.msg.text
    case FindClaim(ref) => p.role.AgentReply? && ref == Reply(p.role.key)
    case FindByKey(hash, brand) =>
      && IsTask(p) && p.context.Some?
      && hash == cfg.hash(Normalize(p.role.msg.sender)) && brand == p.context.value.brand
    case FindById(c) => p.conv == Some(c)
    case _ => false
  }

  /** Every read of every run asks for what the source asks there. */
  lemma EveryRead(cfg: Config, states: seq<Sys>, actions: seq<Action>, k: nat, pid: nat, env: Env)
    requires IsRun(cfg, states, actions) && k <= |actions|
    requires CanAdvance(states[k], pid) && !IsWrite(states[k].procs[pid].pc)
    ensures Asks(cfg, states[k].procs[pid], OpOf(cfg, states[k], pid, env))
  {
    TrailsInRun(cfg, states, actions, k);
    assert Sound(states[k].procs[pid]);
  }

  lemma TimeOfRequest(cfg: Config, s: Sys, pid: nat, fault: Fault, env: Env)
    requires CanAdvance(s, pid) && !s.procs[pid].role.PurgeJob?
    ensures ProcAfter(cfg, s, pid, fault, env).at == s.clock
  {
  }

  /** Every await of every run: at a write the process writes what the source writes there, and the
      documents change by just that whenever the call takes effect and matches; at any other await
      they stay. Its next request is stamped with the time of this one. */
  lemma EveryAwait(cfg: Config, states: seq<Sys>, actions: seq<Action>, k: nat)
    requires IsRun(cfg, states, actions) && k < |actions| && actions[k].Advance?
    ensures var s, t, pid := states[k], states[k + 1], actions[k].pid;
            && pid < |s.procs| && pid < |t.procs|
            && (if IsWrite(s.procs[pid].pc) then DoesOne(cfg, s, pid, actions[k].fault, t) else t.w == s.w)
            && (!s.procs[pid].role.PurgeJob? ==> t.procs[pid].at == s.clock)
  {
    TrailsInRun(cfg, states, actions, k);
    assert Follows(cfg, states, actions, k);
    var a := actions[k];
    AdvanceDoes(cfg, states[k], a.pid, a.fault, a.env);
    if !states[k].procs[a.pid].role.PurgeJob? {
      TimeOfRequest(cfg, states[k], a.pid, a.fault, a.env);
    }
  }

  lemma MakesLogs(w: World, op: Op, y: World)
    requires Makes(w, op, y)
    ensures y.oplog == w.oplog + [op]
  {
  }

  lemma LastEntry(cfg: Config, states: seq<Sys>, actions: seq<Action>, k: nat)
    requires IsRun(cfg, states, actions) && 0 < k <= |actions| && states[k].w != states[k - 1].w
    ensures |states[k].w.oplog| == |states[k - 1].w.oplog| + 1 && states[k - 1].w.oplog <= states[k].w.oplog
    ensures Adds(cfg, states[k - 1], actions[k - 1], states[k], states[k].w.oplog[|states[k - 1].w.oplog|])
  {
    EveryStep(cfg, states, actions, k - 1);
    var op :| Adds(cfg, states[k - 1], actions[k - 1], states[k], op);
    MakesLogs(states[k - 1].w, op, states[k].w);
  }

  /** Every entry of the log was added by one step of the run. */
  lemma {:induction false} EveryEntry(cfg: Config, states: seq<Sys>, actions: seq<Action>, k: nat, n: nat)
    returns (m: nat)
    requires IsRun(cfg, states, actions) && k <= |actions| && n < |states[k].w.oplog|
    ensures m < k && |states[m].w.oplog| == n
    ensures Adds(cfg, states[m], actions[m], states[m + 1], states[k].w.oplog[n])
  {
    if states[k].w == states[k - 1].w {
      m := EveryEntry(cfg, states, actions, k - 1, n);
    } else {
      LastEntry(cfg, states, actions, k);
      if n < |states[k - 1].w.oplog| {
        m := EveryEntry(cfg, states, actions, k - 1, n);
      } else {
        m := k - 1;
      }
    }
  }

  /** The rows that a log records, in order. */
  function RowsIn(ops: seq<Op>): seq<Row> {
    if ops == [] then []
    else
      var earlier := RowsIn(ops[..|ops| - 1]);
      if ops[|ops| - 1].InsertRow? then earlier + [ops[|ops| - 1].row] else earlier
  }

  lemma RowsAfter(w: World, op: Op, y: World)
    requires Makes(w, op, y) && w.rows == RowsIn(w.oplog)
    ensures y.rows == RowsIn(y.oplog)
  {
    assert y.oplog[..|w.oplog|] == w.oplog;
  }

  /** The message log holds exactly the rows that were inserted, so what `Writes` says of an insertion
      is said of each row. */
  lemma {:induction false} RowsAreEntries(cfg: Config, states: seq<Sys>, actions: seq<Action>, k: nat)
    requires IsRun(cfg, states, actions) && k <= |actions|
    ensures states[k].w.rows == RowsIn(states[k].w.oplog)
  {
    if k == 0 {
    } else {
      RowsAreEntries(cfg, states, actions, k - 1);
      EveryStep(cfg, states, actions, k - 1);
      if states[k].w != states[k - 1].w {
        var op :| Adds(cfg, states[k - 1], actions[k - 1], states[k], op);
        RowsAfter(states[k - 1].w, op, states[k].w);
      }
    }
  }

  lemma {:induction false} RolesStay(
    cfg: Config, states: seq<Sys>, actions: seq<Action>, m: nat, k: nat, pid: nat)
    requires IsRun(cfg, states, actions) && m <= k <= |actions| && pid < |states[m].procs|
    ensures pid < |states[k].procs| && states[k].procs[pid].role == states[m].procs[pid].role
  {
    if m < k {
      RolesStay(cfg, states, actions, m, k - 1, pid);
      TrailsInRun(cfg, states, actions, k - 1);
      assert Follows(cfg, states, actions, k - 1);
      var s, a := states[k - 1], actions[k - 1];
      if a.Advance? {
        AdvanceMoves(cfg, s, a.pid, a.fault, a.env);
      }
    }
  }

  /** What the registry's answer tells an agent's request: the connection, or that there is none. */
  ghost predicate RegistrySaid(states: seq<Sys>, actions: seq<Action>, k: nat, pid: nat, context: Option<Context>) {
    exists m: nat ::
      && m < k && m < |actions| && m < |states| && actions[m].Advance? && actions[m].pid == pid
      && actions[m].fault == Returns && pid < |states[m].procs| && states[m].procs[pid].pc == ReadingRegistry
      && context == Some(if actions[m].env.context.Some? then actions[m].env.context.value
                         else Context(None, None, None))
  }

  ghost predicate Connected(states: seq<Sys>, actions: seq<Action>, k: nat, pid: nat) {
    k < |states| && pid < |states[k].procs| && states[k].procs[pid].role.AgentReply? ==>
      (states[k].procs[pid].context.Some? ==> RegistrySaid(states, actions, k, pid, states[k].procs[pid].context))
  }

  lemma RegistryInforms(p: Proc, op: Op, applied: bool, r: Response, fault: Fault, env: Env, now: real)
    requires Sound(p) && Live(p) && p.role.AgentReply?
    ensures var q := After(p, op, applied, r, fault, env, now);
            || q.context == p.context
            || (p.pc == ReadingRegistry && fault == Returns
                && q.context == Some(if r.ContextIs? && r.context.Some? then r.context.value
                                     else Context(None, None, None)))
  {
  }

  lemma MoverConnected(cfg: Config, states: seq<Sys>, actions: seq<Action>, k: nat)
    requires IsRun(cfg, states, actions) && 0 < k <= |actions| && AllSound(states[k - 1]) && actions[k - 1].Advance?
    requires actions[k - 1].pid < |states[k - 1].procs| && states[k - 1].procs[actions[k - 1].pid].role.AgentReply?
    requires Connected(states, actions, k - 1, actions[k - 1].pid)
    ensures Connected(states, actions, k, actions[k - 1].pid)
  {
    assert Follows(cfg, states, actions, k - 1);
    var s, a := states[k - 1], actions[k - 1];
    var op := OpOf(cfg, s, a.pid, a.env);
    var r := Respond(s.w, op, a.env);
    RegistryInforms(s.procs[a.pid], op, Applies(cfg, s, a.pid, a.fault, a.env), r, a.fault, a.env, s.clock);
    assert s.procs[a.pid].pc == ReadingRegistry ==> r == ContextIs(a.env.context);
  }

  lemma ConnectedContinues(cfg: Config, states: seq<Sys>, actions: seq<Action>, k: nat, pid: nat)
    requires IsRun(cfg, states, actions) && 0 < k <= |actions| && AllSound(states[k - 1])
    requires Connected(states, actions, k - 1, pid)
    ensures Connected(states, actions, k, pid)
  {
    assert Follows(cfg, states, actions, k - 1);
    var s, a := states[k - 1], actions[k - 1];
    if pid < |states[k].procs| && states[k].procs[pid].role.AgentReply? {
      if a.Advance? && a.pid == pid {
        AdvanceMoves(cfg, s, pid, a.fault, a.env);
        MoverConnected(cfg, states, actions, k);
      } else {
        OthersStay(cfg, s, a, pid);
      }
    }
  }

  lemma {:induction false} ConnectedInRun(cfg: Config, states: seq<Sys>, actions: seq<Action>, k: nat, pid: nat)
    requires IsRun(cfg, states, actions) && k <= |actions|
    ensures Connected(states, actions, k, pid)
  {
    if k == 0 {
    } else {
      ConnectedInRun(cfg, states, actions, k - 1, pid);
      TrailsInRun(cfg, states, actions, k - 1);
      ConnectedContinues(cfg, states, actions, k, pid);
    }
  }

  /** The process that added a `Send` to the log, at its send. */
  lemma SenderOf(cfg: Config, states: seq<Sys>, actions: seq<Action>, k: nat, n: nat) returns (m: nat, pid: nat)
    requires IsRun(cfg, states, actions) && k <= |actions| && n < |states[k].w.oplog| && states[k].w.oplog[n].Send?
    ensures m < k && pid < |states[m].procs| && pid < |states[k].procs|
    ensures states[m].procs[pid].pc == Sending && states[k].procs[pid].role == states[m].procs[pid].role
    ensures WritesSend(cfg, states[m].procs[pid], states[k].w.oplog[n])
  {
    m := EveryEntry(cfg, states, actions, k, n);
    pid := actions[m].pid;
    RolesStay(cfg, states, actions, m, k, pid);
  }

  /** Every message Jane has sent in a run is the engine's answer to the message it replies to or, if
      the engine had none, the holding reply; it went to that message's sender, from the number the
      sender wrote to, with the token of that number's connection, on a conversation read as not
      escalated. */
  lemma JaneSendsTheAnswer(cfg: Config, states: seq<Sys>, actions: seq<Action>, k: nat, n: nat)
    returns (m: nat, pid: nat)
    requires IsRun(cfg, states, actions) && k <= |actions| && n < |states[k].w.oplog|
    requires states[k].w.oplog[n].Send? && states[k].w.oplog[n].sender.Jane?
    ensures m < k && pid < |states[m].procs| && states[m].procs[pid].role.Attempt?
    ensures var op, p := states[k].w.oplog[n], states[m].procs[pid];
            && op.sender.messageId == p.role.msg.id && op.to == Addressed(p.role.msg.sender)
            && op.line == p.role.msg.number
            && EngineSaid(states, actions, m, pid, p.answer) && (op.sender.holding <==> p.answer.None?)
            && op.body == (if p.answer.Some? then p.answer.value else "Let me check that and get back to you shortly!")
            && p.context.Some? && ResolvedTo(states, actions, m, pid, p.context) && op.token == p.context.value.token
            && p.snap.Some? && Seen(states, m, op.conv, p.snap.value) && p.snap.value.state != Escalated
  {
    m, pid := SenderOf(cfg, states, actions, k, n);
    TrailsInRun(cfg, states, actions, m);
    InformedInRun(cfg, states, actions, m, pid);
    ReadsInRun(cfg, states, actions, m, pid);
    assert Sound(states[m].procs[pid]);
  }

  /** Every message an agent has sent in a run is the text of a request with that key on that
      conversation; it went to the number decrypted from the document, and from the business number
      on it, as the request had read it, escalated, and with the token of that number's connection
      or none. */
  lemma AgentSendsTheReply(cfg: Config, states: seq<Sys>, actions: seq<Action>, k: nat, n: nat)
    returns (m: nat, pid: nat)
    requires IsRun(cfg, states, actions) && k <= |actions| && n < |states[k].w.oplog|
    requires states[k].w.oplog[n].Send? && states[k].w.oplog[n].sender.Agent?
    ensures m < k && pid < |states[m].procs| && states[m].procs[pid].role.AgentReply?
    ensures pid < |states[k].procs| && states[k].procs[pid].role == states[m].procs[pid].role
    ensures var op, p := states[k].w.oplog[n], states[m].procs[pid];
            && op.body == p.role.body && op.sender.key == p.role.key && op.conv == p.role.target
            && p.snap.Some? && p.snap.value.phoneEncrypted.Some?
            && Seen(states, m, op.conv, p.snap.value) && p.snap.value.state == Escalated
            && op.to == Addressed(cfg.decrypt(p.snap.value.phoneEncrypted.value))
            && op.line == p.snap.value.phoneNumberId
            && p.context.Some? && RegistrySaid(states, actions, m, pid, p.context)
            && op.token == p.context.value.token
  {
    m, pid := SenderOf(cfg, states, actions, k, n);
    TrailsInRun(cfg, states, actions, m);
    ReadInRun(cfg, states, actions, m);
    ReadsInRun(cfg, states, actions, m, pid);
    ConnectedInRun(cfg, states, actions, m, pid);
    assert Sound(states[m].procs[pid]);
  }
}
