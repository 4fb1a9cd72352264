/** The programs that run against the shared documents, one program counter per `await`:
    the inbound task, the echo path, an agent's reply, an out-of-band resolve, a close and
    the retention job. */
module Processes {
  import opened Options
  import opened Phone
  import opened Records

  /** The foreign primitives: the phone hash and the phone cipher, both uninterpreted, and
      the number of worker slots. */
  datatype Config = Config(
    slots: nat,
    hash: string -> string,
    encrypt: (string, nat) -> string,
    decrypt: string -> string)

  datatype Message = Message(id: string, sender: string, text: string, number: string)

  datatype Role =
    | Attempt(job: nat, msg: Message)
    | EchoTask(msg: Message)
    | AgentReply(target: nat, body: string, email: string, agentId: string, key: string, channel: string)
    | ResolveOnly(target: nat, email: string)
    | CloseRequest(target: nat)
    | PurgeJob(days: int)

  datatype Outcome =
    | Completed | DroppedUnknown | DuplicateDelivery | Raised
    | AlreadySent | InProgress | NotFound | NotEscalated

  datatype Pc =
    | Resolving | Claiming | Finding | Creating | Touching | LoggingInbound | Answering
    | Sending | LoggingReply | Escalating | Notifying | Releasing
    | Checking | LoggingEcho
    | CheckingClaim | Rereading | ReadingConv | ReadingRegistry | MarkingSent
    | ReadingForResolve | WritingResolve
    | Closing | Purging
    | Ended(outcome: Outcome)

  /** One process. `at` is the clock when its next request was built, `snap` the conversation
      document it acts on; the flags record which of its effects took place. */
  datatype Proc = Proc(
    role: Role,
    pc: Pc,
    alive: bool,
    started: real,
    at: real,
    context: Option<Context>,
    conv: Option<nat>,
    snap: Option<Conversation>,
    answer: Option<string>,
    owns: bool,
    sent: bool,
    logged: bool,
    escalated: bool,
    notified: bool)

  function Spawn(role: Role, now: real): Proc {
    var pc := match role
      case Attempt(_, _) => Resolving
      case EchoTask(_) => Resolving
      case AgentReply(_, _, _, _, _, _) => CheckingClaim
      case ResolveOnly(_, _) => Checking
      case CloseRequest(_) => Closing
      case PurgeJob(_) => Purging;
    var conv := match role
      case AgentReply(c, _, _, _, _, _) => Some(c)
      case ResolveOnly(c, _) => Some(c)
      case CloseRequest(c) => Some(c)
      case _ => None;
    Proc(role, pc, true, now, now, None, conv, None, None, false, false, false, false, false)
  }

  predicate Live(p: Proc) {
    p.alive && !p.pc.Ended?
  }

  /** Runs inside the Celery task, under its time limit. */
  predicate IsTask(p: Proc) {
    p.role.Attempt? || p.role.EchoTask?
  }

  /** Claims something before it sends. */
  predicate Claims(p: Proc) {
    p.role.Attempt? || p.role.AgentReply?
  }

  function RefOf(p: Proc): ClaimRef
    requires Claims(p)
  {
    if p.role.Attempt? then Inbound(p.role.msg.id) else Reply(p.role.key)
  }

  /** The data a program counter relies on has been read. */
  predicate Prepared(role: Role, pc: Pc, context: Option<Context>, conv: Option<nat>, snap: Option<Conversation>) {
    match pc
    case Resolving => (role.Attempt? || role.EchoTask?)
    case Claiming => (role.Attempt? && context.Some?) || (role.AgentReply? && conv.Some? && snap.Some?)
    case Finding => (role.Attempt? || role.EchoTask?) && context.Some?
    case Creating => (role.Attempt? || role.EchoTask?) && context.Some?
    case Touching => (role.Attempt? || role.EchoTask?) && context.Some? && conv.Some? && snap.Some?
    case LoggingInbound => role.Attempt? && context.Some? && conv.Some? && snap.Some?
    case Answering => role.Attempt? && context.Some? && conv.Some? && snap.Some?
    case Sending => (role.Attempt? || role.AgentReply?) && context.Some? && conv.Some? && snap.Some?
                    && (role.AgentReply? ==> snap.value.phoneEncrypted.Some?)
    case LoggingReply => (role.Attempt? || role.AgentReply?) && context.Some? && conv.Some?
    case Escalating => role.Attempt? && context.Some? && conv.Some?
    case Notifying => role.Attempt? && context.Some? && conv.Some?
    case Releasing => (role.Attempt? || role.AgentReply?)
    case Checking => (role.EchoTask? || role.ResolveOnly?) && conv.Some?
    case LoggingEcho => role.EchoTask? && conv.Some?
    case CheckingClaim => role.AgentReply? && conv.Some?
    case Rereading => role.AgentReply? && conv.Some?
    case ReadingConv => role.AgentReply? && conv.Some?
    case ReadingRegistry => role.AgentReply? && conv.Some? && snap.Some? && snap.value.phoneEncrypted.Some?
    case MarkingSent => role.AgentReply? && context.Some? && conv.Some?
    case ReadingForResolve => (role.AgentReply? || role.EchoTask? || role.ResolveOnly?) && conv.Some?
    case WritingResolve => (role.AgentReply? || role.EchoTask? || role.ResolveOnly?)
                           && conv.Some? && snap.Some? && snap.value.state == Escalated
    case Closing => role.CloseRequest? && conv.Some?
    case Purging => role.PurgeJob?
    case Ended(_) => true
  }

  predicate Shape(p: Proc) {
    Prepared(p.role, p.pc, p.context, p.conv, p.snap)
  }

  /** The document `get_or_create_conversation` inserts. */
  function NewConversation(cfg: Config, msg: Message, brand: Option<string>, now: real, nonce: nat): Conversation {
    Conversation(cfg.hash(Normalize(msg.sender)), Some(cfg.encrypt(Normalize(msg.sender), nonce)), msg.number,
                 brand, JaneHandling, None, None, now, now, None, None)
  }

  function ResolvedVia(role: Role): string {
    match role
    case AgentReply(_, _, _, _, _, channel) => channel
    case ResolveOnly(_, _) => "manual"
    case _ => ECHO_CHANNEL
  }

  function ResolvedBy(role: Role): Option<string> {
    match role
    case AgentReply(_, _, email, _, _, _) => Some(email)
    case ResolveOnly(_, email) => Some(email)
    case _ => None
  }

  function SendOp(cfg: Config, p: Proc): Op
    requires Claims(p) && p.context.Some? && p.conv.Some?
    requires p.role.AgentReply? ==> p.snap.Some? && p.snap.value.phoneEncrypted.Some?
  {
    match p.role
    case AgentReply(_, body, _, _, key, _) =>
      Send(p.conv.value, Agent(key), Addressed(cfg.decrypt(p.snap.value.phoneEncrypted.value)),
           p.snap.value.phoneNumberId, p.context.value.token, body)
    case _ =>
      Send(p.conv.value, Jane(p.role.msg.id, p.answer.None?), Addressed(p.role.msg.sender), p.role.msg.number,
           p.context.value.token, if p.answer.Some? then p.answer.value else HOLDING_REPLY)
  }

  function ReplyRow(p: Proc): Row
    requires Claims(p) && p.conv.Some?
  {
    match p.role
    case AgentReply(_, body, email, agentId, _, channel) =>
      Row(p.conv.value, FromAgent(channel, Some(email), Some(agentId)), body, p.at)
    case _ =>
      Row(p.conv.value, FromJane(p.answer.None?), if p.answer.Some? then p.answer.value else HOLDING_REPLY, p.at)
  }

  /** The retention job's cutoff, fixed when the job starts. */
  function Cutoff(p: Proc): real
    requires p.role.PurgeJob?
  {
    p.at - (p.role.days as real) * DAY
  }

  /** Which program counters issue which operations that can change anything. */
  predicate Fits(pc: Pc, op: Op) {
    && (op.InsertClaim? <==> pc == Claiming)
    && (op.DeleteClaim? <==> pc == Releasing)
    && (op.MarkSent? <==> pc == MarkingSent)
    && (op.InsertConv? <==> pc == Creating)
    && (op.Touch? <==> pc == Touching)
    && (op.SetEscalated? <==> pc == Escalating)
    && (op.SetResolved? <==> pc == WritingResolve)
    && (op.SetClosed? <==> pc == Closing)
    && (op.UnsetPhone? <==> pc == Purging)
    && (op.InsertRow? <==> pc == LoggingInbound || pc == LoggingReply || pc == LoggingEcho)
    && (op.Send? <==> pc == Sending)
    && (op.Notify? <==> pc == Notifying)
    && !op.ExpireClaim?
  }

  /** The operation a process is about to await. `nonce` feeds the cipher. */
  function Request(cfg: Config, p: Proc, env: Env, nonce: nat): (op: Op)
    requires Shape(p) && !p.pc.Ended?
    ensures Fits(p.pc, op)
  {
    match p.pc
    case Resolving => LookUp(p.role.msg.number)
    case Claiming => InsertClaim(RefOf(p), p.at)
    case Finding => FindByKey(cfg.hash(Normalize(p.role.msg.sender)), p.context.value.brand)
    case Creating => InsertConv(NewConversation(cfg, p.role.msg, p.context.value.brand, p.at, nonce))
    case Touching => Touch(p.conv.value, p.at)
    case LoggingInbound => InsertRow(Row(p.conv.value, FromCustomer, p.role.msg.text, p.at))
    case Answering => ReadFacts(p.context.value.brand, p.role.msg.text)
    case Sending => SendOp(cfg, p)
    case LoggingReply => InsertRow(ReplyRow(p))
    case Escalating => SetEscalated(p.conv.value, ESCALATION_REASON, p.at)
    case Notifying => Notify(p.conv.value, p.role.msg.text, ESCALATION_REASON, p.context.value.inbox)
    case Releasing => DeleteClaim(RefOf(p), p.sent)
    case Checking => FindById(p.conv.value)
    case LoggingEcho => InsertRow(Row(p.conv.value, FromAgent(ECHO_CHANNEL, None, None), p.role.msg.text, p.at))
    case CheckingClaim => FindClaim(RefOf(p))
    case Rereading => FindById(p.conv.value)
    case ReadingConv => FindById(p.conv.value)
    case ReadingRegistry => LookUp(p.snap.value.phoneNumberId)
    case MarkingSent => MarkSent(RefOf(p))
    case ReadingForResolve => FindById(p.conv.value)
    case WritingResolve => SetResolved(p.conv.value, Some(ResolvedVia(p.role)), ResolvedBy(p.role))
    case Closing => SetClosed(p.conv.value)
    case Purging => UnsetPhone(env.visit, Cutoff(p))
  }

  /** Records an effect of the process itself when its operation took place. */
  function Mark(p: Proc, op: Op): Proc {
    p.(owns := op.InsertClaim? || (p.owns && !op.DeleteClaim?),
       sent := p.sent || op.Send?,
       logged := p.logged || (op.InsertRow? && p.pc == LoggingReply),
       escalated := p.escalated || op.SetEscalated?,
       notified := p.notified || op.Notify?)
  }

  /** Where control goes when an operation raises: the `except` branch inside the claimed
      region, out of the function everywhere else. */
  function FailPc(role: Role, pc: Pc): Pc {
    var releases :=
      if role.Attempt? then pc != Resolving && pc != Claiming && pc != Releasing
      else role.AgentReply? && (pc == ReadingRegistry || pc == Sending || pc == MarkingSent);
    if releases then Releasing else Ended(Raised)
  }

  /** Where control goes when an operation returns normally. */
  function NextPc(p: Proc, r: Response, env: Env): Pc
    requires Shape(p) && !p.pc.Ended?
  {
    match p.pc
    case Resolving =>
      if !r.ContextIs? || r.context.None? then Ended(DroppedUnknown)
      else if p.role.Attempt? then Claiming else Finding
    case Claiming =>
      if r.Duplicate? then Ended(if p.role.Attempt? then DuplicateDelivery else InProgress)
      else if p.role.Attempt? then Finding
      else if p.snap.value.phoneEncrypted.None? then Releasing
      else ReadingRegistry
    case Finding => if r.Found? then Touching else Creating
    case Creating => if r.Found? then Touching else FailPc(p.role, p.pc)
    case Touching => if p.role.Attempt? then LoggingInbound else Checking
    case LoggingInbound => if p.snap.value.state == Escalated then Ended(Completed) else Answering
    case Answering => Sending
    case Sending => if p.role.Attempt? then LoggingReply else MarkingSent
    case LoggingReply =>
      if p.role.AgentReply? then ReadingForResolve
      else if p.answer.Some? then Ended(Completed)
      else Escalating
    case Escalating => Notifying
    case Notifying => Ended(Completed)
    case Releasing => Ended(Raised)
    case Checking =>
      if !r.Found? then Ended(if p.role.EchoTask? then Completed else NotFound)
      else if p.role.EchoTask? then LoggingEcho
      else ReadingForResolve
    case LoggingEcho => ReadingForResolve
    case CheckingClaim =>
      if !r.ClaimFound? then ReadingConv
      else if r.sent then Rereading
      else Ended(InProgress)
    case Rereading => Ended(AlreadySent)
    case ReadingConv =>
      if !r.Found? then Ended(NotFound)
      else if r.doc.state != Escalated then Ended(NotEscalated)
      else Claiming
    case ReadingRegistry => Sending
    case MarkingSent => LoggingReply
    case ReadingForResolve =>
      if r.Found? && r.doc.state == Escalated then WritingResolve else Ended(Completed)
    case WritingResolve => Ended(Completed)
    case Closing => Ended(Completed)
    case Purging => if env.last then Ended(Completed) else Purging
  }

  /** What a normal return adds to the process's local data. */
  function NextContext(p: Proc, r: Response): Option<Context> {
    if p.pc == Resolving && r.ContextIs? then r.context
    else if p.pc == ReadingRegistry then
      Some(if r.ContextIs? && r.context.Some? then r.context.value else Context(None, None, None))
    else p.context
  }

  function NextConv(p: Proc, r: Response): Option<nat> {
    if (p.pc == Finding || p.pc == Creating) && r.Found? then Some(r.conv) else p.conv
  }

  function NextSnap(p: Proc, r: Response): Option<Conversation> {
    if (p.pc == Finding || p.pc == Creating || p.pc == ReadingConv || p.pc == ReadingForResolve) && r.Found?
    then Some(r.doc)
    else p.snap
  }

  /** Moving on changes neither who a process is nor what it has done. */
  predicate SameEffects(p: Proc, q: Proc) {
    q.role == p.role && q.alive == p.alive && q.started == p.started && q.owns == p.owns && q.sent == p.sent
    && q.logged == p.logged && q.escalated == p.escalated && q.notified == p.notified
  }

  function Resume(p: Proc, r: Response, env: Env, now: real): (q: Proc)
    requires Shape(p) && !p.pc.Ended?
    ensures SameEffects(p, q)
  {
    p.(pc := NextPc(p, r, env),
       at := if p.pc == Purging && !env.last then p.at else now,
       context := NextContext(p, r), conv := NextConv(p, r), snap := NextSnap(p, r),
       answer := if p.pc == Answering && r.AnswerIs? then r.answer else p.answer)
  }

  function Fail(p: Proc, now: real): (q: Proc)
    ensures SameEffects(p, q)
  {
    p.(at := now, pc := FailPc(p.role, p.pc))
  }

  /** How an awaited operation can go: it returns, it raises without effect, or it takes
      effect and raises all the same. */
  datatype Fault = Returns | Refused | AppliedButRaised

  /** The process after its operation, given whether it took effect and what it answered. */
  function After(p: Proc, op: Op, applied: bool, r: Response, fault: Fault, env: Env, now: real): Proc
    requires Shape(p) && !p.pc.Ended?
  {
    var q := if applied then Mark(p, op) else p;
    if fault == Returns then Resume(q, r, env, now) else Fail(q, now)
  }

  function RefOfSender(sender: Sender): ClaimRef {
    match sender
    case Jane(id, _) => Inbound(id)
    case Agent(key) => Reply(key)
  }

  /** The three kinds of message the service sends and logs. */
  datatype Kind = JaneAnswer | JaneHolding | AgentMessage

  function KindOf(p: Proc): Kind
    requires Claims(p)
  {
    if p.role.AgentReply? then AgentMessage else if p.answer.Some? then JaneAnswer else JaneHolding
  }

  /** What a process says to the customer and writes in the log as said. */
  function BodyOf(p: Proc): string
    requires Claims(p)
  {
    if p.role.AgentReply? then p.role.body else if p.answer.Some? then p.answer.value else HOLDING_REPLY
  }

  function KindOfSender(sender: Sender): Kind {
    match sender
    case Jane(_, holding) => if holding then JaneHolding else JaneAnswer
    case Agent(_) => AgentMessage
  }

  /** Customer rows and echo rows record nothing the service sent. */
  function KindOfRow(kind: RowKind): Option<Kind> {
    match kind
    case FromCustomer => None
    case FromJane(holding) => Some(if holding then JaneHolding else JaneAnswer)
    case FromAgent(_, _, agentId) => if agentId.Some? then Some(AgentMessage) else None
  }

  /** What a process writes carries its own identity. */
  predicate Signed(p: Proc, op: Op) {
    match op
    case InsertClaim(ref, at) => Claims(p) && ref == RefOf(p) && at == p.at
    case DeleteClaim(ref, late) => Claims(p) && ref == RefOf(p) && late == p.sent
    case MarkSent(ref) => Claims(p) && ref == RefOf(p)
    case Send(conv, sender, _, _, _, body) =>
      Claims(p) && RefOfSender(sender) == RefOf(p) && p.conv == Some(conv) && KindOfSender(sender) == KindOf(p)
      && body == BodyOf(p)
    case InsertRow(row) =>
      p.conv == Some(row.conv) && (p.pc == LoggingReply ==> Claims(p) && row.body == BodyOf(p))
      && KindOfRow(row.kind) == (if p.pc == LoggingReply then Some(KindOf(p)) else None)
    case FindByKey(_, _) => p.pc == Finding
    case FindById(conv) => p.conv == Some(conv) && p.pc != Finding && p.pc != Creating
    case InsertConv(doc) => IsTask(p) && doc.state == JaneHandling && doc.escalatedReason == None
    case SetEscalated(conv, _, _) => p.role.Attempt? && p.conv == Some(conv)
    case Notify(conv, _, _, _) => p.role.Attempt? && p.conv == Some(conv)
    case SetResolved(conv, _, _) => p.conv == Some(conv)
    case Touch(conv, at) => IsTask(p) && p.conv == Some(conv) && at == p.at
    case UnsetPhone(_, cutoff) => p.role.PurgeJob? && cutoff == Cutoff(p)
    case _ => true
  }

  lemma RequestSigned(cfg: Config, p: Proc, env: Env, nonce: nat)
    requires Shape(p) && !p.pc.Ended?
    ensures Signed(p, Request(cfg, p, env, nonce))
  {
  }

  /** One move changes a process's flags only by the effect it had. */
  predicate Flagged(p: Proc, op: Op, applied: bool, q: Proc) {
    && q.role == p.role && q.alive == p.alive && q.started == p.started
    && q.owns == (if applied && op.InsertClaim? then true else p.owns && !(applied && op.DeleteClaim?))
    && q.sent == (p.sent || (applied && op.Send?))
    && q.logged == (p.logged || (applied && op.InsertRow? && p.pc == LoggingReply))
    && q.escalated == (p.escalated || (applied && op.SetEscalated?))
    && q.notified == (p.notified || (applied && op.Notify?))
  }

  lemma AfterFlagged(p: Proc, op: Op, applied: bool, r: Response, fault: Fault, env: Env, now: real)
    requires Shape(p) && !p.pc.Ended?
    ensures Flagged(p, op, applied, After(p, op, applied, r, fault, env, now))
  {
    var q := if applied then Mark(p, op) else p;
    assert Flagged(p, op, applied, q);
    var t := After(p, op, applied, r, fault, env, now);
    assert SameEffects(q, t);
  }

  /** The conversation and the answer of a process are settled before it sends. */
  predicate Steady(p: Proc, q: Proc) {
    && (p.pc != Finding && p.pc != Creating ==> q.conv == p.conv)
    && (p.pc != Answering ==> q.answer == p.answer)
  }

  lemma AfterSteady(p: Proc, op: Op, applied: bool, r: Response, fault: Fault, env: Env, now: real)
    requires Shape(p) && !p.pc.Ended?
    ensures Steady(p, After(p, op, applied, r, fault, env, now))
  {
  }

  lemma RaisingKeepsData(p: Proc, op: Op, applied: bool, r: Response, fault: Fault, env: Env, now: real)
    requires Shape(p) && !p.pc.Ended? && fault != Returns
    ensures var q := After(p, op, applied, r, fault, env, now);
            q.role == p.role && q.context == p.context && q.conv == p.conv && q.snap == p.snap
  {
  }

  /** What a process may learn in one move: its context, its conversation or a fresh snapshot. */
  predicate Learns(p: Proc, r: Response, q: Proc) {
    && q.role == p.role
    && (q.context == p.context || (p.pc == Resolving && r.ContextIs? && q.context == r.context && r.context.Some?)
        || (p.pc == ReadingRegistry && q.context.Some?))
    && ((q.conv == p.conv && q.snap == p.snap)
        || (r.Found? && q.snap == Some(r.doc)
            && q.conv == (if p.pc == Finding || p.pc == Creating then Some(r.conv) else p.conv)))
  }

  lemma AfterData(p: Proc, op: Op, applied: bool, r: Response, env: Env, now: real)
    requires Shape(p) && !p.pc.Ended?
    ensures var q := After(p, op, applied, r, Returns, env, now);
            && q.role == p.role && q.context == NextContext(p, r)
            && q.conv == NextConv(p, r) && q.snap == NextSnap(p, r)
  {
  }

  lemma DataLearns(p: Proc, r: Response, q: Proc)
    requires Shape(p) && q.role == p.role && q.context == NextContext(p, r)
    requires q.conv == NextConv(p, r) && q.snap == NextSnap(p, r)
    ensures Learns(p, r, q)
            || (p.pc == Resolving && q.context.None? && q.role == p.role && q.conv == p.conv && q.snap == p.snap)
  {
  }

  lemma AfterLearns(p: Proc, op: Op, applied: bool, r: Response, fault: Fault, env: Env, now: real)
    requires Shape(p) && !p.pc.Ended?
    ensures var q := After(p, op, applied, r, fault, env, now);
            Learns(p, r, q) || (p.pc == Resolving && q.context.None? && q.role == p.role && q.conv == p.conv
                                && q.snap == p.snap)
  {
    if fault == Returns {
      AfterData(p, op, applied, r, env, now);
      DataLearns(p, r, After(p, op, applied, r, Returns, env, now));
    } else {
      RaisingKeepsData(p, op, applied, r, fault, env, now);
    }
  }
}
