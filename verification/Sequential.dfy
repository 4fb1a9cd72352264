/** The service's calls run one at a time: what each does to the documents, from first line to
    last, when nothing else intervenes, however each of its awaits goes. Each function is the
    rest of a call from one of its awaits on. */
module Sequential {
  import opened Options
  import opened Phone
  import opened Records
  import opened Processes

  /** How each await of one call goes. */
  type Net = Pc -> Fault

  const UP: Net := (pc: Pc) => Returns

  /** Nothing raises. */
  ghost predicate Calm(net: Net) {
    forall pc :: net(pc) == Returns
  }

  datatype Done = Done(w: World, outcome: Outcome)

  /** What `get_or_create_conversation` returns, or that it raised. */
  datatype Got = Got(w: World, conv: nat, doc: Conversation) | Failed(w: World)

  /** The world after an awaited operation, effective unless it was refused. */
  function AfterCall(w: World, op: Op, fault: Fault): World {
    if fault == Refused then w else Perform(w, op)
  }

  /** The `except` branch: release the claim, then raise. */
  function Released(w: World, ref: ClaimRef, late: bool, net: Net): Done {
    Done(AfterCall(w, DeleteClaim(ref, late), net(Releasing)), Raised)
  }

  function Create(cfg: Config, w: World, msg: Message, brand: Option<string>, now: real, nonce: nat, net: Net): Got {
    var doc := NewConversation(cfg, msg, brand, now, nonce);
    if net(Creating) == Returns && Effective(w, InsertConv(doc)) then Got(Perform(w, InsertConv(doc)), |w.convs|, doc)
    else Failed(AfterCall(w, InsertConv(doc), net(Creating)))
  }

  function GetOrCreate(
    cfg: Config, w: World, msg: Message, brand: Option<string>, now: real, nonce: nat, net: Net): Got
  {
    var found := Search(w.convs, cfg.hash(Normalize(msg.sender)), brand);
    if net(Finding) != Returns then Failed(w)
    else if found.Some? then Got(w, found.value, w.convs[found.value])
    else Create(cfg, w, msg, brand, now, nonce, net)
  }

  /** The write of `conversation_service.resolve`. */
  function WriteResolve(w: World, c: nat, via: string, agent: Option<string>, net: Net): Done {
    Done(AfterCall(w, SetResolved(c, Some(via), agent), net(WritingResolve)),
         if net(WritingResolve) == Returns then Completed else Raised)
  }

  /** `conversation_service.resolve`: a no-op unless the conversation is escalated. */
  function Resolve(w: World, c: nat, via: string, agent: Option<string>, net: Net): Done {
    if net(ReadingForResolve) != Returns then Done(w, Raised)
    else if c < |w.convs| && w.convs[c].state == Escalated then WriteResolve(w, c, via, agent, net)
    else Done(w, Completed)
  }

  /** The notification, the last thing a holding reply does. */
  function Alert(w: World, msg: Message, inbox: Option<string>, c: nat, net: Net): Done {
    var notified := AfterCall(w, Notify(c, msg.text, ESCALATION_REASON, inbox), net(Notifying));
    if net(Notifying) == Returns then Done(notified, Completed) else Released(notified, Inbound(msg.id), true, net)
  }

  function Escalate(w: World, msg: Message, inbox: Option<string>, c: nat, now: real, net: Net): Done {
    var escalated := AfterCall(w, SetEscalated(c, ESCALATION_REASON, now), net(Escalating));
    if net(Escalating) == Returns then Alert(escalated, msg, inbox, c, net)
    else Released(escalated, Inbound(msg.id), true, net)
  }

  function JaneBody(answer: Option<string>): string {
    if answer.Some? then answer.value else HOLDING_REPLY
  }

  function LogJane(
    w: World, msg: Message, inbox: Option<string>, c: nat, answer: Option<string>, now: real, net: Net): Done
  {
    var logged := AfterCall(w, InsertRow(Row(c, FromJane(answer.None?), JaneBody(answer), now)), net(LoggingReply));
    if net(LoggingReply) != Returns then Released(logged, Inbound(msg.id), true, net)
    else if answer.Some? then Done(logged, Completed)
    else Escalate(logged, msg, inbox, c, now, net)
  }

  /** Jane's reply to an accepted message on an open conversation. */
  function Answer(
    w: World, msg: Message, context: Context, c: nat, answer: Option<string>, now: real, net: Net): Done
  {
    var send := Send(c, Jane(msg.id, answer.None?), Addressed(msg.sender), msg.number, context.token, JaneBody(answer));
    var sent := AfterCall(w, send, net(Sending));
    if net(Sending) == Returns then LogJane(sent, msg, context.inbox, c, answer, now, net)
    else Released(sent, Inbound(msg.id), net(Sending) == AppliedButRaised, net)
  }

  /** The reply engine's reading of the facts, then the reply. */
  function Consult(
    w: World, msg: Message, context: Context, c: nat, answer: Option<string>, now: real, net: Net): Done
  {
    if net(Answering) == Returns then Answer(w, msg, context, c, answer, now, net)
    else Released(w, Inbound(msg.id), false, net)
  }

  function LogCustomer(
    w: World, msg: Message, context: Context, c: nat, doc: Conversation, answer: Option<string>, now: real,
    net: Net): Done
  {
    var logged := AfterCall(w, InsertRow(Row(c, FromCustomer, msg.text, now)), net(LoggingInbound));
    if net(LoggingInbound) != Returns then Released(logged, Inbound(msg.id), false, net)
    else if doc.state == Escalated then Done(logged, Completed)
    else Consult(logged, msg, context, c, answer, now, net)
  }

  function Converse(
    w: World, msg: Message, context: Context, c: nat, doc: Conversation, answer: Option<string>, now: real,
    net: Net): Done
  {
    var touched := AfterCall(w, Touch(c, now), net(Touching));
    if net(Touching) == Returns then LogCustomer(touched, msg, context, c, doc, answer, now, net)
    else Released(touched, Inbound(msg.id), false, net)
  }

  function ConverseWith(got: Got, msg: Message, context: Context, answer: Option<string>, now: real, net: Net): Done {
    if got.Got? then Converse(got.w, msg, context, got.conv, got.doc, answer, now, net)
    else Released(got.w, Inbound(msg.id), false, net)
  }

  function Accept(
    cfg: Config, w: World, msg: Message, context: Context, answer: Option<string>, now: real, nonce: nat,
    net: Net): Done
  {
    ConverseWith(GetOrCreate(cfg, w, msg, context.brand, now, nonce, net), msg, context, answer, now, net)
  }

  /** The claim on the message id. If its insertion raises, `claimed` is still false, and nothing
      is released whether or not the insertion took effect. */
  function ClaimInbound(
    cfg: Config, w: World, msg: Message, context: Context, answer: Option<string>, now: real, nonce: nat,
    net: Net): Done
  {
    var claimed := AfterCall(w, InsertClaim(Inbound(msg.id), now), net(Claiming));
    if net(Claiming) != Returns then Done(claimed, Raised)
    else if Inbound(msg.id) in w.claims then Done(w, DuplicateDelivery)
    else Accept(cfg, claimed, msg, context, answer, now, nonce, net)
  }

  /** `_process_message_async` on a customer message. */
  function Deliver(
    cfg: Config, w: World, msg: Message, context: Option<Context>, answer: Option<string>, now: real, nonce: nat,
    net: Net): Done
  {
    if net(Resolving) != Returns then Done(w, Raised)
    else if context.None? then Done(w, DroppedUnknown)
    else ClaimInbound(cfg, w, msg, context.value, answer, now, nonce, net)
  }

  function LogFoundEcho(w: World, c: nat, text: string, now: real, net: Net): Done {
    var logged := AfterCall(w, InsertRow(Row(c, FromAgent(ECHO_CHANNEL, None, None), text, now)), net(LoggingEcho));
    if net(LoggingEcho) == Returns then Resolve(logged, c, ECHO_CHANNEL, None, net) else Done(logged, Raised)
  }

  /** `log_agent_echo` */
  function LogEcho(w: World, c: nat, text: string, now: real, net: Net): Done {
    if net(Checking) != Returns then Done(w, Raised)
    else if c >= |w.convs| then Done(w, Completed)
    else LogFoundEcho(w, c, text, now, net)
  }

  function EchoOn(w: World, c: nat, msg: Message, now: real, net: Net): Done {
    var touched := AfterCall(w, Touch(c, now), net(Touching));
    if net(Touching) == Returns then LogEcho(touched, c, msg.text, now, net) else Done(touched, Raised)
  }

  function EchoWith(got: Got, msg: Message, now: real, net: Net): Done {
    if got.Got? then EchoOn(got.w, got.conv, msg, now, net) else Done(got.w, Raised)
  }

  /** `_process_message_echo_async` */
  function Echo(cfg: Config, w: World, msg: Message, context: Option<Context>, now: real, nonce: nat, net: Net): Done {
    if net(Resolving) != Returns then Done(w, Raised)
    else if context.None? then Done(w, DroppedUnknown)
    else EchoWith(GetOrCreate(cfg, w, msg, context.value.brand, now, nonce, net), msg, now, net)
  }

  function LogAgent(w: World, role: Role, now: real, net: Net): Done
    requires role.AgentReply?
  {
    var row := Row(role.target, FromAgent(role.channel, Some(role.email), Some(role.agentId)), role.body, now);
    var logged := AfterCall(w, InsertRow(row), net(LoggingReply));
    if net(LoggingReply) == Returns then Resolve(logged, role.target, role.channel, Some(role.email), net)
    else Done(logged, Raised)
  }

  /** The last statement of the `try` block: if it raises, the claim of a delivered message goes. */
  function MarkAgent(w: World, role: Role, now: real, net: Net): Done
    requires role.AgentReply?
  {
    var marked := AfterCall(w, MarkSent(Reply(role.key)), net(MarkingSent));
    if net(MarkingSent) == Returns then LogAgent(marked, role, now, net)
    else Released(marked, Reply(role.key), true, net)
  }

  function SendAgent(
    cfg: Config, w: World, role: Role, doc: Conversation, token: Option<string>, now: real, net: Net): Done
    requires role.AgentReply? && doc.phoneEncrypted.Some?
  {
    var to := Addressed(cfg.decrypt(doc.phoneEncrypted.value));
    var send := Send(role.target, Agent(role.key), to, doc.phoneNumberId, token, role.body);
    var sent := AfterCall(w, send, net(Sending));
    if net(Sending) == Returns then MarkAgent(sent, role, now, net)
    else Released(sent, Reply(role.key), net(Sending) == AppliedButRaised, net)
  }

  function TokenOf(context: Option<Context>): Option<string> {
    if context.Some? then context.value.token else None
  }

  /** `_resolve_send_target`, then the send. */
  function AddressAgent(
    cfg: Config, w: World, role: Role, doc: Conversation, context: Option<Context>, now: real, net: Net): Done
    requires role.AgentReply? && doc.phoneEncrypted.Some?
  {
    if net(ReadingRegistry) == Returns then SendAgent(cfg, w, role, doc, TokenOf(context), now, net)
    else Released(w, Reply(role.key), false, net)
  }

  /** `send_agent_reply` once it has read an escalated conversation. */
  function ClaimAndSend(
    cfg: Config, w: World, role: Role, doc: Conversation, context: Option<Context>, now: real, net: Net): Done
    requires role.AgentReply?
  {
    var ref := Reply(role.key);
    var claimed := AfterCall(w, InsertClaim(ref, now), net(Claiming));
    if net(Claiming) != Returns then Done(claimed, Raised)
    else if ref in w.claims then Done(w, InProgress)
    else if doc.phoneEncrypted.None? then Released(claimed, ref, false, net)
    else AddressAgent(cfg, claimed, role, doc, context, now, net)
  }

  function ReadAndSend(cfg: Config, w: World, role: Role, context: Option<Context>, now: real, net: Net): Done
    requires role.AgentReply?
  {
    if net(ReadingConv) != Returns then Done(w, Raised)
    else if role.target >= |w.convs| then Done(w, NotFound)
    else if w.convs[role.target].state != Escalated then Done(w, NotEscalated)
    else ClaimAndSend(cfg, w, role, w.convs[role.target], context, now, net)
  }

  /** `send_agent_reply` */
  function ReplyTo(cfg: Config, w: World, role: Role, context: Option<Context>, now: real, net: Net): Done
    requires role.AgentReply?
  {
    var ref := Reply(role.key);
    if net(CheckingClaim) != Returns then Done(w, Raised)
    else if ref !in w.claims then ReadAndSend(cfg, w, role, context, now, net)
    else if !w.claims[ref].sent then Done(w, InProgress)
    else Done(w, if net(Rereading) == Returns then AlreadySent else Raised)
  }

  /** `resolve_only` */
  function ResolveByHand(w: World, c: nat, email: string, net: Net): Done {
    if net(Checking) != Returns then Done(w, Raised)
    else if c >= |w.convs| then Done(w, NotFound)
    else Resolve(w, c, "manual", Some(email), net)
  }

  /** `conversation_service.close` */
  function Shut(w: World, c: nat, net: Net): Done {
    Done(AfterCall(w, SetClosed(c), net(Closing)), if net(Closing) == Returns then Completed else Raised)
  }

  /** `purge`: every document that matches loses its number; the first `n` are done. */
  function Purged(w: World, cutoff: real, n: nat): World {
    if n == 0 then w else Perform(Purged(w, cutoff, n - 1), UnsetPhone(n - 1, cutoff))
  }
}
