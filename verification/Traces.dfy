/** The whole of what a call that goes well does: every entry it adds to the log, in order and with its
    contents, and the documents it leaves, field by field. */
module Traces {
  import opened Options
  import opened Phone
  import opened Records
  import opened Processes
  import opened Sequential
  import opened Replies

  const REASON: string := "No exact match in operational_facts for this question."
  const HOLDING: string := "Let me check that and get back to you shortly!"

  /** An escalated document once it is resolved; without an agent, `resolved_by` stays. */
  function Resolved(doc: Conversation, via: string, agent: Option<string>): Conversation {
    doc.(state := JaneHandling, escalatedReason := None, resolvedVia := Some(via),
         resolvedBy := if agent.Some? then agent else doc.resolvedBy)
  }

  /** A document once a question on it went unanswered. */
  function HandedOver(doc: Conversation, now: real): Conversation {
    doc.(state := Escalated, escalatedReason := Some(REASON), escalatedAt := Some(now))
  }

  lemma ResolveTrace(w: World, c: nat, via: string, agent: Option<string>, net: Net)
    requires Resolve(w, c, via, agent, net).outcome == Completed
    ensures Resolve(w, c, via, agent, net).w
            == if c < |w.convs| && w.convs[c].state == Escalated
               then w.(convs := w.convs[c := Resolved(w.convs[c], via, agent)],
                       oplog := w.oplog + [SetResolved(c, Some(via), agent)])
               else w
  {
  }

  /** `resolve_only`, when it returns: an escalated conversation is resolved as done by hand by that
      agent, any other stays as it is. */
  lemma ByHandTrace(w: World, c: nat, email: string, net: Net)
    requires ResolveByHand(w, c, email, net).outcome == Completed
    ensures c < |w.convs|
    ensures ResolveByHand(w, c, email, net).w
            == if w.convs[c].state == Escalated
               then w.(convs := w.convs[c := w.convs[c].(state := JaneHandling, escalatedReason := None,
                                                         resolvedVia := Some("manual"), resolvedBy := Some(email))],
                       oplog := w.oplog + [SetResolved(c, Some("manual"), Some(email))])
               else w
  {
    ResolveTrace(w, c, "manual", Some(email), net);
  }

  /** The row of an agent's reply. */
  function SaidByAgent(role: Role, now: real): Row
    requires role.AgentReply?
  {
    Row(role.target, FromAgent(role.channel, Some(role.email), Some(role.agentId)), role.body, now)
  }

  function SentByAgent(cfg: Config, role: Role, doc: Conversation, token: Option<string>): Op
    requires role.AgentReply? && doc.phoneEncrypted.Some?
  {
    Send(role.target, Agent(role.key), Addressed(cfg.decrypt(doc.phoneEncrypted.value)), doc.phoneNumberId, token,
         role.body)
  }

  lemma LogAgentTrace(w: World, role: Role, now: real, net: Net)
    requires role.AgentReply? && role.target < |w.convs| && w.convs[role.target].state == Escalated && Finishes(net)
    ensures LogAgent(w, role, now, net).w
            == w.(rows := w.rows + [SaidByAgent(role, now)],
                  convs := w.convs[role.target := Resolved(w.convs[role.target], role.channel, Some(role.email))],
                  oplog := w.oplog + [InsertRow(SaidByAgent(role, now)),
                                      SetResolved(role.target, Some(role.channel), Some(role.email))])
  {
    var logged := AfterCall(w, InsertRow(SaidByAgent(role, now)), Returns);
    ResolveTrace(logged, role.target, role.channel, Some(role.email), net);
    assert logged.oplog + [SetResolved(role.target, Some(role.channel), Some(role.email))]
        == w.oplog + [InsertRow(SaidByAgent(role, now)),
                      SetResolved(role.target, Some(role.channel), Some(role.email))];
  }

  lemma SendAgentTrace(
    cfg: Config, w: World, role: Role, doc: Conversation, token: Option<string>, now: real, net: Net)
    requires role.AgentReply? && role.target < |w.convs| && w.convs[role.target].state == Escalated && Finishes(net)
    requires doc.phoneEncrypted.Some? && Reply(role.key) in w.claims
    requires net(Sending) == Returns && net(MarkingSent) == Returns
    ensures var marked := w.claims[Reply(role.key) := w.claims[Reply(role.key)].(sent := true)];
            SendAgent(cfg, w, role, doc, token, now, net).w
            == World(marked, w.convs[role.target := Resolved(w.convs[role.target], role.channel, Some(role.email))],
                     w.rows + [SaidByAgent(role, now)],
                     w.oplog + [SentByAgent(cfg, role, doc, token), MarkSent(Reply(role.key)),
                                InsertRow(SaidByAgent(role, now)),
                                SetResolved(role.target, Some(role.channel), Some(role.email))])
  {
    var sent := AfterCall(w, SentByAgent(cfg, role, doc, token), Returns);
    var marked := AfterCall(sent, MarkSent(Reply(role.key)), Returns);
    LogAgentTrace(marked, role, now, net);
    assert marked.oplog == w.oplog + [SentByAgent(cfg, role, doc, token), MarkSent(Reply(role.key))];
    assert marked.oplog + [InsertRow(SaidByAgent(role, now)),
                           SetResolved(role.target, Some(role.channel), Some(role.email))]
        == w.oplog + [SentByAgent(cfg, role, doc, token), MarkSent(Reply(role.key)),
                      InsertRow(SaidByAgent(role, now)),
                      SetResolved(role.target, Some(role.channel), Some(role.email))];
  }

  /** `send_agent_reply`, when it goes through: the claim, exactly one send, of the typed reply, to the
      decrypted number from the conversation's own business number with the token of its connection
      or none, the mark, the row and the resolve under the channel and the agent; nothing else. */
  lemma ReplyTrace(cfg: Config, w: World, role: Role, connection: Option<Context>, now: real, net: Net)
    requires role.AgentReply? && ReplyTo(cfg, w, role, connection, now, net).outcome == Completed
    ensures Awaits(w, role.target)
    ensures var doc := w.convs[role.target];
            var row := Row(role.target, FromAgent(role.channel, Some(role.email), Some(role.agentId)), role.body, now);
            ReplyTo(cfg, w, role, connection, now, net).w
            == World(w.claims[Reply(role.key) := Claim(now, true)],
                     w.convs[role.target := doc.(state := JaneHandling, escalatedReason := None,
                                                 resolvedVia := Some(role.channel), resolvedBy := Some(role.email))],
                     w.rows + [row],
                     w.oplog + [InsertClaim(Reply(role.key), now),
                                Send(role.target, Agent(role.key), Addressed(cfg.decrypt(doc.phoneEncrypted.value)),
                                     doc.phoneNumberId, if connection.Some? then connection.value.token else None,
                                     role.body),
                                MarkSent(Reply(role.key)), InsertRow(row),
                                SetResolved(role.target, Some(role.channel), Some(role.email))])
  {
    ReplyOutcome(cfg, w, role, connection, now, net);
    EnteringHolds(cfg, w, role, connection, now, net);
    var doc, token := w.convs[role.target], TokenOf(connection);
    var claimed := Perform(w, InsertClaim(Reply(role.key), now));
    SendAgentTrace(cfg, claimed, role, doc, token, now, net);
    assert claimed.claims[Reply(role.key) := Claim(now, true)] == w.claims[Reply(role.key) := Claim(now, true)];
    assert claimed.oplog + [SentByAgent(cfg, role, doc, token), MarkSent(Reply(role.key)),
                            InsertRow(SaidByAgent(role, now)),
                            SetResolved(role.target, Some(role.channel), Some(role.email))]
        == w.oplog + [InsertClaim(Reply(role.key), now), SentByAgent(cfg, role, doc, token), MarkSent(Reply(role.key)),
                      InsertRow(SaidByAgent(role, now)),
                      SetResolved(role.target, Some(role.channel), Some(role.email))];
  }

  /** The row of what Jane says. */
  function SaidByJane(c: nat, answer: Option<string>, now: real): Row {
    Row(c, FromJane(answer.None?), if answer.Some? then answer.value else HOLDING, now)
  }

  function SentByJane(msg: Message, c: nat, token: Option<string>, answer: Option<string>): Op {
    Send(c, Jane(msg.id, answer.None?), Addressed(msg.sender), msg.number, token,
         if answer.Some? then answer.value else HOLDING)
  }

  /** What Jane does on a conversation that nobody has taken over. */
  function SpeechOf(msg: Message, context: Context, c: nat, answer: Option<string>, now: real): seq<Op> {
    [SentByJane(msg, c, context.token, answer), InsertRow(SaidByJane(c, answer, now))]
    + (if answer.Some? then [] else [SetEscalated(c, REASON, now), Notify(c, msg.text, REASON, context.inbox)])
  }

  lemma EscalateTrace(w: World, msg: Message, inbox: Option<string>, c: nat, now: real, net: Net)
    requires c < |w.convs| && Calm(net)
    ensures Escalate(w, msg, inbox, c, now, net)
            == Done(w.(convs := w.convs[c := HandedOver(w.convs[c], now)],
                       oplog := w.oplog + [SetEscalated(c, REASON, now), Notify(c, msg.text, REASON, inbox)]),
                    Completed)
  {
    var escalated := AfterCall(w, SetEscalated(c, REASON, now), Returns);
    assert escalated.oplog + [Notify(c, msg.text, REASON, inbox)]
        == w.oplog + [SetEscalated(c, REASON, now), Notify(c, msg.text, REASON, inbox)];
  }

  lemma AnswerTrace(w: World, msg: Message, context: Context, c: nat, answer: Option<string>, now: real, net: Net)
    requires c < |w.convs| && Calm(net)
    ensures Sequential.Answer(w, msg, context, c, answer, now, net)
            == Done(w.(convs := if answer.Some? then w.convs else w.convs[c := HandedOver(w.convs[c], now)],
                       rows := w.rows + [SaidByJane(c, answer, now)],
                       oplog := w.oplog + SpeechOf(msg, context, c, answer, now)),
                    Completed)
  {
    var sent := AfterCall(w, SentByJane(msg, c, context.token, answer), Returns);
    var logged := AfterCall(sent, InsertRow(SaidByJane(c, answer, now)), Returns);
    assert logged.oplog
        == w.oplog + [SentByJane(msg, c, context.token, answer), InsertRow(SaidByJane(c, answer, now))];
    if answer.None? {
      EscalateTrace(logged, msg, context.inbox, c, now, net);
      assert logged.oplog + [SetEscalated(c, REASON, now), Notify(c, msg.text, REASON, context.inbox)]
          == w.oplog + SpeechOf(msg, context, c, answer, now);
    } else {
      assert SpeechOf(msg, context, c, answer, now)
          == [SentByJane(msg, c, context.token, answer), InsertRow(SaidByJane(c, answer, now))];
    }
  }

  /** The row of what the customer said. */
  function SaidByCustomer(c: nat, msg: Message, now: real): Row {
    Row(c, FromCustomer, msg.text, now)
  }

  /** On conversation `c`, read as `doc`: the touch, what the customer said and, unless it is
      escalated, what Jane says. */
  lemma ConverseTrace(
    w: World, msg: Message, context: Context, c: nat, doc: Conversation, answer: Option<string>, now: real, net: Net)
    requires c < |w.convs| && Calm(net)
    ensures var touched := w.convs[c].(lastMessageAt := now);
            var speaks, hands := doc.state != Escalated, doc.state != Escalated && answer.None?;
            Converse(w, msg, context, c, doc, answer, now, net)
            == Done(World(w.claims, w.convs[c := if hands then HandedOver(touched, now) else touched],
                          w.rows + [SaidByCustomer(c, msg, now)]
                          + (if speaks then [SaidByJane(c, answer, now)] else []),
                          w.oplog + [Touch(c, now), InsertRow(SaidByCustomer(c, msg, now))]
                          + (if speaks then SpeechOf(msg, context, c, answer, now) else [])),
                    Completed)
  {
    var touched := AfterCall(w, Touch(c, now), Returns);
    var logged := AfterCall(touched, InsertRow(SaidByCustomer(c, msg, now)), Returns);
    assert logged.oplog == w.oplog + [Touch(c, now), InsertRow(SaidByCustomer(c, msg, now))];
    if doc.state != Escalated {
      AnswerTrace(logged, msg, context, c, answer, now, net);
    } else {
      assert logged.oplog + [] == logged.oplog && logged.rows + [] == logged.rows;
    }
  }

  /** The document of a customer's first message. */
  function Begun(cfg: Config, msg: Message, brand: Option<string>, now: real, nonce: nat): Conversation {
    Conversation(
      phoneHash := cfg.hash(Normalize(msg.sender)),
      phoneEncrypted := Some(cfg.encrypt(Normalize(msg.sender), nonce)),
      phoneNumberId := msg.number,
      brand := brand,
      state := JaneHandling,
      escalatedReason := None,
      escalatedAt := None,
      lastMessageAt := now,
      createdAt := now,
      resolvedVia := None,
      resolvedBy := None)
  }

  /** The conversation of the sender's number and the brand: the one there is, or a new one. */
  lemma GetOrCreateTrace(
    cfg: Config, w: World, msg: Message, brand: Option<string>, now: real, nonce: nat, net: Net)
    requires Calm(net)
    ensures var found := Search(w.convs, cfg.hash(Normalize(msg.sender)), brand);
            var doc := Begun(cfg, msg, brand, now, nonce);
            GetOrCreate(cfg, w, msg, brand, now, nonce, net)
            == if found.Some? then Got(w, found.value, w.convs[found.value])
               else Got(w.(convs := w.convs + [doc], oplog := w.oplog + [InsertConv(doc)]), |w.convs|, doc)
  {
  }

  /** The same once the message id is claimed. */
  lemma AcceptTrace(
    cfg: Config, w: World, msg: Message, context: Context, answer: Option<string>, now: real, nonce: nat, net: Net)
    requires Calm(net)
    ensures var found := Search(w.convs, cfg.hash(Normalize(msg.sender)), context.brand);
            var doc := if found.Some? then w.convs[found.value] else Begun(cfg, msg, context.brand, now, nonce);
            var c := if found.Some? then found.value else |w.convs|;
            var touched := doc.(lastMessageAt := now);
            var speaks, hands := doc.state != Escalated, doc.state != Escalated && answer.None?;
            var after := if hands then HandedOver(touched, now) else touched;
            Accept(cfg, w, msg, context, answer, now, nonce, net)
            == Done(World(w.claims,
                          if found.Some? then w.convs[c := after] else w.convs + [after],
                          w.rows + [SaidByCustomer(c, msg, now)]
                          + (if speaks then [SaidByJane(c, answer, now)] else []),
                          w.oplog
                          + (if found.Some? then [] else [InsertConv(doc)])
                          + [Touch(c, now), InsertRow(SaidByCustomer(c, msg, now))]
                          + (if speaks then SpeechOf(msg, context, c, answer, now) else [])),
                    Completed)
  {
    GetOrCreateTrace(cfg, w, msg, context.brand, now, nonce, net);
    var got := GetOrCreate(cfg, w, msg, context.brand, now, nonce, net);
    ConverseTrace(got.w, msg, context, got.conv, got.doc, answer, now, net);
    assert w.oplog + [] == w.oplog;
  }

  /** `_process_message_async` on a new message id when nothing raises: the claim, the conversation of
      its sender and brand, found or begun, the touch, what the customer said and, unless the
      conversation was escalated, the reply to the sender from the number the sender wrote to, with
      its row and, when there is no answer, the escalation and its notification; nothing else. */
  lemma MessageTrace(
    cfg: Config, w: World, msg: Message, context: Context, answer: Option<string>, now: real, nonce: nat, net: Net)
    requires Calm(net) && Inbound(msg.id) !in w.claims
    ensures var found := Search(w.convs, cfg.hash(Normalize(msg.sender)), context.brand);
            var doc := if found.Some? then w.convs[found.value] else Begun(cfg, msg, context.brand, now, nonce);
            var c := if found.Some? then found.value else |w.convs|;
            var touched := doc.(lastMessageAt := now);
            var speaks, hands := doc.state != Escalated, doc.state != Escalated && answer.None?;
            var after := if hands then HandedOver(touched, now) else touched;
            Deliver(cfg, w, msg, Some(context), answer, now, nonce, net)
            == Done(World(w.claims[Inbound(msg.id) := Claim(now, false)],
                          if found.Some? then w.convs[c := after] else w.convs + [after],
                          w.rows + [SaidByCustomer(c, msg, now)]
                          + (if speaks then [SaidByJane(c, answer, now)] else []),
                          w.oplog + [InsertClaim(Inbound(msg.id), now)]
                          + (if found.Some? then [] else [InsertConv(doc)])
                          + [Touch(c, now), InsertRow(SaidByCustomer(c, msg, now))]
                          + (if speaks then SpeechOf(msg, context, c, answer, now) else [])),
                    Completed)
  {
    var claimed := AfterCall(w, InsertClaim(Inbound(msg.id), now), Returns);
    AcceptTrace(cfg, claimed, msg, context, answer, now, nonce, net);
    assert Deliver(cfg, w, msg, Some(context), answer, now, nonce, net)
        == Accept(cfg, claimed, msg, context, answer, now, nonce, net);
  }

  lemma EchoOnTrace(w: World, c: nat, msg: Message, now: real, net: Net)
    requires c < |w.convs| && Calm(net)
    ensures var touched, escalated := w.convs[c].(lastMessageAt := now), w.convs[c].state == Escalated;
            var row := Row(c, FromAgent("whatsapp_echo", None, None), msg.text, now);
            EchoOn(w, c, msg, now, net)
            == Done(World(w.claims,
                          w.convs[c := if escalated then Resolved(touched, "whatsapp_echo", None) else touched],
                          w.rows + [row],
                          w.oplog + [Touch(c, now), InsertRow(row)]
                          + (if escalated then [SetResolved(c, Some("whatsapp_echo"), None)] else [])),
                    Completed)
  {
    var touched := AfterCall(w, Touch(c, now), Returns);
    var row := Row(c, FromAgent("whatsapp_echo", None, None), msg.text, now);
    var logged := AfterCall(touched, InsertRow(row), Returns);
    assert logged.oplog == w.oplog + [Touch(c, now), InsertRow(row)];
    ResolveTrace(logged, c, "whatsapp_echo", None, net);
    assert logged.oplog + [] == logged.oplog;
  }

  /** `_process_message_echo_async` when nothing raises: the conversation, found or begun, the touch, the
      row of what was said on the phone and, if the conversation was escalated, its resolve by echo,
      under nobody's name. */
  lemma EchoTrace(
    cfg: Config, w: World, msg: Message, context: Context, now: real, nonce: nat, net: Net)
    requires Calm(net)
    ensures var found := Search(w.convs, cfg.hash(Normalize(msg.sender)), context.brand);
            var doc := if found.Some? then w.convs[found.value] else Begun(cfg, msg, context.brand, now, nonce);
            var c := if found.Some? then found.value else |w.convs|;
            var touched := doc.(lastMessageAt := now);
            var after := if doc.state == Escalated
                         then touched.(state := JaneHandling, escalatedReason := None,
                                       resolvedVia := Some("whatsapp_echo"))
                         else touched;
            var row := Row(c, FromAgent("whatsapp_echo", None, None), msg.text, now);
            Echo(cfg, w, msg, Some(context), now, nonce, net)
            == Done(World(w.claims, if found.Some? then w.convs[c := after] else w.convs + [after], w.rows + [row],
                          w.oplog + (if found.Some? then [] else [InsertConv(doc)]) + [Touch(c, now), InsertRow(row)]
                          + (if doc.state == Escalated then [SetResolved(c, Some("whatsapp_echo"), None)] else [])),
                    Completed)
  {
    GetOrCreateTrace(cfg, w, msg, context.brand, now, nonce, net);
    var got := GetOrCreate(cfg, w, msg, context.brand, now, nonce, net);
    EchoOnTrace(got.w, got.conv, msg, now, net);
    assert w.oplog + [] == w.oplog;
  }
}
