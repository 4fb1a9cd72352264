/** `app/services/agent_reply_service.py`, step by step. */
module AgentReplyService {
  import opened Options
  import opened Phone
  import opened Counting
  import opened Records
  import opened Processes
  import opened Sequential
  import opened Storage
  import opened ConversationService
  import opened CloudApi

  /** After the `try` block: the message is logged and the conversation resolved. */
  method LogAndResolve(db: Store, role: Role, now: real, net: Net)
    returns (raised: bool, updated: Option<Conversation>)
    requires role.AgentReply?
    modifies db
    ensures Done(db.W(), if raised then Raised else Completed) == LogAgent(old(db.W()), role, now, net)
    ensures !raised && role.target < |old(db.convs)| && old(db.convs)[role.target].state == Escalated ==>
              role.target < |db.convs| && updated == Some(db.convs[role.target])
  {
    var row := Row(role.target, FromAgent(role.channel, Some(role.email), Some(role.agentId)), role.body, now);
    raised := db.InsertMessage(row, net(LoggingReply));
    if raised {
      return true, None;
    }
    raised, updated := ResolveConversation(db, role.target, role.channel, Some(role.email), net);
  }

  /** The `try` block, from `_resolve_send_target` to the update that marks the claim as sent, with
      its `except` branch, and what follows it. */
  method SendAndLog(
    db: Store, cfg: Config, conversation: Conversation, role: Role, connection: Option<Context>, now: real, net: Net)
    returns (raised: bool, updated: Option<Conversation>)
    requires role.AgentReply? && conversation.phoneEncrypted.Some?
    requires role.target < |db.convs| && db.convs[role.target].state == Escalated
    modifies db
    ensures Done(db.W(), if raised then Raised else Completed)
            == AddressAgent(cfg, old(db.W()), role, conversation, connection, now, net)
    ensures !raised ==> role.target < |db.convs| && updated == Some(db.convs[role.target])
  {
    var ref := Reply(role.key);
    ghost var late := false;
    label attempt: {
      var phone := cfg.decrypt(conversation.phoneEncrypted.value);
      raised := net(ReadingRegistry) != Returns;
      if raised {
        break attempt;
      }
      var token := if connection.Some? then connection.value.token else None;
      raised := CallOut(db, Send(role.target, Agent(role.key), Addressed(phone), conversation.phoneNumberId, token,
                                 role.body), net(Sending));
      late := net(Sending) != Refused;
      if raised {
        break attempt;
      }
      raised := db.MarkSent(ref, net(MarkingSent));
    }
    if raised {
      var _ := db.DeleteClaim(ref, late, net(Releasing));
      return true, None;
    }
    raised, updated := LogAndResolve(db, role, now, net);
  }

  /** `send_agent_reply`: the outcome is what it returns or raises, and on success it hands back
      the resolved conversation. */
  method SendAgentReply(
    db: Store, cfg: Config, c: nat, body: string, email: string, agentId: string, key: string, channel: string,
    connection: Option<Context>, now: real, net: Net)
    returns (outcome: Outcome, conversation: Option<Conversation>)
    modifies db
    ensures Done(db.W(), outcome)
            == ReplyTo(cfg, old(db.W()), AgentReply(c, body, email, agentId, key, channel), connection, now, net)
    ensures outcome == Completed || outcome == AlreadySent ==>
              conversation == if c < |db.convs| then Some(db.convs[c]) else None
    ensures outcome == Completed ==> conversation.Some?
    ensures outcome != Completed && outcome != AlreadySent ==> conversation.None?
  {
    var ref, raised := Reply(key), false;
    var claim, duplicate, found;
    raised, claim := db.FindClaim(ref, net(CheckingClaim));
    if raised {
      return Raised, None;
    }
    if claim.Some? {
      if !claim.value.sent {
        return InProgress, None;
      }
      raised, found := db.FindById(c, net(Rereading));
      if raised {
        return Raised, None;
      }
      return AlreadySent, found;
    }
    raised, found := db.FindById(c, net(ReadingConv));
    if raised {
      return Raised, None;
    }
    if found.None? {
      return NotFound, None;
    }
    if found.value.state != Escalated {
      return NotEscalated, None;
    }
    raised, duplicate := db.InsertClaim(ref, now, net(Claiming));
    if raised {
      return Raised, None;
    }
    if duplicate {
      return InProgress, None;
    }
    if found.value.phoneEncrypted.None? {
      var _ := db.DeleteClaim(ref, false, net(Releasing));
      return Raised, None;
    }
    raised, conversation := SendAndLog(db, cfg, found.value, AgentReply(c, body, email, agentId, key, channel),
                                       connection, now, net);
    if raised {
      return Raised, None;
    }
    return Completed, conversation;
  }

  /** `resolve_only`: the conversation it hands back is the resolved one, or the one it read. */
  method ResolveOnlyBy(db: Store, c: nat, email: string, net: Net)
    returns (outcome: Outcome, resolved: bool, conversation: Option<Conversation>)
    modifies db
    ensures Done(db.W(), outcome) == ResolveByHand(old(db.W()), c, email, net)
    ensures outcome == Completed ==>
              && c < |old(db.convs)| && c < |db.convs| && conversation == Some(db.convs[c])
              && resolved == (old(db.convs)[c].state == Escalated)
              && (resolved ==>
                    conversation.value == old(db.convs)[c].(state := JaneHandling, escalatedReason := None,
                                                            resolvedVia := Some("manual"), resolvedBy := Some(email)))
    ensures outcome != Completed ==> conversation.None? && !resolved
  {
    var raised, found := db.FindById(c, net(Checking));
    if raised {
      return Raised, false, None;
    }
    if found.None? {
      return NotFound, false, None;
    }
    var updated;
    raised, updated := ResolveConversation(db, c, "manual", Some(email), net);
    if raised {
      return Raised, false, None;
    }
    return Completed, updated.Some?, if updated.Some? then updated else found;
  }

  function AnySend(): Op -> bool {
    (op: Op) => op.Send?
  }

  lemma ResolveNeverSends(w: World, c: nat, via: string, agent: Option<string>, net: Net)
    ensures Count(Resolve(w, c, via, agent, net).w.oplog, AnySend()) == Count(w.oplog, AnySend())
  {
    CountAppend(w.oplog, SetResolved(c, Some(via), agent), AnySend());
  }

  lemma EchoNeverSends(w: World, c: nat, text: string, now: real, net: Net)
    ensures Count(LogEcho(w, c, text, now, net).w.oplog, AnySend()) == Count(w.oplog, AnySend())
  {
    var op := InsertRow(Row(c, FromAgent(ECHO_CHANNEL, None, None), text, now));
    CountAppend(w.oplog, op, AnySend());
    ResolveNeverSends(AfterCall(w, op, net(LoggingEcho)), c, ECHO_CHANNEL, None, net);
  }

  /** `log_agent_echo`: it never sends, and hands back the resolved conversation, if it resolved one. */
  method LogAgentEcho(db: Store, c: nat, text: string, now: real, net: Net)
    returns (raised: bool, updated: Option<Conversation>)
    modifies db
    ensures Done(db.W(), if raised then Raised else Completed) == LogEcho(old(db.W()), c, text, now, net)
    ensures Count(db.oplog, AnySend()) == Count(old(db.oplog), AnySend())
    ensures !raised ==>
              updated == if c < |old(db.convs)| && old(db.convs)[c].state == Escalated && c < |db.convs|
                         then Some(db.convs[c]) else None
    ensures !raised && updated.Some? ==>
              updated.value == old(db.convs)[c].(state := JaneHandling, escalatedReason := None,
                                                 resolvedVia := Some("whatsapp_echo"))
  {
    EchoNeverSends(db.W(), c, text, now, net);
    var found;
    raised, found := db.FindById(c, net(Checking));
    if raised {
      return true, None;
    }
    if found.None? {
      return false, None;
    }
    raised := db.InsertMessage(Row(c, FromAgent(ECHO_CHANNEL, None, None), text, now), net(LoggingEcho));
    if raised {
      return true, None;
    }
    raised, updated := ResolveConversation(db, c, ECHO_CHANNEL, None, net);
  }
}
