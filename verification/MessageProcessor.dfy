/** `app/tasks/message_processor.py`, step by step. */
module MessageProcessor {
  import opened Options
  import opened Phone
  import opened Records
  import opened Processes
  import opened Sequential
  import opened Storage
  import opened ConversationService
  import opened AgentReplyService
  import opened CloudApi

  /** The reply and, for a holding reply, the escalation and its notification; `late` is whether
      the reply had been delivered if something raised. */
  method ReplyAsJane(
    db: Store, msg: Message, context: Context, c: nat, answer: Option<string>, now: real, net: Net)
    returns (raised: bool, ghost late: bool)
    modifies db
    ensures !raised ==> Done(db.W(), Completed) == Answer(old(db.W()), msg, context, c, answer, now, net)
    ensures raised ==>
              Released(db.W(), Inbound(msg.id), late, net) == Answer(old(db.W()), msg, context, c, answer, now, net)
  {
    if answer.Some? {
      raised := CallOut(db, Send(c, Jane(msg.id, false), Addressed(msg.sender), msg.number, context.token,
                                 answer.value), net(Sending));
      late := net(Sending) != Refused;
      if raised {
        return;
      }
      raised := db.InsertMessage(Row(c, FromJane(false), answer.value, now), net(LoggingReply));
    } else {
      raised := CallOut(db, Send(c, Jane(msg.id, true), Addressed(msg.sender), msg.number, context.token,
                                 HOLDING_REPLY), net(Sending));
      late := net(Sending) != Refused;
      if raised {
        return;
      }
      raised := db.InsertMessage(Row(c, FromJane(true), HOLDING_REPLY, now), net(LoggingReply));
      if raised {
        return;
      }
      raised := EscalateConversation(db, c, ESCALATION_REASON, now, net(Escalating));
      if raised {
        return;
      }
      raised := CallOut(db, Notify(c, msg.text, ESCALATION_REASON, context.inbox), net(Notifying));
    }
  }

  /** `_process_message_async`. The `claimed` flag decides whether the `except` branch releases
      the message id. */
  method ProcessMessage(
    db: Store, cfg: Config, msg: Message, context: Option<Context>, answer: Option<string>, now: real, nonce: nat,
    net: Net)
    returns (outcome: Outcome)
    modifies db
    ensures Done(db.W(), outcome) == Deliver(cfg, old(db.W()), msg, context, answer, now, nonce, net)
  {
    if net(Resolving) != Returns {
      return Raised;
    }
    if context.None? {
      return DroppedUnknown;
    }
    var claimed, raised, duplicate := false, false, false;
    ghost var late := false;
    label attempt: {
      raised, duplicate := db.InsertClaim(Inbound(msg.id), now, net(Claiming));
      if raised {
        break attempt;
      }
      if duplicate {
        return DuplicateDelivery;
      }
      claimed := true;
      var c, conversation;
      raised, c, conversation := GetOrCreateConversation(db, cfg, msg, context.value.brand, now, nonce, net);
      if raised {
        break attempt;
      }
      raised := TouchConversation(db, c, now, net(Touching));
      if raised {
        break attempt;
      }
      raised := db.InsertMessage(Row(c, FromCustomer, msg.text, now), net(LoggingInbound));
      if raised {
        break attempt;
      }
      if conversation.value.state == Escalated {
        return Completed;
      }
      raised := net(Answering) != Returns;
      if raised {
        break attempt;
      }
      raised, late := ReplyAsJane(db, msg, context.value, c, answer, now, net);
    }
    if raised {
      if claimed {
        var _ := db.DeleteClaim(Inbound(msg.id), late, net(Releasing));
      }
      return Raised;
    }
    return Completed;
  }

  /** `_process_message_echo_async` */
  method ProcessEcho(
    db: Store, cfg: Config, echo: Message, context: Option<Context>, now: real, nonce: nat, net: Net)
    returns (outcome: Outcome)
    modifies db
    ensures Done(db.W(), outcome) == Echo(cfg, old(db.W()), echo, context, now, nonce, net)
  {
    if net(Resolving) != Returns {
      return Raised;
    }
    if context.None? {
      return DroppedUnknown;
    }
    var raised, c, conversation := GetOrCreateConversation(db, cfg, echo, context.value.brand, now, nonce, net);
    if raised {
      return Raised;
    }
    raised := TouchConversation(db, c, now, net(Touching));
    if raised {
      return Raised;
    }
    var updated;
    raised, updated := LogAgentEcho(db, c, echo.text, now, net);
    return if raised then Raised else Completed;
  }
}
