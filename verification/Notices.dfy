/** When an escalation is notified, and what becomes of it when it is not, call by call. */
module Notices {
  import opened Options
  import opened Phone
  import opened Counting
  import opened Records
  import opened Processes
  import opened Sequential
  import opened Timeline
  import opened Isolation
  import opened Replies

  function Notice(): Op -> bool {
    (op: Op) => op.Notify?
  }

  predicate EscalatedAt(w: World, c: nat) {
    c < |w.convs| && w.convs[c].state == Escalated
  }

  /** A reply that is a holding reply and gets as far as the escalation. */
  predicate Escalates(answer: Option<string>, net: Net) {
    answer.None? && net(Sending) == Returns && net(LoggingReply) == Returns && net(Escalating) != Refused
  }

  /** And beyond it, as far as the notification. */
  predicate Notifies(answer: Option<string>, net: Net) {
    Escalates(answer, net) && net(Escalating) == Returns && net(Notifying) != Refused
  }

  function EscalationOp(c: nat, now: real): Op {
    SetEscalated(c, ESCALATION_REASON, now)
  }

  /** The collection once its conversation `c` is escalated. */
  function WithEscalation(convs: seq<Conversation>, c: nat, now: real): seq<Conversation> {
    if c < |convs| then convs[c := Edit(convs[c], EscalationOp(c, now))] else convs
  }

  lemma ReleaseTells(w: World, ref: ClaimRef, late: bool, net: Net)
    ensures Released(w, ref, late, net).w.convs == w.convs
    ensures Count(Released(w, ref, late, net).w.oplog, Notice()) == Count(w.oplog, Notice())
  {
    CountCall(w, DeleteClaim(ref, late), net(Releasing), Notice());
  }

  lemma AlertTells(w: World, msg: Message, inbox: Option<string>, c: nat, net: Net)
    ensures var d := Alert(w, msg, inbox, c, net);
            && d.w.convs == w.convs && (d.outcome == Completed <==> net(Notifying) == Returns)
            && Count(d.w.oplog, Notice()) == Count(w.oplog, Notice()) + One(net(Notifying) != Refused)
  {
    var op := Notify(c, msg.text, ESCALATION_REASON, inbox);
    CountCall(w, op, net(Notifying), Notice());
    ReleaseTells(AfterCall(w, op, net(Notifying)), Inbound(msg.id), true, net);
  }

  lemma EscalateTells(w: World, msg: Message, inbox: Option<string>, c: nat, now: real, net: Net)
    ensures var d := Escalate(w, msg, inbox, c, now, net);
            && d.w.convs == (if net(Escalating) != Refused then WithEscalation(w.convs, c, now) else w.convs)
            && (d.outcome == Completed <==> net(Escalating) == Returns && net(Notifying) == Returns)
            && Count(d.w.oplog, Notice())
               == Count(w.oplog, Notice()) + One(net(Escalating) == Returns && net(Notifying) != Refused)
  {
    var escalated := AfterCall(w, EscalationOp(c, now), net(Escalating));
    CountCall(w, EscalationOp(c, now), net(Escalating), Notice());
    AlertTells(escalated, msg, inbox, c, net);
    ReleaseTells(escalated, Inbound(msg.id), true, net);
  }

  lemma LogJaneTells(w: World, msg: Message, inbox: Option<string>, c: nat, answer: Option<string>, now: real, net: Net)
    requires net(Sending) == Returns
    ensures var d := LogJane(w, msg, inbox, c, answer, now, net);
            && d.w.convs == (if Escalates(answer, net) then WithEscalation(w.convs, c, now) else w.convs)
            && Count(d.w.oplog, Notice()) == Count(w.oplog, Notice()) + One(Notifies(answer, net))
  {
    var op := InsertRow(Row(c, FromJane(answer.None?), JaneBody(answer), now));
    var logged := AfterCall(w, op, net(LoggingReply));
    CountCall(w, op, net(LoggingReply), Notice());
    if net(LoggingReply) != Returns {
      ReleaseTells(logged, Inbound(msg.id), true, net);
    } else if answer.None? {
      EscalateTells(logged, msg, inbox, c, now, net);
    }
  }

  lemma AnswerTells(w: World, msg: Message, context: Context, c: nat, answer: Option<string>, now: real, net: Net)
    ensures var d := Answer(w, msg, context, c, answer, now, net);
            && d.w.convs == (if Escalates(answer, net) then WithEscalation(w.convs, c, now) else w.convs)
            && Count(d.w.oplog, Notice()) == Count(w.oplog, Notice()) + One(Notifies(answer, net))
  {
    var send := Send(c, Jane(msg.id, answer.None?), Addressed(msg.sender), msg.number, context.token, JaneBody(answer));
    var sent := AfterCall(w, send, net(Sending));
    CountCall(w, send, net(Sending), Notice());
    if net(Sending) == Returns {
      LogJaneTells(sent, msg, context.inbox, c, answer, now, net);
    } else {
      ReleaseTells(sent, Inbound(msg.id), net(Sending) == AppliedButRaised, net);
    }
  }

  /** From the touch to the reply, on a conversation read as not escalated. */
  predicate Talks(doc: Conversation, net: Net) {
    doc.state != Escalated && net(Touching) == Returns && net(LoggingInbound) == Returns && net(Answering) == Returns
  }

  lemma LogCustomerTells(
    w: World, msg: Message, context: Context, c: nat, doc: Conversation, answer: Option<string>, now: real, net: Net)
    requires net(Touching) == Returns
    ensures var d := LogCustomer(w, msg, context, c, doc, answer, now, net);
            && d.w.convs
               == (if Talks(doc, net) && Escalates(answer, net) then WithEscalation(w.convs, c, now) else w.convs)
            && Count(d.w.oplog, Notice())
               == Count(w.oplog, Notice()) + One(Talks(doc, net) && Notifies(answer, net))
  {
    var op := InsertRow(Row(c, FromCustomer, msg.text, now));
    var logged := AfterCall(w, op, net(LoggingInbound));
    CountCall(w, op, net(LoggingInbound), Notice());
    if net(LoggingInbound) == Returns && net(Answering) == Returns {
      AnswerTells(logged, msg, context, c, answer, now, net);
    } else {
      ReleaseTells(logged, Inbound(msg.id), false, net);
    }
  }

  /** What a call that works on conversation `c` made of it: touched, perhaps, and escalated or not. */
  ghost predicate Tells(w: World, y: World, c: nat, escalates: bool, notifies: bool) {
    && Count(y.oplog, Notice()) == Count(w.oplog, Notice()) + One(notifies)
    && (forall k: Key :: At(w, k) == c && c < |w.convs| ==> At(y, k) == c)
    && (c < |w.convs| ==>
          && c < |y.convs|
          && (y.convs[c].state == Escalated <==> w.convs[c].state == Escalated || escalates)
          && y.convs[c].phoneEncrypted == w.convs[c].phoneEncrypted)
  }

  lemma TouchThenTells(w: World, y: World, c: nat, now: real, fault: Fault, escalates: bool, notifies: bool)
    requires var touched := AfterCall(w, Touch(c, now), fault);
             && y.convs == (if escalates then WithEscalation(touched.convs, c, now) else touched.convs)
             && Count(y.oplog, Notice()) == Count(w.oplog, Notice()) + One(notifies)
    ensures Tells(w, y, c, escalates, notifies)
  {
    forall k: Key | At(w, k) == c && c < |w.convs| ensures At(y, k) == c {
      AtAfter(w, Touch(c, now), k);
      AtAfter(AfterCall(w, Touch(c, now), fault), EscalationOp(c, now), k);
      assert WithEscalation(AfterCall(w, Touch(c, now), fault).convs, c, now)
          == Perform(AfterCall(w, Touch(c, now), fault), EscalationOp(c, now)).convs;
    }
  }

  lemma ConverseTells(
    w: World, msg: Message, context: Context, c: nat, doc: Conversation, answer: Option<string>, now: real, net: Net)
    ensures Tells(w, Converse(w, msg, context, c, doc, answer, now, net).w, c,
                  Talks(doc, net) && Escalates(answer, net), Talks(doc, net) && Notifies(answer, net))
  {
    var touched := AfterCall(w, Touch(c, now), net(Touching));
    CountCall(w, Touch(c, now), net(Touching), Notice());
    if net(Touching) == Returns {
      LogCustomerTells(touched, msg, context, c, doc, answer, now, net);
    } else {
      ReleaseTells(touched, Inbound(msg.id), false, net);
    }
    TouchThenTells(w, Converse(w, msg, context, c, doc, answer, now, net).w, c, now, net(Touching),
                   Talks(doc, net) && Escalates(answer, net), Talks(doc, net) && Notifies(answer, net));
  }

  /** The conversation an accepted message is about, if the attempt gets as far. */
  function Found(cfg: Config, w: World, msg: Message, context: Context, now: real, nonce: nat, net: Net): Got {
    var claimed := AfterCall(w, InsertClaim(Inbound(msg.id), now), net(Claiming));
    if net(Resolving) == Returns && net(Claiming) == Returns && Inbound(msg.id) !in w.claims
    then GetOrCreate(cfg, claimed, msg, context.brand, now, nonce, net)
    else Failed(claimed)
  }

  /** The attempt escalates the conversation. */
  predicate AttemptEscalates(
    cfg: Config, w: World, msg: Message, context: Context, answer: Option<string>, now: real, nonce: nat, net: Net)
  {
    var got := Found(cfg, w, msg, context, now, nonce, net);
    got.Got? && Talks(got.doc, net) && Escalates(answer, net)
  }

  lemma FoundAt(cfg: Config, w: World, msg: Message, context: Context, now: real, nonce: nat, net: Net)
    ensures var got, k := Found(cfg, w, msg, context, now, nonce, net), SenderKey(cfg, msg, context);
            got.Got? ==>
              && got.conv == At(w, k) == At(got.w, k) && got.conv < |got.w.convs|
              && got.doc == got.w.convs[got.conv] && Inbound(msg.id) !in w.claims
              && (At(w, k) < |w.convs| ==> got.doc == w.convs[At(w, k)])
  {
    var k, claim := SenderKey(cfg, msg, context), InsertClaim(Inbound(msg.id), now);
    AtAfter(w, claim, k);
    AtAfter(AfterCall(w, claim, net(Claiming)), InsertConv(NewConversation(cfg, msg, context.brand, now, nonce)), k);
  }

  lemma GotTells(cfg: Config, w: World, msg: Message, brand: Option<string>, now: real, nonce: nat, net: Net)
    ensures Count(GetOrCreate(cfg, w, msg, brand, now, nonce, net).w.oplog, Notice()) == Count(w.oplog, Notice())
  {
    CountCall(w, InsertConv(NewConversation(cfg, msg, brand, now, nonce)), net(Creating), Notice());
  }

  lemma FoundTells(cfg: Config, w: World, msg: Message, context: Context, now: real, nonce: nat, net: Net)
    ensures Count(Found(cfg, w, msg, context, now, nonce, net).w.oplog, Notice()) == Count(w.oplog, Notice())
  {
    var claim := InsertClaim(Inbound(msg.id), now);
    CountCall(w, claim, net(Claiming), Notice());
    GotTells(cfg, AfterCall(w, claim, net(Claiming)), msg, context.brand, now, nonce, net);
  }

  lemma DeliverIsConverse(
    cfg: Config, w: World, msg: Message, context: Context, answer: Option<string>, now: real, nonce: nat, net: Net)
    ensures var d, got := Deliver(cfg, w, msg, Some(context), answer, now, nonce, net),
                          Found(cfg, w, msg, context, now, nonce, net);
            && (got.Got? ==> d == Converse(got.w, msg, context, got.conv, got.doc, answer, now, net))
            && (got.Failed? ==> d.w == w || d.w == got.w || d == Released(got.w, Inbound(msg.id), false, net))
  {
  }

  /** Exactly when the processing of a message notifies: when it escalates and goes on to notify. */
  lemma DeliverTells(
    cfg: Config, w: World, msg: Message, context: Context, answer: Option<string>, now: real, nonce: nat, net: Net)
    ensures Count(Deliver(cfg, w, msg, Some(context), answer, now, nonce, net).w.oplog, Notice())
            == Count(w.oplog, Notice())
               + One(AttemptEscalates(cfg, w, msg, context, answer, now, nonce, net)
                     && net(Escalating) == Returns && net(Notifying) != Refused)
    ensures var y, c := Deliver(cfg, w, msg, Some(context), answer, now, nonce, net).w,
            At(w, SenderKey(cfg, msg, context));
            AttemptEscalates(cfg, w, msg, context, answer, now, nonce, net) ==>
              EscalatedAt(y, c) && At(y, SenderKey(cfg, msg, context)) == c
  {
    var got := Found(cfg, w, msg, context, now, nonce, net);
    FoundAt(cfg, w, msg, context, now, nonce, net);
    FoundTells(cfg, w, msg, context, now, nonce, net);
    DeliverIsConverse(cfg, w, msg, context, answer, now, nonce, net);
    if got.Got? {
      ConverseTells(got.w, msg, context, got.conv, got.doc, answer, now, net);
    } else {
      ReleaseTells(got.w, Inbound(msg.id), false, net);
    }
  }

  /** A delivery on an escalated conversation notifies nobody, and it stays escalated. */
  lemma QuietOnEscalated(
    cfg: Config, w: World, msg: Message, context: Context, answer: Option<string>, now: real, nonce: nat, net: Net)
    requires EscalatedAt(w, At(w, SenderKey(cfg, msg, context)))
    ensures var y := Deliver(cfg, w, msg, Some(context), answer, now, nonce, net).w;
            && EscalatedAt(y, At(w, SenderKey(cfg, msg, context)))
            && Count(y.oplog, Notice()) == Count(w.oplog, Notice())
  {
    var got := Found(cfg, w, msg, context, now, nonce, net);
    FoundAt(cfg, w, msg, context, now, nonce, net);
    FoundTells(cfg, w, msg, context, now, nonce, net);
    DeliverIsConverse(cfg, w, msg, context, answer, now, nonce, net);
    if got.Got? {
      ConverseTells(got.w, msg, context, got.conv, got.doc, answer, now, net);
    } else {
      ReleaseTells(got.w, Inbound(msg.id), false, net);
    }
  }

  /** An attempt that escalates, and any retry of it, each however its awaits go: the escalation
      stands, and it is notified exactly when the attempt itself gets as far as the notification
      and that takes effect. The retry finds the conversation escalated and never makes up for it. */
  lemma NotificationIsLost(
    cfg: Config, w: World, msg: Message, context: Context, answer: Option<string>, now: real, nonce: nat, net: Net,
    answer2: Option<string>, later: real, nonce2: nat, net2: Net)
    requires AttemptEscalates(cfg, w, msg, context, answer, now, nonce, net)
    ensures var first := Deliver(cfg, w, msg, Some(context), answer, now, nonce, net);
            var second := Deliver(cfg, first.w, msg, Some(context), answer2, later, nonce2, net2);
            && EscalatedAt(second.w, At(w, SenderKey(cfg, msg, context)))
            && Count(second.w.oplog, Notice())
               == Count(w.oplog, Notice()) + One(net(Escalating) == Returns && net(Notifying) != Refused)
  {
    DeliverTells(cfg, w, msg, context, answer, now, nonce, net);
    var first := Deliver(cfg, w, msg, Some(context), answer, now, nonce, net);
    QuietOnEscalated(cfg, first.w, msg, context, answer2, later, nonce2, net2);
  }

  /** A message that escalates a conversation whose number was purged: from then on no reply of any
      agent, under any key and however its awaits go, is delivered or goes through. */
  lemma PurgedNumberIsADeadEnd(
    cfg: Config, w: World, msg: Message, context: Context, answer: Option<string>, now: real, nonce: nat, net: Net,
    role: Role, connection: Option<Context>, later: real, net2: Net)
    requires var c := At(w, SenderKey(cfg, msg, context)); c < |w.convs| && w.convs[c].phoneEncrypted.None?
    requires AttemptEscalates(cfg, w, msg, context, answer, now, nonce, net)
    requires role.AgentReply? && role.target == At(w, SenderKey(cfg, msg, context))
    ensures var d := Deliver(cfg, w, msg, Some(context), answer, now, nonce, net);
            && EscalatedAt(d.w, role.target) && !Awaits(d.w, role.target)
            && !Delivers(d.w, role, net2)
            && ReplyTo(cfg, d.w, role, connection, later, net2).outcome != Completed
  {
    var got := Found(cfg, w, msg, context, now, nonce, net);
    FoundAt(cfg, w, msg, context, now, nonce, net);
    FoundTells(cfg, w, msg, context, now, nonce, net);
    DeliverIsConverse(cfg, w, msg, context, answer, now, nonce, net);
    ConverseTells(got.w, msg, context, got.conv, got.doc, answer, now, net);
    ReplyOutcome(cfg, Deliver(cfg, w, msg, Some(context), answer, now, nonce, net).w, role, connection, later, net2);
  }
}
