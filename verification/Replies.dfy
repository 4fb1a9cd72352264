/** An agent's reply and its retries under one idempotency key, however its awaits go. */
module Replies {
  import opened Options
  import opened Phone
  import opened Counting
  import opened Records
  import opened Processes
  import opened Sequential

  /** The conversation awaits an agent and its customer can still be reached. */
  predicate Awaits(w: World, c: nat) {
    c < |w.convs| && w.convs[c].state == Escalated && w.convs[c].phoneEncrypted.Some?
  }

  /** The request gets as far as inserting its claim. */
  predicate Reaches(w: World, role: Role, net: Net)
    requires role.AgentReply?
  {
    && Reply(role.key) !in w.claims && net(CheckingClaim) == Returns && net(ReadingConv) == Returns
    && role.target < |w.convs| && w.convs[role.target].state == Escalated
  }

  /** It enters the `try` block. */
  predicate Enters(w: World, role: Role, net: Net)
    requires role.AgentReply?
  {
    Reaches(w, role, net) && net(Claiming) == Returns
  }

  /** Meta delivers its message. */
  predicate Delivers(w: World, role: Role, net: Net)
    requires role.AgentReply?
  {
    Enters(w, role, net) && Awaits(w, role.target) && net(ReadingRegistry) == Returns && net(Sending) != Refused
  }

  /** The `try` block runs to its end. */
  predicate Sends(w: World, role: Role, net: Net)
    requires role.AgentReply?
  {
    Delivers(w, role, net) && net(Sending) == Returns && net(MarkingSent) == Returns
  }

  /** What follows the `try` block does not raise. */
  predicate Finishes(net: Net) {
    net(LoggingReply) == Returns && net(ReadingForResolve) == Returns && net(WritingResolve) == Returns
  }

  /** The claim is still there when the call is over: it was sent, its insertion raised after taking
      effect, or its release was refused. */
  predicate LeavesClaim(w: World, role: Role, net: Net)
    requires role.AgentReply?
  {
    || (Reaches(w, role, net) && net(Claiming) == AppliedButRaised)
    || Sends(w, role, net)
    || (Enters(w, role, net) && !Sends(w, role, net) && net(Releasing) == Refused)
  }

  function IsSendOf(key: string): Op -> bool {
    (op: Op) => op.Send? && op.sender == Agent(key)
  }

  function AgentRow(role: Role, now: real): Row
    requires role.AgentReply?
  {
    Row(role.target, FromAgent(role.channel, Some(role.email), Some(role.agentId)), role.body, now)
  }

  function ResolveOp(role: Role): Op
    requires role.AgentReply?
  {
    SetResolved(role.target, Some(role.channel), Some(role.email))
  }

  /** What a reply that goes through makes of the documents, but for the log of operations. */
  predicate WentThrough(w: World, y: World, role: Role, now: real)
    requires role.AgentReply? && role.target < |w.convs|
  {
    && y.claims == w.claims[Reply(role.key) := Claim(now, true)]
    && y.rows
       == w.rows + [Row(role.target, FromAgent(role.channel, Some(role.email), Some(role.agentId)), role.body, now)]
    && y.convs
       == w.convs[role.target := w.convs[role.target].(state := JaneHandling, escalatedReason := None,
                                                       resolvedVia := Some(role.channel),
                                                       resolvedBy := Some(role.email))]
  }

  lemma CountCall(w: World, op: Op, fault: Fault, f: Op -> bool)
    ensures Count(AfterCall(w, op, fault).oplog, f)
            == Count(w.oplog, f) + One(fault != Refused && Effective(w, op) && f(op))
  {
    CountAppend(w.oplog, op, f);
  }

  // The stages of a reply, from the last to the first: outcome, claims, documents and deliveries.

  lemma LogAgentResult(w: World, role: Role, now: real, net: Net)
    requires role.AgentReply? && role.target < |w.convs| && w.convs[role.target].state == Escalated
    ensures var d := LogAgent(w, role, now, net);
            && d.outcome == (if Finishes(net) then Completed else Raised)
            && d.w.claims == w.claims
            && d.w.rows == (if net(LoggingReply) == Refused then w.rows else w.rows + [AgentRow(role, now)])
            && d.w.convs
               == if net(LoggingReply) == Returns && net(ReadingForResolve) == Returns && net(WritingResolve) != Refused
                  then w.convs[role.target := Edit(w.convs[role.target], ResolveOp(role))] else w.convs
  {
  }

  lemma ResolveDelivers(w: World, c: nat, via: string, agent: Option<string>, net: Net, key: string)
    ensures Count(Resolve(w, c, via, agent, net).w.oplog, IsSendOf(key)) == Count(w.oplog, IsSendOf(key))
  {
    CountCall(w, SetResolved(c, Some(via), agent), net(WritingResolve), IsSendOf(key));
  }

  lemma LogAgentDelivers(w: World, role: Role, now: real, net: Net)
    requires role.AgentReply?
    ensures Count(LogAgent(w, role, now, net).w.oplog, IsSendOf(role.key)) == Count(w.oplog, IsSendOf(role.key))
  {
    var op := InsertRow(AgentRow(role, now));
    CountCall(w, op, net(LoggingReply), IsSendOf(role.key));
    ResolveDelivers(AfterCall(w, op, net(LoggingReply)), role.target, role.channel, Some(role.email), net, role.key);
  }

  /** What the release leaves of a claim. */
  function Unclaimed(claims: map<ClaimRef, Claim>, ref: ClaimRef, net: Net): map<ClaimRef, Claim> {
    if net(Releasing) == Refused then claims else claims - {ref}
  }

  lemma ReleasedResult(w: World, ref: ClaimRef, late: bool, net: Net)
    ensures var d := Released(w, ref, late, net);
            && d.outcome == Raised && d.w.convs == w.convs && d.w.rows == w.rows
            && d.w.claims == Unclaimed(w.claims, ref, net)
  {
    assert ref !in w.claims ==> w.claims - {ref} == w.claims;
  }

  /** How a call ends that holds its claim in the world `w`, given whether its `try` block runs to
      its end. */
  predicate Ends(w: World, d: Done, role: Role, now: real, net: Net, sends: bool)
    requires role.AgentReply? && role.target < |w.convs|
  {
    var ref := Reply(role.key);
    if sends then
      && d.outcome == (if Finishes(net) then Completed else Raised)
      && d.w.claims == w.claims[ref := Claim(now, true)]
      && (Finishes(net) ==> WentThrough(w, d.w, role, now))
      && d.w.rows == (if net(LoggingReply) == Refused then w.rows else w.rows + [AgentRow(role, now)])
    else
      && d.outcome == Raised && d.w.convs == w.convs && d.w.rows == w.rows
      && (ref in d.w.claims <==> net(Releasing) == Refused)
      && (net(Releasing) != Refused ==> d.w.claims == w.claims - {ref})
      && d.w.claims - {ref} == w.claims - {ref}
  }

  /** The call holds its claim on an escalated conversation. */
  predicate InTry(w: World, role: Role, now: real) {
    && role.AgentReply? && role.target < |w.convs| && w.convs[role.target].state == Escalated
    && Reply(role.key) in w.claims && w.claims[Reply(role.key)].createdAt == now
  }

  lemma MarkAgentResult(w: World, role: Role, now: real, net: Net)
    requires InTry(w, role, now)
    ensures Ends(w, MarkAgent(w, role, now, net), role, now, net, net(MarkingSent) == Returns)
  {
    var marked, ref := AfterCall(w, MarkSent(Reply(role.key)), net(MarkingSent)), Reply(role.key);
    if net(MarkingSent) == Returns {
      LogAgentResult(marked, role, now, net);
    } else {
      ReleasedResult(marked, ref, true, net);
      assert marked.claims - {ref} == w.claims - {ref};
    }
  }

  lemma MarkAgentDelivers(w: World, role: Role, now: real, net: Net)
    requires role.AgentReply?
    ensures Count(MarkAgent(w, role, now, net).w.oplog, IsSendOf(role.key)) == Count(w.oplog, IsSendOf(role.key))
  {
    var f, op := IsSendOf(role.key), MarkSent(Reply(role.key));
    var marked := AfterCall(w, op, net(MarkingSent));
    CountCall(w, op, net(MarkingSent), f);
    LogAgentDelivers(marked, role, now, net);
    CountCall(marked, DeleteClaim(Reply(role.key), true), net(Releasing), f);
  }

  lemma SendAgentResult(
    cfg: Config, w: World, role: Role, doc: Conversation, token: Option<string>, now: real, net: Net)
    requires InTry(w, role, now) && doc.phoneEncrypted.Some?
    ensures Ends(w, SendAgent(cfg, w, role, doc, token, now, net), role, now, net,
                 net(Sending) == Returns && net(MarkingSent) == Returns)
  {
    var to := Addressed(cfg.decrypt(doc.phoneEncrypted.value));
    var send := Send(role.target, Agent(role.key), to, doc.phoneNumberId, token, role.body);
    var sent := AfterCall(w, send, net(Sending));
    if net(Sending) == Returns {
      MarkAgentResult(sent, role, now, net);
    } else {
      ReleasedResult(sent, Reply(role.key), net(Sending) == AppliedButRaised, net);
    }
  }

  lemma SendAgentDelivers(
    cfg: Config, w: World, role: Role, doc: Conversation, token: Option<string>, now: real, net: Net)
    requires role.AgentReply? && doc.phoneEncrypted.Some?
    ensures Count(SendAgent(cfg, w, role, doc, token, now, net).w.oplog, IsSendOf(role.key))
            == Count(w.oplog, IsSendOf(role.key)) + One(net(Sending) != Refused)
  {
    var f, to := IsSendOf(role.key), Addressed(cfg.decrypt(doc.phoneEncrypted.value));
    var send := Send(role.target, Agent(role.key), to, doc.phoneNumberId, token, role.body);
    var sent, late := AfterCall(w, send, net(Sending)), net(Sending) == AppliedButRaised;
    CountCall(w, send, net(Sending), f);
    MarkAgentDelivers(sent, role, now, net);
    CountCall(sent, DeleteClaim(Reply(role.key), late), net(Releasing), f);
  }

  lemma AddressAgentResult(
    cfg: Config, w: World, role: Role, doc: Conversation, context: Option<Context>, now: real, net: Net)
    requires InTry(w, role, now) && doc.phoneEncrypted.Some?
    ensures Ends(w, AddressAgent(cfg, w, role, doc, context, now, net), role, now, net,
                 net(ReadingRegistry) == Returns && net(Sending) == Returns && net(MarkingSent) == Returns)
    ensures Count(AddressAgent(cfg, w, role, doc, context, now, net).w.oplog, IsSendOf(role.key))
            == Count(w.oplog, IsSendOf(role.key)) + One(net(ReadingRegistry) == Returns && net(Sending) != Refused)
  {
    if net(ReadingRegistry) == Returns {
      SendAgentResult(cfg, w, role, doc, TokenOf(context), now, net);
      SendAgentDelivers(cfg, w, role, doc, TokenOf(context), now, net);
    } else {
      ReleasedResult(w, Reply(role.key), false, net);
      CountCall(w, DeleteClaim(Reply(role.key), false), net(Releasing), IsSendOf(role.key));
    }
  }

  /** A call that holds its claim in the world `w`. */
  function Holding(
    cfg: Config, w: World, role: Role, doc: Conversation, context: Option<Context>, now: real, net: Net): Done
    requires role.AgentReply?
  {
    if doc.phoneEncrypted.None? then Released(w, Reply(role.key), false, net)
    else AddressAgent(cfg, w, role, doc, context, now, net)
  }

  lemma EnteringHolds(cfg: Config, w: World, role: Role, context: Option<Context>, now: real, net: Net)
    requires role.AgentReply? && Enters(w, role, net)
    ensures ReplyTo(cfg, w, role, context, now, net)
            == Holding(cfg, Perform(w, InsertClaim(Reply(role.key), now)), role, w.convs[role.target], context,
                       now, net)
  {
  }

  /** The last await of a call that holds its claim and gets so far. */
  predicate HoldingSends(doc: Conversation, net: Net) {
    && doc.phoneEncrypted.Some?
    && net(ReadingRegistry) == Returns && net(Sending) == Returns && net(MarkingSent) == Returns
  }

  lemma HoldingResult(
    cfg: Config, w: World, role: Role, doc: Conversation, context: Option<Context>, now: real, net: Net)
    requires InTry(w, role, now)
    ensures Ends(w, Holding(cfg, w, role, doc, context, now, net), role, now, net, HoldingSends(doc, net))
    ensures Count(Holding(cfg, w, role, doc, context, now, net).w.oplog, IsSendOf(role.key))
            == Count(w.oplog, IsSendOf(role.key))
               + One(doc.phoneEncrypted.Some? && net(ReadingRegistry) == Returns && net(Sending) != Refused)
  {
    if doc.phoneEncrypted.Some? {
      AddressAgentResult(cfg, w, role, doc, context, now, net);
    } else {
      ReleasedResult(w, Reply(role.key), false, net);
      CountCall(w, DeleteClaim(Reply(role.key), false), net(Releasing), IsSendOf(role.key));
    }
  }

  /** The whole of a call that enters its `try` block. */
  lemma EnteredResult(cfg: Config, w: World, role: Role, context: Option<Context>, now: real, net: Net)
    requires role.AgentReply? && Enters(w, role, net)
    ensures var d, claimed := ReplyTo(cfg, w, role, context, now, net), Perform(w, InsertClaim(Reply(role.key), now));
            && Ends(claimed, d, role, now, net, Sends(w, role, net))
            && Count(d.w.oplog, IsSendOf(role.key))
               == Count(w.oplog, IsSendOf(role.key)) + One(Delivers(w, role, net))
  {
    var claimed := Perform(w, InsertClaim(Reply(role.key), now));
    EnteringHolds(cfg, w, role, context, now, net);
    CountCall(w, InsertClaim(Reply(role.key), now), Returns, IsSendOf(role.key));
    HoldingResult(cfg, claimed, role, w.convs[role.target], context, now, net);
  }

  lemma UnreachedResult(cfg: Config, w: World, role: Role, context: Option<Context>, now: real, net: Net)
    requires role.AgentReply? && !Reaches(w, role, net)
    ensures var d := ReplyTo(cfg, w, role, context, now, net);
            d.w == w && d.outcome != Completed
  {
  }

  lemma ReachingRaises(cfg: Config, w: World, role: Role, context: Option<Context>, now: real, net: Net)
    requires role.AgentReply? && Reaches(w, role, net) && net(Claiming) != Returns
    ensures ReplyTo(cfg, w, role, context, now, net)
            == Done(AfterCall(w, InsertClaim(Reply(role.key), now), net(Claiming)), Raised)
  {
  }

  /** The documents after a call that does not enter its `try` block, given whether it left a claim. */
  predicate Aside(w: World, d: Done, role: Role, now: real, leaves: bool)
    requires role.AgentReply?
  {
    && d.outcome != Completed && d.w.convs == w.convs && d.w.rows == w.rows
    && d.w.claims == (if leaves then w.claims[Reply(role.key) := Claim(now, false)] else w.claims)
    && Count(d.w.oplog, IsSendOf(role.key)) == Count(w.oplog, IsSendOf(role.key))
  }

  lemma InsertionAside(w: World, role: Role, now: real, fault: Fault)
    requires role.AgentReply? && Reply(role.key) !in w.claims
    ensures Aside(w, Done(AfterCall(w, InsertClaim(Reply(role.key), now), fault), Raised), role, now, fault != Refused)
  {
    CountCall(w, InsertClaim(Reply(role.key), now), fault, IsSendOf(role.key));
  }

  /** A call that does not enter its `try` block changes nothing but, when the insertion of its claim
      raises after taking effect, the claims. */
  lemma UnenteredResult(cfg: Config, w: World, role: Role, context: Option<Context>, now: real, net: Net)
    requires role.AgentReply? && !Enters(w, role, net)
    ensures Aside(w, ReplyTo(cfg, w, role, context, now, net), role, now, LeavesClaim(w, role, net))
  {
    if Reaches(w, role, net) {
      ReachingRaises(cfg, w, role, context, now, net);
      InsertionAside(w, role, now, net(Claiming));
    } else {
      UnreachedResult(cfg, w, role, context, now, net);
    }
  }

  /** A reply goes through exactly when it enters its `try` block, that runs to its end, and
      nothing after it raises. */
  lemma ReplyOutcome(cfg: Config, w: World, role: Role, context: Option<Context>, now: real, net: Net)
    requires role.AgentReply?
    ensures ReplyTo(cfg, w, role, context, now, net).outcome == Completed <==> Sends(w, role, net) && Finishes(net)
  {
    if Enters(w, role, net) {
      EnteredResult(cfg, w, role, context, now, net);
    } else {
      UnenteredResult(cfg, w, role, context, now, net);
    }
  }

  /** A reply that goes through is delivered once, logged once, marked sent, and resolves the
      conversation with its provenance. */
  lemma ReplyGoesThrough(cfg: Config, w: World, role: Role, context: Option<Context>, now: real, net: Net)
    requires role.AgentReply? && ReplyTo(cfg, w, role, context, now, net).outcome == Completed
    ensures Awaits(w, role.target)
    ensures WentThrough(w, ReplyTo(cfg, w, role, context, now, net).w, role, now)
    ensures Count(ReplyTo(cfg, w, role, context, now, net).w.oplog, IsSendOf(role.key))
            == Count(w.oplog, IsSendOf(role.key)) + 1
  {
    ReplyOutcome(cfg, w, role, context, now, net);
    EnteredResult(cfg, w, role, context, now, net);
    var ref := Reply(role.key);
    assert w.claims[ref := Claim(now, false)][ref := Claim(now, true)] == w.claims[ref := Claim(now, true)];
  }

  /** Which claims a reply leaves, whatever else happens: its own exactly when `LeavesClaim` says. */
  lemma ClaimsAfterReply(cfg: Config, w: World, role: Role, context: Option<Context>, now: real, net: Net)
    requires role.AgentReply?
    ensures var y, ref := ReplyTo(cfg, w, role, context, now, net).w, Reply(role.key);
            && (ref in y.claims <==> ref in w.claims || LeavesClaim(w, role, net))
            && (Sends(w, role, net) ==> y.claims == w.claims[ref := Claim(now, true)])
            && (!LeavesClaim(w, role, net) ==> y.claims == w.claims)
  {
    var ref := Reply(role.key);
    if Enters(w, role, net) {
      EnteredResult(cfg, w, role, context, now, net);
      assert w.claims[ref := Claim(now, false)] - {ref} == w.claims;
      assert w.claims[ref := Claim(now, false)][ref := Claim(now, true)] == w.claims[ref := Claim(now, true)];
    } else {
      UnenteredResult(cfg, w, role, context, now, net);
    }
  }

  /** No reply touches a claim that is not its own. */
  lemma OtherClaimsStay(cfg: Config, w: World, role: Role, context: Option<Context>, now: real, net: Net)
    requires role.AgentReply?
    ensures ReplyTo(cfg, w, role, context, now, net).w.claims - {Reply(role.key)} == w.claims - {Reply(role.key)}
  {
    var ref := Reply(role.key);
    assert w.claims[ref := Claim(now, false)] - {ref} == w.claims - {ref};
    assert w.claims[ref := Claim(now, true)] - {ref} == w.claims - {ref};
    ClaimsAfterReply(cfg, w, role, context, now, net);
    if Enters(w, role, net) {
      EnteredResult(cfg, w, role, context, now, net);
    } else {
      UnenteredResult(cfg, w, role, context, now, net);
    }
  }

  /** A reply leaves documents, rows and claims exactly as they were if and only if it leaves no
      claim: a raising insertion that took effect, a completed `try` block and a refused release
      are the three ways to leave one. */
  lemma ReplyWithoutATrace(cfg: Config, w: World, role: Role, context: Option<Context>, now: real, net: Net)
    requires role.AgentReply?
    ensures var y := ReplyTo(cfg, w, role, context, now, net).w;
            (y.claims == w.claims && y.convs == w.convs && y.rows == w.rows) <==> !LeavesClaim(w, role, net)
  {
    ClaimsAfterReply(cfg, w, role, context, now, net);
    if Enters(w, role, net) {
      EnteredResult(cfg, w, role, context, now, net);
    } else {
      UnenteredResult(cfg, w, role, context, now, net);
    }
  }

  /** Once the claim is marked sent, any later request with the key, whatever it says and however
      its awaits go, changes nothing, even if the first call raised after its `try` block. */
  lemma SameKeyIsANoOp(
    cfg: Config, w: World, role: Role, context: Option<Context>, now: real, net: Net,
    role2: Role, context2: Option<Context>, later: real, net2: Net)
    requires role.AgentReply? && role2.AgentReply? && role2.key == role.key && Sends(w, role, net)
    ensures var y := ReplyTo(cfg, w, role, context, now, net).w;
            ReplyTo(cfg, y, role2, context2, later, net2)
            == Done(y, if net2(CheckingClaim) == Returns && net2(Rereading) == Returns then AlreadySent else Raised)
  {
    ClaimsAfterReply(cfg, w, role, context, now, net);
  }

  /** How often Meta delivers under the key. */
  lemma DeliveriesOfAReply(cfg: Config, w: World, role: Role, context: Option<Context>, now: real, net: Net)
    requires role.AgentReply?
    ensures Count(ReplyTo(cfg, w, role, context, now, net).w.oplog, IsSendOf(role.key))
            == Count(w.oplog, IsSendOf(role.key)) + One(Delivers(w, role, net))
  {
    if Enters(w, role, net) {
      EnteredResult(cfg, w, role, context, now, net);
    } else {
      UnenteredResult(cfg, w, role, context, now, net);
    }
  }

  /** An attempt that raised and a retry with the same key, each however its awaits go. If the claim
      was left, the retry only reports it; if not, it fares as if it were the first. The customer
      has the message twice exactly when the first attempt was delivered and its claim released (a
      raising send that was delivered, or a raising update of the claim after it) and the retry
      is delivered as well. */
  lemma RetryWithTheSameKey(
    cfg: Config, w: World, role: Role, context: Option<Context>, now: real, net: Net, later: real, net2: Net)
    requires role.AgentReply? && ReplyTo(cfg, w, role, context, now, net).outcome == Raised
    ensures var first := ReplyTo(cfg, w, role, context, now, net);
            var second := ReplyTo(cfg, first.w, role, context, later, net2);
            var before, after := Count(w.oplog, IsSendOf(role.key)), Count(second.w.oplog, IsSendOf(role.key));
            && (LeavesClaim(w, role, net) ==>
                  second.w == first.w
                  && (second.outcome == AlreadySent || second.outcome == InProgress || second.outcome == Raised))
            && (!LeavesClaim(w, role, net) ==>
                  (second.outcome == Completed <==> ReplyTo(cfg, w, role, context, later, net2).outcome == Completed))
            && after == before + One(Delivers(w, role, net))
                        + One(!LeavesClaim(w, role, net) && Delivers(w, role, net2))
            && (after == before + 2
                <==> Delivers(w, role, net) && (net(Sending) != Returns || net(MarkingSent) != Returns)
                     && net(Releasing) != Refused && Delivers(w, role, net2))
  {
    ReplyWithoutATrace(cfg, w, role, context, now, net);
    ClaimsAfterReply(cfg, w, role, context, now, net);
    DeliveriesOfAReply(cfg, w, role, context, now, net);
    var first := ReplyTo(cfg, w, role, context, now, net);
    DeliveriesOfAReply(cfg, first.w, role, context, later, net2);
    ReplyOutcome(cfg, first.w, role, context, later, net2);
    ReplyOutcome(cfg, w, role, context, later, net2);
  }

  /** Delivered and marked sent, but the log or the resolve raised: the message is delivered, and
      while the claim is there a retry with the key is no help. What did not take effect when it
      raised, the row or the resolve, stays undone. */
  lemma DeliveredButUnfinished(
    cfg: Config, w: World, role: Role, context: Option<Context>, now: real, net: Net, later: real, net2: Net)
    requires role.AgentReply? && Sends(w, role, net) && !Finishes(net)
    ensures var first := ReplyTo(cfg, w, role, context, now, net);
            var second := ReplyTo(cfg, first.w, role, context, later, net2);
            && first.outcome == Raised && second.w == first.w && second.outcome != Completed
            && Count(second.w.oplog, IsSendOf(role.key)) == Count(w.oplog, IsSendOf(role.key)) + 1
            && (net(LoggingReply) == Refused ==> second.w.rows == w.rows)
  {
    EnteredResult(cfg, w, role, context, now, net);
    SameKeyIsANoOp(cfg, w, role, context, now, net, role, context, later, net2);
  }

  /** Once a reply has gone through, a reply to that conversation that only begins afterwards, under
      any key and however its awaits go, is neither delivered nor goes through. (One that had passed
      its check before is another matter, see `LateReplies`.) */
  lemma LaterRepliesFail(
    cfg: Config, w: World, role: Role, context: Option<Context>, now: real, net: Net,
    role2: Role, context2: Option<Context>, later: real, net2: Net)
    requires role.AgentReply? && role2.AgentReply? && role2.target == role.target
    requires ReplyTo(cfg, w, role, context, now, net).outcome == Completed
    ensures var first := ReplyTo(cfg, w, role, context, now, net);
            var second := ReplyTo(cfg, first.w, role2, context2, later, net2);
            && second.outcome != Completed && second.w.convs == first.w.convs && second.w.rows == first.w.rows
            && Count(second.w.oplog, IsSendOf(role2.key)) == Count(first.w.oplog, IsSendOf(role2.key))
  {
    ReplyGoesThrough(cfg, w, role, context, now, net);
    UnenteredResult(cfg, ReplyTo(cfg, w, role, context, now, net).w, role2, context2, later, net2);
  }
}
