/** `app/services/conversation_service.py`, step by step. */
module ConversationService {
  import opened Options
  import opened Phone
  import opened Records
  import opened Processes
  import opened Sequential
  import opened Storage

  method GetOrCreateConversation(
    db: Store, cfg: Config, msg: Message, brand: Option<string>, now: real, nonce: nat, net: Net)
    returns (raised: bool, c: nat, doc: Option<Conversation>)
    modifies db
    ensures raised == doc.None?
    ensures GetOrCreate(cfg, old(db.W()), msg, brand, now, nonce, net)
            == if doc.Some? then Got(db.W(), c, doc.value) else Failed(db.W())
  {
    var phoneHash, existing := cfg.hash(Normalize(msg.sender)), None;
    raised, existing := db.FindByKey(phoneHash, brand, net(Finding));
    if raised {
      return true, 0, None;
    }
    if existing.Some? {
      return false, existing.value, Some(db.convs[existing.value]);
    }
    var document := NewConversation(cfg, msg, brand, now, nonce);
    raised, c := db.InsertConversation(document, net(Creating));
    doc := if raised then None else Some(document);
  }

  method EscalateConversation(db: Store, c: nat, reason: string, now: real, fault: Fault) returns (raised: bool)
    modifies db
    ensures db.W() == AfterCall(old(db.W()), SetEscalated(c, reason, now), fault) && raised == (fault != Returns)
    ensures fault != Refused && c < |old(db.convs)| ==>
              db.convs == old(db.convs)[c := old(db.convs)[c].(state := Escalated, escalatedReason := Some(reason),
                                                               escalatedAt := Some(now))]
  {
    raised := db.UpdateConversation(SetEscalated(c, reason, now), fault);
  }

  /** Hands back the updated document, or nothing when the conversation was not escalated. */
  method ResolveConversation(db: Store, c: nat, via: string, agent: Option<string>, net: Net)
    returns (raised: bool, updated: Option<Conversation>)
    modifies db
    ensures Done(db.W(), if raised then Raised else Completed) == Resolve(old(db.W()), c, via, agent, net)
    ensures !raised ==>
              updated == if c < |old(db.convs)| && old(db.convs)[c].state == Escalated && c < |db.convs|
                         then Some(db.convs[c]) else None
    ensures !raised && updated.Some? ==>
              && c < |old(db.convs)| && db.convs == old(db.convs)[c := updated.value]
              && updated.value == old(db.convs)[c].(state := JaneHandling, escalatedReason := None,
                                                    resolvedVia := Some(via),
                                                    resolvedBy := if agent.Some? then agent
                                                                  else old(db.convs)[c].resolvedBy)
    ensures !raised && updated.None? ==> db.W() == old(db.W())
  {
    var found;
    raised, found := db.FindById(c, net(ReadingForResolve));
    if raised {
      return true, None;
    }
    if found.None? || found.value.state != Escalated {
      return false, None;
    }
    var update := SetResolved(c, Some(via), agent);
    raised := db.UpdateConversation(update, net(WritingResolve));
    updated := Some(Edit(found.value, update));
  }

  method TouchConversation(db: Store, c: nat, now: real, fault: Fault) returns (raised: bool)
    modifies db
    ensures db.W() == AfterCall(old(db.W()), Touch(c, now), fault) && raised == (fault != Returns)
    ensures fault != Refused && c < |old(db.convs)| ==>
              db.convs == old(db.convs)[c := old(db.convs)[c].(lastMessageAt := now)]
  {
    raised := db.UpdateConversation(Touch(c, now), fault);
  }

  method Close(db: Store, c: nat, net: Net) returns (raised: bool)
    modifies db
    ensures Done(db.W(), if raised then Raised else Completed) == Shut(old(db.W()), c, net)
    ensures !raised && c < |old(db.convs)| ==>
              db.convs == if old(db.convs)[c].state == JaneHandling
                          then old(db.convs)[c := old(db.convs)[c].(state := Closed)] else old(db.convs)
  {
    raised := db.UpdateConversation(SetClosed(c), net(Closing));
  }
}
