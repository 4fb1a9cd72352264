/** Running everyone's calls and looking at one conversation is running that conversation's
    calls alone. */
module NonInterference {
  import opened Options
  import opened Phone
  import opened Records
  import opened Processes
  import opened Sequential
  import opened Timeline
  import opened Isolation

  lemma WriteResolveMirrors(w: World, c: nat, via: string, agent: Option<string>, net: Net, l: Lens)
    requires Faithful(l) && l.tidy(w) && c < |w.convs|
    ensures Mirrors(w, WriteResolve(w, c, via, agent, net).w, WriteResolve(l.view(w), 0, via, agent, net).w,
                    c == At(w, l.k), l)
  {
    CallView(w, SetResolved(c, Some(via), agent), net(WritingResolve), l);
  }

  lemma ResolveMirrors(w: World, c: nat, via: string, agent: Option<string>, net: Net, l: Lens)
    requires Faithful(l) && l.tidy(w) && c < |w.convs|
    ensures Mirrors(w, Resolve(w, c, via, agent, net).w, Resolve(l.view(w), 0, via, agent, net).w, c == At(w, l.k), l)
  {
    assert Shows(l, w);
    WriteResolveMirrors(w, c, via, agent, net, l);
  }

  lemma LogFoundEchoMirrors(w: World, c: nat, text: string, now: real, net: Net, l: Lens)
    requires Faithful(l) && l.tidy(w) && c < |w.convs|
    ensures Mirrors(w, LogFoundEcho(w, c, text, now, net).w, LogFoundEcho(l.view(w), 0, text, now, net).w,
                    c == At(w, l.k), l)
  {
    var op := InsertRow(Row(c, FromAgent(ECHO_CHANNEL, None, None), text, now));
    CallView(w, op, net(LoggingEcho), l);
    ResolveMirrors(AfterCall(w, op, net(LoggingEcho)), c, ECHO_CHANNEL, None, net, l);
  }

  lemma EchoOnMirrors(w: World, c: nat, msg: Message, now: real, net: Net, l: Lens)
    requires Faithful(l) && l.tidy(w) && c < |w.convs|
    ensures Mirrors(w, EchoOn(w, c, msg, now, net).w, EchoOn(l.view(w), 0, msg, now, net).w, c == At(w, l.k), l)
  {
    var op := Touch(c, now);
    var y := AfterCall(w, op, net(Touching));
    CallView(w, op, net(Touching), l);
    assert Shows(l, y);
    LogFoundEchoMirrors(y, c, msg.text, now, net, l);
  }

  lemma EchoWithMirrors(w: World, got: Got, alone: Got, msg: Message, now: real, mine: bool, net: Net, l: Lens)
    requires Faithful(l) && GotMirrored(w, got, alone, mine, l)
    ensures Mirrors(w, EchoWith(got, msg, now, net).w, EchoWith(alone, msg, now, net).w, mine, l)
  {
    if got.Got? {
      EchoOnMirrors(got.w, got.conv, msg, now, net, l);
    }
  }

  lemma EchoMirrors(
    cfg: Config, w: World, msg: Message, context: Context, now: real, nonce: nat, net: Net, l: Lens)
    requires Faithful(l) && l.tidy(w)
    ensures Mirrors(w, Echo(cfg, w, msg, Some(context), now, nonce, net).w,
                    Echo(cfg, l.view(w), msg, Some(context), now, nonce, net).w,
                    SenderKey(cfg, msg, context) == l.k, l)
  {
    GotMirrors(cfg, w, msg, context, now, nonce, net, l);
    EchoWithMirrors(w, GetOrCreate(cfg, w, msg, context.brand, now, nonce, net),
                    GetOrCreate(cfg, l.view(w), msg, context.brand, now, nonce, net), msg, now,
                    SenderKey(cfg, msg, context) == l.k, net, l);
  }

  /** The same request on the conversation's own collection. */
  function Retarget(role: Role): Role
    requires role.AgentReply?
  {
    AgentReply(0, role.body, role.email, role.agentId, role.key, role.channel)
  }

  lemma LogAgentMirrors(w: World, role: Role, now: real, net: Net, l: Lens)
    requires Faithful(l) && l.tidy(w) && role.AgentReply? && role.target < |w.convs|
    ensures Mirrors(w, LogAgent(w, role, now, net).w, LogAgent(l.view(w), Retarget(role), now, net).w,
                    role.target == At(w, l.k), l)
  {
    var row := Row(role.target, FromAgent(role.channel, Some(role.email), Some(role.agentId)), role.body, now);
    CallView(w, InsertRow(row), net(LoggingReply), l);
    ResolveMirrors(AfterCall(w, InsertRow(row), net(LoggingReply)), role.target, role.channel, Some(role.email), net,
        l);
  }

  lemma MarkAgentMirrors(w: World, role: Role, now: real, net: Net, l: Lens)
    requires Faithful(l) && l.tidy(w) && role.AgentReply? && OfOneKey(w, Reply(role.key), role.target, l)
    ensures Mirrors(w, MarkAgent(w, role, now, net).w, MarkAgent(l.view(w), Retarget(role), now, net).w,
                    role.target == At(w, l.k), l)
  {
    var op := MarkSent(Reply(role.key));
    var y := AfterCall(w, op, net(MarkingSent));
    CallView(w, op, net(MarkingSent), l);
    if net(MarkingSent) == Returns {
      LogAgentMirrors(y, role, now, net, l);
    } else {
      ReleasedMirrors(y, Reply(role.key), true, net, l);
    }
  }

  lemma SendAgentMirrors(
    cfg: Config, w: World, role: Role, doc: Conversation, token: Option<string>, now: real, net: Net, l: Lens)
    requires Faithful(l) && l.tidy(w) && role.AgentReply? && OfOneKey(w, Reply(role.key), role.target, l)
    requires doc.phoneEncrypted.Some?
    ensures Mirrors(w, SendAgent(cfg, w, role, doc, token, now, net).w,
                    SendAgent(cfg, l.view(w), Retarget(role), doc, token, now, net).w, role.target == At(w, l.k), l)
  {
    var send := Send(role.target, Agent(role.key), Addressed(cfg.decrypt(doc.phoneEncrypted.value)),
                     doc.phoneNumberId, token, role.body);
    var y := AfterCall(w, send, net(Sending));
    CallView(w, send, net(Sending), l);
    if net(Sending) == Returns {
      MarkAgentMirrors(y, role, now, net, l);
    } else {
      ReleasedMirrors(y, Reply(role.key), net(Sending) == AppliedButRaised, net, l);
    }
  }

  lemma AddressAgentMirrors(
    cfg: Config, w: World, role: Role, doc: Conversation, context: Option<Context>, now: real, net: Net, l: Lens)
    requires Faithful(l) && l.tidy(w) && role.AgentReply? && OfOneKey(w, Reply(role.key), role.target, l)
    requires doc.phoneEncrypted.Some?
    ensures Mirrors(w, AddressAgent(cfg, w, role, doc, context, now, net).w,
                    AddressAgent(cfg, l.view(w), Retarget(role), doc, context, now, net).w,
                    role.target == At(w, l.k), l)
  {
    if net(ReadingRegistry) == Returns {
      SendAgentMirrors(cfg, w, role, doc, TokenOf(context), now, net, l);
    } else {
      ReleasedMirrors(w, Reply(role.key), false, net, l);
    }
  }

  lemma ClaimAndSendMirrors(
    cfg: Config, w: World, role: Role, doc: Conversation, context: Option<Context>, now: real, net: Net, l: Lens)
    requires Faithful(l) && l.tidy(w) && role.AgentReply? && OfOneKey(w, Reply(role.key), role.target, l)
    ensures Mirrors(w, ClaimAndSend(cfg, w, role, doc, context, now, net).w,
                    ClaimAndSend(cfg, l.view(w), Retarget(role), doc, context, now, net).w,
                    role.target == At(w, l.k), l)
  {
    var op := InsertClaim(Reply(role.key), now);
    var y := AfterCall(w, op, net(Claiming));
    CallView(w, op, net(Claiming), l);
    if net(Claiming) == Returns && Reply(role.key) !in w.claims {
      if doc.phoneEncrypted.Some? {
        AddressAgentMirrors(cfg, y, role, doc, context, now, net, l);
      } else {
        ReleasedMirrors(y, Reply(role.key), false, net, l);
      }
    }
  }

  lemma ReplyMirrors(
    cfg: Config, w: World, role: Role, context: Option<Context>, now: real, net: Net, l: Lens, mine: Key)
    requires Faithful(l) && l.tidy(w) && role.AgentReply?
    requires role.target == At(w, mine) && l.own(Reply(role.key)) == mine
    ensures Mirrors(w, ReplyTo(cfg, w, role, context, now, net).w,
                    ReplyTo(cfg, l.view(w), Retarget(role), context, now, net).w, mine == l.k, l)
  {
    assert Shows(l, w);
    if Reply(role.key) !in w.claims && role.target < |w.convs| {
      ClaimAndSendMirrors(cfg, w, role, w.convs[role.target], context, now, net, l);
    }
  }

  /** The retention job at one document, the ones before it being done. */
  lemma UnsetMirrors(w: World, v: World, cutoff: real, n: nat, l: Lens)
    requires Faithful(l) && l.tidy(v) && n < |v.convs| && At(v, l.k) == At(w, l.k)
    requires l.view(v)
             == if At(w, l.k) < n then Perform(l.view(w), UnsetPhone(0, cutoff)) else l.view(w)
    ensures var y := Perform(v, UnsetPhone(n, cutoff));
            && |y.convs| == |v.convs| && At(y, l.k) == At(w, l.k)
            && Mirrors(w, y, Perform(l.view(w), UnsetPhone(0, cutoff)), At(w, l.k) < n + 1, l)
  {
    OpView(v, UnsetPhone(n, cutoff), l);
  }

  /** The retention job, document by document. */
  lemma {:induction false} PurgedMirrors(w: World, cutoff: real, n: nat, l: Lens)
    requires Faithful(l) && l.tidy(w) && n <= |w.convs|
    ensures var y := Purged(w, cutoff, n);
            && |y.convs| == |w.convs| && At(y, l.k) == At(w, l.k)
            && Mirrors(w, y, Perform(l.view(w), UnsetPhone(0, cutoff)), At(w, l.k) < n, l)
  {
    if n == 0 {
    } else {
      PurgedMirrors(w, cutoff, n - 1, l);
      UnsetMirrors(w, Purged(w, cutoff, n - 1), cutoff, n - 1, l);
    }
  }

  lemma PurgeMirrors(w: World, cutoff: real, l: Lens)
    requires Faithful(l) && l.tidy(w)
    ensures var v := l.view(w);
            Mirrors(w, Purged(w, cutoff, |w.convs|), Purged(v, cutoff, |v.convs|), true, l)
  {
    assert Shows(l, w);
    PurgedMirrors(w, cutoff, |w.convs|, l);
    var v := l.view(w);
    assert |v.convs| == 1 ==> Purged(v, cutoff, 1) == Perform(Purged(v, cutoff, 0), UnsetPhone(0, cutoff));
  }

  /** The conversation an event belongs to: none for an unknown number or the retention job. */
  function Belongs(cfg: Config, fx: Fixed, e: Event): Option<Key> {
    match e
    case Customer(msg, _, _, _) => var context := fx.route(msg.number);
                                if context.Some? then Some(SenderKey(cfg, msg, context.value)) else None
    case Echoed(msg, _, _, _) => var context := fx.route(msg.number);
                              if context.Some? then Some(SenderKey(cfg, msg, context.value)) else None
    case Replied(k, _, _, _, _, _, _, _) => Some(k)
    case ByHand(k, _, _) => Some(k)
    case ClosedBy(k, _) => Some(k)
    case Retention(_) => None
  }

  /** No message id and no idempotency key is shared between conversations. */
  predicate Respects(cfg: Config, fx: Fixed, own: Owner, e: Event) {
    && (e.Customer? && Belongs(cfg, fx, e).Some? ==> Belongs(cfg, fx, e) == Some(own(Inbound(e.msg.id))))
    && (e.Replied? ==> own(Reply(e.key)) == e.k)
  }

  /** Whether one conversation's history contains the event. */
  predicate Involves(cfg: Config, fx: Fixed, e: Event, k: Key) {
    e.Retention? || Belongs(cfg, fx, e) == Some(k)
  }

  function Only(cfg: Config, fx: Fixed, events: seq<Event>, k: Key): seq<Event> {
    Filter((e: Event) => Involves(cfg, fx, e, k), events)
  }

  lemma TaskMirrors(cfg: Config, fx: Fixed, w: World, e: Event, l: Lens)
    requires Faithful(l) && l.tidy(w) && Respects(cfg, fx, l.own, e) && (e.Customer? || e.Echoed?)
    ensures Mirrors(w, Do(cfg, fx, w, e), Do(cfg, fx, l.view(w), e), Involves(cfg, fx, e, l.k), l)
  {
    var context := fx.route(e.msg.number);
    if context.Some? {
      if e.Customer? {
        DeliverMirrors(cfg, w, e.msg, context.value, AnswerOf(fx, context, e.msg.text), e.now, e.nonce, e.net, l);
      } else {
        EchoMirrors(cfg, w, e.msg, context.value, e.now, e.nonce, e.net, l);
      }
    }
  }

  lemma RepliedMirrors(cfg: Config, fx: Fixed, w: World, e: Event, l: Lens)
    requires Faithful(l) && l.tidy(w) && Respects(cfg, fx, l.own, e) && e.Replied?
    ensures Mirrors(w, Do(cfg, fx, w, e), Do(cfg, fx, l.view(w), e), Involves(cfg, fx, e, l.k), l)
  {
    var c := At(w, e.k);
    assert Shows(l, w);
    ReplyMirrors(cfg, w, AgentReply(c, e.body, e.email, e.agentId, e.key, e.channel), ConnectionOf(fx, w, c), e.now,
                 e.net, l, e.k);
  }

  lemma ByHandMirrors(w: World, mine: Key, email: string, net: Net, l: Lens)
    requires Faithful(l) && l.tidy(w)
    ensures Mirrors(w, ResolveByHand(w, At(w, mine), email, net).w,
                    ResolveByHand(l.view(w), At(l.view(w), mine), email, net).w, mine == l.k, l)
  {
    assert Shows(l, w);
    if At(w, mine) < |w.convs| {
      ResolveMirrors(w, At(w, mine), "manual", Some(email), net, l);
    }
  }

  lemma ClosedByMirrors(w: World, mine: Key, net: Net, l: Lens)
    requires Faithful(l) && l.tidy(w)
    ensures Mirrors(w, Shut(w, At(w, mine), net).w, Shut(l.view(w), At(l.view(w), mine), net).w, mine == l.k, l)
  {
    CallView(w, SetClosed(At(w, mine)), net(Closing), l);
  }

  lemma EventMirrors(cfg: Config, fx: Fixed, w: World, e: Event, l: Lens)
    requires Faithful(l) && l.tidy(w) && Respects(cfg, fx, l.own, e)
    ensures Mirrors(w, Do(cfg, fx, w, e), Do(cfg, fx, l.view(w), e), Involves(cfg, fx, e, l.k), l)
  {
    if e.Customer? || e.Echoed? {
      TaskMirrors(cfg, fx, w, e, l);
    } else if e.Replied? {
      RepliedMirrors(cfg, fx, w, e, l);
    } else if e.ByHand? {
      ByHandMirrors(w, e.k, e.email, e.net, l);
    } else if e.ClosedBy? {
      ClosedByMirrors(w, e.k, e.net, l);
    } else {
      PurgeMirrors(w, e.cutoff, l);
    }
  }

  /** A step that a projection either follows or ignores can be folded before or after it. */
  lemma {:induction false} FoldProjects<S(!new), E(!new)>(
    f: (S, E) -> S, project: S -> S, keep: E -> bool, good: S -> bool, allowed: E -> bool, s: S, es: seq<E>)
    requires forall t, e :: good(t) && allowed(e) ==>
               good(f(t, e)) && project(f(t, e)) == if keep(e) then f(project(t), e) else project(t)
    requires good(s) && forall i :: 0 <= i < |es| ==> allowed(es[i])
    ensures project(Fold(f, s, es)) == Fold(f, project(s), Filter(keep, es))
    decreases |es|
  {
    if es == [] {
    } else {
      FoldProjects(f, project, keep, good, allowed, f(s, es[0]), es[1..]);
      if keep(es[0]) {
        assert ([es[0]] + Filter(keep, es[1..]))[1..] == Filter(keep, es[1..]);
      } else {
        assert [] + Filter(keep, es[1..]) == Filter(keep, es[1..]);
      }
    }
  }

  /** Non-interference, whatever fails in whichever call. */
  lemma ProjectionIsSolitude(cfg: Config, fx: Fixed, w: World, events: seq<Event>, own: Owner, k: Key)
    requires Tidy(w) && forall i :: 0 <= i < |events| ==> Respects(cfg, fx, own, events[i])
    ensures Project(Run(cfg, fx, w, events), own, k)
            == Run(cfg, fx, Project(w, own, k), Only(cfg, fx, events, k))
  {
    var l := LensOf(own, k);
    LensIsFaithful(own, k);
    forall t, e | l.tidy(t) && Respects(cfg, fx, own, e)
      ensures l.tidy(Calls(cfg, fx)(t, e))
      ensures l.view(Calls(cfg, fx)(t, e))
              == if Involves(cfg, fx, e, k) then Calls(cfg, fx)(l.view(t), e) else l.view(t)
    {
      EventMirrors(cfg, fx, t, e, l);
    }
    FoldProjects(Calls(cfg, fx), l.view, (e: Event) => Involves(cfg, fx, e, k), l.tidy,
                 (e: Event) => Respects(cfg, fx, own, e), w, events);
  }

  /** From the empty database: the documents, rows, claims, sends and notifications of one
      conversation are those of its own events run alone. */
  lemma NobodyInterferes(cfg: Config, fx: Fixed, events: seq<Event>, own: Owner, k: Key)
    requires forall i :: 0 <= i < |events| ==> Respects(cfg, fx, own, events[i])
    ensures Project(Run(cfg, fx, EMPTY_WORLD, events), own, k)
            == Run(cfg, fx, EMPTY_WORLD, Only(cfg, fx, events, k))
  {
    ProjectionIsSolitude(cfg, fx, EMPTY_WORLD, events, own, k);
    assert Project(EMPTY_WORLD, own, k) == EMPTY_WORLD;
  }
}
