/** An uninterrupted process of the interleaved service does exactly what the sequential call
    does: each of its moves keeps what the rest of the call will do. */
module Solo {
  import opened Options
  import opened Records
  import opened Processes
  import opened Service
  import opened Progress
  import opened Sequential

  datatype Alone = Alone(w: World, p: Proc)

  /** What one call meets outside the documents. */
  datatype Setting = Setting(env: Env, now: real, nonce: nat, net: Net)

  function Move(cfg: Config, x: Alone, e: Setting): Alone
    requires Shape(x.p) && !x.p.pc.Ended?
  {
    var op, fault := Request(cfg, x.p, e.env, e.nonce), e.net(x.p.pc);
    Alone(AfterCall(x.w, op, fault),
          After(x.p, op, fault != Refused && Effective(x.w, op), Respond(x.w, op, e.env), fault, e.env, e.now))
  }

  /** The next `n` moves, or all that remain. */
  function Moves(cfg: Config, x: Alone, e: Setting, n: nat): Alone
    decreases n
  {
    if n == 0 || x.p.pc.Ended? || !Shape(x.p) then x else Moves(cfg, Move(cfg, x, e), e, n - 1)
  }

  /** A call knows whether it has sent by where it is. */
  predicate OnTrack(p: Proc, now: real) {
    && Shape(p)
    && (p.role.AgentReply? || p.role.ResolveOnly? || p.role.CloseRequest? ==> p.conv == Some(p.role.target))
    && p.at == now
    && (p.sent ==> Remaining(p.pc) <= 5)
    && (p.pc == MarkingSent || p.pc == LoggingReply || p.pc == Escalating || p.pc == Notifying ==> p.sent)
  }

  /** What remains of a customer message's processing. */
  function RestOfAttempt(cfg: Config, w: World, p: Proc, e: Setting): Done
    requires Shape(p) && p.role.Attempt?
  {
    var msg, answer, now, net := p.role.msg, e.env.answer, e.now, e.net;
    match p.pc
    case Resolving => Deliver(cfg, w, msg, e.env.context, answer, now, e.nonce, net)
    case Claiming => ClaimInbound(cfg, w, msg, p.context.value, answer, now, e.nonce, net)
    case Finding => Accept(cfg, w, msg, p.context.value, answer, now, e.nonce, net)
    case Creating =>
      ConverseWith(Create(cfg, w, msg, p.context.value.brand, now, e.nonce, net), msg, p.context.value, answer, now,
          net)
    case Touching => Converse(w, msg, p.context.value, p.conv.value, p.snap.value, answer, now, net)
    case LoggingInbound => LogCustomer(w, msg, p.context.value, p.conv.value, p.snap.value, answer, now, net)
    case Answering => Consult(w, msg, p.context.value, p.conv.value, answer, now, net)
    case Sending => Sequential.Answer(w, msg, p.context.value, p.conv.value, p.answer, now, net)
    case LoggingReply => LogJane(w, msg, p.context.value.inbox, p.conv.value, p.answer, now, net)
    case Escalating => Escalate(w, msg, p.context.value.inbox, p.conv.value, now, net)
    case Notifying => Alert(w, msg, p.context.value.inbox, p.conv.value, net)
    case Releasing => Released(w, RefOf(p), p.sent, net)
    case Ended(outcome) => Done(w, outcome)
  }

  /** What remains of an agent's reply. */
  function RestOfReply(cfg: Config, w: World, p: Proc, e: Setting): Done
    requires Shape(p) && p.role.AgentReply?
  {
    match p.pc
    case CheckingClaim => ReplyTo(cfg, w, p.role, e.env.context, e.now, e.net)
    case Rereading => Done(w, if e.net(Rereading) == Returns then AlreadySent else Raised)
    case ReadingConv => ReadAndSend(cfg, w, p.role, e.env.context, e.now, e.net)
    case Claiming => ClaimAndSend(cfg, w, p.role, p.snap.value, e.env.context, e.now, e.net)
    case ReadingRegistry => AddressAgent(cfg, w, p.role, p.snap.value, e.env.context, e.now, e.net)
    case Sending => SendAgent(cfg, w, p.role, p.snap.value, p.context.value.token, e.now, e.net)
    case MarkingSent => MarkAgent(w, p.role, e.now, e.net)
    case LoggingReply => LogAgent(w, p.role, e.now, e.net)
    case ReadingForResolve => Resolve(w, p.role.target, p.role.channel, Some(p.role.email), e.net)
    case WritingResolve => WriteResolve(w, p.role.target, p.role.channel, Some(p.role.email), e.net)
    case Releasing => Released(w, RefOf(p), p.sent, e.net)
    case Ended(outcome) => Done(w, outcome)
  }

  /** What remains of an echo. */
  function RestOfEcho(cfg: Config, w: World, p: Proc, e: Setting): Done
    requires Shape(p) && p.role.EchoTask?
  {
    match p.pc
    case Resolving => Echo(cfg, w, p.role.msg, e.env.context, e.now, e.nonce, e.net)
    case Finding =>
      EchoWith(GetOrCreate(cfg, w, p.role.msg, p.context.value.brand, e.now, e.nonce, e.net), p.role.msg, e.now, e.net)
    case Creating =>
      EchoWith(Create(cfg, w, p.role.msg, p.context.value.brand, e.now, e.nonce, e.net), p.role.msg, e.now, e.net)
    case Touching => EchoOn(w, p.conv.value, p.role.msg, e.now, e.net)
    case Checking => LogEcho(w, p.conv.value, p.role.msg.text, e.now, e.net)
    case LoggingEcho => LogFoundEcho(w, p.conv.value, p.role.msg.text, e.now, e.net)
    case ReadingForResolve => Resolve(w, p.conv.value, ECHO_CHANNEL, None, e.net)
    case WritingResolve => WriteResolve(w, p.conv.value, ECHO_CHANNEL, None, e.net)
    case Ended(outcome) => Done(w, outcome)
  }

  /** What remains of an out-of-band resolve. */
  function RestOfResolve(w: World, p: Proc, net: Net): Done
    requires Shape(p) && p.role.ResolveOnly?
  {
    match p.pc
    case Checking => ResolveByHand(w, p.conv.value, p.role.email, net)
    case ReadingForResolve => Resolve(w, p.conv.value, "manual", Some(p.role.email), net)
    case WritingResolve => WriteResolve(w, p.conv.value, "manual", Some(p.role.email), net)
    case Ended(outcome) => Done(w, outcome)
  }

  function Rest(cfg: Config, x: Alone, e: Setting): Done
    requires Shape(x.p) && !x.p.role.PurgeJob?
  {
    match x.p.role
    case Attempt(_, _) => RestOfAttempt(cfg, x.w, x.p, e)
    case AgentReply(_, _, _, _, _, _) => RestOfReply(cfg, x.w, x.p, e)
    case EchoTask(_) => RestOfEcho(cfg, x.w, x.p, e)
    case ResolveOnly(_, _) => RestOfResolve(x.w, x.p, e.net)
    case CloseRequest(c) => if x.p.pc == Closing then Shut(x.w, c, e.net) else Done(x.w, x.p.pc.outcome)
  }

  predicate Keeps(cfg: Config, x: Alone, y: Alone, e: Setting)
    requires OnTrack(x.p, e.now) && !x.p.role.PurgeJob?
  {
    && OnTrack(y.p, e.now)
    && y.p.role == x.p.role
    && Remaining(y.p.pc) < Remaining(x.p.pc)
    && Rest(cfg, x, e) == Rest(cfg, y, e)
  }

  lemma AttemptBegins(cfg: Config, x: Alone, e: Setting)
    requires OnTrack(x.p, e.now) && x.p.role.Attempt?
    requires x.p.pc == Resolving
    requires e.net(x.p.pc) == Returns
    ensures Keeps(cfg, x, Move(cfg, x, e), e)
  {
  }

  lemma AttemptIsDuplicate(cfg: Config, x: Alone, e: Setting)
    requires OnTrack(x.p, e.now) && x.p.role.Attempt?
    requires x.p.pc == Claiming
    requires RefOf(x.p) in x.w.claims
    requires e.net(x.p.pc) == Returns
    ensures Keeps(cfg, x, Move(cfg, x, e), e)
  {
  }

  lemma AttemptClaims(cfg: Config, x: Alone, e: Setting)
    requires OnTrack(x.p, e.now) && x.p.role.Attempt?
    requires x.p.pc == Claiming
    requires RefOf(x.p) !in x.w.claims
    requires e.net(x.p.pc) == Returns
    ensures Keeps(cfg, x, Move(cfg, x, e), e)
  {
  }

  lemma AttemptFinds(cfg: Config, x: Alone, e: Setting)
    requires OnTrack(x.p, e.now) && x.p.role.Attempt?
    requires x.p.pc == Finding
    requires e.net(x.p.pc) == Returns
    ensures Keeps(cfg, x, Move(cfg, x, e), e)
  {
  }

  lemma AttemptCreates(cfg: Config, x: Alone, e: Setting)
    requires OnTrack(x.p, e.now) && x.p.role.Attempt?
    requires x.p.pc == Creating
    requires e.net(x.p.pc) == Returns
    ensures Keeps(cfg, x, Move(cfg, x, e), e)
  {
  }

  lemma AttemptTouches(cfg: Config, x: Alone, e: Setting)
    requires OnTrack(x.p, e.now) && x.p.role.Attempt?
    requires x.p.pc == Touching
    requires e.net(x.p.pc) == Returns
    ensures Keeps(cfg, x, Move(cfg, x, e), e)
  {
  }

  lemma AttemptStaysQuiet(cfg: Config, x: Alone, e: Setting)
    requires OnTrack(x.p, e.now) && x.p.role.Attempt?
    requires x.p.pc == LoggingInbound
    requires x.p.snap.value.state == Escalated
    requires e.net(x.p.pc) == Returns
    ensures Keeps(cfg, x, Move(cfg, x, e), e)
  {
  }

  lemma AttemptListens(cfg: Config, x: Alone, e: Setting)
    requires OnTrack(x.p, e.now) && x.p.role.Attempt?
    requires x.p.pc == LoggingInbound
    requires x.p.snap.value.state != Escalated
    requires e.net(x.p.pc) == Returns
    ensures Keeps(cfg, x, Move(cfg, x, e), e)
  {
  }

  lemma AttemptAnswers(cfg: Config, x: Alone, e: Setting)
    requires OnTrack(x.p, e.now) && x.p.role.Attempt?
    requires x.p.pc == Answering
    requires e.net(x.p.pc) == Returns
    ensures Keeps(cfg, x, Move(cfg, x, e), e)
  {
  }

  lemma AttemptSends(cfg: Config, x: Alone, e: Setting)
    requires OnTrack(x.p, e.now) && x.p.role.Attempt?
    requires x.p.pc == Sending
    requires e.net(x.p.pc) == Returns
    ensures Keeps(cfg, x, Move(cfg, x, e), e)
  {
  }

  lemma AttemptLogs(cfg: Config, x: Alone, e: Setting)
    requires OnTrack(x.p, e.now) && x.p.role.Attempt?
    requires x.p.pc == LoggingReply
    requires e.net(x.p.pc) == Returns
    ensures Keeps(cfg, x, Move(cfg, x, e), e)
  {
  }

  lemma AttemptEscalates(cfg: Config, x: Alone, e: Setting)
    requires OnTrack(x.p, e.now) && x.p.role.Attempt?
    requires x.p.pc == Escalating
    requires e.net(x.p.pc) == Returns
    ensures Keeps(cfg, x, Move(cfg, x, e), e)
  {
  }

  lemma AttemptAlerts(cfg: Config, x: Alone, e: Setting)
    requires OnTrack(x.p, e.now) && x.p.role.Attempt?
    requires x.p.pc == Notifying
    requires e.net(x.p.pc) == Returns
    ensures Keeps(cfg, x, Move(cfg, x, e), e)
  {
  }

  lemma AttemptReleases(cfg: Config, x: Alone, e: Setting)
    requires OnTrack(x.p, e.now) && x.p.role.Attempt?
    requires x.p.pc == Releasing
    requires e.net(x.p.pc) == Returns
    ensures Keeps(cfg, x, Move(cfg, x, e), e)
  {
    assert Request(cfg, x.p, e.env, e.nonce) == DeleteClaim(RefOf(x.p), x.p.sent);
    assert Move(cfg, x, e).p.pc == Ended(Raised);
  }

  lemma ReplyBegins(cfg: Config, x: Alone, e: Setting)
    requires OnTrack(x.p, e.now) && x.p.role.AgentReply?
    requires x.p.pc == CheckingClaim
    requires e.net(x.p.pc) == Returns
    ensures Keeps(cfg, x, Move(cfg, x, e), e)
  {
  }

  lemma ReplyRepeats(cfg: Config, x: Alone, e: Setting)
    requires OnTrack(x.p, e.now) && x.p.role.AgentReply?
    requires x.p.pc == Rereading
    requires e.net(x.p.pc) == Returns
    ensures Keeps(cfg, x, Move(cfg, x, e), e)
  {
    assert Request(cfg, x.p, e.env, e.nonce) == FindById(x.p.conv.value);
    assert Move(cfg, x, e).w == x.w;
  }

  lemma ReplyReads(cfg: Config, x: Alone, e: Setting)
    requires OnTrack(x.p, e.now) && x.p.role.AgentReply?
    requires x.p.pc == ReadingConv
    requires e.net(x.p.pc) == Returns
    ensures Keeps(cfg, x, Move(cfg, x, e), e)
  {
    assert Request(cfg, x.p, e.env, e.nonce) == FindById(x.p.conv.value);
    assert Move(cfg, x, e).w == x.w;
  }

  lemma ReplyLosesRace(cfg: Config, x: Alone, e: Setting)
    requires OnTrack(x.p, e.now) && x.p.role.AgentReply? && x.p.pc == Claiming
    requires Reply(x.p.role.key) in x.w.claims
    requires e.net(x.p.pc) == Returns
    ensures Keeps(cfg, x, Move(cfg, x, e), e)
  {
  }

  lemma ReplyClaimsInVain(cfg: Config, x: Alone, e: Setting)
    requires OnTrack(x.p, e.now) && x.p.role.AgentReply? && x.p.pc == Claiming
    requires Reply(x.p.role.key) !in x.w.claims && x.p.snap.value.phoneEncrypted.None?
    requires e.net(x.p.pc) == Returns
    ensures Keeps(cfg, x, Move(cfg, x, e), e)
  {
  }

  lemma ReplyClaims(cfg: Config, x: Alone, e: Setting)
    requires OnTrack(x.p, e.now) && x.p.role.AgentReply? && x.p.pc == Claiming
    requires Reply(x.p.role.key) !in x.w.claims && x.p.snap.value.phoneEncrypted.Some?
    requires e.net(x.p.pc) == Returns
    ensures Keeps(cfg, x, Move(cfg, x, e), e)
  {
  }

  lemma ReplyAddresses(cfg: Config, x: Alone, e: Setting)
    requires OnTrack(x.p, e.now) && x.p.role.AgentReply?
    requires x.p.pc == ReadingRegistry
    requires e.net(x.p.pc) == Returns
    ensures Keeps(cfg, x, Move(cfg, x, e), e)
  {
  }

  lemma ReplySends(cfg: Config, x: Alone, e: Setting)
    requires OnTrack(x.p, e.now) && x.p.role.AgentReply?
    requires x.p.pc == Sending
    requires e.net(x.p.pc) == Returns
    ensures Keeps(cfg, x, Move(cfg, x, e), e)
  {
  }

  lemma ReplyMarks(cfg: Config, x: Alone, e: Setting)
    requires OnTrack(x.p, e.now) && x.p.role.AgentReply?
    requires x.p.pc == MarkingSent
    requires e.net(x.p.pc) == Returns
    ensures Keeps(cfg, x, Move(cfg, x, e), e)
  {
  }

  lemma ReplyLogs(cfg: Config, x: Alone, e: Setting)
    requires OnTrack(x.p, e.now) && x.p.role.AgentReply?
    requires x.p.pc == LoggingReply
    requires e.net(x.p.pc) == Returns
    ensures Keeps(cfg, x, Move(cfg, x, e), e)
  {
  }

  lemma ReplyRereads(cfg: Config, x: Alone, e: Setting)
    requires OnTrack(x.p, e.now) && x.p.role.AgentReply?
    requires x.p.pc == ReadingForResolve
    requires e.net(x.p.pc) == Returns
    ensures Keeps(cfg, x, Move(cfg, x, e), e)
  {
    assert Request(cfg, x.p, e.env, e.nonce) == FindById(x.p.conv.value);
    assert Move(cfg, x, e).w == x.w;
  }

  lemma ReplyResolves(cfg: Config, x: Alone, e: Setting)
    requires OnTrack(x.p, e.now) && x.p.role.AgentReply?
    requires x.p.pc == WritingResolve
    requires e.net(x.p.pc) == Returns
    ensures Keeps(cfg, x, Move(cfg, x, e), e)
  {
  }

  lemma ReplyReleases(cfg: Config, x: Alone, e: Setting)
    requires OnTrack(x.p, e.now) && x.p.role.AgentReply?
    requires x.p.pc == Releasing
    requires e.net(x.p.pc) == Returns
    ensures Keeps(cfg, x, Move(cfg, x, e), e)
  {
    assert Request(cfg, x.p, e.env, e.nonce) == DeleteClaim(RefOf(x.p), x.p.sent);
    assert Move(cfg, x, e).p.pc == Ended(Raised);
  }

  lemma EchoBegins(cfg: Config, x: Alone, e: Setting)
    requires OnTrack(x.p, e.now) && x.p.role.EchoTask?
    requires x.p.pc == Resolving
    requires e.net(x.p.pc) == Returns
    ensures Keeps(cfg, x, Move(cfg, x, e), e)
  {
  }

  lemma EchoFinds(cfg: Config, x: Alone, e: Setting)
    requires OnTrack(x.p, e.now) && x.p.role.EchoTask?
    requires x.p.pc == Finding
    requires e.net(x.p.pc) == Returns
    ensures Keeps(cfg, x, Move(cfg, x, e), e)
  {
  }

  /** An echo learns its conversation, or fails to. */
  lemma EchoLearns(p: Proc, op: Op, applied: bool, r: Response, env: Env, now: real)
    requires OnTrack(p, now) && p.role.EchoTask? && p.pc == Creating && op.InsertConv? && (r.Found? || r.Duplicate?)
    ensures var q := After(p, op, applied, r, Returns, env, now);
            && OnTrack(q, now) && q.role == p.role && Remaining(q.pc) < Remaining(p.pc)
            && (if r.Found? then q.pc == Touching && q.conv == Some(r.conv) else q.pc == Ended(Raised))
  {
  }

  /** What the insertion of an echo's conversation leads to. */
  lemma CreationMoves(cfg: Config, x: Alone, e: Setting)
    requires OnTrack(x.p, e.now) && x.p.role.EchoTask? && x.p.pc == Creating && e.net(x.p.pc) == Returns
    ensures var doc := NewConversation(cfg, x.p.role.msg, x.p.context.value.brand, e.now, e.nonce);
            var y := Move(cfg, x, e);
            && OnTrack(y.p, e.now) && y.p.role == x.p.role && Remaining(y.p.pc) < Remaining(x.p.pc)
            && y.w == Perform(x.w, InsertConv(doc))
            && (if Effective(x.w, InsertConv(doc)) then y.p.pc == Touching && y.p.conv == Some(|x.w.convs|)
                else y.p.pc == Ended(Raised))
  {
    var op := Request(cfg, x.p, e.env, e.nonce);
    EchoLearns(x.p, op, Effective(x.w, op), Respond(x.w, op, e.env), e.env, e.now);
  }

  lemma EchoCreates(cfg: Config, x: Alone, e: Setting)
    requires OnTrack(x.p, e.now) && x.p.role.EchoTask?
    requires x.p.pc == Creating
    requires e.net(x.p.pc) == Returns
    ensures Keeps(cfg, x, Move(cfg, x, e), e)
  {
    CreationMoves(cfg, x, e);
  }

  lemma EchoTouches(cfg: Config, x: Alone, e: Setting)
    requires OnTrack(x.p, e.now) && x.p.role.EchoTask?
    requires x.p.pc == Touching
    requires e.net(x.p.pc) == Returns
    ensures Keeps(cfg, x, Move(cfg, x, e), e)
  {
  }

  lemma EchoFindsNothing(cfg: Config, x: Alone, e: Setting)
    requires OnTrack(x.p, e.now) && x.p.role.EchoTask?
    requires x.p.pc == Checking
    requires x.p.conv.value >= |x.w.convs|
    requires e.net(x.p.pc) == Returns
    ensures Keeps(cfg, x, Move(cfg, x, e), e)
  {
  }

  lemma EchoChecks(cfg: Config, x: Alone, e: Setting)
    requires OnTrack(x.p, e.now) && x.p.role.EchoTask?
    requires x.p.pc == Checking
    requires x.p.conv.value < |x.w.convs|
    requires e.net(x.p.pc) == Returns
    ensures Keeps(cfg, x, Move(cfg, x, e), e)
  {
  }

  lemma EchoLogs(cfg: Config, x: Alone, e: Setting)
    requires OnTrack(x.p, e.now) && x.p.role.EchoTask?
    requires x.p.pc == LoggingEcho
    requires e.net(x.p.pc) == Returns
    ensures Keeps(cfg, x, Move(cfg, x, e), e)
  {
  }

  lemma EchoRereads(cfg: Config, x: Alone, e: Setting)
    requires OnTrack(x.p, e.now) && x.p.role.EchoTask?
    requires x.p.pc == ReadingForResolve
    requires e.net(x.p.pc) == Returns
    ensures Keeps(cfg, x, Move(cfg, x, e), e)
  {
    assert Request(cfg, x.p, e.env, e.nonce) == FindById(x.p.conv.value);
    assert Move(cfg, x, e).w == x.w;
  }

  lemma EchoResolves(cfg: Config, x: Alone, e: Setting)
    requires OnTrack(x.p, e.now) && x.p.role.EchoTask?
    requires x.p.pc == WritingResolve
    requires e.net(x.p.pc) == Returns
    ensures Keeps(cfg, x, Move(cfg, x, e), e)
  {
  }

  lemma ResolveChecks(cfg: Config, x: Alone, e: Setting)
    requires OnTrack(x.p, e.now) && x.p.role.ResolveOnly? && x.p.pc == Checking
    requires e.net(x.p.pc) == Returns
    ensures Keeps(cfg, x, Move(cfg, x, e), e)
  {
    assert Request(cfg, x.p, e.env, e.nonce) == FindById(x.p.conv.value);
    assert Move(cfg, x, e).w == x.w;
  }

  lemma ResolveRereads(cfg: Config, x: Alone, e: Setting)
    requires OnTrack(x.p, e.now) && x.p.role.ResolveOnly? && x.p.pc == ReadingForResolve
    requires e.net(x.p.pc) == Returns
    ensures Keeps(cfg, x, Move(cfg, x, e), e)
  {
    assert Request(cfg, x.p, e.env, e.nonce) == FindById(x.p.conv.value);
    assert Move(cfg, x, e).w == x.w;
  }

  lemma ResolveWrites(cfg: Config, x: Alone, e: Setting)
    requires OnTrack(x.p, e.now) && x.p.role.ResolveOnly? && x.p.pc == WritingResolve
    requires e.net(x.p.pc) == Returns
    ensures Keeps(cfg, x, Move(cfg, x, e), e)
  {
  }

  lemma CloseKeeps(cfg: Config, x: Alone, e: Setting)
    requires OnTrack(x.p, e.now) && x.p.role.CloseRequest? && x.p.pc == Closing
    requires e.net(x.p.pc) == Returns
    ensures Keeps(cfg, x, Move(cfg, x, e), e)
  {
  }

  lemma AttemptFailsEarly(cfg: Config, x: Alone, e: Setting)
    requires OnTrack(x.p, e.now) && x.p.role.Attempt? && e.net(x.p.pc) != Returns
    requires x.p.pc == Resolving || x.p.pc == Claiming
    ensures Keeps(cfg, x, Move(cfg, x, e), e)
  {
  }

  lemma AttemptFailsToFind(cfg: Config, x: Alone, e: Setting)
    requires OnTrack(x.p, e.now) && x.p.role.Attempt? && e.net(x.p.pc) != Returns
    requires x.p.pc == Finding || x.p.pc == Creating
    ensures Keeps(cfg, x, Move(cfg, x, e), e)
  {
  }

  lemma AttemptFailsToListen(cfg: Config, x: Alone, e: Setting)
    requires OnTrack(x.p, e.now) && x.p.role.Attempt? && e.net(x.p.pc) != Returns
    requires x.p.pc == Touching || x.p.pc == LoggingInbound || x.p.pc == Answering
    ensures Keeps(cfg, x, Move(cfg, x, e), e)
  {
  }

  lemma AttemptFailsToSend(cfg: Config, x: Alone, e: Setting)
    requires OnTrack(x.p, e.now) && x.p.role.Attempt? && e.net(x.p.pc) != Returns
    requires x.p.pc == Sending
    ensures Keeps(cfg, x, Move(cfg, x, e), e)
  {
  }

  lemma AttemptFailsToLog(cfg: Config, x: Alone, e: Setting)
    requires OnTrack(x.p, e.now) && x.p.role.Attempt? && e.net(x.p.pc) != Returns
    requires x.p.pc == LoggingReply || x.p.pc == Escalating
    ensures Keeps(cfg, x, Move(cfg, x, e), e)
  {
  }

  lemma AttemptFailsToAlert(cfg: Config, x: Alone, e: Setting)
    requires OnTrack(x.p, e.now) && x.p.role.Attempt? && e.net(x.p.pc) != Returns
    requires x.p.pc == Notifying
    ensures Keeps(cfg, x, Move(cfg, x, e), e)
  {
  }

  lemma AttemptFailsToRelease(cfg: Config, x: Alone, e: Setting)
    requires OnTrack(x.p, e.now) && x.p.role.Attempt? && e.net(x.p.pc) != Returns
    requires x.p.pc == Releasing
    ensures Keeps(cfg, x, Move(cfg, x, e), e)
  {
  }

  lemma ReplyFailsToRead(cfg: Config, x: Alone, e: Setting)
    requires OnTrack(x.p, e.now) && x.p.role.AgentReply? && e.net(x.p.pc) != Returns
    requires x.p.pc == CheckingClaim || x.p.pc == Rereading || x.p.pc == ReadingConv
    ensures Keeps(cfg, x, Move(cfg, x, e), e)
  {
  }

  lemma ReplyFailsToClaim(cfg: Config, x: Alone, e: Setting)
    requires OnTrack(x.p, e.now) && x.p.role.AgentReply? && e.net(x.p.pc) != Returns
    requires x.p.pc == Claiming
    ensures Keeps(cfg, x, Move(cfg, x, e), e)
  {
  }

  lemma ReplyFailsToAddress(cfg: Config, x: Alone, e: Setting)
    requires OnTrack(x.p, e.now) && x.p.role.AgentReply? && e.net(x.p.pc) != Returns
    requires x.p.pc == ReadingRegistry
    ensures Keeps(cfg, x, Move(cfg, x, e), e)
  {
  }

  lemma ReplyFailsToSend(cfg: Config, x: Alone, e: Setting)
    requires OnTrack(x.p, e.now) && x.p.role.AgentReply? && e.net(x.p.pc) != Returns
    requires x.p.pc == Sending
    ensures Keeps(cfg, x, Move(cfg, x, e), e)
  {
  }

  lemma ReplyFailsToMark(cfg: Config, x: Alone, e: Setting)
    requires OnTrack(x.p, e.now) && x.p.role.AgentReply? && e.net(x.p.pc) != Returns
    requires x.p.pc == MarkingSent
    ensures Keeps(cfg, x, Move(cfg, x, e), e)
  {
  }

  lemma ReplyFailsToLog(cfg: Config, x: Alone, e: Setting)
    requires OnTrack(x.p, e.now) && x.p.role.AgentReply? && e.net(x.p.pc) != Returns
    requires x.p.pc == LoggingReply
    ensures Keeps(cfg, x, Move(cfg, x, e), e)
  {
  }

  lemma ReplyFailsToResolve(cfg: Config, x: Alone, e: Setting)
    requires OnTrack(x.p, e.now) && x.p.role.AgentReply? && e.net(x.p.pc) != Returns
    requires x.p.pc == ReadingForResolve || x.p.pc == WritingResolve
    ensures Keeps(cfg, x, Move(cfg, x, e), e)
  {
  }

  lemma ReplyFailsToRelease(cfg: Config, x: Alone, e: Setting)
    requires OnTrack(x.p, e.now) && x.p.role.AgentReply? && e.net(x.p.pc) != Returns
    requires x.p.pc == Releasing
    ensures Keeps(cfg, x, Move(cfg, x, e), e)
  {
  }

  lemma EchoFailsToFind(cfg: Config, x: Alone, e: Setting)
    requires OnTrack(x.p, e.now) && x.p.role.EchoTask? && e.net(x.p.pc) != Returns
    requires x.p.pc == Resolving || x.p.pc == Finding || x.p.pc == Creating
    ensures Keeps(cfg, x, Move(cfg, x, e), e)
  {
  }

  lemma EchoFailsToLog(cfg: Config, x: Alone, e: Setting)
    requires OnTrack(x.p, e.now) && x.p.role.EchoTask? && e.net(x.p.pc) != Returns
    requires x.p.pc == Touching || x.p.pc == Checking || x.p.pc == LoggingEcho
    ensures Keeps(cfg, x, Move(cfg, x, e), e)
  {
  }

  lemma EchoFailsToResolve(cfg: Config, x: Alone, e: Setting)
    requires OnTrack(x.p, e.now) && x.p.role.EchoTask? && e.net(x.p.pc) != Returns
    requires x.p.pc == ReadingForResolve || x.p.pc == WritingResolve
    ensures Keeps(cfg, x, Move(cfg, x, e), e)
  {
  }

  lemma ResolveFails(cfg: Config, x: Alone, e: Setting)
    requires OnTrack(x.p, e.now) && x.p.role.ResolveOnly? && e.net(x.p.pc) != Returns
    requires x.p.pc == Checking || x.p.pc == ReadingForResolve || x.p.pc == WritingResolve
    ensures Keeps(cfg, x, Move(cfg, x, e), e)
  {
  }

  lemma CloseFails(cfg: Config, x: Alone, e: Setting)
    requires OnTrack(x.p, e.now) && x.p.role.CloseRequest? && e.net(x.p.pc) != Returns
    requires x.p.pc == Closing
    ensures Keeps(cfg, x, Move(cfg, x, e), e)
  {
  }

  lemma AttemptGoes(cfg: Config, x: Alone, e: Setting)
    requires OnTrack(x.p, e.now) && x.p.role.Attempt? && !x.p.pc.Ended?
    requires e.net(x.p.pc) == Returns
    ensures Keeps(cfg, x, Move(cfg, x, e), e)
  {
    match x.p.pc
    case Resolving => AttemptBegins(cfg, x, e);
    case Claiming =>
      if RefOf(x.p) in x.w.claims {
        AttemptIsDuplicate(cfg, x, e);
      } else {
        AttemptClaims(cfg, x, e);
      }
    case Finding => AttemptFinds(cfg, x, e);
    case Creating => AttemptCreates(cfg, x, e);
    case Touching => AttemptTouches(cfg, x, e);
    case LoggingInbound =>
      if x.p.snap.value.state == Escalated {
        AttemptStaysQuiet(cfg, x, e);
      } else {
        AttemptListens(cfg, x, e);
      }
    case Answering => AttemptAnswers(cfg, x, e);
    case Sending => AttemptSends(cfg, x, e);
    case LoggingReply => AttemptLogs(cfg, x, e);
    case Escalating => AttemptEscalates(cfg, x, e);
    case Notifying => AttemptAlerts(cfg, x, e);
    case Releasing => AttemptReleases(cfg, x, e);
  }

  lemma ReplyGoes(cfg: Config, x: Alone, e: Setting)
    requires OnTrack(x.p, e.now) && x.p.role.AgentReply? && !x.p.pc.Ended?
    requires e.net(x.p.pc) == Returns
    ensures Keeps(cfg, x, Move(cfg, x, e), e)
  {
    match x.p.pc
    case Claiming =>
      if Reply(x.p.role.key) in x.w.claims {
        ReplyLosesRace(cfg, x, e);
      } else if x.p.snap.value.phoneEncrypted.None? {
        ReplyClaimsInVain(cfg, x, e);
      } else {
        ReplyClaims(cfg, x, e);
      }
    case ReadingRegistry => ReplyAddresses(cfg, x, e);
    case Sending => ReplySends(cfg, x, e);
    case MarkingSent => ReplyMarks(cfg, x, e);
    case LoggingReply => ReplyLogs(cfg, x, e);
    case ReadingForResolve => ReplyRereads(cfg, x, e);
    case WritingResolve => ReplyResolves(cfg, x, e);
    case Releasing => ReplyReleases(cfg, x, e);
    case CheckingClaim => ReplyBegins(cfg, x, e);
    case Rereading => ReplyRepeats(cfg, x, e);
    case ReadingConv => ReplyReads(cfg, x, e);
  }

  lemma EchoGoes(cfg: Config, x: Alone, e: Setting)
    requires OnTrack(x.p, e.now) && x.p.role.EchoTask? && !x.p.pc.Ended?
    requires e.net(x.p.pc) == Returns
    ensures Keeps(cfg, x, Move(cfg, x, e), e)
  {
    match x.p.pc
    case Resolving => EchoBegins(cfg, x, e);
    case Finding => EchoFinds(cfg, x, e);
    case Creating => EchoCreates(cfg, x, e);
    case Touching => EchoTouches(cfg, x, e);
    case Checking =>
      if x.p.conv.value >= |x.w.convs| {
        EchoFindsNothing(cfg, x, e);
      } else {
        EchoChecks(cfg, x, e);
      }
    case LoggingEcho => EchoLogs(cfg, x, e);
    case ReadingForResolve => EchoRereads(cfg, x, e);
    case WritingResolve => EchoResolves(cfg, x, e);
  }

  lemma ResolveGoes(cfg: Config, x: Alone, e: Setting)
    requires OnTrack(x.p, e.now) && x.p.role.ResolveOnly? && !x.p.pc.Ended?
    requires e.net(x.p.pc) == Returns
    ensures Keeps(cfg, x, Move(cfg, x, e), e)
  {
    match x.p.pc
    case Checking => ResolveChecks(cfg, x, e);
    case ReadingForResolve => ResolveRereads(cfg, x, e);
    case WritingResolve => ResolveWrites(cfg, x, e);
  }

  lemma AttemptRaises(cfg: Config, x: Alone, e: Setting)
    requires OnTrack(x.p, e.now) && x.p.role.Attempt? && !x.p.pc.Ended? && e.net(x.p.pc) != Returns
    ensures Keeps(cfg, x, Move(cfg, x, e), e)
  {
    match x.p.pc
    case Resolving => AttemptFailsEarly(cfg, x, e);
    case Claiming => AttemptFailsEarly(cfg, x, e);
    case Finding => AttemptFailsToFind(cfg, x, e);
    case Creating => AttemptFailsToFind(cfg, x, e);
    case Sending => AttemptFailsToSend(cfg, x, e);
    case LoggingReply => AttemptFailsToLog(cfg, x, e);
    case Escalating => AttemptFailsToLog(cfg, x, e);
    case Notifying => AttemptFailsToAlert(cfg, x, e);
    case Releasing => AttemptFailsToRelease(cfg, x, e);
    case _ => AttemptFailsToListen(cfg, x, e);
  }

  lemma ReplyRaises(cfg: Config, x: Alone, e: Setting)
    requires OnTrack(x.p, e.now) && x.p.role.AgentReply? && !x.p.pc.Ended? && e.net(x.p.pc) != Returns
    ensures Keeps(cfg, x, Move(cfg, x, e), e)
  {
    match x.p.pc
    case Claiming => ReplyFailsToClaim(cfg, x, e);
    case ReadingRegistry => ReplyFailsToAddress(cfg, x, e);
    case Sending => ReplyFailsToSend(cfg, x, e);
    case MarkingSent => ReplyFailsToMark(cfg, x, e);
    case LoggingReply => ReplyFailsToLog(cfg, x, e);
    case ReadingForResolve => ReplyFailsToResolve(cfg, x, e);
    case WritingResolve => ReplyFailsToResolve(cfg, x, e);
    case Releasing => ReplyFailsToRelease(cfg, x, e);
    case _ => ReplyFailsToRead(cfg, x, e);
  }

  lemma EchoRaises(cfg: Config, x: Alone, e: Setting)
    requires OnTrack(x.p, e.now) && x.p.role.EchoTask? && !x.p.pc.Ended? && e.net(x.p.pc) != Returns
    ensures Keeps(cfg, x, Move(cfg, x, e), e)
  {
    match x.p.pc
    case ReadingForResolve => EchoFailsToResolve(cfg, x, e);
    case WritingResolve => EchoFailsToResolve(cfg, x, e);
    case Touching => EchoFailsToLog(cfg, x, e);
    case Checking => EchoFailsToLog(cfg, x, e);
    case LoggingEcho => EchoFailsToLog(cfg, x, e);
    case _ => EchoFailsToFind(cfg, x, e);
  }

  lemma MoveReturns(cfg: Config, x: Alone, e: Setting)
    requires OnTrack(x.p, e.now) && !x.p.role.PurgeJob? && !x.p.pc.Ended? && e.net(x.p.pc) == Returns
    ensures Keeps(cfg, x, Move(cfg, x, e), e)
  {
    match x.p.role
    case Attempt(_, _) => AttemptGoes(cfg, x, e);
    case AgentReply(_, _, _, _, _, _) => ReplyGoes(cfg, x, e);
    case EchoTask(_) => EchoGoes(cfg, x, e);
    case ResolveOnly(_, _) => ResolveGoes(cfg, x, e);
    case CloseRequest(_) => CloseKeeps(cfg, x, e);
  }

  lemma MoveRaises(cfg: Config, x: Alone, e: Setting)
    requires OnTrack(x.p, e.now) && !x.p.role.PurgeJob? && !x.p.pc.Ended? && e.net(x.p.pc) != Returns
    ensures Keeps(cfg, x, Move(cfg, x, e), e)
  {
    match x.p.role
    case Attempt(_, _) => AttemptRaises(cfg, x, e);
    case AgentReply(_, _, _, _, _, _) => ReplyRaises(cfg, x, e);
    case EchoTask(_) => EchoRaises(cfg, x, e);
    case ResolveOnly(_, _) => ResolveFails(cfg, x, e);
    case CloseRequest(_) => CloseFails(cfg, x, e);
  }

  lemma MoveKeeps(cfg: Config, x: Alone, e: Setting)
    requires OnTrack(x.p, e.now) && !x.p.role.PurgeJob? && !x.p.pc.Ended?
    ensures Keeps(cfg, x, Move(cfg, x, e), e)
  {
    if e.net(x.p.pc) == Returns {
      MoveReturns(cfg, x, e);
    } else {
      MoveRaises(cfg, x, e);
    }
  }

  /** From any point of any call: left alone, it ends, exactly as its sequential rest says. */
  lemma {:induction false} RunsToItsEnd(cfg: Config, x: Alone, e: Setting, n: nat)
    requires OnTrack(x.p, e.now) && !x.p.role.PurgeJob? && n >= Remaining(x.p.pc)
    ensures var y := Moves(cfg, x, e, n);
            y.p.pc.Ended? && Rest(cfg, x, e) == Done(y.w, y.p.pc.outcome)
    decreases n
  {
    if !x.p.pc.Ended? {
      MoveKeeps(cfg, x, e);
      RunsToItsEnd(cfg, Move(cfg, x, e), e, n - 1);
    }
  }

  /** Each role's call, run alone from its first line. */
  function Call(cfg: Config, w: World, role: Role, e: Setting): Done
    requires !role.PurgeJob?
  {
    match role
    case Attempt(_, msg) => Deliver(cfg, w, msg, e.env.context, e.env.answer, e.now, e.nonce, e.net)
    case EchoTask(msg) => Echo(cfg, w, msg, e.env.context, e.now, e.nonce, e.net)
    case AgentReply(_, _, _, _, _, _) => ReplyTo(cfg, w, role, e.env.context, e.now, e.net)
    case ResolveOnly(c, email) => ResolveByHand(w, c, email, e.net)
    case CloseRequest(c) => Shut(w, c, e.net)
  }

  /** A process that nothing interrupts does what its call does in sequence, and within
      fourteen awaits. */
  lemma AloneIsSequential(cfg: Config, w: World, role: Role, e: Setting)
    requires !role.PurgeJob?
    ensures var y := Moves(cfg, Alone(w, Spawn(role, e.now)), e, LONGEST);
            y.p.pc.Ended? && Call(cfg, w, role, e) == Done(y.w, y.p.pc.outcome)
  {
    RunsToItsEnd(cfg, Alone(w, Spawn(role, e.now)), e, LONGEST);
  }

  /** Moving alone is what the interleaved service does when only one process advances. */
  lemma MoveIsAdvance(cfg: Config, s: Sys, pid: nat, e: Setting)
    requires CanAdvance(s, pid) && e.now == s.clock && e.nonce == pid
    ensures var t := Step(cfg, s, Advance(pid, e.net(s.procs[pid].pc), e.env));
            t.clock == s.clock && t.procs == s.procs[pid := t.procs[pid]]
            && (!t.procs[pid].pc.Ended? ==> t.jobs == s.jobs)
            && Alone(t.w, t.procs[pid]) == Move(cfg, Alone(s.w, s.procs[pid]), e)
            && t.procs[pid].alive
  {
  }

  lemma ReachableStep(cfg: Config, s: Sys, a: Action)
    requires Reachable(cfg, s) && Enabled(cfg, s, a)
    ensures Reachable(cfg, Step(cfg, s, a))
  {
    var states, actions :| IsRun(cfg, states, actions) && states[|actions|] == s;
    RunExtends(cfg, states, actions, a);
    assert (states + [Step(cfg, s, a)])[|actions + [a]|] == Step(cfg, s, a);
  }

  function View(s: Sys, pid: nat): Alone
    requires pid < |s.procs|
  {
    Alone(s.w, s.procs[pid])
  }

  /** One uninterrupted move of one process. */
  lemma Proceed(cfg: Config, s: Sys, pid: nat, e: Setting) returns (t: Sys)
    requires Reachable(cfg, s) && CanAdvance(s, pid) && e.now == s.clock && e.nonce == pid
    ensures Reachable(cfg, t) && t.clock == s.clock
    ensures |t.procs| == |s.procs| && t.procs == s.procs[pid := t.procs[pid]]
    ensures t.procs[pid].alive && (!t.procs[pid].pc.Ended? ==> t.jobs == s.jobs)
    ensures View(t, pid) == Move(cfg, View(s, pid), e)
  {
    var a := Advance(pid, e.net(s.procs[pid].pc), e.env);
    MoveIsAdvance(cfg, s, pid, e);
    ReachableStep(cfg, s, a);
    t := Step(cfg, s, a);
  }

  /** Every sequential call is part of a run. */
  lemma {:induction false} AloneIsARun(cfg: Config, s: Sys, pid: nat, e: Setting, n: nat) returns (t: Sys)
    requires Reachable(cfg, s) && pid < |s.procs| && s.procs[pid].alive
    requires e.now == s.clock && e.nonce == pid
    ensures Reachable(cfg, t) && t.clock == s.clock
    ensures |t.procs| == |s.procs| && t.procs == s.procs[pid := t.procs[pid]]
    ensures View(t, pid) == Moves(cfg, View(s, pid), e, n)
    ensures t.procs[pid].alive && (!t.procs[pid].pc.Ended? ==> t.jobs == s.jobs)
    decreases n
  {
    if n == 0 || s.procs[pid].pc.Ended? || !Shape(s.procs[pid]) {
      t := s;
    } else {
      var next := Proceed(cfg, s, pid, e);
      t := AloneIsARun(cfg, next, pid, e, n - 1);
    }
  }

  /** From every reachable state, every call that is not an attempt can happen then and there. */
  lemma CallHappens(cfg: Config, s: Sys, role: Role, e: Setting) returns (t: Sys)
    requires Reachable(cfg, s) && !role.Attempt? && !role.PurgeJob? && e.now == s.clock && e.nonce == |s.procs|
    ensures Reachable(cfg, t) && t.clock == s.clock && t.w == Call(cfg, s.w, role, e).w
    ensures |t.procs| == |s.procs| + 1 && t.procs[..|s.procs|] == s.procs && t.procs[|s.procs|].pc.Ended?
  {
    ReachableStep(cfg, s, Arrive(role));
    var arrived := Step(cfg, s, Arrive(role));
    t := AloneIsARun(cfg, arrived, |s.procs|, e, LONGEST);
    AloneIsSequential(cfg, s.w, role, e);
    assert t.procs[..|s.procs|] == arrived.procs[..|s.procs|];
  }
}
