/** Meta redelivers webhooks. A payload whose message id an unfailing call accepted before changes
    nothing, whatever fails in its own processing, so such copies can be struck out of any
    history. */
module Redelivery {
  import opened Options
  import opened Counting
  import opened Phone
  import opened Records
  import opened Processes
  import opened Sequential
  import opened Timeline
  import opened Replies

  /** The message id of a customer payload. */
  function IdOf(e: Event): Option<string> {
    if e.Customer? then Some(e.msg.id) else None
  }

  /** A payload is accepted when its business number is known and nothing raises. */
  ghost predicate Accepts(fx: Fixed, e: Event) {
    e.Customer? && fx.route(e.msg.number).Some? && Calm(e.net)
  }

  /** The history without the payloads whose id was accepted earlier. */
  function FirstCopies<E>(id: E -> Option<string>, accepts: E -> bool, es: seq<E>, seen: set<string>): seq<E>
    decreases |es|
  {
    if es == [] then []
    else if id(es[0]).Some? && id(es[0]).value in seen then FirstCopies(id, accepts, es[1..], seen)
    else
      var also := if id(es[0]).Some? && accepts(es[0]) then seen + {id(es[0]).value} else seen;
      [es[0]] + FirstCopies(id, accepts, es[1..], also)
  }

  /** No event of the list carries one of the ids. */
  predicate Avoids<E>(id: E -> Option<string>, es: seq<E>, seen: set<string>) {
    forall j :: 0 <= j < |es| ==> !(id(es[j]).Some? && id(es[j]).value in seen)
  }

  /** No accepted id comes up again later. */
  predicate AcceptedOnce<E>(id: E -> Option<string>, accepts: E -> bool, es: seq<E>) {
    forall i, j :: 0 <= i < j < |es| && accepts(es[i]) && id(es[i]).Some? ==> id(es[j]) != id(es[i])
  }

  /** What is kept of a history has no id that was seen before it, and no accepted id twice. */
  lemma {:induction false} FirstCopiesOnce<E>(
    id: E -> Option<string>, accepts: E -> bool, es: seq<E>, seen: set<string>)
    ensures var r := FirstCopies(id, accepts, es, seen);
            Avoids(id, r, seen) && AcceptedOnce(id, accepts, r)
    decreases |es|
  {
    if es == [] {
    } else {
      var e, rest := es[0], es[1..];
      if id(e).Some? && id(e).value in seen {
        FirstCopiesOnce(id, accepts, rest, seen);
      } else {
        var also := if id(e).Some? && accepts(e) then seen + {id(e).value} else seen;
        var tail := FirstCopies(id, accepts, rest, also);
        FirstCopiesOnce(id, accepts, rest, also);
        forall i, j | 0 <= i < j < |[e] + tail| && accepts(([e] + tail)[i]) && id(([e] + tail)[i]).Some?
          ensures id(([e] + tail)[j]) != id(([e] + tail)[i])
        {
          assert ([e] + tail)[j] == tail[j - 1];
          assert i > 0 ==> ([e] + tail)[i] == tail[i - 1];
        }
        assert AcceptedOnce(id, accepts, [e] + tail) && Avoids(id, [e] + tail, seen);
      }
    }
  }

  /** At most the claim `ref` has gone. */
  ghost predicate DropsOnly(w: World, y: World, ref: ClaimRef) {
    forall r :: r != ref ==> (r in y.claims <==> r in w.claims)
  }

  /** A step of an attempt that holds its claim: others' claims stay, and its own stays if nothing raises. */
  ghost predicate Guards(w: World, y: World, ref: ClaimRef, net: Net) {
    DropsOnly(w, y, ref) && (Calm(net) ==> y.claims == w.claims)
  }

  lemma ReleaseDropsOnly(w: World, ref: ClaimRef, late: bool, net: Net)
    ensures DropsOnly(w, Released(w, ref, late, net).w, ref)
  {
  }

  lemma LogJaneGuards(
    w: World, msg: Message, inbox: Option<string>, c: nat, answer: Option<string>, now: real, net: Net)
    ensures Guards(w, LogJane(w, msg, inbox, c, answer, now, net).w, Inbound(msg.id), net)
  {
    var logged := AfterCall(w, InsertRow(Row(c, FromJane(answer.None?), JaneBody(answer), now)), net(LoggingReply));
    var escalated := AfterCall(logged, SetEscalated(c, ESCALATION_REASON, now), net(Escalating));
    var notified := AfterCall(escalated, Notify(c, msg.text, ESCALATION_REASON, inbox), net(Notifying));
    assert logged.claims == w.claims && escalated.claims == w.claims && notified.claims == w.claims;
    ReleaseDropsOnly(logged, Inbound(msg.id), true, net);
    ReleaseDropsOnly(escalated, Inbound(msg.id), true, net);
    ReleaseDropsOnly(notified, Inbound(msg.id), true, net);
  }

  lemma AnswerGuards(w: World, msg: Message, context: Context, c: nat, answer: Option<string>, now: real, net: Net)
    ensures Guards(w, Answer(w, msg, context, c, answer, now, net).w, Inbound(msg.id), net)
  {
    var send := Send(c, Jane(msg.id, answer.None?), Addressed(msg.sender), msg.number, context.token, JaneBody(answer));
    var sent := AfterCall(w, send, net(Sending));
    assert sent.claims == w.claims;
    LogJaneGuards(sent, msg, context.inbox, c, answer, now, net);
    ReleaseDropsOnly(sent, Inbound(msg.id), net(Sending) == AppliedButRaised, net);
  }

  lemma ConverseGuards(
    w: World, msg: Message, context: Context, c: nat, doc: Conversation, answer: Option<string>, now: real, net: Net)
    ensures Guards(w, Converse(w, msg, context, c, doc, answer, now, net).w, Inbound(msg.id), net)
  {
    var touched := AfterCall(w, Touch(c, now), net(Touching));
    var logged := AfterCall(touched, InsertRow(Row(c, FromCustomer, msg.text, now)), net(LoggingInbound));
    assert touched.claims == w.claims && logged.claims == w.claims;
    AnswerGuards(logged, msg, context, c, answer, now, net);
    ReleaseDropsOnly(touched, Inbound(msg.id), false, net);
    ReleaseDropsOnly(logged, Inbound(msg.id), false, net);
  }

  lemma GotKeepsClaims(cfg: Config, w: World, msg: Message, brand: Option<string>, now: real, nonce: nat, net: Net)
    ensures GetOrCreate(cfg, w, msg, brand, now, nonce, net).w.claims == w.claims
    ensures Calm(net) ==> GetOrCreate(cfg, w, msg, brand, now, nonce, net).Got?
  {
  }

  lemma AcceptGuards(
    cfg: Config, w: World, msg: Message, context: Context, answer: Option<string>, now: real, nonce: nat, net: Net)
    ensures Guards(w, Accept(cfg, w, msg, context, answer, now, nonce, net).w, Inbound(msg.id), net)
  {
    var got := GetOrCreate(cfg, w, msg, context.brand, now, nonce, net);
    GotKeepsClaims(cfg, w, msg, context.brand, now, nonce, net);
    if got.Got? {
      ConverseGuards(got.w, msg, context, got.conv, got.doc, answer, now, net);
    } else {
      ReleaseDropsOnly(got.w, Inbound(msg.id), false, net);
    }
  }

  /** Processed ids are never forgotten by the processing of a later message, and an accepted
      message's id is processed. */
  lemma DeliverRemembers(
    cfg: Config, w: World, msg: Message, context: Option<Context>, answer: Option<string>, now: real, nonce: nat,
    net: Net, id: string)
    ensures var y := Deliver(cfg, w, msg, context, answer, now, nonce, net).w;
            && (Inbound(id) in w.claims ==> Inbound(id) in y.claims)
            && (context.Some? && Calm(net) && id == msg.id ==> Inbound(id) in y.claims)
  {
    if context.Some? && Inbound(msg.id) !in w.claims {
      AcceptGuards(cfg, AfterCall(w, InsertClaim(Inbound(msg.id), now), net(Claiming)), msg, context.value, answer, now,
                   nonce, net);
    }
  }

  lemma ResolveKeepsClaims(w: World, c: nat, via: string, agent: Option<string>, net: Net)
    ensures Resolve(w, c, via, agent, net).w.claims == w.claims
  {
  }

  lemma LogEchoKeepsClaims(w: World, c: nat, text: string, now: real, net: Net)
    ensures LogEcho(w, c, text, now, net).w.claims == w.claims
  {
    var logged := AfterCall(w, InsertRow(Row(c, FromAgent(ECHO_CHANNEL, None, None), text, now)), net(LoggingEcho));
    ResolveKeepsClaims(logged, c, ECHO_CHANNEL, None, net);
  }

  lemma EchoKeepsClaims(
    cfg: Config, w: World, msg: Message, context: Option<Context>, now: real, nonce: nat, net: Net)
    ensures Echo(cfg, w, msg, context, now, nonce, net).w.claims == w.claims
  {
    if context.Some? {
      var got := GetOrCreate(cfg, w, msg, context.value.brand, now, nonce, net);
      GotKeepsClaims(cfg, w, msg, context.value.brand, now, nonce, net);
      if got.Got? {
        LogEchoKeepsClaims(AfterCall(got.w, Touch(got.conv, now), net(Touching)), got.conv, msg.text, now, net);
      }
    }
  }

  /** An agent's reply never touches the processed message ids. */
  lemma ReplyKeepsInbound(
    cfg: Config, w: World, role: Role, context: Option<Context>, now: real, net: Net, id: string)
    requires role.AgentReply?
    ensures Inbound(id) in w.claims <==> Inbound(id) in ReplyTo(cfg, w, role, context, now, net).w.claims
  {
    OtherClaimsStay(cfg, w, role, context, now, net);
    assert Inbound(id) in w.claims <==> Inbound(id) in w.claims - {Reply(role.key)};
  }

  lemma {:induction false} PurgeKeepsClaims(w: World, cutoff: real, n: nat)
    ensures Purged(w, cutoff, n).claims == w.claims
  {
    if n == 0 {
    } else {
      PurgeKeepsClaims(w, cutoff, n - 1);
    }
  }

  /** No event forgets a processed message id, and an accepted one is processed. */
  lemma IdsAfter(cfg: Config, fx: Fixed, w: World, e: Event, id: string)
    requires Inbound(id) in w.claims || (Accepts(fx, e) && IdOf(e) == Some(id))
    ensures Inbound(id) in Do(cfg, fx, w, e).claims
  {
    match e
    case Customer(msg, now, nonce, net) =>
      var context := fx.route(msg.number);
      DeliverRemembers(cfg, w, msg, context, AnswerOf(fx, context, msg.text), now, nonce, net, id);
    case Echoed(msg, now, nonce, net) => EchoKeepsClaims(cfg, w, msg, fx.route(msg.number), now, nonce, net);
    case Replied(k, body, email, agentId, key, channel, now, net) =>
      var c := At(w, k);
      ReplyKeepsInbound(cfg, w, AgentReply(c, body, email, agentId, key, channel), ConnectionOf(fx, w, c), now, net,
          id);
    case ByHand(k, email, net) => ResolveKeepsClaims(w, At(w, k), "manual", Some(email), net);
    case ClosedBy(_, _) =>
    case Retention(cutoff) => PurgeKeepsClaims(w, cutoff, |w.convs|);
  }

  /** The processing of a processed id does nothing, whatever fails in it. */
  lemma SeenIsIdle(cfg: Config, fx: Fixed, w: World, e: Event)
    requires e.Customer? && Inbound(e.msg.id) in w.claims
    ensures Do(cfg, fx, w, e) == w
  {
  }

  /** A step has the id it accepts and forgets none. */
  ghost predicate Remembers<S(!new), E(!new)>(
    f: (S, E) -> S, id: E -> Option<string>, accepts: E -> bool, has: (S, string) -> bool, t: S, e: E)
  {
    forall x :: has(t, x) || (accepts(e) && id(e) == Some(x)) ==> has(f(t, e), x)
  }

  /** Steps that do nothing once their id has been accepted can be left out of a fold. */
  lemma {:induction false} FoldSkips<S(!new), E(!new)>(
    f: (S, E) -> S, id: E -> Option<string>, accepts: E -> bool, has: (S, string) -> bool,
    s: S, es: seq<E>, seen: set<string>)
    requires forall t, e :: Remembers(f, id, accepts, has, t, e)
    requires forall t, e :: id(e).Some? && has(t, id(e).value) ==> f(t, e) == t
    requires forall x :: x in seen ==> has(s, x)
    ensures Fold(f, s, es) == Fold(f, s, FirstCopies(id, accepts, es, seen))
    decreases |es|
  {
    if es == [] {
    } else {
      var e, rest := es[0], es[1..];
      if id(e).Some? && id(e).value in seen {
        assert f(s, e) == s;
        FoldSkips(f, id, accepts, has, s, rest, seen);
      } else {
        var also := if id(e).Some? && accepts(e) then seen + {id(e).value} else seen;
        assert Remembers(f, id, accepts, has, s, e);
        FoldSkips(f, id, accepts, has, f(s, e), rest, also);
        assert ([e] + FirstCopies(id, accepts, rest, also))[1..] == FirstCopies(id, accepts, rest, also);
      }
    }
  }

  /** Redelivery transparency: documents, rows, claims, sends and notifications are all the same. */
  lemma RedeliveryIsTransparent(cfg: Config, fx: Fixed, w: World, events: seq<Event>, seen: set<string>)
    requires forall id :: id in seen ==> Inbound(id) in w.claims
    ensures Run(cfg, fx, w, events)
            == Run(cfg, fx, w, FirstCopies((e: Event) => IdOf(e), (e: Event) => Accepts(fx, e), events, seen))
  {
    var f, id, accepts := Calls(cfg, fx), (e: Event) => IdOf(e), (e: Event) => Accepts(fx, e);
    var has := (w: World, id: string) => Inbound(id) in w.claims;
    forall t, e ensures Remembers(f, id, accepts, has, t, e) {
      forall x | has(t, x) || (accepts(e) && id(e) == Some(x)) ensures has(f(t, e), x) {
        IdsAfter(cfg, fx, t, e, x);
      }
    }
    forall t, e | id(e).Some? && has(t, id(e).value) ensures f(t, e) == t {
      SeenIsIdle(cfg, fx, t, e);
    }
    FoldSkips(f, id, accepts, has, w, events, seen);
  }

  function IsCustomer(): Row -> bool {
    (row: Row) => row.kind.FromCustomer?
  }

  lemma CountRow(w: World, op: Op, fault: Fault)
    ensures Count(AfterCall(w, op, fault).rows, IsCustomer())
            == Count(w.rows, IsCustomer()) + One(fault != Refused && op.InsertRow? && op.row.kind.FromCustomer?)
  {
    if op.InsertRow? {
      CountAppend(w.rows, op.row, IsCustomer());
    }
  }

  lemma EscalateLogsNothing(w: World, msg: Message, inbox: Option<string>, c: nat, now: real, net: Net)
    ensures Escalate(w, msg, inbox, c, now, net).w.rows == w.rows
  {
    var escalated := AfterCall(w, SetEscalated(c, ESCALATION_REASON, now), net(Escalating));
    assert Alert(escalated, msg, inbox, c, net).w.rows == escalated.rows == w.rows;
  }

  lemma LogJaneLogsNoCustomer(
    w: World, msg: Message, inbox: Option<string>, c: nat, answer: Option<string>, now: real, net: Net)
    ensures Count(LogJane(w, msg, inbox, c, answer, now, net).w.rows, IsCustomer()) == Count(w.rows, IsCustomer())
  {
    var op := InsertRow(Row(c, FromJane(answer.None?), JaneBody(answer), now));
    CountRow(w, op, net(LoggingReply));
    EscalateLogsNothing(AfterCall(w, op, net(LoggingReply)), msg, inbox, c, now, net);
  }

  lemma AnswerLogsNoCustomer(
    w: World, msg: Message, context: Context, c: nat, answer: Option<string>, now: real, net: Net)
    ensures Count(Answer(w, msg, context, c, answer, now, net).w.rows, IsCustomer()) == Count(w.rows, IsCustomer())
  {
    var send := Send(c, Jane(msg.id, answer.None?), Addressed(msg.sender), msg.number, context.token, JaneBody(answer));
    LogJaneLogsNoCustomer(AfterCall(w, send, net(Sending)), msg, context.inbox, c, answer, now, net);
  }

  lemma ConverseLogs(
    w: World, msg: Message, context: Context, c: nat, doc: Conversation, answer: Option<string>, now: real, net: Net)
    ensures Count(Converse(w, msg, context, c, doc, answer, now, net).w.rows, IsCustomer())
            == Count(w.rows, IsCustomer()) + One(net(Touching) == Returns && net(LoggingInbound) != Refused)
  {
    var touched := AfterCall(w, Touch(c, now), net(Touching));
    var op := InsertRow(Row(c, FromCustomer, msg.text, now));
    CountRow(touched, op, net(LoggingInbound));
    AnswerLogsNoCustomer(AfterCall(touched, op, net(LoggingInbound)), msg, context, c, answer, now, net);
  }

  /** The attempt gets as far as logging what the customer said. */
  predicate Logs(cfg: Config, w: World, msg: Message, context: Context, now: real, nonce: nat, net: Net) {
    && net(Resolving) == Returns && net(Claiming) == Returns && Inbound(msg.id) !in w.claims
    && GetOrCreate(cfg, w, msg, context.brand, now, nonce, net).Got?
    && net(Touching) == Returns && net(LoggingInbound) != Refused
  }

  lemma GotIgnoresClaims(
    cfg: Config, w: World, v: World, msg: Message, brand: Option<string>, now: real, nonce: nat, net: Net)
    requires v.convs == w.convs
    ensures var got, alike := GetOrCreate(cfg, w, msg, brand, now, nonce, net),
            GetOrCreate(cfg, v, msg, brand, now, nonce, net);
            got.Got? == alike.Got? && alike.w.rows == v.rows
  {
  }

  lemma DeliverLogs(
    cfg: Config, w: World, msg: Message, context: Context, answer: Option<string>, now: real, nonce: nat, net: Net)
    ensures Count(Deliver(cfg, w, msg, Some(context), answer, now, nonce, net).w.rows, IsCustomer())
            == Count(w.rows, IsCustomer()) + One(Logs(cfg, w, msg, context, now, nonce, net))
  {
    var claimed := AfterCall(w, InsertClaim(Inbound(msg.id), now), net(Claiming));
    GotIgnoresClaims(cfg, w, claimed, msg, context.brand, now, nonce, net);
    var got := GetOrCreate(cfg, claimed, msg, context.brand, now, nonce, net);
    if got.Got? {
      ConverseLogs(got.w, msg, context, got.conv, got.doc, answer, now, net);
    }
  }

  /** An attempt and its retry, each however its awaits go: the customer's message is logged twice
      exactly when each of them gets as far as logging it, and in particular when the first raises
      after that, its release succeeds, and nothing fails in the retry. */
  lemma RetryLogsTheMessageAgain(
    cfg: Config, w: World, msg: Message, context: Context, answer: Option<string>, now: real, nonce: nat, net: Net,
    answer2: Option<string>, later: real, nonce2: nat, net2: Net)
    ensures var first := Deliver(cfg, w, msg, Some(context), answer, now, nonce, net);
            var second := Deliver(cfg, first.w, msg, Some(context), answer2, later, nonce2, net2);
            var before, after := Count(w.rows, IsCustomer()), Count(second.w.rows, IsCustomer());
            && (after == before + 2 <==>
                  Logs(cfg, w, msg, context, now, nonce, net) && Logs(cfg, first.w, msg, context, later, nonce2, net2))
            && (Logs(cfg, w, msg, context, now, nonce, net) && Inbound(msg.id) !in first.w.claims && Calm(net2) ==>
                  after == before + 2)
  {
    var first := Deliver(cfg, w, msg, Some(context), answer, now, nonce, net);
    DeliverLogs(cfg, w, msg, context, answer, now, nonce, net);
    DeliverLogs(cfg, first.w, msg, context, answer2, later, nonce2, net2);
    GotKeepsClaims(cfg, first.w, msg, context.brand, later, nonce2, net2);
  }
}
