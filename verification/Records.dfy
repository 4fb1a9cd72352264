/** The shared MongoDB documents and the single-document operations on them. Every
    operation is atomic; nothing spans two of them. */
module Records {
  import opened Options

  const DAY: real := 86400.0
  const ESCALATION_REASON: string := "No exact match in operational_facts for this question."
  const HOLDING_REPLY: string := "Let me check that and get back to you shortly!"
  const ECHO_CHANNEL: string := "whatsapp_echo"

  datatype ConvState = JaneHandling | Escalated | Closed

  /** A `jane_wa_conversations` document; its `_id` is its position in the collection. */
  datatype Conversation = Conversation(
    phoneHash: string,
    phoneEncrypted: Option<string>,
    phoneNumberId: string,
    brand: Option<string>,
    state: ConvState,
    escalatedReason: Option<string>,
    escalatedAt: Option<real>,
    lastMessageAt: real,
    createdAt: real,
    resolvedVia: Option<string>,
    resolvedBy: Option<string>)

  /** A `jane_wa_messages` document. A Jane row with confidence 0.0 is a holding reply; an
      echo row is an agent row without an agent. */
  datatype RowKind =
    | FromCustomer
    | FromJane(holding: bool)
    | FromAgent(channel: string, agentEmail: Option<string>, agentId: Option<string>)

  datatype Row = Row(conv: nat, kind: RowKind, body: string, at: real)

  /** The two idempotency collections, `jane_wa_processed_messages` keyed by message id and
      `jane_wa_agent_reply_claims` keyed by idempotency key. */
  datatype ClaimRef = Inbound(messageId: string) | Reply(key: string)
  datatype Claim = Claim(createdAt: real, sent: bool)

  /** What `_resolve_client_context` learns about a business number. */
  datatype Context = Context(brand: Option<string>, inbox: Option<string>, token: Option<string>)

  datatype Sender = Jane(messageId: string, holding: bool) | Agent(key: string)

  /** The operations. `Notify` is a `notify_escalation` that does its work: a mail or, for a brand
      without an inbox or a deployment without an SMTP host, a line on the worker's console. */
  datatype Op =
    | LookUp(number: string)
    | ReadFacts(brand: Option<string>, text: string)
    | FindClaim(ref: ClaimRef)
    | InsertClaim(ref: ClaimRef, at: real)
    | MarkSent(ref: ClaimRef)
    | DeleteClaim(ref: ClaimRef, late: bool)
    | ExpireClaim(ref: ClaimRef)
    | FindByKey(hash: string, brand: Option<string>)
    | FindById(conv: nat)
    | InsertConv(doc: Conversation)
    | Touch(conv: nat, at: real)
    | SetEscalated(conv: nat, reason: string, at: real)
    | SetResolved(conv: nat, via: Option<string>, agent: Option<string>)
    | SetClosed(conv: nat)
    | UnsetPhone(conv: nat, cutoff: real)
    | InsertRow(row: Row)
    | Send(conv: nat, sender: Sender, to: string, line: string, token: Option<string>, body: string)
    | Notify(conv: nat, question: string, reason: string, inbox: Option<string>)

  /** The database, together with the log of the operations that took effect. */
  datatype World = World(
    claims: map<ClaimRef, Claim>,
    convs: seq<Conversation>,
    rows: seq<Row>,
    oplog: seq<Op>)

  const EMPTY_WORLD := World(map[], [], [], [])

  predicate HasKey(doc: Conversation, hash: string, brand: Option<string>) {
    doc.phoneHash == hash && doc.brand == brand
  }

  function SearchFrom(convs: seq<Conversation>, hash: string, brand: Option<string>, i: nat): (r: Option<nat>)
    requires i <= |convs|
    ensures r.Some? ==> i <= r.value < |convs| && HasKey(convs[r.value], hash, brand)
                        && forall j :: i <= j < r.value ==> !HasKey(convs[j], hash, brand)
    ensures r.None? ==> forall j :: i <= j < |convs| ==> !HasKey(convs[j], hash, brand)
    decreases |convs| - i
  {
    if i == |convs| then None
    else if HasKey(convs[i], hash, brand) then Some(i)
    else SearchFrom(convs, hash, brand, i + 1)
  }

  /** `find_one({"phone_hash": hash, "brand_id": brand})`: the first match in insertion order. */
  function Search(convs: seq<Conversation>, hash: string, brand: Option<string>): (r: Option<nat>)
    ensures r.Some? ==> r.value < |convs| && HasKey(convs[r.value], hash, brand)
                        && forall j :: 0 <= j < r.value ==> !HasKey(convs[j], hash, brand)
    ensures r.None? ==> forall j :: 0 <= j < |convs| ==> !HasKey(convs[j], hash, brand)
  {
    SearchFrom(convs, hash, brand, 0)
  }

  /** The query of the retention job on one document. */
  predicate Purgeable(doc: Conversation, cutoff: real) {
    doc.state != Escalated && doc.lastMessageAt < cutoff && doc.phoneEncrypted.Some?
  }

  predicate EditsConv(op: Op) {
    op.Touch? || op.SetEscalated? || op.SetResolved? || op.SetClosed? || op.UnsetPhone?
  }

  /** The update one operation makes to one conversation document. */
  function Edit(doc: Conversation, op: Op): Conversation
    requires EditsConv(op)
  {
    match op
    case Touch(_, at) => doc.(lastMessageAt := at)
    case SetEscalated(_, reason, at) =>
      doc.(state := Escalated, escalatedReason := Some(reason), escalatedAt := Some(at))
    case SetResolved(_, via, agent) =>
      doc.(state := JaneHandling, escalatedReason := None,
           resolvedVia := if via.Some? then via else doc.resolvedVia,
           resolvedBy := if agent.Some? then agent else doc.resolvedBy)
    case SetClosed(_) => doc.(state := Closed)
    case UnsetPhone(_, _) => doc.(phoneEncrypted := None)
  }

  /** Whether an operation changes anything: its unique index admits it, or its query matches. */
  predicate Effective(w: World, op: Op) {
    match op
    case InsertClaim(ref, _) => ref !in w.claims
    case MarkSent(ref) => ref in w.claims
    case DeleteClaim(ref, _) => ref in w.claims
    case ExpireClaim(ref) => ref in w.claims
    case InsertConv(doc) => Search(w.convs, doc.phoneHash, doc.brand).None?
    case Touch(c, _) => c < |w.convs|
    case SetEscalated(c, _, _) => c < |w.convs|
    case SetResolved(c, _, _) => c < |w.convs|
    case SetClosed(c) => c < |w.convs| && w.convs[c].state == JaneHandling
    case UnsetPhone(c, cutoff) => c < |w.convs| && Purgeable(w.convs[c], cutoff)
    case InsertRow(_) => true
    case Send(_, _, _, _, _, _) => true
    case Notify(_, _, _, _) => true
    case _ => false
  }

  function Apply(w: World, op: Op): World
    requires Effective(w, op)
  {
    var v :=
      if EditsConv(op) then w.(convs := w.convs[op.conv := Edit(w.convs[op.conv], op)])
      else
        match op
        case InsertClaim(ref, at) => w.(claims := w.claims[ref := Claim(at, false)])
        case MarkSent(ref) => w.(claims := w.claims[ref := w.claims[ref].(sent := true)])
        case DeleteClaim(ref, _) => w.(claims := w.claims - {ref})
        case ExpireClaim(ref) => w.(claims := w.claims - {ref})
        case InsertConv(doc) => w.(convs := w.convs + [doc])
        case InsertRow(row) => w.(rows := w.rows + [row])
        case _ => w;
    v.(oplog := w.oplog + [op])
  }

  /** An operation that matches nothing is not an error in MongoDB. */
  function Perform(w: World, op: Op): World {
    if Effective(w, op) then Apply(w, op) else w
  }

  /** What the environment answers: the registry's context, the reply engine's answer, and
      which document the retention job visits next and whether it is the last. */
  datatype Env = Env(context: Option<Context>, answer: Option<string>, visit: nat, last: bool)

  datatype Response =
    | Ack
    | Duplicate
    | Missing
    | Found(conv: nat, doc: Conversation)
    | ClaimFound(sent: bool)
    | ContextIs(context: Option<Context>)
    | AnswerIs(answer: Option<string>)

  /** What the caller of an operation that does not raise is told. */
  function Respond(w: World, op: Op, env: Env): (r: Response)
    ensures r.Found? ==>
              (r.conv < |w.convs| && r.doc == w.convs[r.conv] && (op.FindByKey? || op.FindById?))
              || (op.InsertConv? && Effective(w, op) && r.conv == |w.convs| && r.doc == op.doc)
  {
    match op
    case LookUp(_) => ContextIs(env.context)
    case ReadFacts(_, _) => AnswerIs(env.answer)
    case FindClaim(ref) => if ref in w.claims then ClaimFound(w.claims[ref].sent) else Missing
    case InsertClaim(ref, _) => if ref in w.claims then Duplicate else Ack
    case FindByKey(hash, brand) =>
      var i := Search(w.convs, hash, brand);
      if i.Some? then Found(i.value, w.convs[i.value]) else Missing
    case FindById(c) => if c < |w.convs| then Found(c, w.convs[c]) else Missing
    case InsertConv(doc) => if Effective(w, op) then Found(|w.convs|, doc) else Duplicate
    case _ => Ack
  }
}
