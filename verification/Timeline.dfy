/** Whole days of the service with nothing overlapping: a sequence of calls, each run from its
    first line to its last, each with its own way its awaits go. */
module Timeline {
  import opened Options
  import opened Phone
  import opened Records
  import opened Processes
  import opened Sequential

  /** What identifies a conversation: the customer's phone hash and the brand. */
  datatype Key = Key(hash: string, brand: Option<string>)

  /** A registry and a catalogue that do not change: how a business number resolves, which
      connection it has, and what the reply engine answers a brand's question. */
  datatype Fixed = Fixed(
    route: string -> Option<Context>,
    connection: string -> Option<Context>,
    facts: (Option<string>, string) -> Option<string>)

  datatype Event =
    | Customer(msg: Message, now: real, nonce: nat, net: Net)
    | Echoed(msg: Message, now: real, nonce: nat, net: Net)
    | Replied(
        k: Key, body: string, email: string, agentId: string, key: string, channel: string, now: real, net: Net)
    | ByHand(k: Key, email: string, net: Net)
    | ClosedBy(k: Key, net: Net)
    | Retention(cutoff: real)

  /** Where the conversation of a key is, or where it would be inserted. */
  function At(w: World, k: Key): (i: nat)
    ensures i <= |w.convs|
    ensures i < |w.convs| ==> HasKey(w.convs[i], k.hash, k.brand)
  {
    var found := Search(w.convs, k.hash, k.brand);
    if found.Some? then found.value else |w.convs|
  }

  function SenderKey(cfg: Config, msg: Message, context: Context): Key {
    Key(cfg.hash(Normalize(msg.sender)), context.brand)
  }

  function AnswerOf(fx: Fixed, context: Option<Context>, text: string): Option<string> {
    if context.Some? then fx.facts(context.value.brand, text) else None
  }

  function ConnectionOf(fx: Fixed, w: World, c: nat): Option<Context> {
    if c < |w.convs| then fx.connection(w.convs[c].phoneNumberId) else None
  }

  function Do(cfg: Config, fx: Fixed, w: World, e: Event): World {
    match e
    case Customer(msg, now, nonce, net) =>
      var context := fx.route(msg.number);
      Deliver(cfg, w, msg, context, AnswerOf(fx, context, msg.text), now, nonce, net).w
    case Echoed(msg, now, nonce, net) => Echo(cfg, w, msg, fx.route(msg.number), now, nonce, net).w
    case Replied(k, body, email, agentId, key, channel, now, net) =>
      var c := At(w, k);
      ReplyTo(cfg, w, AgentReply(c, body, email, agentId, key, channel), ConnectionOf(fx, w, c), now, net).w
    case ByHand(k, email, net) => ResolveByHand(w, At(w, k), email, net).w
    case ClosedBy(k, net) => Shut(w, At(w, k), net).w
    case Retention(cutoff) => Purged(w, cutoff, |w.convs|)
  }

  function Fold<S, E>(f: (S, E) -> S, s: S, es: seq<E>): S
    decreases |es|
  {
    if es == [] then s else Fold(f, f(s, es[0]), es[1..])
  }

  function Calls(cfg: Config, fx: Fixed): (World, Event) -> World {
    (w: World, e: Event) => Do(cfg, fx, w, e)
  }

  function Run(cfg: Config, fx: Fixed, w: World, events: seq<Event>): World {
    Fold(Calls(cfg, fx), w, events)
  }

  function Filter<E>(keep: E -> bool, es: seq<E>): seq<E> {
    if es == [] then [] else (if keep(es[0]) then [es[0]] else []) + Filter(keep, es[1..])
  }
}
