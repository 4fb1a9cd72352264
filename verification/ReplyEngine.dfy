/** `handle`: match a fact, then phrase it; the raw fact stands in when phrasing fails. */
module ReplyEngine {
  import opened Options
  import opened Text
  import opened Matcher

  datatype ReplyResult = ReplyResult(matched: bool, replyText: string)

  function OrNotListed(s: string): string {
    if s != "" then s else "not listed"
  }

  /** The fact as a line of text. */
  function FactLine(m: Match): string {
    match m
    case CatalogueMatch(item) =>
      item.name + ": price " + OrNotListed(item.price)
      + (if item.description != "" then ", " + item.description else "")
      + (if item.availability != "" then " (" + item.availability + ")" else "")
    case HoursMatch(hours) => "Business hours: " + hours
    case DeliveryMatch(area) =>
      "Delivery to " + area.area + ": fee " + OrNotListed(area.fee) + ", timeline " + OrNotListed(area.timeline)
    case PaymentMatch(methods) => "Accepted payment methods: " + methods
    case NegotiationMatch(policy) => "Pricing/negotiation policy: " + policy
    case ReturnsMatch(policy) => "Returns/refund policy: " + policy
  }

  /** `model` is what the language model returned, none if the call raised. */
  method PhraseFact(m: Match, model: Option<string>) returns (text: string)
    ensures text == if model.Some? then Strip(model.value) else FactLine(m)
  {
    var factLine: string;
    match m {
      case CatalogueMatch(item) =>
        factLine := item.name + ": price " + OrNotListed(item.price);
        if item.description != "" {
          factLine := factLine + (", " + item.description);
        }
        if item.availability != "" {
          factLine := factLine + (" (" + item.availability + ")");
        }
        assert factLine == FactLine(m);
      case HoursMatch(hours) => factLine := "Business hours: " + hours;
      case DeliveryMatch(area) =>
        factLine := "Delivery to " + area.area + ": fee " + OrNotListed(area.fee)
                    + ", timeline " + OrNotListed(area.timeline);
      case PaymentMatch(methods) => factLine := "Accepted payment methods: " + methods;
      case NegotiationMatch(policy) => factLine := "Pricing/negotiation policy: " + policy;
      case ReturnsMatch(policy) => factLine := "Returns/refund policy: " + policy;
    }
    text := if model.Some? then Strip(model.value) else factLine;
  }

  /** What a fact consists of. */
  function Details(m: Match): seq<string> {
    match m
    case CatalogueMatch(item) => [item.name, item.price, item.description, item.availability]
    case HoursMatch(hours) => [hours]
    case DeliveryMatch(area) => [area.area, area.fee, area.timeline]
    case PaymentMatch(methods) => [methods]
    case NegotiationMatch(policy) => [policy]
    case ReturnsMatch(policy) => [policy]
  }

  lemma OccursAround(before: string, piece: string, after: string, whole: string)
    requires whole == before + piece + after
    ensures Occurs(piece, whole)
  {
    ConcatOccurs(before, piece, after);
  }

  /** A detail of one of the three parts of a line is a detail of the line. */
  lemma PartOfLine(first: string, second: string, third: string, d: string)
    requires Occurs(d, first) || Occurs(d, second) || Occurs(d, third)
    ensures Occurs(d, first + second + third)
  {
    var line := first + second + third;
    OccursAround("", first, second + third, line);
    OccursAround(first, second, third, line);
    OccursAround(first + second, third, "", line);
    if Occurs(d, first) {
      OccursTransitive(d, first, line);
    } else if Occurs(d, second) {
      OccursTransitive(d, second, line);
    } else {
      OccursTransitive(d, third, line);
    }
  }

  lemma CatalogueLineComplete(item: Item, d: string)
    requires d in [item.name, item.price, item.description, item.availability]
    ensures Occurs(d, FactLine(CatalogueMatch(item)))
  {
    var priced := item.name + ": price " + OrNotListed(item.price);
    var description := if item.description != "" then ", " + item.description else "";
    var availability := if item.availability != "" then " (" + item.availability + ")" else "";
    if d == "" {
      OccursAround("", "", priced, priced);
    } else if d == item.name {
      OccursAround("", d, ": price " + OrNotListed(item.price), priced);
    } else if d == item.price {
      OccursAround(item.name + ": price ", d, "", priced);
    } else if d == item.description {
      OccursAround(", ", d, "", description);
    } else {
      OccursAround(" (", d, ")", availability);
    }
    PartOfLine(priced, description, availability, d);
  }

  lemma DeliveryLineComplete(area: Area, d: string)
    requires d in [area.area, area.fee, area.timeline]
    ensures Occurs(d, FactLine(DeliveryMatch(area)))
  {
    var line := FactLine(DeliveryMatch(area));
    var fee := "Delivery to " + area.area + ": fee ";
    var timeline := fee + OrNotListed(area.fee) + ", timeline ";
    if d == "" {
      OccursAround("", "", line, line);
    } else if d == area.area {
      OccursAround("Delivery to ", d, ": fee " + OrNotListed(area.fee) + ", timeline " + OrNotListed(area.timeline),
          line);
    } else if d == area.fee {
      OccursAround(fee, d, ", timeline " + OrNotListed(area.timeline), line);
    } else {
      OccursAround(timeline, d, "", line);
    }
  }

  /** Nothing of a fact is lost when the raw line is sent. */
  lemma FallbackStatesTheFact(m: Match, d: string)
    requires d in Details(m)
    ensures Occurs(d, FactLine(m))
  {
    match m {
      case CatalogueMatch(item) => CatalogueLineComplete(item, d);
      case DeliveryMatch(area) => DeliveryLineComplete(area, d);
      case HoursMatch(hours) => OccursAround("Business hours: ", d, "", FactLine(m));
      case PaymentMatch(methods) => OccursAround("Accepted payment methods: ", d, "", FactLine(m));
      case NegotiationMatch(policy) => OccursAround("Pricing/negotiation policy: ", d, "", FactLine(m));
      case ReturnsMatch(policy) => OccursAround("Returns/refund policy: ", d, "", FactLine(m));
    }
  }

  /** A question is answered exactly when some fact's condition is met. With the model down, the
      reply states every detail of the fact of highest precedence. */
  method Handle(question: string, facts: Facts, model: Option<string>) returns (r: ReplyResult)
    ensures r.matched <==> exists p: nat :: p < Places(facts) && Fires(facts, Lower(question), p)
    ensures !r.matched ==> r.replyText == ""
    ensures r.matched && model.Some? ==> r.replyText == Strip(model.value)
    ensures r.matched && model.None? ==>
              exists p: nat :: FirstAt(facts, Lower(question), p) && r.replyText == FactLine(FactAt(facts, p))
                && forall d :: d in Details(FactAt(facts, p)) ==> Occurs(d, r.replyText)
  {
    MatchIsFirst(question, facts);
    var m := FindMatch(question, facts);
    if m.None? {
      return ReplyResult(false, "");
    }
    ghost var p := FirstPlace(question, facts);
    var text := PhraseFact(m.value, model);
    if model.None? {
      forall d | d in Details(FactAt(facts, p)) ensures Occurs(d, text) {
        FallbackStatesTheFact(m.value, d);
      }
    }
    r := ReplyResult(true, text);
  }
}
