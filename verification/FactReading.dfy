/** A fact's line can be read back: each detail stands under its own label. */
module FactReading {
  import opened Options
  import opened Text
  import opened Matcher
  import opened ReplyEngine

  /** The line up to the first occurrence of a label, and what follows the label if it occurs. */
  function Cut(line: string, tag: string): (string, Option<string>)
    requires tag != ""
  {
    if tag <= line then ("", Some(line[|tag|..]))
    else if line == "" then ("", None)
    else
      var rest := Cut(line[1..], tag);
      ([line[0]] + rest.0, rest.1)
  }

  /** Its first character does not come again, so that two occurrences never overlap. */
  predicate IsLabel(tag: string) {
    tag != "" && forall k :: 1 <= k < |tag| ==> tag[k] != tag[0]
  }

  lemma TailLacks(tag: string, line: string)
    requires line != "" && !Occurs(tag, line)
    ensures !Occurs(tag, line[1..])
  {
    if Occurs(tag, line[1..]) {
      SliceOccurs(line, 1, |line|);
      assert line[1..|line|] == line[1..];
      OccursTransitive(tag, line[1..], line);
    }
  }

  lemma StartLacks(before: string, tag: string, after: string)
    requires IsLabel(tag) && before != "" && !Occurs(tag, before)
    ensures !(tag <= before + tag + after)
  {
    var line := before + tag + after;
    if |before| >= |tag| {
      assert !OccursAt(tag, before, 0);
      assert before[0..|tag|] == line[..|tag|];
    } else {
      assert line[|before|] == tag[0] != tag[|before|];
    }
  }

  lemma {:induction false} CutAt(before: string, tag: string, after: string)
    requires IsLabel(tag) && !Occurs(tag, before)
    ensures Cut(before + tag + after, tag) == (before, Some(after))
  {
    var line := before + tag + after;
    if before == "" {
      assert line == tag + after;
    } else {
      StartLacks(before, tag, after);
      TailLacks(tag, before);
      CutAt(before[1..], tag, after);
      assert line[1..] == before[1..] + tag + after && [line[0]] + before[1..] == before;
    }
  }

  lemma {:induction false} CutNowhere(line: string, tag: string)
    requires tag != "" && !Occurs(tag, line)
    ensures Cut(line, tag) == (line, None)
  {
    assert !OccursAt(tag, line, 0);
    assert |tag| <= |line| ==> line[0..|tag|] == line[..|tag|];
    if line == "" {
    } else {
      TailLacks(tag, line);
      CutNowhere(line[1..], tag);
      assert [line[0]] + line[1..] == line;
    }
  }

  function After(line: string, prefix: string): string {
    if prefix <= line then line[|prefix|..] else line
  }

  function OrNothing(rest: Option<string>): string {
    if rest.Some? then rest.value else ""
  }

  function WithoutLast(s: string): string {
    if s == "" then "" else s[..|s| - 1]
  }

  /** A catalogue line: the name up to its price, the price up to a comma, the description up to a
      parenthesis, the availability inside it. */
  function ReadItem(line: string): Item {
    var named := Cut(line, ": price ");
    var priced := Cut(OrNothing(named.1), ", ");
    var rest := Cut(if priced.1.Some? then priced.1.value else priced.0, " (");
    var availability := WithoutLast(OrNothing(rest.1));
    if priced.1.Some? then Item(named.0, priced.0, rest.0, availability) else Item(named.0, rest.0, "", availability)
  }

  function ReadArea(line: string): Area {
    var named := Cut(After(line, "Delivery to "), ": fee ");
    var rest := Cut(OrNothing(named.1), ", timeline ");
    Area(named.0, rest.0, OrNothing(rest.1))
  }

  /** The details of a fact of the same kind as `m`, as a line states them. */
  function Read(m: Match, line: string): Match {
    match m
    case CatalogueMatch(_) => CatalogueMatch(ReadItem(line))
    case HoursMatch(_) => HoursMatch(After(line, "Business hours: "))
    case DeliveryMatch(_) => DeliveryMatch(ReadArea(line))
    case PaymentMatch(_) => PaymentMatch(After(line, "Accepted payment methods: "))
    case NegotiationMatch(_) => NegotiationMatch(After(line, "Pricing/negotiation policy: "))
    case ReturnsMatch(_) => ReturnsMatch(After(line, "Returns/refund policy: "))
  }

  /** Prices, fees and timelines that are empty are stated as not listed, nothing else is. */
  function Stated(m: Match): Match {
    match m
    case CatalogueMatch(item) =>
      CatalogueMatch(item.(price := if item.price == "" then "not listed" else item.price))
    case DeliveryMatch(area) =>
      DeliveryMatch(area.(fee := if area.fee == "" then "not listed" else area.fee,
                          timeline := if area.timeline == "" then "not listed" else area.timeline))
    case _ => m
  }

  /** It holds nothing that looks like the punctuation of a catalogue line. */
  predicate Plain(d: string) {
    !Occurs(", ", d) && !Occurs(" (", d) && (d == "" || d[|d| - 1] != ',')
  }

  /** The details do not contain the labels. */
  predicate Readable(m: Match) {
    match m
    case CatalogueMatch(item) =>
      !Occurs(": price ", item.name) && Plain(item.price) && Plain(item.description) && Plain(item.availability)
    case DeliveryMatch(area) => !Occurs(": fee ", area.area) && !Occurs(", timeline ", area.fee)
    case _ => true
  }

  lemma AfterPrefix(prefix: string, rest: string)
    ensures After(prefix + rest, prefix) == rest
  {
  }

  lemma PieceHas(piece: string, whole: string, k: nat)
    requires Occurs(piece, whole) && k < |piece|
    ensures piece[k] in whole
  {
    var j :| OccursAt(piece, whole, j);
    assert whole[j..j + |piece|][k] == whole[j + k];
  }

  lemma Lacks(piece: string, whole: string, k: nat)
    requires k < |piece| && piece[k] !in whole
    ensures !Occurs(piece, whole)
  {
    if Occurs(piece, whole) {
      PieceHas(piece, whole, k);
    }
  }

  lemma AreLabels()
    ensures IsLabel(": price ") && IsLabel(", ") && IsLabel(" (") && IsLabel(": fee ") && IsLabel(", timeline ")
  {
  }

  lemma NamedReadsBack(name: string, fee: string, timeline: string)
    requires !Occurs(": fee ", name) && !Occurs(", timeline ", fee)
    ensures ReadArea("Delivery to " + (name + ": fee " + (fee + ", timeline " + timeline))) == Area(name, fee, timeline)
  {
    AreLabels();
    var rest := fee + ", timeline " + timeline;
    AfterPrefix("Delivery to ", name + ": fee " + rest);
    CutAt(name, ": fee ", rest);
    CutAt(fee, ", timeline ", timeline);
  }

  lemma NotListedLacks()
    ensures !Occurs(", timeline ", "not listed")
  {
    Lacks(", timeline ", "not listed", 0);
  }

  lemma DeliveryLineIs(name: string, fee: string, timeline: string)
    ensures "Delivery to " + name + ": fee " + fee + ", timeline " + timeline
            == "Delivery to " + (name + ": fee " + (fee + ", timeline " + timeline))
  {
  }

  lemma AreaReadsBack(area: Area)
    requires Readable(DeliveryMatch(area))
    ensures DeliveryMatch(ReadArea(FactLine(DeliveryMatch(area)))) == Stated(DeliveryMatch(area))
  {
    var fee := if area.fee == "" then "not listed" else area.fee;
    var timeline := if area.timeline == "" then "not listed" else area.timeline;
    NotListedLacks();
    DeliveryLineIs(area.area, fee, timeline);
    NamedReadsBack(area.area, fee, timeline);
  }

  /** A comma and a space, somewhere in the string. */
  predicate HasComma(s: string) {
    exists j :: 0 <= j < |s| - 1 && s[j] == ',' && s[j + 1] == ' '
  }

  lemma CommaOccurs(s: string)
    ensures HasComma(s) <==> Occurs(", ", s)
  {
    if HasComma(s) {
      var j :| 0 <= j < |s| - 1 && s[j] == ',' && s[j + 1] == ' ';
      assert s[j..j + 2] == ", ";
      assert OccursAt(", ", s, j);
    }
    if Occurs(", ", s) {
      var j :| OccursAt(", ", s, j);
      assert s[j..j + 2][0] == ',' && s[j..j + 2][1] == ' ';
    }
  }

  lemma NoCommaAcross(price: string, availability: string)
    requires Plain(price) && Plain(availability)
    ensures !Occurs(", ", price + " (" + availability + ")")
  {
    var s, n := price + " (" + availability + ")", |price|;
    CommaOccurs(price);
    CommaOccurs(availability);
    CommaOccurs(s);
    assert forall j :: 0 <= j < n ==> s[j] == price[j];
    assert s[n] == ' ' && s[n + 1] == '(' && s[|s| - 1] == ')';
    assert forall j :: n + 2 <= j < |s| - 1 ==> s[j] == availability[j - n - 2];
  }

  /** What follows the price label, read as price, description and availability. */
  lemma TailReadsBack(price: string, description: string, availability: string)
    requires Plain(price) && Plain(description) && Plain(availability)
    ensures var tail := price + (if description != "" then ", " + description else "")
                        + (if availability != "" then " (" + availability + ")" else "");
            var priced := Cut(tail, ", ");
            var rest := Cut(if priced.1.Some? then priced.1.value else priced.0, " (");
            && priced.1.Some? == (description != "") && WithoutLast(OrNothing(rest.1)) == availability
            && (if priced.1.Some? then priced.0 == price && rest.0 == description else rest.0 == price)
  {
    var ending := if availability != "" then " (" + availability + ")" else "";
    AreLabels();
    if description != "" {
      var tail := price + (", " + description) + ending;
      assert tail == price + ", " + (description + ending);
      CutAt(price, ", ", description + ending);
      EndingReadsBack(description, availability);
    } else {
      assert price + "" + ending == price + ending;
      if availability != "" {
        NoCommaAcross(price, availability);
        assert price + ending == price + " (" + availability + ")";
      } else {
        assert price + ending == price;
      }
      CutNowhere(price + ending, ", ");
      EndingReadsBack(price, availability);
    }
  }

  lemma EndingReadsBack(before: string, availability: string)
    requires Plain(before)
    ensures var ending := if availability != "" then " (" + availability + ")" else "";
            var rest := Cut(before + ending, " (");
            rest.0 == before && WithoutLast(OrNothing(rest.1)) == availability
  {
    AreLabels();
    if availability != "" {
      assert before + (" (" + availability + ")") == before + " (" + (availability + ")");
      CutAt(before, " (", availability + ")");
    } else {
      assert before + "" == before;
      CutNowhere(before, " (");
    }
  }

  lemma NotListedIsPlain()
    ensures Plain("not listed")
  {
    var s := "not listed";
    assert '(' !in s && ',' !in s;
    Lacks(", ", s, 0);
    Lacks(" (", s, 1);
  }

  lemma ItemReadsBack(item: Item)
    requires Readable(CatalogueMatch(item))
    ensures CatalogueMatch(ReadItem(FactLine(CatalogueMatch(item)))) == Stated(CatalogueMatch(item))
  {
    var price := if item.price == "" then "not listed" else item.price;
    NotListedIsPlain();
    AreLabels();
    var description := if item.description != "" then ", " + item.description else "";
    var ending := if item.availability != "" then " (" + item.availability + ")" else "";
    var tail := price + description + ending;
    assert FactLine(CatalogueMatch(item)) == item.name + ": price " + tail;
    CutAt(item.name, ": price ", tail);
    TailReadsBack(price, item.description, item.availability);
  }

  /** The raw line states every detail under its own label: whenever the details do not contain the
      labels, reading the line gives the fact back, with an empty price, fee or timeline, and no
      other, as not listed. */
  lemma FactReadsBack(m: Match)
    requires Readable(m)
    ensures Read(m, FactLine(m)) == Stated(m)
  {
    match m {
      case CatalogueMatch(item) => ItemReadsBack(item);
      case DeliveryMatch(area) => AreaReadsBack(area);
      case _ =>
    }
  }
}
