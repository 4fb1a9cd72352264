/** The deterministic matcher: which of a brand's own facts answers a question, if any. */
module Matcher {
  import opened Options
  import opened Text

  datatype Item = Item(name: string, price: string, description: string, availability: string)
  datatype Area = Area(area: string, fee: string, timeline: string)

  /** A brand's `operational_facts`; an absent fact is an empty one. */
  datatype Facts = Facts(
    catalogue: seq<Item>,
    hours: string,
    deliveryAreas: seq<Area>,
    paymentMethods: seq<string>,
    negotiationPolicy: string,
    returnsPolicy: string)

  datatype Match =
    | CatalogueMatch(item: Item)
    | HoursMatch(hours: string)
    | DeliveryMatch(area: Area)
    | PaymentMatch(methods: string)
    | NegotiationMatch(policy: string)
    | ReturnsMatch(policy: string)

  const STOPWORDS: set<string> := {"a", "an", "the", "and", "or", "of", "for", "to", "plan", "package"}
  const HOURS_KEYWORDS: seq<string> := ["hour", "open", "close", "time"]
  const PAYMENT_KEYWORDS: seq<string> := ["payment", "pay ", "how do i pay", "how can i pay", "accept"]
  const NEGOTIATION_KEYWORDS: seq<string> :=
    ["discount", "negotiat", "lower price", "reduce price", "cheaper", "best price"]
  const RETURNS_KEYWORDS: seq<string> := ["refund", "return", "money back", "cancel"]

  predicate IsSignificant(w: string) {
    |w| >= 3 && w !in STOPWORDS && forall c :: c in w ==> !IsDigit(c)
  }

  function KeepSignificant(words: seq<string>): (r: seq<string>)
    ensures forall w :: w in r <==> w in words && IsSignificant(w)
  {
    if words == [] then []
    else (if IsSignificant(words[0]) then [words[0]] else []) + KeepSignificant(words[1..])
  }

  function SignificantWords(name: string): seq<string> {
    KeepSignificant(Words(Lower(name)))
  }

  predicate AnyOccurs(keywords: seq<string>, q: string) {
    exists i :: 0 <= i < |keywords| && Occurs(keywords[i], q)
  }

  predicate AllOccur(words: seq<string>, q: string) {
    forall i :: 0 <= i < |words| ==> Occurs(words[i], q)
  }

  predicate ItemMatches(name: string, q: string) {
    if Occurs(Lower(name), q) then true
    else
      var words := SignificantWords(name);
      words != [] && AllOccur(words, q)
  }

  predicate Names(item: Item, q: string) {
    item.name != "" && ItemMatches(item.name, q)
  }

  predicate Covers(area: Area, q: string) {
    area.area != "" && Occurs(Lower(area.area), q)
  }

  function FirstItem(items: seq<Item>, q: string): Option<Item> {
    if items == [] then None
    else if Names(items[0], q) then Some(items[0])
    else FirstItem(items[1..], q)
  }

  function FirstArea(areas: seq<Area>, q: string): Option<Area> {
    if areas == [] then None
    else if Covers(areas[0], q) then Some(areas[0])
    else FirstArea(areas[1..], q)
  }

  /** `", ".join(parts)` */
  function Join(parts: seq<string>): string {
    if parts == [] then ""
    else if |parts| == 1 then parts[0]
    else parts[0] + ", " + Join(parts[1..])
  }

  /** One more part comes after a comma and a space. */
  lemma {:induction false} JoinAppend(parts: seq<string>, part: string)
    ensures Join(parts + [part]) == if parts == [] then part else Join(parts) + ", " + part
  {
    if parts == [] {
      assert parts + [part] == [part];
    } else {
      assert (parts + [part])[1..] == parts[1..] + [part];
      JoinAppend(parts[1..], part);
      if |parts| > 1 {
        assert Join(parts) + ", " + part == parts[0] + ", " + (Join(parts[1..]) + ", " + part);
      }
    }
  }

  function FindMatch(question: string, facts: Facts): Option<Match> {
    var q := Lower(question);
    var item := FirstItem(facts.catalogue, q);
    if item.Some? then Some(CatalogueMatch(item.value))
    else if facts.hours != "" && AnyOccurs(HOURS_KEYWORDS, q) then Some(HoursMatch(facts.hours))
    else
      var area := FirstArea(facts.deliveryAreas, q);
      if area.Some? then Some(DeliveryMatch(area.value))
      else if facts.paymentMethods != [] && AnyOccurs(PAYMENT_KEYWORDS, q) then
        Some(PaymentMatch(Join(facts.paymentMethods)))
      else if facts.negotiationPolicy != "" && AnyOccurs(NEGOTIATION_KEYWORDS, q) then
        Some(NegotiationMatch(facts.negotiationPolicy))
      else if facts.returnsPolicy != "" && AnyOccurs(RETURNS_KEYWORDS, q) then
        Some(ReturnsMatch(facts.returnsPolicy))
      else None
  }

  // The reference: every fact has a place in one order of precedence, and the answer is the
  // fact at the least place whose condition the question meets. An item's condition speaks of the
  // maximal runs without white space in its lower-cased name.

  /** A word of at least three characters, without a digit, that is not too common to count. */
  ghost predicate SignificantAt(name: string, i: int, j: int) {
    && WordAt(name, i, j) && j - i >= 3 && (forall k :: i <= k < j ==> !('0' <= name[k] <= '9'))
    && name[i..j] !in {"a", "an", "the", "and", "or", "of", "for", "to", "plan", "package"}
  }

  ghost predicate HasSignificant(name: string) {
    exists i, j :: SignificantAt(name, i, j)
  }

  /** Every significant word of the name occurs in the question. */
  ghost predicate AllAsked(name: string, q: string) {
    forall i, j :: SignificantAt(name, i, j) ==> Occurs(name[i..j], q)
  }

  /** The question asks for the item: its whole name occurs, or it has significant words and they all do. */
  ghost predicate Asked(name: string, q: string) {
    name != "" && (Occurs(Lower(name), q) || (HasSignificant(Lower(name)) && AllAsked(Lower(name), q)))
  }

  /** One of the significant words of the name. */
  ghost predicate HasWord(name: string, w: string) {
    exists i, j :: SignificantAt(name, i, j) && name[i..j] == w
  }

  lemma NoDigits(name: string, i: int, j: int)
    requires 0 <= i < j <= |name|
    ensures (forall c :: c in name[i..j] ==> !IsDigit(c)) <==> (forall k :: i <= k < j ==> !('0' <= name[k] <= '9'))
  {
    if forall c :: c in name[i..j] ==> !IsDigit(c) {
      forall k | i <= k < j ensures !('0' <= name[k] <= '9') {
        assert name[i..j][k - i] == name[k] && name[k] in name[i..j];
      }
    }
  }

  lemma SignificantSlice(name: string, i: int, j: int)
    requires WordAt(name, i, j)
    ensures SignificantAt(name, i, j) <==> IsSignificant(name[i..j])
  {
    NoDigits(name, i, j);
  }

  lemma SignificantAre(name: string, w: string)
    ensures w in KeepSignificant(Words(name)) <==> HasWord(name, w)
  {
    WordsAre(name, w);
    if IsWord(name, w) && IsSignificant(w) {
      var i, j :| WordAt(name, i, j) && name[i..j] == w;
      SignificantSlice(name, i, j);
    }
    if HasWord(name, w) {
      var i, j :| SignificantAt(name, i, j) && name[i..j] == w;
      SignificantSlice(name, i, j);
    }
  }

  lemma SomeSignificant(name: string)
    ensures KeepSignificant(Words(name)) != [] <==> HasSignificant(name)
  {
    var words := KeepSignificant(Words(name));
    if words != [] {
      assert words[0] in words;
      SignificantAre(name, words[0]);
    }
    if HasSignificant(name) {
      var i, j :| SignificantAt(name, i, j);
      SignificantAre(name, name[i..j]);
      assert name[i..j] in words;
    }
  }

  lemma AllSignificant(name: string, q: string)
    ensures AllOccur(KeepSignificant(Words(name)), q) <==> AllAsked(name, q)
  {
    var words := KeepSignificant(Words(name));
    if AllOccur(words, q) {
      forall i, j | SignificantAt(name, i, j) ensures Occurs(name[i..j], q) {
        SignificantAre(name, name[i..j]);
      }
    }
    if AllAsked(name, q) {
      forall k | 0 <= k < |words| ensures Occurs(words[k], q) {
        SignificantAre(name, words[k]);
      }
    }
  }

  lemma NamesAre(item: Item, q: string)
    ensures Names(item, q) <==> Asked(item.name, q)
  {
    SomeSignificant(Lower(item.name));
    AllSignificant(Lower(item.name), q);
  }

  function Places(facts: Facts): nat {
    |facts.catalogue| + 1 + |facts.deliveryAreas| + 3
  }

  ghost predicate Fires(facts: Facts, q: string, p: nat)
    requires p < Places(facts)
  {
    var c, d := |facts.catalogue|, |facts.deliveryAreas|;
    if p < c then Asked(facts.catalogue[p].name, q)
    else if p == c then
      facts.hours != "" && (Occurs("hour", q) || Occurs("open", q) || Occurs("close", q) || Occurs("time", q))
    else if p < c + 1 + d then
      facts.deliveryAreas[p - c - 1].area != "" && Occurs(Lower(facts.deliveryAreas[p - c - 1].area), q)
    else if p == c + 1 + d then
      && facts.paymentMethods != []
      && (Occurs("payment", q) || Occurs("pay ", q) || Occurs("how do i pay", q) || Occurs("how can i pay", q)
          || Occurs("accept", q))
    else if p == c + 2 + d then
      && facts.negotiationPolicy != ""
      && (Occurs("discount", q) || Occurs("negotiat", q) || Occurs("lower price", q) || Occurs("reduce price", q)
          || Occurs("cheaper", q) || Occurs("best price", q))
    else
      && facts.returnsPolicy != ""
      && (Occurs("refund", q) || Occurs("return", q) || Occurs("money back", q) || Occurs("cancel", q))
  }

  function FactAt(facts: Facts, p: nat): Match
    requires p < Places(facts)
  {
    var c, d := |facts.catalogue|, |facts.deliveryAreas|;
    if p < c then CatalogueMatch(facts.catalogue[p])
    else if p == c then HoursMatch(facts.hours)
    else if p < c + 1 + d then DeliveryMatch(facts.deliveryAreas[p - c - 1])
    else if p == c + 1 + d then PaymentMatch(Join(facts.paymentMethods))
    else if p == c + 2 + d then NegotiationMatch(facts.negotiationPolicy)
    else ReturnsMatch(facts.returnsPolicy)
  }

  ghost predicate FirstAt(facts: Facts, q: string, p: nat) {
    p < Places(facts) && Fires(facts, q, p) && forall k: nat :: k < p ==> !Fires(facts, q, k)
  }

  lemma {:induction false} FirstItemIs(items: seq<Item>, q: string)
    ensures FirstItem(items, q).None? <==> forall i :: 0 <= i < |items| ==> !Names(items[i], q)
    ensures FirstItem(items, q).Some? ==>
              exists i :: 0 <= i < |items| && Names(items[i], q) && FirstItem(items, q) == Some(items[i])
                          && forall k :: 0 <= k < i ==> !Names(items[k], q)
  {
    if items != [] && !Names(items[0], q) {
      FirstItemIs(items[1..], q);
      assert forall i :: 1 <= i < |items| ==> items[i] == items[1..][i - 1];
      if FirstItem(items, q).Some? {
        var i :| 0 <= i < |items[1..]| && Names(items[1..][i], q) && FirstItem(items[1..], q) == Some(items[1..][i])
                 && forall k :: 0 <= k < i ==> !Names(items[1..][k], q);
        assert items[i + 1] == items[1..][i];
        forall k | 0 <= k < i + 1 ensures !Names(items[k], q) {
          if k > 0 { assert items[k] == items[1..][k - 1]; }
        }
      }
    }
  }

  lemma {:induction false} FirstAreaIs(areas: seq<Area>, q: string)
    ensures FirstArea(areas, q).None? <==> forall i :: 0 <= i < |areas| ==> !Covers(areas[i], q)
    ensures FirstArea(areas, q).Some? ==>
              exists i :: 0 <= i < |areas| && Covers(areas[i], q) && FirstArea(areas, q) == Some(areas[i])
                          && forall k :: 0 <= k < i ==> !Covers(areas[k], q)
  {
    if areas != [] && !Covers(areas[0], q) {
      FirstAreaIs(areas[1..], q);
      assert forall i :: 1 <= i < |areas| ==> areas[i] == areas[1..][i - 1];
      if FirstArea(areas, q).Some? {
        var i :| 0 <= i < |areas[1..]| && Covers(areas[1..][i], q) && FirstArea(areas[1..], q) == Some(areas[1..][i])
                 && forall k :: 0 <= k < i ==> !Covers(areas[1..][k], q);
        assert areas[i + 1] == areas[1..][i];
        forall k | 0 <= k < i + 1 ensures !Covers(areas[k], q) {
          if k > 0 { assert areas[k] == areas[1..][k - 1]; }
        }
      }
    }
  }

  lemma KeywordsAre(q: string)
    ensures AnyOccurs(HOURS_KEYWORDS, q)
       <==> Occurs("hour", q) || Occurs("open", q) || Occurs("close", q) || Occurs("time", q)
    ensures AnyOccurs(PAYMENT_KEYWORDS, q)
       <==> Occurs("payment", q) || Occurs("pay ", q) || Occurs("how do i pay", q) || Occurs("how can i pay", q)
            || Occurs("accept", q)
    ensures AnyOccurs(NEGOTIATION_KEYWORDS, q)
       <==> Occurs("discount", q) || Occurs("negotiat", q) || Occurs("lower price", q) || Occurs("reduce price", q)
            || Occurs("cheaper", q) || Occurs("best price", q)
    ensures AnyOccurs(RETURNS_KEYWORDS, q)
       <==> Occurs("refund", q) || Occurs("return", q) || Occurs("money back", q) || Occurs("cancel", q)
  {
    assert HOURS_KEYWORDS[0] == "hour" && HOURS_KEYWORDS[1] == "open" && HOURS_KEYWORDS[2] == "close"
        && HOURS_KEYWORDS[3] == "time";
    assert PAYMENT_KEYWORDS[0] == "payment" && PAYMENT_KEYWORDS[1] == "pay " && PAYMENT_KEYWORDS[2] == "how do i pay"
        && PAYMENT_KEYWORDS[3] == "how can i pay" && PAYMENT_KEYWORDS[4] == "accept";
    assert NEGOTIATION_KEYWORDS[0] == "discount" && NEGOTIATION_KEYWORDS[1] == "negotiat"
        && NEGOTIATION_KEYWORDS[2] == "lower price" && NEGOTIATION_KEYWORDS[3] == "reduce price"
        && NEGOTIATION_KEYWORDS[4] == "cheaper" && NEGOTIATION_KEYWORDS[5] == "best price";
    assert RETURNS_KEYWORDS[0] == "refund" && RETURNS_KEYWORDS[1] == "return" && RETURNS_KEYWORDS[2] == "money back"
        && RETURNS_KEYWORDS[3] == "cancel";
  }

  /** The code's own conditions, by their places. */
  predicate Meets(facts: Facts, q: string, p: nat)
    requires p < Places(facts)
  {
    var c, d := |facts.catalogue|, |facts.deliveryAreas|;
    if p < c then Names(facts.catalogue[p], q)
    else if p == c then facts.hours != "" && AnyOccurs(HOURS_KEYWORDS, q)
    else if p < c + 1 + d then Covers(facts.deliveryAreas[p - c - 1], q)
    else if p == c + 1 + d then facts.paymentMethods != [] && AnyOccurs(PAYMENT_KEYWORDS, q)
    else if p == c + 2 + d then facts.negotiationPolicy != "" && AnyOccurs(NEGOTIATION_KEYWORDS, q)
    else facts.returnsPolicy != "" && AnyOccurs(RETURNS_KEYWORDS, q)
  }

  lemma MeetsFires(facts: Facts, q: string, p: nat)
    requires p < Places(facts)
    ensures Meets(facts, q, p) <==> Fires(facts, q, p)
  {
    if p < |facts.catalogue| {
      NamesAre(facts.catalogue[p], q);
    } else {
      KeywordsAre(q);
    }
  }

  /** The code's conditions are those of the reference. */
  lemma PlacesAre(facts: Facts, q: string)
    ensures forall p: nat :: p < Places(facts) ==> (Meets(facts, q, p) <==> Fires(facts, q, p))
    ensures var c, d := |facts.catalogue|, |facts.deliveryAreas|;
            && (forall i: nat :: i < c ==> (Fires(facts, q, i) <==> Names(facts.catalogue[i], q)))
            && (forall i: nat :: i < d ==> (Fires(facts, q, c + 1 + i) <==> Covers(facts.deliveryAreas[i], q)))
  {
    forall p: nat | p < Places(facts) ensures Meets(facts, q, p) <==> Fires(facts, q, p) {
      MeetsFires(facts, q, p);
    }
    forall i: nat | i < |facts.catalogue| ensures Fires(facts, q, i) <==> Names(facts.catalogue[i], q) {
      MeetsFires(facts, q, i);
    }
    var c := |facts.catalogue|;
    forall i: nat | i < |facts.deliveryAreas|
      ensures Fires(facts, q, c + 1 + i) <==> Covers(facts.deliveryAreas[i], q)
    {
      MeetsFires(facts, q, c + 1 + i);
    }
  }

  lemma CataloguePlace(question: string, facts: Facts) returns (p: nat)
    requires FirstItem(facts.catalogue, Lower(question)).Some?
    ensures FirstAt(facts, Lower(question), p) && FindMatch(question, facts).value == FactAt(facts, p)
  {
    var q := Lower(question);
    FirstItemIs(facts.catalogue, q);
    p :| 0 <= p < |facts.catalogue| && Names(facts.catalogue[p], q)
         && FirstItem(facts.catalogue, q) == Some(facts.catalogue[p])
         && forall k :: 0 <= k < p ==> !Names(facts.catalogue[k], q);
    PlacesAre(facts, q);
  }

  /** Nothing in the catalogue or in the first `n` delivery areas fires. */
  ghost predicate QuietBefore(facts: Facts, q: string, n: nat) {
    && n <= |facts.deliveryAreas|
    && (forall k: nat :: k < |facts.catalogue| ==> !Names(facts.catalogue[k], q))
    && !(facts.hours != "" && AnyOccurs(HOURS_KEYWORDS, q))
    && (forall k: nat :: k < n ==> !Covers(facts.deliveryAreas[k], q))
  }

  lemma QuietPlaces(facts: Facts, q: string, n: nat)
    requires QuietBefore(facts, q, n)
    ensures forall k: nat :: k < |facts.catalogue| + 1 + n ==> !Fires(facts, q, k)
  {
    PlacesAre(facts, q);
    forall k: nat | k < |facts.catalogue| + 1 + n ensures !Fires(facts, q, k) {
      if k > |facts.catalogue| { assert !Covers(facts.deliveryAreas[k - |facts.catalogue| - 1], q); }
    }
  }

  lemma AreaFirst(facts: Facts, q: string, i: nat)
    requires QuietBefore(facts, q, i) && i < |facts.deliveryAreas| && Covers(facts.deliveryAreas[i], q)
    ensures FirstAt(facts, q, |facts.catalogue| + 1 + i)
  {
    QuietPlaces(facts, q, i);
    PlacesAre(facts, q);
  }

  lemma AreaPlace(question: string, facts: Facts) returns (p: nat)
    requires QuietBefore(facts, Lower(question), 0) && FirstArea(facts.deliveryAreas, Lower(question)).Some?
    ensures FirstAt(facts, Lower(question), p) && FindMatch(question, facts).value == FactAt(facts, p)
  {
    var q := Lower(question);
    FirstItemIs(facts.catalogue, q);
    FirstAreaIs(facts.deliveryAreas, q);
    var i :| 0 <= i < |facts.deliveryAreas| && Covers(facts.deliveryAreas[i], q)
             && FirstArea(facts.deliveryAreas, q) == Some(facts.deliveryAreas[i])
             && forall k :: 0 <= k < i ==> !Covers(facts.deliveryAreas[k], q);
    p := |facts.catalogue| + 1 + i;
    assert FirstAt(facts, q, p) by { AreaFirst(facts, q, i); }
    assert FirstItem(facts.catalogue, q).None?;
    assert FindMatch(question, facts) == Some(DeliveryMatch(facts.deliveryAreas[i]));
  }

  lemma PolicyPlace(question: string, facts: Facts) returns (p: nat)
    requires QuietBefore(facts, Lower(question), |facts.deliveryAreas|) && FindMatch(question, facts).Some?
    ensures FirstAt(facts, Lower(question), p) && FindMatch(question, facts).value == FactAt(facts, p)
  {
    var q, first := Lower(question), |facts.catalogue| + 1 + |facts.deliveryAreas|;
    FirstItemIs(facts.catalogue, q);
    FirstAreaIs(facts.deliveryAreas, q);
    QuietPlaces(facts, q, |facts.deliveryAreas|);
    PlacesAre(facts, q);
    assert Meets(facts, q, first) || Meets(facts, q, first + 1) || Meets(facts, q, first + 2);
    p := if Fires(facts, q, first) then first else if Fires(facts, q, first + 1) then first + 1 else first + 2;
  }

  /** The place of the answer. */
  lemma FirstPlace(question: string, facts: Facts) returns (p: nat)
    requires FindMatch(question, facts).Some?
    ensures FirstAt(facts, Lower(question), p) && FindMatch(question, facts).value == FactAt(facts, p)
  {
    var q := Lower(question);
    FirstItemIs(facts.catalogue, q);
    FirstAreaIs(facts.deliveryAreas, q);
    if FirstItem(facts.catalogue, q).Some? {
      p := CataloguePlace(question, facts);
    } else if facts.hours != "" && AnyOccurs(HOURS_KEYWORDS, q) {
      p := |facts.catalogue|;
      PlacesAre(facts, q);
    } else if FirstArea(facts.deliveryAreas, q).Some? {
      p := AreaPlace(question, facts);
    } else {
      p := PolicyPlace(question, facts);
    }
  }

  /** The matcher answers with the fact of highest precedence whose condition is met, and with
      nothing exactly when no condition is met: it never quotes a fact the brand does not state. */
  lemma MatchIsFirst(question: string, facts: Facts)
    ensures var q, m := Lower(question), FindMatch(question, facts);
            && (m.None? <==> forall p: nat :: p < Places(facts) ==> !Fires(facts, q, p))
            && (m.Some? ==> exists p: nat :: FirstAt(facts, q, p) && m.value == FactAt(facts, p))
  {
    var q := Lower(question);
    if FindMatch(question, facts).Some? {
      var p := FirstPlace(question, facts);
    } else {
      var c := |facts.catalogue|;
      FirstItemIs(facts.catalogue, q);
      FirstAreaIs(facts.deliveryAreas, q);
      PlacesAre(facts, q);
      forall p: nat | p < Places(facts) ensures !Fires(facts, q, p) {
        if c < p < c + 1 + |facts.deliveryAreas| { assert !Covers(facts.deliveryAreas[p - c - 1], q); }
      }
    }
  }

  lemma AskedMonotone(name: string, q: string, longer: string)
    requires Occurs(q, longer) && Asked(name, q)
    ensures Asked(name, longer)
  {
    var l := Lower(name);
    if Occurs(l, q) {
      OccursTransitive(l, q, longer);
    } else {
      forall i, j | SignificantAt(l, i, j) ensures Occurs(l[i..j], longer) {
        OccursTransitive(l[i..j], q, longer);
      }
    }
  }

  lemma AnyMonotone(keywords: seq<string>, q: string, longer: string)
    requires Occurs(q, longer) && AnyOccurs(keywords, q)
    ensures AnyOccurs(keywords, longer)
  {
    var i :| 0 <= i < |keywords| && Occurs(keywords[i], q);
    OccursTransitive(keywords[i], q, longer);
  }

  /** A condition met by a question is met by every question that contains it. */
  lemma FiresMonotone(facts: Facts, q: string, longer: string, p: nat)
    requires Occurs(q, longer) && p < Places(facts) && Fires(facts, q, p)
    ensures Fires(facts, longer, p)
  {
    var c, d := |facts.catalogue|, |facts.deliveryAreas|;
    MeetsFires(facts, q, p);
    MeetsFires(facts, longer, p);
    if p < c {
      AskedMonotone(facts.catalogue[p].name, q, longer);
    } else if p == c {
      AnyMonotone(HOURS_KEYWORDS, q, longer);
    } else if p < c + 1 + d {
      OccursTransitive(Lower(facts.deliveryAreas[p - c - 1].area), q, longer);
    } else if p == c + 1 + d {
      AnyMonotone(PAYMENT_KEYWORDS, q, longer);
    } else if p == c + 2 + d {
      AnyMonotone(NEGOTIATION_KEYWORDS, q, longer);
    } else {
      AnyMonotone(RETURNS_KEYWORDS, q, longer);
    }
  }

  /** Monotone matching: a longer question still matches, at the same place or an earlier one. */
  lemma MatchingIsMonotone(question: string, longer: string, facts: Facts)
    requires Occurs(Lower(question), Lower(longer)) && FindMatch(question, facts).Some?
    ensures FindMatch(longer, facts).Some?
    ensures exists p: nat, p': nat :: p' <= p && FirstAt(facts, Lower(question), p) && FirstAt(facts, Lower(longer), p')
              && FindMatch(question, facts).value == FactAt(facts, p)
              && FindMatch(longer, facts).value == FactAt(facts, p')
  {
    var p := FirstPlace(question, facts);
    FiresMonotone(facts, Lower(question), Lower(longer), p);
    MatchIsFirst(longer, facts);
    var p' := FirstPlace(longer, facts);
  }

  /** Asking exactly for an item by name answers with that item if and only if no earlier item
      claims the name. */
  lemma NamingFindsIt(facts: Facts, i: nat, question: string)
    requires i < |facts.catalogue| && facts.catalogue[i].name != "" && question == Lower(facts.catalogue[i].name)
    ensures FirstAt(facts, Lower(question), i)
       <==> (forall k :: 0 <= k < i ==> !Asked(facts.catalogue[k].name, question))
    ensures FirstAt(facts, Lower(question), i) ==>
              FindMatch(question, facts) == Some(CatalogueMatch(facts.catalogue[i]))
  {
    LowerTwice(facts.catalogue[i].name);
    OccursInItself(question);
    PlacesAre(facts, question);
    assert Fires(facts, question, i);
    assert forall k: nat :: k < i ==> (Fires(facts, question, k) <==> Asked(facts.catalogue[k].name, question));
    MatchIsFirst(question, facts);
    var p := FirstPlace(question, facts);
  }

  lemma LowerTwice(s: string)
    ensures Lower(Lower(s)) == Lower(s)
  {
  }

  /** The verbatim clause decides only names without significant words: an item is asked for exactly
      when all its significant words occur or, having none, its whole name does. */
  lemma VerbatimClauseIsRedundant(name: string, q: string)
    requires name != ""
    ensures Asked(name, q)
       <==> if HasSignificant(Lower(name)) then AllAsked(Lower(name), q) else Occurs(Lower(name), q)
  {
    if Occurs(Lower(name), q) {
      forall i, j | SignificantAt(Lower(name), i, j) ensures Occurs(Lower(name)[i..j], q) {
        SliceOccurs(Lower(name), i, j);
        OccursTransitive(Lower(name)[i..j], Lower(name), q);
      }
    }
  }

  lemma FirstItemMatches(items: seq<Item>, q: string)
    ensures FirstItem(items, q).Some? <==> exists item :: item in items && Names(item, q)
    ensures FirstItem(items, q).Some? ==> FirstItem(items, q).value in items && Names(FirstItem(items, q).value, q)
  {
    FirstItemIs(items, q);
  }

  /** When at most one item answers to a question, the order of the catalogue does not matter. */
  lemma CatalogueOrderIsIrrelevant(question: string, facts: Facts, reordered: seq<Item>)
    requires multiset(reordered) == multiset(facts.catalogue)
    requires forall a, b | a in facts.catalogue && b in facts.catalogue ::
               Asked(a.name, Lower(question)) && Asked(b.name, Lower(question)) ==> a == b
    ensures FindMatch(question, facts.(catalogue := reordered)) == FindMatch(question, facts)
  {
    var q := Lower(question);
    forall item: Item ensures Names(item, q) <==> Asked(item.name, q) { NamesAre(item, q); }
    FirstItemMatches(facts.catalogue, q);
    FirstItemMatches(reordered, q);
    assert forall item :: item in reordered <==> item in multiset(reordered);
    assert forall item :: item in facts.catalogue <==> item in multiset(facts.catalogue);
  }
}
