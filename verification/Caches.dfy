/** The per-key result caches of `client_registry` and `brand_facts_reader`. */
module Caches {
  import opened Options
  import opened Connections

  const TTL: real := 60.0

  datatype Entry<V> = Entry(value: V, fetchedAt: real)

  /** What a lookup that starts now may take from the cache. */
  function Hit<K(==), V>(entries: map<K, Entry<V>>, key: K, now: real): Option<V> {
    if key in entries && now - entries[key].fetchedAt < TTL then Some(entries[key].value) else None
  }

  /** A lookup that nothing overlaps: what it returns and what it leaves in the cache, the store
      holding `stored` for the key. */
  function LookUpAlone<K(==), V>(entries: map<K, Entry<V>>, key: K, now: real, stored: V): (V, map<K, Entry<V>>) {
    var hit := Hit(entries, key, now);
    if hit.Some? then (hit.value, entries) else (stored, entries[key := Entry(stored, now)])
  }

  /** The registry's first active connection of a number, or none. */
  function ActiveConnection(stored: seq<Connection>, number: string): Option<Connection> {
    var i := FindActive(stored, number);
    if i.Some? then Some(stored[i.value]) else None
  }

  /** `get_client_by_phone_number_id`. Nothing else runs between the miss and the read here;
      overlapping lookups are the subject of the transition system below. */
  class ClientRegistry {
    var cache: map<string, Entry<Option<Connection>>>

    constructor ()
      ensures cache == map[]
    {
      cache := map[];
    }

    method GetClient(number: string, now: real, stored: seq<Connection>) returns (doc: Option<Connection>)
      modifies this
      ensures (doc, cache) == LookUpAlone(old(cache), number, now, ActiveConnection(stored, number))
      ensures number in old(cache) && now - old(cache)[number].fetchedAt < 60.0 ==>
                doc == old(cache)[number].value && cache == old(cache)
      ensures !(number in old(cache) && now - old(cache)[number].fetchedAt < 60.0) ==>
                && cache == old(cache)[number := Entry(doc, now)]
                && (if doc.Some? then exists i: nat :: Decides(stored, number, i) && doc.value == stored[i]
                    else Unconnected(stored, number))
    {
      FindActiveIs(stored, number);
      if number in cache {
        var cached := cache[number];
        if now - cached.fetchedAt < TTL {
          return cached.value;
        }
      }
      var i := 0;
      doc := None;
      while i < |stored|
        invariant 0 <= i <= |stored|
        invariant doc.None? && forall j :: 0 <= j < i ==> !Serves(stored[j], number)
      {
        if Serves(stored[i], number) {
          doc := Some(stored[i]);
          break;
        }
        i := i + 1;
      }
      cache := cache[number := Entry(doc, now)];
    }
  }

  datatype BrandProfile<F> = BrandProfile(brandId: Option<string>, userId: Option<string>, facts: Option<F>)

  /** `(profile or {}).get("operational_facts") or {}` of the first profile of a brand or user id. */
  function FactsOf<F>(profiles: seq<BrandProfile<F>>, brand: string, empty: F): F {
    if profiles == [] then empty
    else if profiles[0].brandId == Some(brand) || profiles[0].userId == Some(brand) then
      (if profiles[0].facts.Some? then profiles[0].facts.value else empty)
    else FactsOf(profiles[1..], brand, empty)
  }

  /** The profile of a brand: the first that carries its id as a brand's or as a user's. */
  ghost predicate ProfileOf<F>(profiles: seq<BrandProfile<F>>, brand: string, i: nat) {
    && i < |profiles|
    && (profiles[i].brandId == Some(brand) || profiles[i].userId == Some(brand))
    && forall j :: 0 <= j < i ==> profiles[j].brandId != Some(brand) && profiles[j].userId != Some(brand)
  }

  lemma {:induction false} FactsAre<F>(profiles: seq<BrandProfile<F>>, brand: string, empty: F)
    ensures forall i: nat :: ProfileOf(profiles, brand, i) ==>
              FactsOf(profiles, brand, empty)
              == if profiles[i].facts.Some? then profiles[i].facts.value else empty
    ensures (forall j :: 0 <= j < |profiles| ==>
               profiles[j].brandId != Some(brand) && profiles[j].userId != Some(brand)) ==>
              FactsOf(profiles, brand, empty) == empty
  {
    if profiles == [] {
    } else {
      var rest := profiles[1..];
      assert forall j :: 1 <= j < |profiles| ==> profiles[j] == rest[j - 1];
      FactsAre(rest, brand, empty);
      forall i: nat | ProfileOf(profiles, brand, i)
        ensures FactsOf(profiles, brand, empty) == if profiles[i].facts.Some? then profiles[i].facts.value else empty
      {
        if i > 0 { assert ProfileOf(rest, brand, i - 1); }
      }
    }
  }

  /** `get_operational_facts_for_brand`: the same cache per brand; an unset brand id raises. */
  class BrandFactsReader<F> {
    var cache: map<string, Entry<F>>

    constructor ()
      ensures cache == map[]
    {
      cache := map[];
    }

    ghost predicate Valid()
      reads this
    {
      "" !in cache
    }

    method GetFacts(brand: string, now: real, profiles: seq<BrandProfile<F>>, empty: F) returns (facts: Option<F>)
      requires Valid()
      modifies this
      ensures Valid()
      ensures facts.None? <==> brand == ""
      ensures brand == "" ==> cache == old(cache)
      ensures brand != "" ==>
                (facts.value, cache) == LookUpAlone(old(cache), brand, now, FactsOf(profiles, brand, empty))
      ensures brand in old(cache) && now - old(cache)[brand].fetchedAt < 60.0 ==>
                facts == Some(old(cache)[brand].value) && cache == old(cache)
      ensures brand != "" && !(brand in old(cache) && now - old(cache)[brand].fetchedAt < 60.0) ==>
                && cache == old(cache)[brand := Entry(facts.value, now)]
                && (forall i: nat :: ProfileOf(profiles, brand, i) ==>
                      facts.value == if profiles[i].facts.Some? then profiles[i].facts.value else empty)
                && ((forall j :: 0 <= j < |profiles| ==>
                       profiles[j].brandId != Some(brand) && profiles[j].userId != Some(brand)) ==>
                      facts.value == empty)
    {
      FactsAre(profiles, brand, empty);
      if brand in cache {
        var cached := cache[brand];
        if now - cached.fetchedAt < TTL {
          return Some(cached.value);
        }
      }
      if brand == "" {
        return None;
      }
      facts := Some(FactsOf(profiles, brand, empty));
      cache := cache[brand := Entry(facts.value, now)];
    }
  }
}

/** Overlapping lookups of one cache against a store that keeps changing. */
module CacheRuns {
  import opened Caches

  /** What the store held, for every key, at one instant. */
  datatype Moment<!K, V> = Moment(time: real, store: K -> V)

  datatype Phase<V> = Waiting | Read(value: V) | Returned(value: V) | Failed

  /** One call: its key, the clock reading it took first, and how far it has come. */
  datatype Call<K, V> = Call(key: K, begun: real, phase: Phase<V>)

  /** The past instants end with the present one. */
  datatype State<!K, V> = State(past: seq<Moment<K, V>>, entries: map<K, Entry<V>>, calls: seq<Call<K, V>>)

  datatype Action<!K, V> =
    | Update(store: K -> V)
    | Tick(dt: real)
    | Begin(key: K)
    | Fetch(call: nat)
    | Raise(call: nat)
    | Finish(call: nat)

  function Present<K, V>(s: State<K, V>): Moment<K, V>
    requires s.past != []
  {
    s.past[|s.past| - 1]
  }

  predicate Enabled<K, V>(s: State<K, V>, a: Action<K, V>) {
    && s.past != []
    && match a
       case Tick(dt) => dt >= 0.0
       case Fetch(i) => i < |s.calls| && s.calls[i].phase.Waiting?
       case Raise(i) => i < |s.calls| && s.calls[i].phase.Waiting?
       case Finish(i) => i < |s.calls| && s.calls[i].phase.Read?
       case _ => true
  }

  function Step<K(==), V>(s: State<K, V>, a: Action<K, V>): State<K, V>
    requires Enabled(s, a)
  {
    var now := Present(s);
    match a
    case Update(store) => s.(past := s.past + [Moment(now.time, store)])
    case Tick(dt) => s.(past := s.past + [Moment(now.time + dt, now.store)])
    case Begin(key) =>
      var hit := Hit(s.entries, key, now.time);
      s.(calls := s.calls + [Call(key, now.time, if hit.Some? then Returned(hit.value) else Waiting)])
    case Fetch(i) => s.(calls := s.calls[i := s.calls[i].(phase := Read(now.store(s.calls[i].key)))])
    case Raise(i) => s.(calls := s.calls[i := s.calls[i].(phase := Failed)])
    case Finish(i) =>
      var c := s.calls[i];
      s.(entries := s.entries[c.key := Entry(c.phase.value, c.begun)],
         calls := s.calls[i := c.(phase := Returned(c.phase.value))])
  }

  /** The store held the value for the key at some past instant no earlier than a bound. */
  ghost predicate HeldSince<K, V>(past: seq<Moment<K, V>>, key: K, value: V, bound: real) {
    exists i :: 0 <= i < |past| && past[i].store(key) == value && past[i].time >= bound
  }

  /** The value is less than the time to live older than the call that returned it. */
  ghost predicate FreshFor<K, V>(past: seq<Moment<K, V>>, c: Call<K, V>, value: V) {
    exists i :: 0 <= i < |past| && past[i].store(c.key) == value && c.begun - past[i].time < TTL
  }

  ghost predicate CallGood<K, V>(past: seq<Moment<K, V>>, c: Call<K, V>) {
    match c.phase
    case Read(value) => HeldSince(past, c.key, value, c.begun)
    case Returned(value) => FreshFor(past, c, value)
    case _ => true
  }

  ghost predicate Invariant<K, V>(s: State<K, V>) {
    && s.past != []
    && (forall key :: key in s.entries ==> HeldSince(s.past, key, s.entries[key].value, s.entries[key].fetchedAt))
    && (forall i :: 0 <= i < |s.calls| ==> s.calls[i].begun <= Present(s).time && CallGood(s.past, s.calls[i]))
  }

  lemma PastGrows<K, V>(past: seq<Moment<K, V>>, m: Moment<K, V>)
    ensures forall key, value, bound :: HeldSince(past, key, value, bound) ==> HeldSince(past + [m], key, value, bound)
    ensures forall c :: CallGood(past, c) ==> CallGood(past + [m], c)
  {
    assert forall i :: 0 <= i < |past| ==> (past + [m])[i] == past[i];
    forall key, value, bound | HeldSince(past, key, value, bound)
      ensures HeldSince(past + [m], key, value, bound)
    {
      var i :| 0 <= i < |past| && past[i].store(key) == value && past[i].time >= bound;
      assert (past + [m])[i] == past[i];
    }
    forall c | CallGood(past, c) ensures CallGood(past + [m], c) {
      if c.phase.Returned? {
        var i :| 0 <= i < |past| && past[i].store(c.key) == c.phase.value && c.begun - past[i].time < TTL;
        assert (past + [m])[i] == past[i];
      }
    }
  }

  lemma InvariantStep<K, V>(s: State<K, V>, a: Action<K, V>)
    requires Invariant(s) && Enabled(s, a)
    ensures Invariant(Step(s, a))
  {
    var now, t := Present(s), Step(s, a);
    match a {
      case Update(store) => PastGrows(s.past, Moment(now.time, store));
      case Tick(dt) => PastGrows(s.past, Moment(now.time + dt, now.store));
      case Begin(key) =>
        var hit := Hit(s.entries, key, now.time);
        if hit.Some? {
          var i :| 0 <= i < |s.past| && s.past[i].store(key) == hit.value && s.past[i].time >= s.entries[key].fetchedAt;
          assert FreshFor(t.past, t.calls[|s.calls|], hit.value);
        }
      case Fetch(i) => assert s.past[|s.past| - 1] == now;
      case Finish(i) =>
        var c := s.calls[i];
        assert CallGood(s.past, c);
        var k :| 0 <= k < |s.past| && s.past[k].store(c.key) == c.phase.value && s.past[k].time >= c.begun;
        assert FreshFor(t.past, t.calls[i], c.phase.value);
      case _ =>
    }
  }

  ghost predicate IsRun<K, V>(start: Moment<K, V>, states: seq<State<K, V>>, actions: seq<Action<K, V>>) {
    && |states| == |actions| + 1
    && states[0] == State([start], map[], [])
    && forall k :: 0 <= k < |actions| ==> Follows(states, actions, k)
  }

  ghost predicate Follows<K, V>(states: seq<State<K, V>>, actions: seq<Action<K, V>>, k: int) {
    && 0 <= k < |actions| && k + 1 < |states|
    && Enabled(states[k], actions[k]) && states[k + 1] == Step(states[k], actions[k])
  }

  lemma {:induction false} InvariantInRun<K, V>(
    start: Moment<K, V>, states: seq<State<K, V>>, actions: seq<Action<K, V>>, k: nat)
    requires IsRun(start, states, actions) && k <= |actions|
    ensures Invariant(states[k])
  {
    if k == 0 {
    } else {
      InvariantInRun(start, states, actions, k - 1);
      assert Follows(states, actions, k - 1);
      InvariantStep(states[k - 1], actions[k - 1]);
    }
  }

  /** Bounded staleness: over any run of updates, clock advances and overlapping lookups, whatever a
      lookup returns, absence included, is what the store held for that very key at an instant
      during the call or less than 60 seconds before it began. */
  lemma BoundedStaleness<K, V>(
    start: Moment<K, V>, states: seq<State<K, V>>, actions: seq<Action<K, V>>, k: nat, i: nat)
    requires IsRun(start, states, actions) && k <= |actions|
    requires i < |states[k].calls| && states[k].calls[i].phase.Returned?
    ensures var c := states[k].calls[i];
            exists m :: 0 <= m < |states[k].past| && states[k].past[m].store(c.key) == c.phase.value
                        && c.begun - states[k].past[m].time < 60.0
  {
    InvariantInRun(start, states, actions, k);
    assert CallGood(states[k].past, states[k].calls[i]);
  }

  /** The lookup of `Caches`, which nothing overlaps, is a run of this system: it begins and, unless
      the cache answers, fetches and finishes. */
  lemma LookUpIsARun<K, V>(s: State<K, V>, key: K) returns (t: State<K, V>)
    requires s.past != []
    ensures var i, begun := |s.calls|, Step(s, Begin(key));
            if Hit(s.entries, key, Present(s).time).Some? then t == begun
            else Enabled(begun, Fetch(i)) && Enabled(Step(begun, Fetch(i)), Finish(i))
                 && t == Step(Step(begun, Fetch(i)), Finish(i))
    ensures var result := LookUpAlone(s.entries, key, Present(s).time, Present(s).store(key));
            && t.entries == result.1 && t.past == s.past
            && t.calls == s.calls + [Call(key, Present(s).time, Returned(result.0))]
  {
    t := Step(s, Begin(key));
    if t.calls[|s.calls|].phase.Waiting? {
      t := Step(t, Fetch(|s.calls|));
      t := Step(t, Finish(|s.calls|));
    }
  }
}
