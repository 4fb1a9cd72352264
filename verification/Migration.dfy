/** The one-off migration that turns URI's own number into the first tenant. */
module Migration {
  import opened Options
  import opened Counting
  import opened Records
  import opened Connections

  const WABA_ID: string := "1717259956163614"

  datatype Profile = Profile(brandId: Option<string>, userId: Option<string>)

  /** A conversation document from before `brand_id` existed has no such field. */
  datatype BrandField = Unset | Present(value: Option<string>)
  datatype ConvDoc = ConvDoc(phoneHash: string, brand: BrandField, body: string)

  datatype Failure = NotConfigured | NoProfile | CountChanged
  datatype Result<T> = Ok(value: T) | Err(error: Failure)

  function FindProfile(profiles: seq<Profile>, brand: string): (r: Option<Profile>)
    ensures r.Some? ==> r.value in profiles && (r.value.brandId == Some(brand) || r.value.userId == Some(brand))
  {
    if profiles == [] then None
    else if profiles[0].brandId == Some(brand) || profiles[0].userId == Some(brand) then Some(profiles[0])
    else FindProfile(profiles[1..], brand)
  }

  /** `_resolve_brand_and_user_id`: whether the configured id is a brand's or a user's. */
  function ResolveIds(profiles: seq<Profile>, uri: string): Result<(Option<string>, Option<string>)> {
    var profile := FindProfile(profiles, uri);
    if profile.None? then Err(NoProfile)
    else if profile.value.brandId == Some(uri) then Ok((Some(uri), profile.value.userId))
    else Ok((None, Some(uri)))
  }

  function ConnectionId(settings: Settings): string {
    "whatsapp_business_" + settings.phoneNumberId
  }

  /** `$set` of the migration's document: every field but the access token. */
  function SetFields(
    doc: Connection, settings: Settings, ids: (Option<string>, Option<string>), now: string): Connection
  {
    doc.(id := ConnectionId(settings), platform := "whatsapp_business", phoneNumberId := settings.phoneNumberId,
         status := "active", brandId := ids.0, userId := ids.1, inbox := Some(settings.escalationEmail),
         wabaId := WABA_ID, connectedVia := "manual_migration_bootstrap", connectedAt := now, updatedAt := now)
  }

  const BLANK := Connection("", "", "", "", None, None, None, None, "", "", "", "")

  function IndexOfId(docs: seq<Connection>, id: string): (r: Option<nat>)
    ensures r.Some? ==> r.value < |docs| && docs[r.value].id == id && forall i :: 0 <= i < r.value ==> docs[i].id != id
    ensures r.None? ==> forall i :: 0 <= i < |docs| ==> docs[i].id != id
  {
    if docs == [] then None
    else if docs[0].id == id then Some(0)
    else
      var r := IndexOfId(docs[1..], id);
      assert forall i :: 1 <= i < |docs| ==> docs[i] == docs[1..][i - 1];
      if r.Some? then Some(r.value + 1) else None
  }

  /** `update_one({"id": ...}, {"$set": doc}, upsert=True)` */
  function Upserted(docs: seq<Connection>, settings: Settings, ids: (Option<string>, Option<string>), now: string)
    : seq<Connection>
  {
    var i := IndexOfId(docs, ConnectionId(settings));
    if i.Some? then docs[i.value := SetFields(docs[i.value], settings, ids, now)]
    else docs + [SetFields(BLANK, settings, ids, now)]
  }

  /** `update_many({"brand_id": {"$exists": False}}, {"$set": {"brand_id": ...}})` */
  function Backfilled(docs: seq<ConvDoc>, brand: Option<string>): (r: seq<ConvDoc>)
    ensures |r| == |docs|
    ensures forall i :: 0 <= i < |docs| ==>
              r[i] == if docs[i].brand.Unset? then docs[i].(brand := Present(brand)) else docs[i]
  {
    seq(|docs|, i requires 0 <= i < |docs| =>
      if docs[i].brand.Unset? then docs[i].(brand := Present(brand)) else docs[i])
  }

  function IsMissing(): ConvDoc -> bool {
    (doc: ConvDoc) => doc.brand.Unset?
  }

  /** The migration can begin. */
  predicate Ready(profiles: seq<Profile>, settings: Settings) {
    settings.uriBrandId != "" && settings.phoneNumberId != "" && ResolveIds(profiles, settings.uriBrandId).Ok?
  }

  class Database {
    var profiles: seq<Profile>
    var connections: seq<Connection>
    var conversations: seq<ConvDoc>

    constructor (profiles: seq<Profile>, connections: seq<Connection>, conversations: seq<ConvDoc>)
      ensures this.profiles == profiles && this.connections == connections && this.conversations == conversations
    {
      this.profiles, this.connections, this.conversations := profiles, connections, conversations;
    }

    /** `main`: resolve the ids, upsert the connection, backfill the conversations, verify the count.
        What the live service inserts meanwhile comes `between` its two counts, so that it can decide
        whether there is anything to backfill, `early` (after them, before the backfill) or `late`;
        any such insertion makes it raise, both writes being done. */
    method Migrate(
      settings: Settings, now: string, between: seq<ConvDoc>, early: seq<ConvDoc>, late: seq<ConvDoc>)
      returns (r: Result<nat>)
      modifies this`connections, this`conversations
      ensures !Ready(profiles, settings) ==>
                r.Err? && r.error != CountChanged
                && connections == old(connections) && conversations == old(conversations)
      ensures Ready(profiles, settings) ==>
                && connections == Upserted(old(connections), settings,
                    ResolveIds(profiles, settings.uriBrandId).value, now)
                && r == (if between + early + late == [] then Ok(Count(old(conversations), IsMissing()))
                         else Err(CountChanged))
                && conversations == (if Count(old(conversations) + between, IsMissing()) > 0
                                     then Backfilled(old(conversations) + between + early, Some(settings.uriBrandId))
                                     else old(conversations) + between + early) + late
      ensures r.Ok? ==>
                && conversations == Backfilled(old(conversations), Some(settings.uriBrandId))
                && |conversations| == |old(conversations)|
    {
      if settings.uriBrandId == "" || settings.phoneNumberId == "" {
        return Err(NotConfigured);
      }
      var ids := ResolveIds(profiles, settings.uriBrandId);
      if ids.Err? {
        return Err(ids.error);
      }
      var resolved := OrElse(ids.value.0, ids.value.1);
      connections := Upserted(connections, settings, ids.value, now);
      var before := |conversations|;
      conversations := conversations + between;
      var missing := Count(conversations, IsMissing());
      CountZero(conversations, IsMissing());
      conversations := conversations + early;
      if missing > 0 {
        conversations := Backfilled(conversations, resolved);
      }
      conversations := conversations + late;
      var after := |conversations|;
      if before != after {
        return Err(CountChanged);
      }
      assert between == early == late == [] && old(conversations) + between + early == old(conversations);
      assert old(conversations) + between == old(conversations);
      assert conversations == Backfilled(old(conversations), Some(settings.uriBrandId));
      r := Ok(missing);
    }
  }

  /** The profile that names the configured id: the first that carries it as a brand's or as a user's. */
  ghost predicate NamedBy(profiles: seq<Profile>, uri: string, i: nat) {
    && i < |profiles|
    && (profiles[i].brandId == Some(uri) || profiles[i].userId == Some(uri))
    && forall j :: 0 <= j < i ==> profiles[j].brandId != Some(uri) && profiles[j].userId != Some(uri)
  }

  /** An id that is the profile's brand is stored as brand, next to the profile's user; any other is
      stored as user, with no brand. Without such a profile there is nothing to store. */
  lemma {:induction false} ResolveIdsAre(profiles: seq<Profile>, uri: string)
    ensures forall i: nat :: NamedBy(profiles, uri, i) ==>
              ResolveIds(profiles, uri)
              == Ok(if profiles[i].brandId == Some(uri) then (Some(uri), profiles[i].userId) else (None, Some(uri)))
    ensures (forall j :: 0 <= j < |profiles| ==>
               profiles[j].brandId != Some(uri) && profiles[j].userId != Some(uri)) ==>
              ResolveIds(profiles, uri) == Err(NoProfile)
  {
    if profiles == [] {
    } else {
      var rest := profiles[1..];
      assert forall j :: 1 <= j < |profiles| ==> profiles[j] == rest[j - 1];
      ResolveIdsAre(rest, uri);
      forall i: nat | NamedBy(profiles, uri, i)
        ensures ResolveIds(profiles, uri)
                == Ok(if profiles[i].brandId == Some(uri) then (Some(uri), profiles[i].userId) else (None, Some(uri)))
      {
        if i > 0 { assert NamedBy(rest, uri, i - 1); }
      }
    }
  }

  /** The document the migration writes, and where. */
  function MigratedAt(docs: seq<Connection>, settings: Settings): nat {
    var i := IndexOfId(docs, ConnectionId(settings));
    if i.Some? then i.value else |docs|
  }

  /** The record the migration leaves, field by field, and that every other one stays. */
  lemma MigratedRecord(
    profiles: seq<Profile>, settings: Settings, docs: seq<Connection>, now: string, i: nat)
    requires NamedBy(profiles, settings.uriBrandId, i)
    ensures ResolveIds(profiles, settings.uriBrandId).Ok?
    ensures var after := Upserted(docs, settings, ResolveIds(profiles, settings.uriBrandId).value, now);
            var k, byBrand := MigratedAt(docs, settings), profiles[i].brandId == Some(settings.uriBrandId);
            && k < |after| && (k < |docs| ==> docs[k].id == "whatsapp_business_" + settings.phoneNumberId)
            && after[k] == Connection(
                 "whatsapp_business_" + settings.phoneNumberId, "whatsapp_business", settings.phoneNumberId, "active",
                 if byBrand then Some(settings.uriBrandId) else None,
                 if byBrand then profiles[i].userId else Some(settings.uriBrandId),
                 Some(settings.escalationEmail), if k < |docs| then docs[k].token else None,
                 "1717259956163614", "manual_migration_bootstrap", now, now)
            && |after| == (if k < |docs| then |docs| else |docs| + 1)
            && forall j :: 0 <= j < |docs| && j != k ==> after[j] == docs[j]
  {
    ResolveIdsAre(profiles, settings.uriBrandId);
  }

  /** The configured id is what the migration's own document routes to, whichever kind of id it is. */
  lemma MigratedContext(profiles: seq<Profile>, settings: Settings, doc: Connection, now: string)
    requires settings.uriBrandId != "" && ResolveIds(profiles, settings.uriBrandId).Ok?
    ensures var migrated := SetFields(doc, settings, ResolveIds(profiles, settings.uriBrandId).value, now);
            && ContextOf(migrated) == Context(Some(settings.uriBrandId), Some(settings.escalationEmail), doc.token)
            && (forall number :: Serves(migrated, number) <==> number == settings.phoneNumberId)
  {
  }

  /** Routing after the migration, for every earlier collection and every number: an active record
      that precedes the migrated one keeps deciding for URI's number, otherwise the migrated
      record does; any other number loses at most the record the migration took over. */
  lemma RoutingAfter(
    profiles: seq<Profile>, settings: Settings, docs: seq<Connection>, number: string, now: string)
    requires settings.uriBrandId != "" && ResolveIds(profiles, settings.uriBrandId).Ok?
    ensures var ids := ResolveIds(profiles, settings.uriBrandId).value;
            var after := Upserted(docs, settings, ids, now);
            var k, active := MigratedAt(docs, settings), FindActive(docs, number);
            && (number == settings.phoneNumberId ==>
                  Route(settings, after, number) ==
                  if active.Some? && active.value < k then Some(ContextOf(docs[active.value]))
                  else Some(Context(Some(settings.uriBrandId), Some(settings.escalationEmail),
                                    if k < |docs| then docs[k].token else None)))
            && (number != settings.phoneNumberId && (k < |docs| ==> !Serves(docs[k], number)) ==>
                  Route(settings, after, number) == Route(settings, docs, number))
  {
    var ids := ResolveIds(profiles, settings.uriBrandId).value;
    var after := Upserted(docs, settings, ids, now);
    var k := MigratedAt(docs, settings);
    var base := if k < |docs| then docs[k] else BLANK;
    MigratedContext(profiles, settings, base, now);
    assert after[k] == SetFields(base, settings, ids, now);
    assert forall i :: 0 <= i < |docs| && i != k ==> after[i] == docs[i];
    FirstActiveIs(docs, number);
    FirstActiveIs(after, number);
    if number == settings.phoneNumberId {
      var active, now' := FindActive(docs, number), FindActive(after, number);
      assert Serves(after[k], number);
      if active.Some? && active.value < k {
        assert now'.value == active.value;
      } else {
        assert now'.value == k;
      }
    }
  }

  lemma FirstActiveIs(docs: seq<Connection>, number: string)
    ensures forall i: nat ::
              i < |docs| && Serves(docs[i], number) && (forall j :: 0 <= j < i ==> !Serves(docs[j], number)) ==>
                FindActive(docs, number) == Some(i)
  {
  }

  /** With no active record for URI's number before, so that the fallback decided, the migration
      preserves its routing exactly when the record it takes over, if any, stores no token. */
  lemma RoutingPreserved(profiles: seq<Profile>, settings: Settings, docs: seq<Connection>, now: string)
    requires settings.uriBrandId != "" && ResolveIds(profiles, settings.uriBrandId).Ok?
    requires FindActive(docs, settings.phoneNumberId).None?
    ensures var after := Upserted(docs, settings, ResolveIds(profiles, settings.uriBrandId).value, now);
            var k := MigratedAt(docs, settings);
            Route(settings, after, settings.phoneNumberId) == Route(settings, docs, settings.phoneNumberId)
            <==> (k < |docs| ==> docs[k].token.None?)
  {
    RoutingAfter(profiles, settings, docs, settings.phoneNumberId, now);
  }

  predicate HasHash(doc: ConvDoc, hash: string) {
    doc.phoneHash == hash
  }

  predicate HasHashAndBrand(doc: ConvDoc, hash: string, brand: string) {
    doc.phoneHash == hash && doc.brand == Present(Some(brand))
  }

  /** The document a lookup by hash alone finds, as before the migration. */
  ghost predicate FoundByHash(docs: seq<ConvDoc>, hash: string, i: nat) {
    i < |docs| && HasHash(docs[i], hash) && forall j :: 0 <= j < i ==> !HasHash(docs[j], hash)
  }

  /** The document a lookup by hash and brand finds. */
  ghost predicate FoundByBoth(docs: seq<ConvDoc>, hash: string, brand: string, i: nat) {
    i < |docs| && HasHashAndBrand(docs[i], hash, brand) && forall j :: 0 <= j < i ==>
          !HasHashAndBrand(docs[j], hash, brand)
  }

  /** For every backfilled conversation the new lookup finds it exactly when no earlier document
      of the same hash was missing its brand or already carried this one. */
  lemma BackfillLookup(docs: seq<ConvDoc>, brand: string, i: nat)
    requires i < |docs| && docs[i].brand.Unset?
    ensures FoundByBoth(Backfilled(docs, Some(brand)), docs[i].phoneHash, brand, i)
            <==> forall j :: 0 <= j < i && HasHash(docs[j], docs[i].phoneHash) ==>
                   !docs[j].brand.Unset? && docs[j].brand != Present(Some(brand))
  {
    var after, hash := Backfilled(docs, Some(brand)), docs[i].phoneHash;
    assert HasHashAndBrand(after[i], hash, brand);
    assert forall j :: 0 <= j < i ==>
        (HasHashAndBrand(after[j], hash, brand)
         <==> HasHash(docs[j], hash) && (docs[j].brand.Unset? || docs[j].brand == Present(Some(brand))));
  }

  /** With hashes unique across conversations, the new lookup finds for each backfilled conversation
      the very document the hash alone found. */
  lemma BackfillPreservesLookup(docs: seq<ConvDoc>, brand: string, i: nat)
    requires forall a, b :: 0 <= a < |docs| && 0 <= b < |docs| && HasHash(docs[b], docs[a].phoneHash) ==> a == b
    requires i < |docs| && docs[i].brand.Unset?
    ensures FoundByHash(docs, docs[i].phoneHash, i)
    ensures FoundByBoth(Backfilled(docs, Some(brand)), docs[i].phoneHash, brand, i)
  {
    BackfillLookup(docs, brand, i);
  }

  /** Without uniqueness the backfill can redirect a lookup: two old documents of one customer. */
  lemma BackfillNeedsUniqueness(brand: string)
    ensures var docs := [ConvDoc("h", Unset, "first"), ConvDoc("h", Unset, "second")];
            !FoundByBoth(Backfilled(docs, Some(brand)), "h", brand, 1)
  {
    BackfillLookup([ConvDoc("h", Unset, "first"), ConvDoc("h", Unset, "second")], brand, 1);
    assert HasHash([ConvDoc("h", Unset, "first"), ConvDoc("h", Unset, "second")][0], "h");
  }

  /** A second run changes nothing but the two timestamps of the migrated record. */
  lemma SecondRunOnlyTimestamps(
    profiles: seq<Profile>, settings: Settings, docs: seq<Connection>, convs: seq<ConvDoc>, first: string,
        second: string)
    requires ResolveIds(profiles, settings.uriBrandId).Ok?
    ensures var ids := ResolveIds(profiles, settings.uriBrandId).value;
            var once := Upserted(docs, settings, ids, first);
            var k := MigratedAt(docs, settings);
            && k < |once|
            && Upserted(once, settings, ids, second) == once[k := once[k].(connectedAt := second, updatedAt := second)]
    ensures var brand := Some(settings.uriBrandId);
            Backfilled(Backfilled(convs, brand), brand) == Backfilled(convs, brand)
  {
    var ids := ResolveIds(profiles, settings.uriBrandId).value;
    var once := Upserted(docs, settings, ids, first);
    var k := MigratedAt(docs, settings);
    var i := IndexOfId(once, ConnectionId(settings));
    assert once[k].id == ConnectionId(settings);
    assert forall j :: 0 <= j < k ==> once[j] == docs[j];
    assert i == Some(k);
  }
}
