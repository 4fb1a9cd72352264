/** The `social_connections` records and the routing of an inbound business number. */
module Connections {
  import opened Options
  import opened Records

  /** A connection record; an absent field and a null one read alike. */
  datatype Connection = Connection(
    id: string,
    platform: string,
    phoneNumberId: string,
    status: string,
    brandId: Option<string>,
    userId: Option<string>,
    inbox: Option<string>,
    token: Option<string>,
    wabaId: string,
    connectedVia: string,
    connectedAt: string,
    updatedAt: string)

  datatype Settings = Settings(uriBrandId: string, phoneNumberId: string, escalationEmail: string)

  /** Python's `a or b` on optional strings. */
  function OrElse(a: Option<string>, b: Option<string>): Option<string> {
    if a.Some? && a.value != "" then a else b
  }

  predicate Serves(doc: Connection, number: string) {
    doc.platform == "whatsapp_business" && doc.phoneNumberId == number && doc.status == "active"
  }

  /** `find_one` for the active connection of a number: the first in insertion order. */
  function FindActive(docs: seq<Connection>, number: string): (r: Option<nat>)
    ensures r.Some? ==> r.value < |docs| && Serves(docs[r.value], number)
                        && forall i :: 0 <= i < r.value ==> !Serves(docs[i], number)
    ensures r.None? ==> forall i :: 0 <= i < |docs| ==> !Serves(docs[i], number)
  {
    if docs == [] then None
    else if Serves(docs[0], number) then Some(0)
    else
      var r := FindActive(docs[1..], number);
      assert forall i :: 1 <= i < |docs| ==> docs[i] == docs[1..][i - 1];
      if r.Some? then Some(r.value + 1) else None
  }

  function ContextOf(doc: Connection): Context {
    Context(OrElse(doc.brandId, doc.userId), doc.inbox, doc.token)
  }

  /** `_resolve_client_context`: the registry first, then the single-tenant settings for URI's own
      number; none means the message is dropped. */
  function Route(settings: Settings, docs: seq<Connection>, number: string): Option<Context> {
    var found := FindActive(docs, number);
    if found.Some? then Some(ContextOf(docs[found.value]))
    else if number == settings.phoneNumberId && settings.uriBrandId != "" then
      Some(Context(Some(settings.uriBrandId), Some(settings.escalationEmail), None))
    else None
  }

  /** The record that decides for a number, field by field: the first in the collection that is a
      WhatsApp Business connection of that number and is active. */
  ghost predicate Decides(docs: seq<Connection>, number: string, i: nat) {
    && i < |docs|
    && docs[i].platform == "whatsapp_business" && docs[i].phoneNumberId == number && docs[i].status == "active"
    && forall j :: 0 <= j < i ==>
         docs[j].platform != "whatsapp_business" || docs[j].phoneNumberId != number || docs[j].status != "active"
  }

  ghost predicate Unconnected(docs: seq<Connection>, number: string) {
    forall j :: 0 <= j < |docs| ==>
      docs[j].platform != "whatsapp_business" || docs[j].phoneNumberId != number || docs[j].status != "active"
  }

  lemma FindActiveIs(docs: seq<Connection>, number: string)
    ensures FindActive(docs, number).None? <==> Unconnected(docs, number)
    ensures forall i: nat :: FindActive(docs, number) == Some(i) <==> Decides(docs, number, i)
  {
    var found := FindActive(docs, number);
    forall i: nat | Decides(docs, number, i) ensures found == Some(i) {
      assert Serves(docs[i], number);
      assert forall j :: 0 <= j < i ==> !Serves(docs[j], number);
    }
  }

  /** Whose message it is: the deciding record's brand or, if that is unset or empty, its user, with
      its inbox and its token; for URI's own number without one the settings, if they name a
      brand; nobody's otherwise. */
  lemma RouteIs(settings: Settings, docs: seq<Connection>, number: string)
    ensures forall i: nat :: Decides(docs, number, i) ==>
              Route(settings, docs, number)
              == Some(Context(if docs[i].brandId.Some? && docs[i].brandId.value != "" then docs[i].brandId
                              else docs[i].userId,
                              docs[i].inbox, docs[i].token))
    ensures Unconnected(docs, number) ==>
              Route(settings, docs, number)
              == if number == settings.phoneNumberId && settings.uriBrandId != ""
                 then Some(Context(Some(settings.uriBrandId), Some(settings.escalationEmail), None))
                 else None
  {
    FindActiveIs(docs, number);
  }
}
