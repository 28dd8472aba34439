/** What the two provisioning commands record about a member, and that the classification of a snapshot reads back which
    of them has provisioned it. */
module Provenance {
  import opened Text
  import opened AdoptionReason
  import opened JsonValues
  import opened AdoptionSnapshot

  /** Who was provisioned where and by whom. */
  datatype Place = Place(organization: string, authority: string, user: string, membership: string)

  /** What the database chooses. */
  datatype Stamp = Stamp(eventId: string, occurredAt: string, receiptId: string, createdAt: string)

  const LONGEST_KEY := 180

  /** The key of an event is cut to this length; that of a receipt is not. */
  function EventKey(key: string): string {
    if |key| <= LONGEST_KEY then key else key[..LONGEST_KEY]
  }

  function Properties(p: Place): Document {
    map["target_user_id" := Json.Text(p.user), "role" := Json.Text("trainee")]
  }

  function ResultOf(p: Place): Document {
    map["ok" := Bool(true), "organization_id" := Json.Text(p.organization), "user_id" := Json.Text(p.user),
        "membership_id" := Json.Text(p.membership), "role" := Json.Text("trainee"), "status" := Json.Text("active")]
  }

  function Again(d: Document, again: bool): Document {
    d["already_active" := Bool(again)]
  }

  /** `system_provision_limited_member`; `again` if the membership was there already. */
  function LimitedEvent(p: Place, key: string, again: bool, t: Stamp): Event {
    Event(t.eventId, p.organization, p.authority, "limited_member_provisioned", "system", "membership", p.membership,
          Again(Properties(p), again), key, t.occurredAt)
  }

  function LimitedReceipt(p: Place, key: string, again: bool, t: Stamp): Receipt {
    Receipt(t.receiptId, p.organization, p.authority, "system_provision_limited_member", key, Again(ResultOf(p), again),
            t.createdAt)
  }

  /** `system_provision_invited_member` */
  function InvitedEvent(p: Place, key: string, again: bool, t: Stamp): Event {
    if again then
      Event(t.eventId, p.organization, p.authority, "member_invite_reconciled", "system", "membership", p.membership,
            Again(Properties(p), true), key, t.occurredAt)
    else
      Event(t.eventId, p.organization, p.authority, "member_invited_provisioned", "system", "membership", p.membership,
            Properties(p), key, t.occurredAt)
  }

  function InvitedReceipt(p: Place, key: string, again: bool, t: Stamp): Receipt {
    Receipt(t.receiptId, p.organization, p.authority, "system_provision_invited_member", key,
            if again then Again(ResultOf(p), true) else ResultOf(p), t.createdAt)
  }

  const INVITE_PREFIX := "system-invite:"

  function PlaceOf(s: Snapshot): Place {
    Place(s.organization.id, s.authority.id, s.auth.userId, s.membership.id)
  }

  // ---------------------------------------------------------------------------------------------
  // What is recorded is read back
  // ---------------------------------------------------------------------------------------------

  lemma NothingIsClassified(s: Snapshot)
    requires s.events == [] && s.receipts == []
    ensures Classify(s) == Ok(NoProvenance)
  {}

  lemma LimitedPlace(s: Snapshot, key: string, again: bool, t: Stamp)
    ensures SamePlace(s, LimitedEvent(PlaceOf(s), key, again, t), LimitedReceipt(PlaceOf(s), key, again, t))
  {}

  lemma InvitedPlace(s: Snapshot, eventKey: string, key: string, again: bool, t: Stamp)
    ensures SamePlace(s, InvitedEvent(PlaceOf(s), eventKey, again, t), InvitedReceipt(PlaceOf(s), key, again, t))
  {}

  /** Whatever the key and the identifiers: who was provisioned as a limited member is classified so, and a member who was
      there already is refused. */
  lemma LimitedIsClassified(s: Snapshot, key: string, again: bool, t: Stamp)
    requires |key| <= LONGEST_KEY
    requires s.events == [LimitedEvent(PlaceOf(s), EventKey(key), again, t)]
    requires s.receipts == [LimitedReceipt(PlaceOf(s), key, again, t)]
    ensures Classify(s) == if again then Err(InvalidProvenance) else Ok(LimitedProvenance)
  {
    hide SamePlace, PlaceOf, Properties, ResultOf;
    LimitedPlace(s, key, again, t);
  }

  /** Who was provisioned by an invitation is classified so exactly when the key of the event was not cut off, which it is
      from 167 characters on; a member who was there already is refused. */
  lemma InvitedIsClassified(s: Snapshot, key: string, again: bool, t: Stamp)
    requires s.events == [InvitedEvent(PlaceOf(s), EventKey(INVITE_PREFIX + key), again, t)]
    requires s.receipts == [InvitedReceipt(PlaceOf(s), key, again, t)]
    ensures Classify(s) == if again || |key| > 166 then Err(InvalidProvenance) else Ok(InvitedProvenance)
  {
    hide EventKey, INVITE_PREFIX, SamePlace, PlaceOf, IsInvited, IsLimited, InvitedReceipt;
    InvitedPlace(s, EventKey(INVITE_PREFIX + key), key, again, t);
    InviteKey(key);
    InvitedRead(PlaceOf(s), EventKey(INVITE_PREFIX + key), key, t);
  }

  lemma InvitedRead(p: Place, eventKey: string, key: string, t: Stamp)
    ensures IsInvited(InvitedEvent(p, eventKey, false, t), InvitedReceipt(p, key, false, t)) <==> eventKey == "system-invite:" + key
  {}

  lemma InviteKey(key: string)
    ensures EventKey(INVITE_PREFIX + key) == "system-invite:" + key <==> |key| <= 166
  {
    assert |INVITE_PREFIX| == 14;
  }

  // ---------------------------------------------------------------------------------------------
  // What is accepted was recorded
  // ---------------------------------------------------------------------------------------------

  /** The document says all that the other one says. */
  ghost predicate Says(d: Document, written: Document) {
    forall k :: k in written ==> Has(d, k, written[k])
  }

  ghost predicate EventSays(e: Event, written: Event) {
    e.(properties := written.properties) == written && Says(e.properties, written.properties)
  }

  ghost predicate ReceiptSays(r: Receipt, written: Receipt) {
    r.(result := written.result) == written && Says(r.result, written.result)
  }

  /** The records are those of one provisioning of this kind and no other, or there are none. */
  ghost predicate ProvisionedAs(s: Snapshot, c: Classification) {
    match c
    case NoProvenance => s.events == [] && s.receipts == []
    case LimitedProvenance =>
      && |s.events| == 1 && |s.receipts| == 1
      && exists key, t ::
           && EventSays(s.events[0], LimitedEvent(PlaceOf(s), key, false, t))
           && ReceiptSays(s.receipts[0], LimitedReceipt(PlaceOf(s), key, false, t))
    case InvitedProvenance =>
      && |s.events| == 1 && |s.receipts| == 1
      && "already_active" !in s.events[0].properties && "already_active" !in s.receipts[0].result
      && exists key, t ::
           && EventSays(s.events[0], InvitedEvent(PlaceOf(s), INVITE_PREFIX + key, false, t))
           && ReceiptSays(s.receipts[0], InvitedReceipt(PlaceOf(s), key, false, t))
  }

  function StampOf(e: Event, r: Receipt): Stamp {
    Stamp(e.id, e.occurredAt, r.id, r.createdAt)
  }

  lemma LimitedWasRecorded(s: Snapshot)
    requires Classify(s) == Ok(LimitedProvenance)
    ensures ProvisionedAs(s, LimitedProvenance)
  {
    var e, r := s.events[0], s.receipts[0];
    var t := StampOf(e, r);
    assert EventSays(e, LimitedEvent(PlaceOf(s), r.idempotencyKey, false, t));
    assert ReceiptSays(r, LimitedReceipt(PlaceOf(s), r.idempotencyKey, false, t));
  }

  lemma InvitedWasRecorded(s: Snapshot)
    requires Classify(s) == Ok(InvitedProvenance)
    ensures ProvisionedAs(s, InvitedProvenance)
  {
    var e, r := s.events[0], s.receipts[0];
    var t := StampOf(e, r);
    assert EventSays(e, InvitedEvent(PlaceOf(s), INVITE_PREFIX + r.idempotencyKey, false, t));
    assert ReceiptSays(r, InvitedReceipt(PlaceOf(s), r.idempotencyKey, false, t));
  }

  lemma PropertiesSaid(d: Document, p: Place)
    requires Says(d, Properties(p))
    ensures Has(d, "target_user_id", Json.Text(p.user)) && Has(d, "role", Json.Text("trainee"))
  {
    assert "target_user_id" in Properties(p) && "role" in Properties(p);
  }

  lemma ResultSaid(d: Document, p: Place)
    requires Says(d, ResultOf(p))
    ensures Has(d, "ok", Bool(true)) && Has(d, "organization_id", Json.Text(p.organization))
    ensures Has(d, "user_id", Json.Text(p.user)) && Has(d, "membership_id", Json.Text(p.membership))
    ensures Has(d, "role", Json.Text("trainee")) && Has(d, "status", Json.Text("active"))
  {
    var w := ResultOf(p);
    assert "ok" in w && "organization_id" in w && "user_id" in w && "membership_id" in w && "role" in w && "status" in w;
  }

  lemma AgainSaid(d: Document, w: Document)
    requires Says(d, Again(w, false)) && "already_active" !in w
    ensures Says(d, w) && Has(d, "already_active", Bool(false))
  {
    assert "already_active" in Again(w, false);
    forall k | k in w ensures Has(d, k, w[k]) { assert k in Again(w, false) && Again(w, false)[k] == w[k]; }
  }

  lemma LimitedIsRead(s: Snapshot, key: string, t: Stamp)
    requires |s.events| == 1 && |s.receipts| == 1
    requires EventSays(s.events[0], LimitedEvent(PlaceOf(s), key, false, t))
    requires ReceiptSays(s.receipts[0], LimitedReceipt(PlaceOf(s), key, false, t))
    ensures Classify(s) == Ok(LimitedProvenance)
  {
    var e, r := s.events[0], s.receipts[0];
    AgainSaid(e.properties, Properties(PlaceOf(s)));
    AgainSaid(r.result, ResultOf(PlaceOf(s)));
    PropertiesSaid(e.properties, PlaceOf(s));
    ResultSaid(r.result, PlaceOf(s));
    assert e.(properties := Again(Properties(PlaceOf(s)), false)) == LimitedEvent(PlaceOf(s), key, false, t);
    assert r.(result := Again(ResultOf(PlaceOf(s)), false)) == LimitedReceipt(PlaceOf(s), key, false, t);
    hide Says, Properties, ResultOf, Again;
  }

  lemma InvitedIsRead(s: Snapshot, key: string, t: Stamp)
    requires |s.events| == 1 && |s.receipts| == 1
    requires "already_active" !in s.events[0].properties && "already_active" !in s.receipts[0].result
    requires EventSays(s.events[0], InvitedEvent(PlaceOf(s), INVITE_PREFIX + key, false, t))
    requires ReceiptSays(s.receipts[0], InvitedReceipt(PlaceOf(s), key, false, t))
    ensures Classify(s) == Ok(InvitedProvenance)
  {
    var e, r := s.events[0], s.receipts[0];
    PropertiesSaid(e.properties, PlaceOf(s));
    ResultSaid(r.result, PlaceOf(s));
    assert e.(properties := Properties(PlaceOf(s))) == InvitedEvent(PlaceOf(s), INVITE_PREFIX + key, false, t);
    assert r.(result := ResultOf(PlaceOf(s))) == InvitedReceipt(PlaceOf(s), key, false, t);
    hide Says, Properties, ResultOf;
  }

  /** Exactly when: a snapshot is classified as the records of the matching command say, and is refused when they are the
      records of none of them. */
  lemma ClassifiedExactlyAsRecorded(s: Snapshot, c: Classification)
    ensures Classify(s) == Ok(c) <==> ProvisionedAs(s, c)
  {
    hide EventSays, ReceiptSays;
    if Classify(s) == Ok(LimitedProvenance) { LimitedWasRecorded(s); }
    if Classify(s) == Ok(InvitedProvenance) { InvitedWasRecorded(s); }
    if ProvisionedAs(s, c) {
      match c {
        case NoProvenance => NothingIsClassified(s);
        case LimitedProvenance =>
          var key, t :| EventSays(s.events[0], LimitedEvent(PlaceOf(s), key, false, t))
                        && ReceiptSays(s.receipts[0], LimitedReceipt(PlaceOf(s), key, false, t));
          LimitedIsRead(s, key, t);
        case InvitedProvenance =>
          var key, t :| EventSays(s.events[0], InvitedEvent(PlaceOf(s), INVITE_PREFIX + key, false, t))
                        && ReceiptSays(s.receipts[0], InvitedReceipt(PlaceOf(s), key, false, t));
          InvitedIsRead(s, key, t);
      }
    }
  }
}
