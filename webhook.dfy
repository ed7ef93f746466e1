/**
 * `POST /ondapay-webhook`, the provider's asynchronous payment notification, and
 * `POST /check-local-status`, the client's poll of the table by transaction id.
 */
module Webhook {
  import opened Wrappers
  import opened JsText
  import opened Ledger

  const PAID_OUT := "PAID_OUT"

  /** The notification body; a field the provider did not send is `None`. */
  datatype Notification = Notification(
    status: Option<string>,
    transactionId: Option<string>,
    externalId: Option<string>)

  /** `200 {status: 'ok'}` or `400`. */
  datatype WebhookReply = Ack | BadRequest

  /** `status.toUpperCase() === 'PAID_OUT'`. */
  predicate IsPaidOut(status: string)
    ensures IsPaidOut(status) ==> |status| == |PAID_OUT|
  {
    ToUpper(status) == PAID_OUT
  }

  /** Any mix of cases spells the status word. */
  lemma IsPaidOutIgnoresCase(status: string)
    ensures IsPaidOut(status) <==>
      (|status| == |PAID_OUT| && forall i :: 0 <= i < |status| ==> SameIgnoringCase(status[i], PAID_OUT[i]))
  {
    ToUpperMatches(status, PAID_OUT);
  }

  /** What the handler does, decided on the body alone. */
  datatype Action = Reject | Ignore | Pay(id: int)

  function Decide(n: Notification): (a: Action)
    ensures a.Reject? <==>
      (|| !Truthy(n.status) || !Truthy(n.transactionId) || !Truthy(n.externalId)
       || (IsPaidOut(n.status.value) && ParseInt(n.externalId.value).None?))
    ensures a.Ignore? <==>
      Truthy(n.status) && Truthy(n.transactionId) && Truthy(n.externalId) && !IsPaidOut(n.status.value)
    ensures a.Pay? ==> IsPaidOut(n.status.value) && ParseInt(n.externalId.value) == Some(a.id)
  {
    if !Truthy(n.status) || !Truthy(n.transactionId) || !Truthy(n.externalId) then Reject
    else if !IsPaidOut(n.status.value) then Ignore
    else
      var purchaseId := ParseInt(n.externalId.value);
      if purchaseId.None? then Reject else Pay(purchaseId.value)
  }

  /** The reply, and the table after the notification. */
  function Handle(t: Table, n: Notification): (r: (WebhookReply, Table))
    ensures r.0 == BadRequest <==> Decide(n).Reject?
    ensures !Decide(n).Pay? ==> r.1 == t
    ensures r.1.Keys == t.Keys
    ensures forall k :: k in t && Decide(n) != Pay(k) ==> r.1[k] == t[k]
    ensures forall k :: k in t && Decide(n) == Pay(k) ==> r.1[k] == t[k].(status := SUCESSO)
  {
    match Decide(n)
    case Reject => (BadRequest, t)
    case Ignore => (Ack, t)
    case Pay(id) => (Ack, MarkedPaid(t, id))
  }

  /** Delivering the same notification again answers the same and changes nothing more. */
  lemma HandleIdempotent(t: Table, n: Notification)
    ensures Handle(Handle(t, n).1, n) == Handle(t, n)
  {
    if Decide(n).Pay? {
      MarkedPaidIdempotent(t, Decide(n).id);
    }
  }

  /** Notifications may arrive in any order: the table ends the same. */
  lemma HandleCommutes(t: Table, n1: Notification, n2: Notification)
    ensures Handle(Handle(t, n1).1, n2).1 == Handle(Handle(t, n2).1, n1).1
  {
    if Decide(n1).Pay? && Decide(n2).Pay? {
      MarkedPaidCommutes(t, Decide(n1).id, Decide(n2).id);
    }
  }

  /** No notification moves a record back from `Sucesso`, or touches a transaction id. */
  lemma HandleMovesForward(t: Table, n: Notification, k: nat)
    requires k in t
    ensures t[k].status == SUCESSO ==> Handle(t, n).1[k].status == SUCESSO
    ensures Handle(t, n).1[k].transactionId == t[k].transactionId
    ensures StatusOk(t[k]) ==> StatusOk(Handle(t, n).1[k])
  {
  }

  /** `POST /ondapay-webhook` against the table. */
  method OndapayWebhook(ledger: PurchaseLedger, n: Notification) returns (reply: WebhookReply)
    requires ledger.Valid()
    modifies ledger
    ensures ledger.Valid() && ledger.nextId == old(ledger.nextId)
    ensures (reply, ledger.records) == Handle(old(ledger.records), n)
  {
    if !Truthy(n.status) || !Truthy(n.transactionId) || !Truthy(n.externalId) {
      return BadRequest;
    }
    if ToUpper(n.status.value) == PAID_OUT {
      var purchaseId := ParseInt(n.externalId.value);
      if purchaseId.None? {
        return BadRequest;
      }
      var updatedRows := ledger.MarkPaid(purchaseId.value);
    }
    reply := Ack;
  }

  // ---------------------------------------------------------------- status query

  /** `400` when no id is given, else `{id, status}`. */
  datatype LocalStatus = MissingId | Status(id: string, status: string)

  /** The poll over the records with ids below `bound`. */
  function StatusQuery(t: Table, bound: nat, id: Option<string>): (r: LocalStatus)
    ensures r.MissingId? <==> !Truthy(id)
    ensures r.Status? ==> r.id == id.value
    ensures r.Status? && (forall k :: k in t && k < bound ==> t[k].transactionId != Some(id.value)) ==>
      r.status == GERADO
    ensures r.Status? && r.status != GERADO ==>
      exists k :: k in t && k < bound && t[k].transactionId == Some(id.value) && t[k].status == r.status
    ensures Truthy(id) && FirstWithTransaction(t, id.value, 0, bound).Some? ==>
      r.status == t[FirstWithTransaction(t, id.value, 0, bound).value].status
  {
    if !Truthy(id) then MissingId
    else
      match FirstWithTransaction(t, id.value, 0, bound)
      case None => Status(id.value, GERADO)
      case Some(k) => Status(t[k].transactionId.value, t[k].status)
  }

  /** `POST /check-local-status`: unknown ids are reported as `Gerado`, known ones as stored. */
  function CheckLocalStatus(ledger: PurchaseLedger, id: Option<string>): (r: LocalStatus)
    reads ledger
    requires ledger.Valid()
    ensures r.MissingId? <==> !Truthy(id)
    ensures r.Status? ==> r.id == id.value
    ensures Truthy(id) && (forall k :: k in ledger.records ==> ledger.records[k].transactionId != Some(id.value)) ==>
      r == Status(id.value, GERADO)
    ensures Truthy(id) && ledger.FindByTransaction(id.value).Some? ==>
      r == Status(id.value, ledger.records[ledger.FindByTransaction(id.value).value].status)
  {
    StatusQuery(ledger.records, ledger.nextId, id)
  }

  /**
   * Payment confirmed end to end: a record that alone carries transaction id `tx`,
   * once a `PAID_OUT` notification names its id, is polled as `Sucesso`.
   */
  lemma PaidNotificationIsPolled(t: Table, bound: nat, id: nat, tx: string, status: string, n: Notification)
    requires id in t && id < bound && t[id].transactionId == Some(tx) && tx != ""
    requires forall k :: k in t && k != id ==> t[k].transactionId != Some(tx)
    requires IsPaidOut(status)
    requires n == Notification(Some(status), Some(tx), Some(NatToString(id)))
    ensures Handle(t, n).0 == Ack
    ensures StatusQuery(Handle(t, n).1, bound, Some(tx)) == Status(tx, SUCESSO)
  {
    PaidOutNamesRecord(id, tx, status, n);
    var t' := MarkedPaid(t, id);
    assert Handle(t, n) == (Ack, t');
    OnlyMatch(t', tx, bound, id);
  }

  /** A `PAID_OUT` notification whose `external_id` is a record id's decimal string pays that record. */
  lemma PaidOutNamesRecord(id: nat, tx: string, status: string, n: Notification)
    requires tx != "" && IsPaidOut(status)
    requires n == Notification(Some(status), Some(tx), Some(NatToString(id)))
    ensures Decide(n) == Pay(id)
  {
    var e := NatToString(id);
    ParseIntOfNatToString(id, []);
    assert e + [] == e;
    assert |status| == |PAID_OUT|;
    assert Truthy(n.status) && Truthy(n.transactionId) && Truthy(n.externalId);
  }

  /** The only record carrying `tx` is the one the lookup finds. */
  lemma OnlyMatch(t: Table, tx: string, bound: nat, id: nat)
    requires id in t && id < bound && t[id].transactionId == Some(tx)
    requires forall k :: k in t && k != id ==> t[k].transactionId != Some(tx)
    ensures FirstWithTransaction(t, tx, 0, bound) == Some(id)
  {
  }
}
