/**
 * The `PurchaseHistory` table: one record per payment attempt, keyed by an
 * auto-incremented id. The table is the only durable state of the payment routes;
 * the rate limiter and the status query read it, session creation appends to it,
 * and the deposit response and the webhook update single fields of one record.
 */
module Ledger {
  import opened Wrappers

  /** Status written when an attempt is recorded. */
  const GERADO := "Gerado"
  /** Status written when the provider reports the payment as paid out. */
  const SUCESSO := "Sucesso"

  datatype Record = Record(
    nome: string,
    telefone: string,
    status: string,
    transactionId: Option<string>,
    dataTransacao: int)  // milliseconds since the epoch

  type Table = map<nat, Record>

  /** The ids of the attempts by `phone` recorded at or after time `since`. */
  function AttemptsSince(t: Table, phone: string, since: int): set<nat> {
    set id | id in t && t[id].telefone == phone && t[id].dataTransacao >= since
  }

  /** `PurchaseHistory.count({where: {telefone, dataTransacao: {[Op.gte]: since}}})`. */
  function CountSince(t: Table, phone: string, since: int): (n: nat)
    ensures n <= |t|
  {
    SubsetCard(AttemptsSince(t, phone, since), t.Keys);
    |AttemptsSince(t, phone, since)|
  }

  /** Recording a new attempt adds one to every window it falls in, and nothing to the others. */
  lemma CountAfterInsert(t: Table, id: nat, r: Record, phone: string, since: int)
    requires id !in t
    ensures CountSince(t[id := r], phone, since) ==
      CountSince(t, phone, since) + (if r.telefone == phone && r.dataTransacao >= since then 1 else 0)
  {
    var before := AttemptsSince(t, phone, since);
    var after := AttemptsSince(t[id := r], phone, since);
    if r.telefone == phone && r.dataTransacao >= since {
      assert after == before + {id};
    } else {
      assert after == before;
    }
  }

  /** Rewriting a record without touching its phone or time leaves every count as it was. */
  lemma CountAfterRewrite(t: Table, id: nat, r: Record, phone: string, since: int)
    requires id in t && r.telefone == t[id].telefone && r.dataTransacao == t[id].dataTransacao
    ensures CountSince(t[id := r], phone, since) == CountSince(t, phone, since)
  {
    assert AttemptsSince(t[id := r], phone, since) == AttemptsSince(t, phone, since);
  }

  /** A wider window holds at least the attempts of a narrower one. */
  lemma CountWindowMonotone(t: Table, phone: string, early: int, late: int)
    requires early <= late
    ensures CountSince(t, phone, late) <= CountSince(t, phone, early)
  {
    SubsetCard(AttemptsSince(t, phone, late), AttemptsSince(t, phone, early));
  }

  /** Any set of recent attempts by `phone` is a lower bound on the count. */
  lemma CountAtLeast(t: Table, phone: string, since: int, ids: set<nat>)
    requires forall id :: id in ids ==> id in t && t[id].telefone == phone && t[id].dataTransacao >= since
    ensures CountSince(t, phone, since) >= |ids|
  {
    SubsetCard(ids, AttemptsSince(t, phone, since));
  }

  lemma {:induction false} SubsetCard(a: set<nat>, b: set<nat>)
    requires a <= b
    ensures |a| <= |b|
    decreases |b|
  {
    if a != {} {
      var x :| x in a;
      SubsetCard(a - {x}, b - {x});
    }
  }

  /**
   * The lowest id in `[lo, hi)` whose record carries transaction id `tx`: the
   * record `findOne({where: {transactionId}})` returns.
   */
  function FirstWithTransaction(t: Table, tx: string, lo: nat, hi: nat): (r: Option<nat>)
    decreases hi - lo
    ensures r.None? ==> forall id :: lo <= id < hi && id in t ==> t[id].transactionId != Some(tx)
    ensures r.Some? ==> lo <= r.value < hi && r.value in t && t[r.value].transactionId == Some(tx)
    ensures r.Some? ==> forall id :: lo <= id < r.value && id in t ==> t[id].transactionId != Some(tx)
  {
    if lo >= hi then None
    else if lo in t && t[lo].transactionId == Some(tx) then Some(lo)
    else FirstWithTransaction(t, tx, lo + 1, hi)
  }

  /**
   * `PurchaseHistory.update({status: 'Sucesso'}, {where: {id}})`: the record with
   * that id, if there is one, gets status `Sucesso`; nothing else changes.
   */
  function MarkedPaid(t: Table, id: int): (r: Table)
    ensures r.Keys == t.Keys
    ensures forall k :: k in t && k != id ==> r[k] == t[k]
    ensures id in t ==> r[id] == t[id].(status := SUCESSO)
  {
    if id >= 0 && id in t then t[id := t[id].(status := SUCESSO)] else t
  }

  /** Marking a record paid twice is marking it once. */
  lemma MarkedPaidIdempotent(t: Table, id: int)
    ensures MarkedPaid(MarkedPaid(t, id), id) == MarkedPaid(t, id)
  {
  }

  /** Notifications for two records may be applied in either order. */
  lemma MarkedPaidCommutes(t: Table, a: int, b: int)
    ensures MarkedPaid(MarkedPaid(t, a), b) == MarkedPaid(MarkedPaid(t, b), a)
  {
  }

  /** A status is `Gerado` or `Sucesso`. */
  predicate StatusOk(r: Record) {
    r.status == GERADO || r.status == SUCESSO
  }

  class PurchaseLedger {
    var records: Table
    /** The id the next `create` will assign (auto-increment starts at 1). */
    var nextId: nat

    ghost predicate Valid()
      reads this
    {
      && 1 <= nextId
      && (forall id :: id in records ==> 1 <= id < nextId)
      && (forall id :: id in records ==> StatusOk(records[id]))
    }

    constructor ()
      ensures Valid() && records == map[] && nextId == 1
    {
      records := map[];
      nextId := 1;
    }

    /** `PurchaseHistory.count` over the attempts of `phone` since `since`. */
    function Count(phone: string, since: int): (n: nat)
      reads this
      ensures n == |AttemptsSince(records, phone, since)|
    {
      CountSince(records, phone, since)
    }

    /** `PurchaseHistory.findOne({where: {transactionId: tx}})`, by lowest id. */
    function FindByTransaction(tx: string): (r: Option<nat>)
      reads this
      requires Valid()
      ensures r.None? <==> forall id :: id in records ==> records[id].transactionId != Some(tx)
      ensures r.Some? ==> r.value in records && records[r.value].transactionId == Some(tx)
      ensures r.Some? ==> forall id :: id in records && id < r.value ==> records[id].transactionId != Some(tx)
    {
      FirstWithTransaction(records, tx, 0, nextId)
    }

    /** `PurchaseHistory.create({nome, telefone, status: 'Gerado'})`, stamped with `now`. */
    method Create(nome: string, telefone: string, now: int) returns (id: nat)
      requires Valid()
      modifies this
      ensures Valid()
      ensures id == old(nextId) && id !in old(records) && nextId == old(nextId) + 1
      ensures records == old(records)[id := Record(nome, telefone, GERADO, None, now)]
    {
      id := nextId;
      records := records[id := Record(nome, telefone, GERADO, None, now)];
      nextId := nextId + 1;
    }

    /** `purchaseRecord.update({transactionId: tx})` on a record this ledger created. */
    method SetTransactionId(id: nat, tx: string)
      requires Valid() && id in records
      modifies this
      ensures Valid() && nextId == old(nextId)
      ensures records == old(records)[id := old(records)[id].(transactionId := Some(tx))]
    {
      records := records[id := records[id].(transactionId := Some(tx))];
    }

    /** The webhook's update: returns the number of rows it changed. */
    method MarkPaid(id: int) returns (updatedRows: nat)
      requires Valid()
      modifies this
      ensures Valid() && nextId == old(nextId)
      ensures records == MarkedPaid(old(records), id)
      ensures updatedRows == if id in old(records) then 1 else 0
      ensures forall k :: k in old(records) && old(records)[k].status == SUCESSO ==> records[k].status == SUCESSO
    {
      if id >= 0 && id in records {
        records := records[id := records[id].(status := SUCESSO)];
        updatedRows := 1;
      } else {
        updatedRows := 0;
      }
    }
  }
}
