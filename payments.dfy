/** The `payments` table of the inventory service: one row per order, with a
    UNIQUE internal `order_id` and the gateway's own ids beside it. */
module Payments {
  import opened Common
  import opened Queries

  const STATUS_INITIATED := "initiated"
  const STATUS_CREATED := "created"
  const STATUS_PENDING := "pending"
  const STATUS_COMPLETED := "completed"
  const STATUS_FAILED := "failed"
  const STATUS_CANCELLED := "cancelled"

  const PROVIDER_RAZORPAY := "razorpay"
  const PROVIDER_PAYU := "payu"

  /** A payment record as the gateway's fetch call returns it; an absent key is None. */
  datatype GatewayPayment = GatewayPayment(
    amount: Option<int>,
    status: Option<string>,
    orderId: Option<string>,
    currency: Option<string>)

  /** A value inside the JSON object kept in the `notes` column. */
  datatype NoteValue = Text(text: string) | Number(number: int) | Null | Details(details: GatewayPayment)

  type Notes = map<string, NoteValue>

  /** One row. `amount` is the INT column, in whole currency units, and
      `notes` is None when the column is NULL. */
  datatype Payment = Payment(
    id: nat,
    userId: nat,
    orderId: string,
    amount: int,
    currency: string,
    receipt: Option<string>,
    notes: Option<Notes>,
    status: string,
    provider: string,
    providerPaymentId: Option<string>,
    providerOrderId: Option<string>,
    providerSignature: Option<string>,
    createdAt: nat,
    updatedAt: nat)

  /** The constructor: status defaults to "initiated" and both timestamps to
      `now`; a new object has no id. */
  function NewPayment(userId: nat, orderId: string, amount: int, currency: string, receipt: Option<string>,
                      notes: Option<Notes>, status: Option<string>, provider: string,
                      providerOrderId: Option<string>, now: nat): (p: Payment)
    ensures p.id == 0 && p.createdAt == now && p.updatedAt == now
    ensures Truthy(status) ==> p.status == status.value
    ensures !Truthy(status) ==> p.status == STATUS_INITIATED
    ensures p.providerPaymentId.None? && p.providerSignature.None?
    ensures && p.userId == userId && p.orderId == orderId && p.amount == amount && p.currency == currency
            && p.receipt == receipt && p.notes == notes && p.provider == provider && p.providerOrderId == providerOrderId
  {
    Payment(0, userId, orderId, amount, currency, receipt, notes, OrElse(status, STATUS_INITIATED),
            provider, None, providerOrderId, None, now, now)
  }

  /** `float(paise) / 100` written into the INT column: the decimal literal
      is rounded half away from zero. */
  function WholeUnits(minor: int): (r: int)
    ensures -50 <= 100 * r - minor <= 50
    ensures minor >= 0 ==> r >= 0
    ensures minor % 100 == 0 ==> 100 * r == minor
  {
    if minor >= 0 then (minor + 50) / 100 else -((-minor + 50) / 100)
  }

  /** The rows in insertion order and the next AUTO_INCREMENT id. */
  datatype PaymentStore = PaymentStore(rows: seq<Payment>, nextId: nat)

  /** Ids are distinct, positive and below `nextId`; `order_id` is UNIQUE. */
  ghost predicate WellFormed(st: PaymentStore) {
    && st.nextId >= 1
    && (forall i :: 0 <= i < |st.rows| ==> 1 <= st.rows[i].id < st.nextId)
    && (forall i, j :: 0 <= i < j < |st.rows| ==>
          st.rows[i].id != st.rows[j].id && st.rows[i].orderId != st.rows[j].orderId)
  }

  predicate HasId(rows: seq<Payment>, id: nat) {
    exists i :: 0 <= i < |rows| && rows[i].id == id
  }

  /** The statement would write a row whose `order_id` another row already
      holds; an `UPDATE` that matches no row writes nothing. */
  predicate OrderIdTaken(rows: seq<Payment>, p: Payment) {
    && (p.id == 0 || HasId(rows, p.id))
    && exists i :: 0 <= i < |rows| && rows[i].orderId == p.orderId && rows[i].id != p.id
  }

  /** What `save` leaves behind: the table, the object as the caller holds it
      afterwards, and whether the statement succeeded (a duplicate `order_id`
      raises and the transaction is rolled back). */
  datatype Saved = Saved(store: PaymentStore, payment: Payment, ok: bool)

  /** The `UPDATE` of `save`: every column but `created_at` from the object,
      `updated_at` from the clock. */
  function Updated(row: Payment, p: Payment, now: nat): Payment {
    p.(createdAt := row.createdAt, updatedAt := now)
  }

  /** `save`: an object with an id updates the row with that id (if any); one
      without is inserted and receives the next id. */
  function SavePayment(st: PaymentStore, p: Payment, now: nat): (r: Saved)
    ensures r.ok <==> !OrderIdTaken(st.rows, p)
    ensures !r.ok ==> r.store == st
    ensures WellFormed(st) ==> WellFormed(r.store)
    ensures r.ok && p.id == 0 ==>
      && r.payment == p.(id := st.nextId)
      && r.store == PaymentStore(st.rows + [r.payment], st.nextId + 1)
    ensures r.ok && p.id != 0 ==> r.payment == p && r.store.nextId == st.nextId && |r.store.rows| == |st.rows|
    ensures r.ok && p.id != 0 ==> forall i :: 0 <= i < |st.rows| && st.rows[i].id != p.id ==> r.store.rows[i] == st.rows[i]
    ensures r.ok && p.id != 0 ==> forall i :: 0 <= i < |st.rows| && st.rows[i].id == p.id ==>
      && r.store.rows[i].createdAt == st.rows[i].createdAt
      && r.store.rows[i].updatedAt == now
      && r.store.rows[i] == p.(createdAt := st.rows[i].createdAt, updatedAt := now)
  {
    if OrderIdTaken(st.rows, p) then Saved(st, p, false)
    else if p.id != 0 then
      var rows := seq(|st.rows|, i requires 0 <= i < |st.rows| =>
        if st.rows[i].id == p.id then Updated(st.rows[i], p, now) else st.rows[i]);
      Saved(PaymentStore(rows, st.nextId), p, true)
    else
      var q := p.(id := st.nextId);
      Saved(PaymentStore(st.rows + [q], st.nextId + 1), q, true)
  }

  /** An object read from a well-formed table can be saved back: its
      `order_id` is its own. */
  lemma {:induction false} SaveLoadedSucceeds(st: PaymentStore, row: Payment, p: Payment, now: nat)
    requires WellFormed(st) && row in st.rows
    requires p.id == row.id && p.orderId == row.orderId
    ensures SavePayment(st, p, now).ok
  {
    var j :| 0 <= j < |st.rows| && st.rows[j] == row;
    forall i | 0 <= i < |st.rows| && st.rows[i].orderId == p.orderId ensures st.rows[i].id == p.id {
      assert i == j;
    }
  }

  /** `get_by_id`. */
  function ById(rows: seq<Payment>, id: nat): (r: Option<Payment>)
    ensures r.Some? ==> r.value in rows && r.value.id == id
    ensures r.None? <==> forall x :: x in rows ==> x.id != id
  {
    FirstWhere(rows, (x: Payment) => x.id == id)
  }

  /** A stored row is what its id reads back. */
  lemma {:induction false} ByIdOfRow(st: PaymentStore, row: Payment)
    requires WellFormed(st) && row in st.rows
    ensures ById(st.rows, row.id) == Some(row)
  {
    var j :| 0 <= j < |st.rows| && st.rows[j] == row;
    forall i | 0 <= i < j ensures st.rows[i].id != row.id {
    }
    assert IndexWhere(st.rows, (x: Payment) => x.id == row.id) == j;
  }

  /** After an update by id, that id reads back as written (with the stored
      `created_at`) and every other id reads back as before. */
  lemma {:induction false} ByIdAfterSave(st: PaymentStore, p: Payment, now: nat, id: nat)
    requires p.id != 0 && SavePayment(st, p, now).ok
    ensures id != p.id ==> ById(SavePayment(st, p, now).store.rows, id) == ById(st.rows, id)
    ensures id == p.id && ById(st.rows, id).Some? ==>
      ById(SavePayment(st, p, now).store.rows, id) == Some(Updated(ById(st.rows, id).value, p, now))
  {
    var r := SavePayment(st, p, now).store;
    IndexWhereAgrees(st.rows, r.rows, (x: Payment) => x.id == id);
  }

  /** `get_by_order_id`. */
  function ByOrderId(rows: seq<Payment>, orderId: string): (r: Option<Payment>)
    ensures r.Some? ==> r.value in rows && r.value.orderId == orderId
    ensures r.None? <==> forall x :: x in rows ==> x.orderId != orderId
  {
    FirstWhere(rows, (x: Payment) => x.orderId == orderId)
  }

  /** `get_by_provider_order_id`; SQL `= NULL` matches no row. */
  function ByProviderOrderId(rows: seq<Payment>, providerOrderId: Option<string>): (r: Option<Payment>)
    ensures r.Some? ==> r.value in rows && providerOrderId.Some? && r.value.providerOrderId == providerOrderId
    ensures r.None? <==> providerOrderId.None? || forall x :: x in rows ==> x.providerOrderId != providerOrderId
  {
    if providerOrderId.None? then None
    else FirstWhere(rows, (x: Payment) => x.providerOrderId == providerOrderId)
  }

  /** `get_by_provider_payment_id`; SQL `= NULL` matches no row. */
  function ByProviderPaymentId(rows: seq<Payment>, providerPaymentId: Option<string>): (r: Option<Payment>)
    ensures r.Some? ==> r.value in rows && providerPaymentId.Some? && r.value.providerPaymentId == providerPaymentId
    ensures r.None? <==> providerPaymentId.None? || forall x :: x in rows ==> x.providerPaymentId != providerPaymentId
  {
    if providerPaymentId.None? then None
    else FirstWhere(rows, (x: Payment) => x.providerPaymentId == providerPaymentId)
  }

  function CreatedKey(p: Payment): int { p.createdAt }

  function UpdatedKey(p: Payment): int { p.updatedAt }

  /** `WHERE user_id = %s`. */
  function OfUser(rows: seq<Payment>, userId: nat): (r: seq<Payment>)
    ensures forall x :: x in r <==> x in rows && x.userId == userId
    ensures multiset(r) <= multiset(rows)
  {
    Filter(rows, (x: Payment) => x.userId == userId)
  }

  /** `get_latest_by_user_id`: `ORDER BY updated_at DESC LIMIT 1`. */
  function LatestByUser(rows: seq<Payment>, userId: nat): (r: Option<Payment>)
  {
    var mine := OfUser(rows, userId);
    if mine == [] then None else Some(SortDesc(mine, UpdatedKey)[0])
  }

  /** The latest payment is one of the user's, none of the user's rows was
      updated later, and there is none exactly when the user has no rows. */
  lemma LatestIsLatest(rows: seq<Payment>, userId: nat)
    ensures LatestByUser(rows, userId).None? <==> forall x :: x in rows ==> x.userId != userId
    ensures LatestByUser(rows, userId).Some? ==>
      && LatestByUser(rows, userId).value in rows
      && LatestByUser(rows, userId).value.userId == userId
      && forall y :: y in rows && y.userId == userId ==> y.updatedAt <= LatestByUser(rows, userId).value.updatedAt
  {
    var mine := OfUser(rows, userId);
    if mine != [] {
      var top := SortDesc(mine, UpdatedKey)[0];
      assert top in multiset(SortDesc(mine, UpdatedKey));
      assert top in mine by {
        assert top in multiset(mine);
      }
      forall y | y in rows && y.userId == userId ensures y.updatedAt <= top.updatedAt {
        HeadIsMaximal(mine, UpdatedKey, y);
      }
    } else {
      forall x | x in rows ensures x.userId != userId {
        assert x !in mine;
      }
    }
  }

  /** The `WHERE` of `get_user_payments`: a falsy filter is not applied. */
  function Matching(rows: seq<Payment>, userId: nat, status: Option<string>, provider: Option<string>): (r: seq<Payment>)
    ensures forall x :: x in r <==>
      && x in rows && x.userId == userId
      && (Truthy(status) ==> x.status == status.value)
      && (Truthy(provider) ==> x.provider == provider.value)
  {
    Filter(rows, (x: Payment) =>
      && x.userId == userId
      && (Truthy(status) ==> x.status == status.value)
      && (Truthy(provider) ==> x.provider == provider.value))
  }

  /** `get_user_payments` (the caller's default limit is 10). */
  function UserPayments(rows: seq<Payment>, userId: nat, status: Option<string>, provider: Option<string>, limit: nat): seq<Payment>
  {
    Take(SortDesc(Matching(rows, userId, status, provider), CreatedKey), limit)
  }

  /** The listing holds only matching rows, newest first, and at most
      `limit` of them. */
  lemma UserPaymentsMatch(rows: seq<Payment>, userId: nat, status: Option<string>, provider: Option<string>, limit: nat)
    ensures SortedDesc(UserPayments(rows, userId, status, provider, limit), CreatedKey)
    ensures |UserPayments(rows, userId, status, provider, limit)| ==
      if limit < |Matching(rows, userId, status, provider)| then limit else |Matching(rows, userId, status, provider)|
    ensures forall x :: x in UserPayments(rows, userId, status, provider, limit) ==>
      && x in rows && x.userId == userId
      && (Truthy(status) ==> x.status == status.value)
      && (Truthy(provider) ==> x.provider == provider.value)
  {
    var m := Matching(rows, userId, status, provider);
    var r := UserPayments(rows, userId, status, provider, limit);
    TopRows(m, CreatedKey, limit);
    forall x | x in r ensures x in m {
      assert x in multiset(r);
    }
  }

  /** No matching row left out of the listing was created after one that is
      listed, and when there are no more than `limit` matches all are listed. */
  lemma UserPaymentsAreTheNewest(rows: seq<Payment>, userId: nat, status: Option<string>, provider: Option<string>, limit: nat)
    ensures forall i, y :: 0 <= i < |UserPayments(rows, userId, status, provider, limit)|
              && y in Matching(rows, userId, status, provider) && y !in UserPayments(rows, userId, status, provider, limit)
              ==> y.createdAt <= UserPayments(rows, userId, status, provider, limit)[i].createdAt
    ensures |Matching(rows, userId, status, provider)| <= limit ==>
      forall y :: y in Matching(rows, userId, status, provider) ==> y in UserPayments(rows, userId, status, provider, limit)
  {
    var m := Matching(rows, userId, status, provider);
    var r := UserPayments(rows, userId, status, provider, limit);
    assert r == Take(SortDesc(m, CreatedKey), limit);
    TopRows(m, CreatedKey, limit);
    forall i, y | 0 <= i < |r| && y in m && y !in r ensures y.createdAt <= r[i].createdAt {
      assert CreatedKey(y) <= CreatedKey(r[i]);
    }
    if |m| <= limit {
      forall y | y in m ensures y in r {
        assert y in multiset(m);
      }
    }
  }

  /** The `payments` table as the model classes see it. */
  class PaymentTable {
    var rows: seq<Payment>
    var nextId: nat

    ghost predicate Valid()
      reads this
    {
      WellFormed(State())
    }

    function State(): PaymentStore
      reads this
    {
      PaymentStore(rows, nextId)
    }

    constructor ()
      ensures Valid() && State() == PaymentStore([], 1)
    {
      rows := [];
      nextId := 1;
    }

    /** `Payments.save()`: the caller's object comes back with its id set. */
    method Save(p: Payment, now: nat) returns (saved: Payment, ok: bool)
      requires Valid()
      modifies this
      ensures Valid()
      ensures Saved(State(), saved, ok) == SavePayment(old(State()), p, now)
    {
      var r := SavePayment(State(), p, now);
      rows, nextId := r.store.rows, r.store.nextId;
      saved, ok := r.payment, r.ok;
    }
  }
}
