/** The `payment_logs` table of the inventory service: one audit row per
    transaction id, written with `INSERT ... ON DUPLICATE KEY UPDATE`. */
module PaymentLogs {
  import opened Common
  import opened Queries

  /** One row; `amount` is kept in minor currency units. */
  datatype LogRow = LogRow(id: nat, txnid: string, status: string, amount: int, createdAt: nat)

  /** The rows in insertion order and the next AUTO_INCREMENT id. */
  datatype LogStore = LogStore(rows: seq<LogRow>, nextId: nat)

  /** `txnid` is UNIQUE and ids are distinct, positive and below `nextId`. */
  ghost predicate WellFormed(st: LogStore) {
    && st.nextId >= 1
    && (forall i :: 0 <= i < |st.rows| ==> 1 <= st.rows[i].id < st.nextId)
    && (forall i, j :: 0 <= i < j < |st.rows| ==>
          st.rows[i].txnid != st.rows[j].txnid && st.rows[i].id != st.rows[j].id)
  }

  /** The constructor's `float(amount) if amount is not None else 0`, on
      whole minor units. */
  function AmountOrZero(amount: Option<int>): (r: int)
    ensures amount.Some? ==> r == amount.value
    ensures amount.None? ==> r == 0
  {
    if amount.Some? then amount.value else 0
  }

  /** Position of the first row carrying `txnid`, or -1. */
  function IndexOfTxnid(rows: seq<LogRow>, txnid: string): (k: int)
    ensures -1 <= k < |rows|
    ensures k >= 0 ==> rows[k].txnid == txnid
    ensures forall i :: 0 <= i < |rows| && (k < 0 || i < k) ==> rows[i].txnid != txnid
  {
    IndexWhere(rows, (x: LogRow) => x.txnid == txnid)
  }

  /** `get_log_by_txnid`: the row with this transaction id, or None. */
  function ByTxnid(rows: seq<LogRow>, txnid: string): (r: Option<LogRow>)
    ensures r.Some? ==> r.value in rows && r.value.txnid == txnid
    ensures r.None? <==> forall x :: x in rows ==> x.txnid != txnid
  {
    var k := IndexOfTxnid(rows, txnid);
    if k < 0 then None else Some(rows[k])
  }

  /** `get_log_by_status`: exactly the rows with this status, in table order. */
  function ByStatus(rows: seq<LogRow>, status: string): (r: seq<LogRow>)
    ensures forall x :: x in r <==> x in rows && x.status == status
    ensures |r| <= |rows|
  {
    Filter(rows, (x: LogRow) => x.status == status)
  }

  /** `save`: overwrite status, amount and created_at of the row with this
      txnid, or append a new row when there is none. */
  function Upsert(st: LogStore, txnid: string, status: string, amount: int, createdAt: nat): (r: LogStore)
    ensures WellFormed(st) ==> WellFormed(r)
    ensures r.nextId >= st.nextId
    ensures |r.rows| == |st.rows| + (if ByTxnid(st.rows, txnid).None? then 1 else 0)
    ensures ByTxnid(r.rows, txnid).Some?
    ensures var x := ByTxnid(r.rows, txnid).value;
      x.status == status && x.amount == amount && x.createdAt == createdAt
    ensures forall x :: x in st.rows && x.txnid != txnid ==> x in r.rows
    ensures forall x :: x in r.rows && x.txnid != txnid ==> x in st.rows
  {
    var k := IndexOfTxnid(st.rows, txnid);
    if k >= 0 then
      var r := st.(rows := st.rows[k := st.rows[k].(status := status, amount := amount, createdAt := createdAt)]);
      OverwriteFacts(st, k, txnid, r);
      r
    else
      var row := LogRow(st.nextId, txnid, status, amount, createdAt);
      var r := LogStore(st.rows + [row], st.nextId + 1);
      AppendFacts(st, txnid, row, r);
      r
  }

  lemma OverwriteFacts(st: LogStore, k: int, txnid: string, r: LogStore)
    requires 0 <= k < |st.rows| && k == IndexOfTxnid(st.rows, txnid)
    requires r.nextId == st.nextId && |r.rows| == |st.rows|
    requires r.rows[k].txnid == txnid && r.rows[k].id == st.rows[k].id
    requires forall i :: 0 <= i < |st.rows| && i != k ==> r.rows[i] == st.rows[i]
    ensures WellFormed(st) ==> WellFormed(r)
    ensures ByTxnid(r.rows, txnid) == Some(r.rows[k])
    ensures forall x :: x in st.rows && x.txnid != txnid ==> x in r.rows
    ensures forall x :: x in r.rows && x.txnid != txnid ==> x in st.rows
  {
    assert IndexOfTxnid(r.rows, txnid) == k by {
      forall i | 0 <= i < k ensures r.rows[i].txnid != txnid {
        assert r.rows[i] == st.rows[i];
      }
    }
    forall i | 0 <= i < |st.rows| && i != k ensures st.rows[i] in r.rows {
      assert r.rows[i] == st.rows[i];
    }
  }

  lemma AppendFacts(st: LogStore, txnid: string, row: LogRow, r: LogStore)
    requires IndexOfTxnid(st.rows, txnid) < 0
    requires row.txnid == txnid && row.id == st.nextId
    requires r == LogStore(st.rows + [row], st.nextId + 1)
    ensures WellFormed(st) ==> WellFormed(r)
    ensures ByTxnid(r.rows, txnid) == Some(row)
    ensures forall x :: x in r.rows && x.txnid != txnid ==> x in st.rows
  {
    assert r.rows[|st.rows|] == row;
    assert IndexOfTxnid(r.rows, txnid) == |st.rows| by {
      forall i | 0 <= i < |st.rows| ensures r.rows[i].txnid != txnid {
        assert r.rows[i] == st.rows[i];
      }
    }
  }

  /** Saving the same values twice leaves the table as saving them once. */
  lemma UpsertIdempotent(st: LogStore, txnid: string, status: string, amount: int, createdAt: nat)
    ensures Upsert(Upsert(st, txnid, status, amount, createdAt), txnid, status, amount, createdAt)
         == Upsert(st, txnid, status, amount, createdAt)
  {
    var once := Upsert(st, txnid, status, amount, createdAt);
    var k := IndexOfTxnid(st.rows, txnid);
    var k' := IndexOfTxnid(once.rows, txnid);
    if k >= 0 {
      assert k' == k by {
        forall i | 0 <= i < k ensures once.rows[i].txnid != txnid {
          assert once.rows[i] == st.rows[i];
        }
        assert once.rows[k].txnid == txnid;
      }
    } else {
      assert k' == |st.rows| by {
        forall i | 0 <= i < |st.rows| ensures once.rows[i].txnid != txnid {
          assert once.rows[i] == st.rows[i];
        }
        assert once.rows[|st.rows|].txnid == txnid;
      }
    }
    assert once.rows[k' := once.rows[k'].(status := status, amount := amount, createdAt := createdAt)] == once.rows;
  }

  /** A log built without an amount reads back with amount 0, and one built
      with an amount reads back with exactly that amount. */
  lemma {:induction false} SavedAmountReadsBack(st: LogStore, txnid: string, status: string, amount: Option<int>, createdAt: nat)
    ensures var x := ByTxnid(Upsert(st, txnid, status, AmountOrZero(amount), createdAt).rows, txnid);
      && x.Some?
      && (amount.None? ==> x.value.amount == 0)
      && (amount.Some? ==> x.value.amount == amount.value)
  {
  }

  /** Once a row exists it stays: a later save never removes a transaction id. */
  lemma UpsertKeepsTxnids(st: LogStore, txnid: string, status: string, amount: int, createdAt: nat, other: string)
    requires ByTxnid(st.rows, other).Some?
    ensures ByTxnid(Upsert(st, txnid, status, amount, createdAt).rows, other).Some?
    ensures |Upsert(st, txnid, status, amount, createdAt).rows| >= |st.rows|
  {
    var x := ByTxnid(st.rows, other).value;
    if other != txnid {
      assert x in Upsert(st, txnid, status, amount, createdAt).rows;
    }
  }

  /** A save touches only its own transaction id: every other txnid reads
      back the row it read before. */
  lemma {:induction false} UpsertKeepsOther(st: LogStore, txnid: string, status: string, amount: int, createdAt: nat, other: string)
    requires other != txnid
    ensures ByTxnid(Upsert(st, txnid, status, amount, createdAt).rows, other) == ByTxnid(st.rows, other)
  {
    var r := Upsert(st, txnid, status, amount, createdAt);
    var k := IndexOfTxnid(st.rows, txnid);
    assert |r.rows| >= |st.rows|;
    forall i | 0 <= i < |st.rows|
      ensures r.rows[i].txnid == other <==> st.rows[i].txnid == other
      ensures r.rows[i].txnid == other ==> r.rows[i] == st.rows[i]
    {
      if i == k {
        assert r.rows[i].txnid == txnid;
      } else {
        assert r.rows[i] == st.rows[i];
      }
    }
    if k < 0 {
      assert r.rows[|st.rows|].txnid == txnid;
    }
    var j := IndexOfTxnid(st.rows, other);
    var j' := IndexOfTxnid(r.rows, other);
    assert j' == j;
  }

  /** The `payment_logs` table as the model classes see it. */
  class LogTable {
    var rows: seq<LogRow>
    var nextId: nat

    ghost predicate Valid()
      reads this
    {
      WellFormed(State())
    }

    function State(): LogStore
      reads this
    {
      LogStore(rows, nextId)
    }

    constructor ()
      ensures Valid() && State() == LogStore([], 1)
    {
      rows := [];
      nextId := 1;
    }

    /** `Logs(txnid, status, amount, created_at).save()`; a missing amount
        is stored as the constructor's 0. */
    method Save(txnid: string, status: string, amount: Option<int>, createdAt: nat)
      requires Valid()
      modifies this
      ensures Valid()
      ensures State() == Upsert(old(State()), txnid, status, AmountOrZero(amount), createdAt)
    {
      var value := AmountOrZero(amount);
      var k := IndexOfTxnid(rows, txnid);
      if k >= 0 {
        rows := rows[k := rows[k].(status := status, amount := value, createdAt := createdAt)];
      } else {
        rows := rows + [LogRow(nextId, txnid, status, value, createdAt)];
        nextId := nextId + 1;
      }
    }

    /** `Logs.get_log_by_txnid`. */
    function Find(txnid: string): (r: Option<LogRow>)
      reads this
      ensures r.Some? ==> r.value in rows && r.value.txnid == txnid
      ensures r.None? <==> forall x :: x in rows ==> x.txnid != txnid
    {
      ByTxnid(rows, txnid)
    }
  }
}
