/** `GET /logs` and `GET /logs/id` of the inventory service: the payment
    audit rows, all or by status, and one row by transaction id. The
    `created_at` timestamp is passed through as a number; its ISO text is
    not part of this model. */
module LogsApi {
  import opened Common
  import opened PaymentLogs

  /** One entry of a response. */
  datatype LogEntry = LogEntry(id: nat, txnid: string, status: string, amount: int, createdAt: nat)

  /** `{'logs': [...]}` with 200, or `Log not found` with 404. */
  datatype LogsResponse = LogsListed(entries: seq<LogEntry>) | LogsNotFound

  /** `{'log': {...}}` with 200, or `Log not found` with 404. */
  datatype LogResponse = LogFound(entry: LogEntry) | LogNotFound

  function EntryOf(row: LogRow): LogEntry {
    LogEntry(row.id, row.txnid, row.status, row.amount, row.createdAt)
  }

  /** The rows `get_all_logs` selects: all of them for an empty or missing
      `status` argument, else those with that status. */
  function Selected(rows: seq<LogRow>, status: Option<string>): seq<LogRow> {
    if !Truthy(status) then rows else ByStatus(rows, status.value)
  }

  /** `get_all_logs`: the selected rows as entries, in order. */
  function AllLogs(rows: seq<LogRow>, status: Option<string>): LogsResponse {
    var logs := Selected(rows, status);
    if logs == [] then LogsNotFound
    else LogsListed(seq(|logs|, i requires 0 <= i < |logs| => EntryOf(logs[i])))
  }

  /** `get_log_by_txnid`. A missing `txn_id` argument queries `txnid =
      NULL`, which matches no row. */
  function LogByTxnid(rows: seq<LogRow>, txnid: Option<string>): LogResponse {
    if txnid.None? then LogNotFound
    else
      match ByTxnid(rows, txnid.value)
      case None => LogNotFound
      case Some(row) => LogFound(EntryOf(row))
  }

  /** An entry carries its row's columns unchanged. */
  predicate Carries(e: LogEntry, row: LogRow) {
    e.id == row.id && e.txnid == row.txnid && e.status == row.status && e.amount == row.amount && e.createdAt == row.createdAt
  }

  /** Without a status every row is listed, in table order, and only an
      empty table is a 404. */
  lemma {:induction false} AllLogsWithoutStatus(rows: seq<LogRow>, status: Option<string>)
    requires !Truthy(status)
    ensures AllLogs(rows, status) == LogsNotFound <==> rows == []
    ensures AllLogs(rows, status).LogsListed? ==>
      var es := AllLogs(rows, status).entries;
      |es| == |rows| && forall i :: 0 <= i < |rows| ==> Carries(es[i], rows[i])
  {
  }

  /** With a status the entries are exactly the rows with that status, and
      it is a 404 exactly when no row has it. */
  lemma {:induction false} AllLogsWithStatus(rows: seq<LogRow>, status: Option<string>)
    requires Truthy(status)
    ensures AllLogs(rows, status) == LogsNotFound <==> forall x :: x in rows ==> x.status != status.value
    ensures AllLogs(rows, status).LogsListed? ==>
      var es := AllLogs(rows, status).entries;
      (forall e :: e in es ==> e.status == status.value && exists x :: x in rows && Carries(e, x))
      && (forall x :: x in rows && x.status == status.value ==> EntryOf(x) in es)
  {
    var logs := ByStatus(rows, status.value);
    if logs == [] {
      forall x | x in rows ensures x.status != status.value {
        assert x.status == status.value ==> x in logs;
      }
    } else {
      assert logs[0] in logs;
      var es := AllLogs(rows, status).entries;
      forall e | e in es ensures e.status == status.value && exists x :: x in rows && Carries(e, x) {
        var i :| 0 <= i < |es| && es[i] == e;
        assert logs[i] in logs;
      }
      forall x | x in rows && x.status == status.value ensures EntryOf(x) in es {
        var i :| 0 <= i < |logs| && logs[i] == x;
        assert es[i] == EntryOf(x);
      }
    }
  }

  /** The lookup is a 404 exactly when no row has the id (or none is
      given); otherwise it is the row with that id, and on a well-formed
      table the only one. */
  lemma {:induction false} LookupByTxnid(st: LogStore, txnid: Option<string>)
    ensures LogByTxnid(st.rows, txnid) == LogNotFound <==> txnid.None? || forall x :: x in st.rows ==> x.txnid != txnid.value
    ensures LogByTxnid(st.rows, txnid).LogFound? ==>
      exists x :: x in st.rows && x.txnid == txnid.value && Carries(LogByTxnid(st.rows, txnid).entry, x)
    ensures WellFormed(st) && txnid.Some? ==>
      forall x :: x in st.rows && x.txnid == txnid.value ==> LogByTxnid(st.rows, txnid) == LogFound(EntryOf(x))
  {
    if WellFormed(st) && txnid.Some? {
      forall x | x in st.rows && x.txnid == txnid.value ensures LogByTxnid(st.rows, txnid) == LogFound(EntryOf(x)) {
        var y := ByTxnid(st.rows, txnid.value).value;
        var i :| 0 <= i < |st.rows| && st.rows[i] == x;
        var j :| 0 <= j < |st.rows| && st.rows[j] == y;
        assert i == j;
      }
    }
  }
}
