/** What `verify_payment`, `create_order` and the history promise, proved
    about the flow functions of `RazorpayFlow`. */
module RazorpayProperties {
  import opened Common
  import opened Queries
  import L = PaymentLogs
  import P = Payments
  import U = Users
  import opened RazorpayFlow

  /** The object shares its id and order id with a stored row, as every
      payment the endpoints load does. */
  ghost predicate Stored(w: World, p: P.Payment) {
    exists row :: row in w.payments.rows && row.id == p.id && row.orderId == p.orderId
  }

  /** The stored state `handle_payment` leaves when the payment is stored: the
      row of that id is marked and stamped, no other row changes, one email
      goes out, and nothing raises. */
  lemma {:induction false} HandleStored(w: World, user: U.User, p: P.Payment, success: bool, now: nat)
    requires Consistent(w) && Stored(w, p)
    ensures var h := HandlePayment(w, Some(user), Some(p), success, now);
      var marked := p.(status := if success then P.STATUS_COMPLETED else P.STATUS_FAILED, updatedAt := now);
      && !h.raised
      && Consistent(h.w)
      && h.payment == Some(marked)
      && h.w.logs == w.logs && h.w.users == w.users
      && h.w.notices == w.notices + [Notice(user.email, user.firstname, p.amount, success)]
      && P.ById(h.w.payments.rows, p.id) == Some(marked.(createdAt := P.ById(w.payments.rows, p.id).value.createdAt))
  {
    var row :| row in w.payments.rows && row.id == p.id && row.orderId == p.orderId;
    var marked := p.(status := if success then P.STATUS_COMPLETED else P.STATUS_FAILED, updatedAt := now);
    P.SaveLoadedSucceeds(w.payments, row, marked, now);
    P.ByIdOfRow(w.payments, row);
    P.ByIdAfterSave(w.payments, marked, now, p.id);
  }

  /** `handle_payment` on a stored payment changes no other payment. */
  lemma {:induction false} HandleStoredKeepsOthers(w: World, user: U.User, p: P.Payment, success: bool, now: nat, id: nat)
    requires Consistent(w) && Stored(w, p) && id != p.id
    ensures P.ById(HandlePayment(w, Some(user), Some(p), success, now).w.payments.rows, id) == P.ById(w.payments.rows, id)
  {
    var row :| row in w.payments.rows && row.id == p.id && row.orderId == p.orderId;
    var marked := p.(status := if success then P.STATUS_COMPLETED else P.STATUS_FAILED, updatedAt := now);
    P.SaveLoadedSucceeds(w.payments, row, marked, now);
    P.ByIdAfterSave(w.payments, marked, now, id);
  }

  /** The outer handler on a stored payment: the row becomes "pending" and the
      reply is 400. */
  lemma {:induction false} OuterStored(w: World, log: Option<L.LogRow>, p: P.Payment, now: nat)
    requires Consistent(w) && Stored(w, p)
    ensures var r := OuterHandler(w, log, Some(p), now);
      && r.reply == Reply(400, Raised)
      && Consistent(r.w)
      && r.w.users == w.users && r.w.notices == w.notices
      && P.ById(r.w.payments.rows, p.id) == Some(p.(status := P.STATUS_PENDING, updatedAt := now,
                                                    createdAt := P.ById(w.payments.rows, p.id).value.createdAt))
  {
    var row :| row in w.payments.rows && row.id == p.id && row.orderId == p.orderId;
    var pending := p.(status := P.STATUS_PENDING);
    var w1 := if log.Some? then SaveLog(w, log.value.(status := STATUS_INCOMPLETE)) else w;
    assert w1.payments == w.payments;
    P.SaveLoadedSucceeds(w.payments, row, pending, now);
    P.ByIdOfRow(w.payments, row);
    P.ByIdAfterSave(w.payments, pending, now, p.id);
  }

  // ---------------------------------------------------------------------
  // No payment id in the request

  /** Without a payment id: no credits move, the reply is 400, and the target
      payment (the user's latest, else the request's order) is failed with a
      failure email, or set "pending" by the outer handler when the user does
      not exist. */
  lemma {:induction false} MissingIdFailsTarget(w: World, userId: nat, req: VerifyRequest, fetch: Fetch, now: nat)
    requires Consistent(w) && !Truthy(req.paymentId)
    ensures var r := Verify(w, userId, req, fetch, now);
      var user := U.ById(w.users.rows, userId);
      var target := FailureTarget(w, P.LatestByUser(w.payments.rows, userId), req);
      && r.w.users == w.users
      && r.reply.code == 400
      && Consistent(r.w)
      && (target.None? ==> r.w.payments == w.payments && r.w.notices == w.notices && r.reply.body == PaymentIdMissing)
      && (target.Some? && user.Some? ==>
            && P.ById(r.w.payments.rows, target.value.id) == Some(target.value.(status := P.STATUS_FAILED, updatedAt := now))
            && r.w.notices == w.notices + [Notice(user.value.email, user.value.firstname, target.value.amount, false)]
            && r.reply.body == PaymentIdMissing)
      && (target.Some? && user.None? ==>
            && P.ById(r.w.payments.rows, target.value.id) == Some(target.value.(status := P.STATUS_PENDING, updatedAt := now))
            && r.w.notices == w.notices
            && r.reply.body == Raised)
  {
    var user := U.ById(w.users.rows, userId);
    var latest := P.LatestByUser(w.payments.rows, userId);
    var target := FailureTarget(w, latest, req);
    var amount := if target.Some? then 100 * target.value.amount else req.amount.GetOr(0);
    var log := L.LogRow(0, TxnidFor(req.orderId, userId, now), P.STATUS_FAILED, amount, now);
    var w1 := SaveLog(w, log);
    if target.Some? {
      P.LatestIsLatest(w.payments.rows, userId);
      assert target.value in w.payments.rows;
      P.ByIdOfRow(w.payments, target.value);
      assert Stored(w1, target.value);
      if user.Some? {
        HandleStored(w1, user.value, target.value, false, now);
      } else {
        OuterStored(w1, Some(log), target.value, now);
      }
    }
  }

  /** Without a payment id the failure is logged under the order id, or a
      FAIL_ id, with the target's amount or the expected amount; it ends
      "incomplete" only when the outer handler ran. */
  lemma {:induction false} MissingIdLogsFailure(w: World, userId: nat, req: VerifyRequest, fetch: Fetch, now: nat)
    requires Consistent(w) && !Truthy(req.paymentId)
    ensures var r := Verify(w, userId, req, fetch, now);
      var user := U.ById(w.users.rows, userId);
      var target := FailureTarget(w, P.LatestByUser(w.payments.rows, userId), req);
      var log := L.ByTxnid(r.w.logs.rows, TxnidFor(req.orderId, userId, now));
      && log.Some?
      && log.value.status == (if target.Some? && user.None? then STATUS_INCOMPLETE else P.STATUS_FAILED)
      && log.value.amount == (if target.Some? then 100 * target.value.amount else req.amount.GetOr(0))
  {
    var user := U.ById(w.users.rows, userId);
    var latest := P.LatestByUser(w.payments.rows, userId);
    var target := FailureTarget(w, latest, req);
    var amount := if target.Some? then 100 * target.value.amount else req.amount.GetOr(0);
    var log := L.LogRow(0, TxnidFor(req.orderId, userId, now), P.STATUS_FAILED, amount, now);
    var w1 := SaveLog(w, log);
    if target.Some? {
      P.LatestIsLatest(w.payments.rows, userId);
      P.ByIdOfRow(w.payments, target.value);
      assert Stored(w1, target.value);
      if user.Some? {
        HandleStored(w1, user.value, target.value, false, now);
      } else {
        OuterStored(w1, Some(log), target.value, now);
      }
    }
  }

  // ---------------------------------------------------------------------
  // The inner exception handler

  /** The log row of this txnid holds this status and amount. */
  ghost predicate LogIs(w: World, txnid: string, status: string, amount: int) {
    var log := L.ByTxnid(w.logs.rows, txnid);
    log.Some? && log.value.status == status && log.value.amount == amount
  }

  /** The inner handler with a stored payment (or none): the log becomes
      "incomplete", the payment "failed" with a failure email, or "pending"
      when the user is missing; credits never move and the reply is 400. */
  lemma {:induction false} InnerStored(w: World, user: Option<U.User>, payment: Option<P.Payment>, log: L.LogRow, now: nat)
    requires Consistent(w) && (payment.Some? ==> Stored(w, payment.value))
    ensures var r := InnerHandler(w, user, payment, log, now);
      && Consistent(r.w)
      && r.w.users == w.users
      && r.reply.code == 400
      && LogIs(r.w, log.txnid, STATUS_INCOMPLETE, log.amount)
      && (payment.None? ==> r.w.payments == w.payments && r.w.notices == w.notices && r.reply.body == Raised)
      && (payment.Some? && user.Some? ==>
            && P.ById(r.w.payments.rows, payment.value.id) == Some(payment.value.(status := P.STATUS_FAILED, updatedAt := now,
                 createdAt := P.ById(w.payments.rows, payment.value.id).value.createdAt))
            && r.w.notices == w.notices + [Notice(user.value.email, user.value.firstname, payment.value.amount, false)]
            && r.reply.body == Error("Failed to process payment details"))
      && (payment.Some? && user.None? ==>
            && P.ById(r.w.payments.rows, payment.value.id) == Some(payment.value.(status := P.STATUS_PENDING, updatedAt := now,
                 createdAt := P.ById(w.payments.rows, payment.value.id).value.createdAt))
            && r.w.notices == w.notices
            && r.reply.body == Raised)
  {
    var log1 := log.(status := STATUS_INCOMPLETE);
    var w1 := SaveLog(w, log1);
    if payment.Some? {
      assert Stored(w1, payment.value);
      if user.Some? {
        HandleStored(w1, user.value, payment.value, false, now);
      } else {
        OuterStored(w1, Some(log1), payment.value, now);
        assert OuterHandler(w1, Some(log1), payment, now).w.logs == SaveLog(w1, log1.(status := STATUS_INCOMPLETE)).logs;
        assert log1.(status := STATUS_INCOMPLETE) == log1;
        L.UpsertIdempotent(w.logs, log1.txnid, log1.status, log1.amount, log1.createdAt);
      }
    }
  }

  // ---------------------------------------------------------------------
  // Settling a verified payment

  /** The payment as the success path rewrites it before `handle_payment`. */
  function Confirmed(p: P.Payment, req: VerifyRequest, record: P.GatewayPayment): P.Payment {
    p.(providerPaymentId := req.paymentId, providerSignature := req.signature,
       notes := Some(MergedNotes(p.notes, record, req.credits)))
  }

  /** Every balance moves by `delta` on `id` and nowhere else. */
  ghost predicate BalancesMoved(before: World, after: World, id: nat, delta: int) {
    forall k :: U.Balance(after.users.rows, k) == U.Balance(before.users.rows, k) + (if k == id then delta else 0)
  }

  /** `user.save()` on the success path: a loaded user saves without error,
      keeps every balance and still reads back by id. */
  lemma {:induction false} SubscriptionSaved(w: World, user: U.User, req: VerifyRequest, now: nat)
    requires Consistent(w) && user in w.users.rows
    ensures var s := U.SaveUser(w.users, user.(subscription := req.subscription), now);
      && s.ok && U.WellFormed(s.store)
      && s.user == user.(subscription := req.subscription, updatedAt := now)
      && (forall k :: U.Balance(s.store.rows, k) == U.Balance(w.users.rows, k))
      && U.HasId(s.store.rows, user.id)
  {
    var u := user.(subscription := req.subscription);
    U.SaveKeepsBalances(w.users, user, u, now);
    U.ByIdOfRow(w.users, user);
    var s := U.SaveUser(w.users, u, now);
    var x := U.ById(s.store.rows, user.id).value;
    var k :| 0 <= k < |s.store.rows| && s.store.rows[k] == x;
  }

  /** The success path with no payment resolved: the assignment to the
      missing payment raises, the outer handler answers 400 and nothing is
      granted or emailed. */
  lemma {:induction false} SettleWithoutPayment(w: World, user: U.User, log: L.LogRow,
                                                req: VerifyRequest, record: P.GatewayPayment, now: nat)
    requires Consistent(w) && user in w.users.rows
    ensures var r := Settle(w, user, None, log, req, record, now);
      && Consistent(r.w)
      && r.reply == Reply(400, Raised)
      && BalancesMoved(w, r.w, user.id, 0)
      && r.w.payments == w.payments && r.w.notices == w.notices
      && LogIs(r.w, log.txnid, STATUS_INCOMPLETE, log.amount)
  {
    SubscriptionSaved(w, user, req, now);
    var s := U.SaveUser(w.users, user.(subscription := req.subscription), now);
    InnerStored(w.(users := s.store), Some(s.user), None, log, now);
  }

  /** The state just before `update_credits` on the success path. */
  lemma {:induction false} SettleBeforeCredits(w: World, user: U.User, payment: P.Payment, log: L.LogRow,
                                               req: VerifyRequest, record: P.GatewayPayment, now: nat)
    requires Consistent(w) && user in w.users.rows && Stored(w, payment)
    ensures var s := U.SaveUser(w.users, user.(subscription := req.subscription), now);
      var p := Confirmed(payment, req, record);
      var h := HandlePayment(w.(users := s.store), Some(s.user), Some(p), true, now);
      var marked := p.(status := P.STATUS_COMPLETED, updatedAt := now);
      && s.ok && !h.raised && h.payment == Some(marked)
      && Consistent(h.w) && h.w.users == s.store && h.w.logs == w.logs
      && (forall k :: U.Balance(h.w.users.rows, k) == U.Balance(w.users.rows, k))
      && U.HasId(h.w.users.rows, user.id)
      && s.user == user.(subscription := req.subscription, updatedAt := now)
      && h.w.notices == w.notices + [Notice(user.email, user.firstname, payment.amount, true)]
      && P.ById(h.w.payments.rows, payment.id) == Some(marked.(createdAt := P.ById(w.payments.rows, payment.id).value.createdAt))
      && Stored(h.w, marked)
  {
    SubscriptionSaved(w, user, req, now);
    var s := U.SaveUser(w.users, user.(subscription := req.subscription), now);
    var w1 := w.(users := s.store);
    var p := Confirmed(payment, req, record);
    assert Stored(w1, p);
    HandleStored(w1, s.user, p, true, now);
    var h := HandlePayment(w1, Some(s.user), Some(p), true, now);
    var row := P.ById(h.w.payments.rows, p.id).value;
    assert row in h.w.payments.rows;
  }

  /** The success path with credits, step by step: the subscription save,
      `handle_payment`, the log update, then `update_credits`. */
  lemma {:induction false} SettleGrantsSteps(w: World, user: U.User, payment: P.Payment, log: L.LogRow,
                                             req: VerifyRequest, record: P.GatewayPayment, now: nat)
    requires Consistent(w) && user in w.users.rows && Stored(w, payment) && req.credits.Some?
    ensures var s := U.SaveUser(w.users, user.(subscription := req.subscription), now);
      var h := HandlePayment(w.(users := s.store), Some(s.user), Some(Confirmed(payment, req, record)), true, now);
      var log1 := log.(status := h.payment.value.status, amount := 100 * h.payment.value.amount);
      var w2 := SaveLog(h.w, log1);
      var c := U.AddCredits(w2.users, s.user, req.credits, now);
      Settle(w, user, Some(payment), log, req, record, now)
        == Outcome(w2.(users := c.store), Reply(200, Verified(req.credits.value, c.user.creditPoint)))
  {
    SettleBeforeCredits(w, user, payment, log, req, record, now);
  }

  /** `update_credits` on a user whose object holds the stored balance:
      the object ends up holding the new stored balance, which is the only
      one that moved. */
  lemma {:induction false} CreditsOfLoaded(st: U.UserStore, u: U.User, amount: int, now: nat)
    requires U.WellFormed(st) && U.HasId(st.rows, u.id) && u.creditPoint == U.Balance(st.rows, u.id)
    ensures var c := U.AddCredits(st, u, Some(amount), now);
      && U.WellFormed(c.store)
      && c.user.creditPoint == U.Balance(c.store.rows, u.id)
      && (forall k :: U.Balance(c.store.rows, k) == U.Balance(st.rows, k) + (if k == u.id then amount else 0))
      && U.ById(c.store.rows, u.id).Some?
  {
    U.CreditsMoveOneBalance(st, u, amount, now);
  }

  /** The balance half of the success path with credits. */
  lemma {:induction false} SettleGrantsBalance(w: World, user: U.User, payment: P.Payment, log: L.LogRow,
                                               req: VerifyRequest, record: P.GatewayPayment, now: nat)
    requires Consistent(w) && user in w.users.rows && Stored(w, payment) && req.credits.Some?
    ensures var r := Settle(w, user, Some(payment), log, req, record, now);
      && Consistent(r.w)
      && r.reply == Reply(200, Verified(req.credits.value, U.Balance(r.w.users.rows, user.id)))
      && BalancesMoved(w, r.w, user.id, req.credits.value)
      && U.ById(r.w.users.rows, user.id).Some?
  {
    SettleBeforeCredits(w, user, payment, log, req, record, now);
    SettleGrantsSteps(w, user, payment, log, req, record, now);
    var s := U.SaveUser(w.users, user.(subscription := req.subscription), now);
    var h := HandlePayment(w.(users := s.store), Some(s.user), Some(Confirmed(payment, req, record)), true, now);
    var log1 := log.(status := h.payment.value.status, amount := 100 * h.payment.value.amount);
    var w2 := SaveLog(h.w, log1);
    U.ByIdOfRow(w.users, user);
    assert w2.users == s.store;
    assert s.user.creditPoint == U.Balance(w2.users.rows, user.id);
    CreditsOfLoaded(w2.users, s.user, req.credits.value, now);
  }

  /** The records half of the success path with credits. */
  lemma {:induction false} SettleGrantsRecords(w: World, user: U.User, payment: P.Payment, log: L.LogRow,
                                               req: VerifyRequest, record: P.GatewayPayment, now: nat)
    requires Consistent(w) && user in w.users.rows && Stored(w, payment) && req.credits.Some?
    ensures var r := Settle(w, user, Some(payment), log, req, record, now);
      && P.ById(r.w.payments.rows, payment.id)
           == Some(Confirmed(payment, req, record).(status := P.STATUS_COMPLETED, updatedAt := now,
                                                    createdAt := P.ById(w.payments.rows, payment.id).value.createdAt))
      && r.w.notices == w.notices + [Notice(user.email, user.firstname, payment.amount, true)]
      && LogIs(r.w, log.txnid, P.STATUS_COMPLETED, 100 * payment.amount)
  {
    SettleBeforeCredits(w, user, payment, log, req, record, now);
    SettleGrantsSteps(w, user, payment, log, req, record, now);
  }

  /** The success path with credits: the payment is completed with the
      request's payment id, signature and merged notes, one success email
      goes out, the log takes the payment's status and amount, and the
      balance grows by exactly the credits, which the reply reports. */
  lemma {:induction false} SettleGrants(w: World, user: U.User, payment: P.Payment, log: L.LogRow,
                                        req: VerifyRequest, record: P.GatewayPayment, now: nat)
    requires Consistent(w) && user in w.users.rows && Stored(w, payment) && req.credits.Some?
    ensures var r := Settle(w, user, Some(payment), log, req, record, now);
      && Consistent(r.w)
      && r.reply == Reply(200, Verified(req.credits.value, U.Balance(r.w.users.rows, user.id)))
      && BalancesMoved(w, r.w, user.id, req.credits.value)
      && U.ById(r.w.users.rows, user.id).Some?
      && P.ById(r.w.payments.rows, payment.id)
           == Some(Confirmed(payment, req, record).(status := P.STATUS_COMPLETED, updatedAt := now,
                                                    createdAt := P.ById(w.payments.rows, payment.id).value.createdAt))
      && r.w.notices == w.notices + [Notice(user.email, user.firstname, payment.amount, true)]
      && LogIs(r.w, log.txnid, P.STATUS_COMPLETED, 100 * payment.amount)
  {
    SettleGrantsBalance(w, user, payment, log, req, record, now);
    SettleGrantsRecords(w, user, payment, log, req, record, now);
  }

  /** The success path without credits: the `+=` of `update_credits` raises
      after the success email and the log update, so the inner handler fails
      the payment, sends a failure email and grants nothing. */
  lemma {:induction false} SettleRollsBack(w: World, user: U.User, payment: P.Payment, log: L.LogRow,
                                           req: VerifyRequest, record: P.GatewayPayment, now: nat)
    requires Consistent(w) && user in w.users.rows && Stored(w, payment) && req.credits.None?
    ensures var r := Settle(w, user, Some(payment), log, req, record, now);
      && Consistent(r.w)
      && r.reply == Reply(400, Error("Failed to process payment details"))
      && BalancesMoved(w, r.w, user.id, 0)
      && U.ById(r.w.users.rows, user.id).Some?
      && P.ById(r.w.payments.rows, payment.id)
           == Some(Confirmed(payment, req, record).(status := P.STATUS_FAILED, updatedAt := now,
                                                    createdAt := P.ById(w.payments.rows, payment.id).value.createdAt))
      && r.w.notices == w.notices + [Notice(user.email, user.firstname, payment.amount, true)]
                                  + [Notice(user.email, user.firstname, payment.amount, false)]
      && LogIs(r.w, log.txnid, STATUS_INCOMPLETE, 100 * payment.amount)
  {
    SettleBeforeCredits(w, user, payment, log, req, record, now);
    var s := U.SaveUser(w.users, user.(subscription := req.subscription), now);
    var h := HandlePayment(w.(users := s.store), Some(s.user), Some(Confirmed(payment, req, record)), true, now);
    var log1 := log.(status := h.payment.value.status, amount := 100 * h.payment.value.amount);
    var w2 := SaveLog(h.w, log1);
    assert Settle(w, user, Some(payment), log, req, record, now) == InnerHandler(w2, Some(s.user), h.payment, log1, now);
    InnerStored(w2, Some(s.user), h.payment, log1, now);
  }

  // ---------------------------------------------------------------------
  // Other transactions' logs

  /** The transaction id every log write of one `verify_payment` call uses:
      the order id (or a FAIL_ id) without a payment id, else the pending
      log's. */
  function VerifyTxnid(w: World, userId: nat, req: VerifyRequest, now: nat): string {
    if !Truthy(req.paymentId) then TxnidFor(req.orderId, userId, now) else PendingLog(w, userId, req, now).txnid
  }

  /** The log of `other` reads back as before some handler ran. */
  ghost predicate KeepsLog(before: World, after: World, other: string) {
    L.ByTxnid(after.logs.rows, other) == L.ByTxnid(before.logs.rows, other)
  }

  lemma {:induction false} OuterKeepsOther(w: World, log: Option<L.LogRow>, payment: Option<P.Payment>, now: nat, other: string)
    requires log.Some? ==> other != log.value.txnid
    ensures KeepsLog(w, OuterHandler(w, log, payment, now).w, other)
  {
    if log.Some? {
      var l := log.value.(status := STATUS_INCOMPLETE);
      L.UpsertKeepsOther(w.logs, l.txnid, l.status, l.amount, l.createdAt, other);
    }
  }

  lemma {:induction false} InnerKeepsOther(w: World, user: Option<U.User>, payment: Option<P.Payment>, log: L.LogRow, now: nat, other: string)
    requires other != log.txnid
    ensures KeepsLog(w, InnerHandler(w, user, payment, log, now).w, other)
  {
    var log1 := log.(status := STATUS_INCOMPLETE);
    var w1 := SaveLog(w, log1);
    L.UpsertKeepsOther(w.logs, log1.txnid, log1.status, log1.amount, log1.createdAt, other);
    var h := HandlePayment(w1, user, payment, false, now);
    if h.raised {
      OuterKeepsOther(h.w, Some(log1), h.payment, now, other);
    }
  }

  lemma {:induction false} SettleKeepsOther(w: World, user: U.User, payment: Option<P.Payment>, log: L.LogRow,
                                             req: VerifyRequest, record: P.GatewayPayment, now: nat, other: string)
    requires other != log.txnid
    ensures KeepsLog(w, Settle(w, user, payment, log, req, record, now).w, other)
  {
    var s := U.SaveUser(w.users, user.(subscription := req.subscription), now);
    var w1 := w.(users := s.store);
    if !s.ok || payment.None? {
      InnerKeepsOther(w1, Some(s.user), payment, log, now, other);
    } else {
      var h := HandlePayment(w1, Some(s.user), Some(Confirmed(payment.value, req, record)), true, now);
      if h.raised {
        InnerKeepsOther(h.w, Some(s.user), h.payment, log, now, other);
      } else {
        var log1 := log.(status := h.payment.value.status, amount := 100 * h.payment.value.amount);
        var w2 := SaveLog(h.w, log1);
        L.UpsertKeepsOther(h.w.logs, log1.txnid, log1.status, log1.amount, log1.createdAt, other);
        var c := U.AddCredits(w2.users, s.user, req.credits, now);
        if !c.ok {
          InnerKeepsOther(w2, Some(s.user), h.payment, log1, now, other);
        }
      }
    }
  }

  /** One `verify_payment` call writes the log of one transaction id only:
      on every path, every other transaction id reads back the log row it
      had before. */
  lemma {:induction false} VerifyKeepsOtherLogs(w: World, userId: nat, req: VerifyRequest, fetch: Fetch, now: nat)
    ensures forall t :: t != VerifyTxnid(w, userId, req, now) ==> KeepsLog(w, Verify(w, userId, req, fetch, now).w, t)
  {
    var user := U.ById(w.users.rows, userId);
    var latest := P.LatestByUser(w.payments.rows, userId);
    forall t | t != VerifyTxnid(w, userId, req, now)
      ensures KeepsLog(w, Verify(w, userId, req, fetch, now).w, t)
    {
      if !Truthy(req.paymentId) {
        var payment := FailureTarget(w, latest, req);
        var amount := if payment.Some? then 100 * payment.value.amount else req.amount.GetOr(0);
        var log := L.LogRow(0, TxnidFor(req.orderId, userId, now), P.STATUS_FAILED, amount, now);
        var w1 := SaveLog(w, log);
        L.UpsertKeepsOther(w.logs, log.txnid, log.status, log.amount, log.createdAt, t);
        if payment.Some? {
          var h := HandlePayment(w1, user, payment, false, now);
          if h.raised {
            OuterKeepsOther(h.w, Some(log), h.payment, now, t);
          }
        }
      } else {
        var log := PendingLog(w, userId, req, now);
        var w1 := SaveLog(w, log);
        L.UpsertKeepsOther(w.logs, log.txnid, log.status, log.amount, log.createdAt, t);
        match fetch
        case FetchRaises =>
          InnerKeepsOther(w1, user, latest, log, now, t);
        case NothingReturned =>
          L.UpsertKeepsOther(w1.logs, log.txnid, P.STATUS_FAILED, log.amount, log.createdAt, t);
        case Fetched(record) =>
          if !Accepted(req, record) {
            L.UpsertKeepsOther(w1.logs, log.txnid, P.STATUS_FAILED, log.amount, log.createdAt, t);
          } else {
            var payment := ResolvePayment(w1, req, record);
            if user.None? {
              InnerKeepsOther(w1, user, payment, log, now, t);
            } else {
              SettleKeepsOther(w1, user.value, payment, log, req, record, now, t);
            }
          }
      }
    }
  }

  // ---------------------------------------------------------------------
  // verify_payment with a payment id

  /** The gateway's record passes both checks: status captured or
      authorized, and the expected amount (when truthy) equal to the
      record's amount. */
  predicate Accepted(req: VerifyRequest, record: P.GatewayPayment) {
    && (record.status == Some(GATEWAY_CAPTURED) || record.status == Some(GATEWAY_AUTHORIZED))
    && !(NonZero(req.amount) && req.amount.value != record.amount.GetOr(0))
  }

  /** The amount the pending log carries: the expected amount, or 0. */
  function ExpectedOrZero(req: VerifyRequest): int {
    if NonZero(req.amount) then req.amount.value else 0
  }

  /** The gateway returned nothing, a status other than captured or
      authorized, or a different amount: only the order's log changes, to
      "failed" with the expected amount; no payment, balance or email moves. */
  lemma {:induction false} GatewayRejectionChangesOnlyTheLog(w: World, userId: nat, req: VerifyRequest, fetch: Fetch, now: nat)
    requires Consistent(w) && Truthy(req.paymentId)
    requires fetch.NothingReturned? || (fetch.Fetched? && !Accepted(req, fetch.record))
    ensures var r := Verify(w, userId, req, fetch, now);
      && Consistent(r.w)
      && r.w.payments == w.payments && r.w.users == w.users && r.w.notices == w.notices
      && r.reply.code == (if fetch.NothingReturned? then 404 else 400)
      && LogIs(r.w, PendingLog(w, userId, req, now).txnid, P.STATUS_FAILED, ExpectedOrZero(req))
    ensures forall t :: t != PendingLog(w, userId, req, now).txnid ==> KeepsLog(w, Verify(w, userId, req, fetch, now).w, t)
  {
    VerifyKeepsOtherLogs(w, userId, req, fetch, now);
  }

  /** The fetch raised: the inner handler marks the log "incomplete" and fails
      the user's latest payment (or sets it "pending" when the user does not
      exist); no balance moves. */
  lemma {:induction false} GatewayErrorFailsLatest(w: World, userId: nat, req: VerifyRequest, now: nat)
    requires Consistent(w) && Truthy(req.paymentId)
    ensures var r := Verify(w, userId, req, FetchRaises, now);
      var user := U.ById(w.users.rows, userId);
      var latest := P.LatestByUser(w.payments.rows, userId);
      && Consistent(r.w)
      && r.w.users == w.users
      && r.reply.code == 400
      && LogIs(r.w, PendingLog(w, userId, req, now).txnid, STATUS_INCOMPLETE, ExpectedOrZero(req))
      && (latest.None? ==> r.w.payments == w.payments && r.w.notices == w.notices)
      && (latest.Some? && user.Some? ==>
            && P.ById(r.w.payments.rows, latest.value.id) == Some(latest.value.(status := P.STATUS_FAILED, updatedAt := now))
            && r.w.notices == w.notices + [Notice(user.value.email, user.value.firstname, latest.value.amount, false)])
      && (latest.Some? && user.None? ==>
            && P.ById(r.w.payments.rows, latest.value.id) == Some(latest.value.(status := P.STATUS_PENDING, updatedAt := now))
            && r.w.notices == w.notices)
    ensures forall t :: t != PendingLog(w, userId, req, now).txnid ==> KeepsLog(w, Verify(w, userId, req, FetchRaises, now).w, t)
  {
    VerifyKeepsOtherLogs(w, userId, req, FetchRaises, now);
    var user := U.ById(w.users.rows, userId);
    var latest := P.LatestByUser(w.payments.rows, userId);
    var log := PendingLog(w, userId, req, now);
    var w1 := SaveLog(w, log);
    assert Verify(w, userId, req, FetchRaises, now) == InnerHandler(w1, user, latest, log, now);
    if latest.Some? {
      P.LatestIsLatest(w.payments.rows, userId);
      P.ByIdOfRow(w.payments, latest.value);
      assert P.ById(w1.payments.rows, latest.value.id) == latest;
      assert Stored(w1, latest.value);
    }
    InnerStored(w1, user, latest, log, now);
  }

  /** With an accepted record the request reaches the payment resolved by the
      payment id, else by the gateway's order id, on the table as it was. */
  lemma {:induction false} AcceptedReachesSettle(w: World, userId: nat, req: VerifyRequest, record: P.GatewayPayment, now: nat)
    requires Consistent(w) && Truthy(req.paymentId) && Accepted(req, record)
    ensures var log := PendingLog(w, userId, req, now);
      var w1 := SaveLog(w, log);
      var user := U.ById(w.users.rows, userId);
      var payment := ResolvePayment(w, req, record);
      && Consistent(w1) && w1.payments == w.payments && w1.users == w.users && w1.notices == w.notices
      && (payment.Some? ==> Stored(w1, payment.value) && P.ById(w.payments.rows, payment.value.id) == payment)
      && (user.Some? ==> user.value in w1.users.rows && user.value.id == userId)
      && Verify(w, userId, req, Fetched(record), now)
         == if user.None? then InnerHandler(w1, user, payment, log, now)
            else Settle(w1, user.value, payment, log, req, record, now)
  {
    var log := PendingLog(w, userId, req, now);
    var w1 := SaveLog(w, log);
    var payment := ResolvePayment(w, req, record);
    assert ResolvePayment(w1, req, record) == payment;
    if payment.Some? {
      P.ByIdOfRow(w.payments, payment.value);
    }
  }

  /** No payment resolves: the assignment to the missing payment raises and
      the outer handler answers 400; no payment, balance or email moves. */
  lemma {:induction false} UnresolvedPaymentGrantsNothing(w: World, userId: nat, req: VerifyRequest, record: P.GatewayPayment, now: nat)
    requires Consistent(w) && Truthy(req.paymentId) && Accepted(req, record)
    requires ResolvePayment(w, req, record).None?
    ensures var r := Verify(w, userId, req, Fetched(record), now);
      && Consistent(r.w)
      && r.reply == Reply(400, Raised)
      && BalancesMoved(w, r.w, userId, 0)
      && r.w.payments == w.payments && r.w.notices == w.notices
      && LogIs(r.w, PendingLog(w, userId, req, now).txnid, STATUS_INCOMPLETE, ExpectedOrZero(req))
    ensures forall t :: t != PendingLog(w, userId, req, now).txnid ==> KeepsLog(w, Verify(w, userId, req, Fetched(record), now).w, t)
  {
    VerifyKeepsOtherLogs(w, userId, req, Fetched(record), now);
    AcceptedReachesSettle(w, userId, req, record, now);
    var log := PendingLog(w, userId, req, now);
    var w1 := SaveLog(w, log);
    var user := U.ById(w.users.rows, userId);
    if user.Some? {
      SettleWithoutPayment(w1, user.value, log, req, record, now);
    } else {
      InnerStored(w1, user, None, log, now);
    }
  }

  /** The user of the token does not exist: `user.subscription = ...` raises,
      so the inner handler cannot fail the payment either and the outer
      handler sets it "pending"; nothing is granted or emailed. */
  lemma {:induction false} UnknownUserSetsPending(w: World, userId: nat, req: VerifyRequest, record: P.GatewayPayment, now: nat)
    requires Consistent(w) && Truthy(req.paymentId) && Accepted(req, record)
    requires U.ById(w.users.rows, userId).None? && ResolvePayment(w, req, record).Some?
    ensures var r := Verify(w, userId, req, Fetched(record), now);
      var p := ResolvePayment(w, req, record).value;
      && Consistent(r.w)
      && r.reply == Reply(400, Raised)
      && r.w.users == w.users && r.w.notices == w.notices
      && P.ById(r.w.payments.rows, p.id) == Some(p.(status := P.STATUS_PENDING, updatedAt := now))
      && LogIs(r.w, PendingLog(w, userId, req, now).txnid, STATUS_INCOMPLETE, ExpectedOrZero(req))
    ensures forall t :: t != PendingLog(w, userId, req, now).txnid ==> KeepsLog(w, Verify(w, userId, req, Fetched(record), now).w, t)
  {
    VerifyKeepsOtherLogs(w, userId, req, Fetched(record), now);
    AcceptedReachesSettle(w, userId, req, record, now);
    var log := PendingLog(w, userId, req, now);
    InnerStored(SaveLog(w, log), None, ResolvePayment(w, req, record), log, now);
  }

  /** The success path: the resolved payment is completed with the request's
      payment id, signature and merged notes, exactly one success email goes
      out, the order's log takes the payment's status and amount, and the
      user's balance grows by exactly the credits, which the reply reports as
      the new total. No other balance moves. */
  lemma {:induction false} SuccessGrantsCredits(w: World, userId: nat, req: VerifyRequest, record: P.GatewayPayment, now: nat)
    requires Consistent(w) && Truthy(req.paymentId) && Accepted(req, record)
    requires U.ById(w.users.rows, userId).Some? && ResolvePayment(w, req, record).Some? && req.credits.Some?
    ensures var r := Verify(w, userId, req, Fetched(record), now);
      var user := U.ById(w.users.rows, userId).value;
      var p := ResolvePayment(w, req, record).value;
      && Consistent(r.w)
      && r.reply == Reply(200, Verified(req.credits.value, U.Balance(r.w.users.rows, userId)))
      && U.Balance(r.w.users.rows, userId) == U.Balance(w.users.rows, userId) + req.credits.value
      && BalancesMoved(w, r.w, userId, req.credits.value)
      && U.ById(r.w.users.rows, userId).Some?
      && P.ById(r.w.payments.rows, p.id)
           == Some(Confirmed(p, req, record).(status := P.STATUS_COMPLETED, updatedAt := now))
      && r.w.notices == w.notices + [Notice(user.email, user.firstname, p.amount, true)]
      && LogIs(r.w, PendingLog(w, userId, req, now).txnid, P.STATUS_COMPLETED, 100 * p.amount)
    ensures forall t :: t != PendingLog(w, userId, req, now).txnid ==> KeepsLog(w, Verify(w, userId, req, Fetched(record), now).w, t)
  {
    VerifyKeepsOtherLogs(w, userId, req, Fetched(record), now);
    AcceptedReachesSettle(w, userId, req, record, now);
    var log := PendingLog(w, userId, req, now);
    var w1 := SaveLog(w, log);
    var user := U.ById(w.users.rows, userId).value;
    var p := ResolvePayment(w, req, record).value;
    var r := Verify(w, userId, req, Fetched(record), now);
    assert r == Settle(w1, user, Some(p), log, req, record, now);
    SettleGrants(w1, user, p, log, req, record, now);
    assert user.id == userId;
  }

  /** Credits missing from the request: the success email and the log update
      have happened when `update_credits` raises; its transaction rolls back,
      and the inner handler fails the payment with a second email. */
  lemma {:induction false} MissingCreditsRollsBack(w: World, userId: nat, req: VerifyRequest, record: P.GatewayPayment, now: nat)
    requires Consistent(w) && Truthy(req.paymentId) && Accepted(req, record)
    requires U.ById(w.users.rows, userId).Some? && ResolvePayment(w, req, record).Some? && req.credits.None?
    ensures var r := Verify(w, userId, req, Fetched(record), now);
      var user := U.ById(w.users.rows, userId).value;
      var p := ResolvePayment(w, req, record).value;
      && Consistent(r.w)
      && r.reply == Reply(400, Error("Failed to process payment details"))
      && BalancesMoved(w, r.w, userId, 0)
      && P.ById(r.w.payments.rows, p.id)
           == Some(Confirmed(p, req, record).(status := P.STATUS_FAILED, updatedAt := now))
      && r.w.notices == w.notices + [Notice(user.email, user.firstname, p.amount, true)]
                                  + [Notice(user.email, user.firstname, p.amount, false)]
      && LogIs(r.w, PendingLog(w, userId, req, now).txnid, STATUS_INCOMPLETE, 100 * p.amount)
    ensures forall t :: t != PendingLog(w, userId, req, now).txnid ==> KeepsLog(w, Verify(w, userId, req, Fetched(record), now).w, t)
  {
    VerifyKeepsOtherLogs(w, userId, req, Fetched(record), now);
    AcceptedReachesSettle(w, userId, req, record, now);
    var log := PendingLog(w, userId, req, now);
    var user := U.ById(w.users.rows, userId).value;
    SettleRollsBack(SaveLog(w, log), user, ResolvePayment(w, req, record).value, log, req, record, now);
  }

  /** Credits move only on a 200, which needs a payment id, a record the
      gateway returned with an accepted status and amount, a resolved payment,
      an existing user and the credits in the request; then only that user's
      balance moves, by exactly the credits. */
  lemma {:induction false} BalanceMovesOnlyOnSuccess(w: World, userId: nat, req: VerifyRequest, fetch: Fetch, now: nat)
    requires Consistent(w)
    ensures var r := Verify(w, userId, req, fetch, now);
      && Consistent(r.w)
      && BalancesMoved(w, r.w, userId, if r.reply.code == 200 then req.credits.GetOr(0) else 0)
      && (r.reply.code == 200 ==>
            && Truthy(req.paymentId) && fetch.Fetched? && Accepted(req, fetch.record)
            && ResolvePayment(w, req, fetch.record).Some? && U.ById(w.users.rows, userId).Some?
            && req.credits.Some?)
  {
    if !Truthy(req.paymentId) {
      MissingIdFailsTarget(w, userId, req, fetch, now);
    } else if fetch.FetchRaises? {
      GatewayErrorFailsLatest(w, userId, req, now);
    } else if fetch.NothingReturned? || !Accepted(req, fetch.record) {
      GatewayRejectionChangesOnlyTheLog(w, userId, req, fetch, now);
    } else if ResolvePayment(w, req, fetch.record).None? {
      UnresolvedPaymentGrantsNothing(w, userId, req, fetch.record, now);
    } else if U.ById(w.users.rows, userId).None? {
      UnknownUserSetsPending(w, userId, req, fetch.record, now);
    } else if req.credits.Some? {
      SuccessGrantsCredits(w, userId, req, fetch.record, now);
    } else {
      MissingCreditsRollsBack(w, userId, req, fetch.record, now);
    }
  }

  /** Nothing marks a verified payment as settled for good: the same request
      verified again resolves the same payment by its payment id and grants
      the credits a second time. */
  lemma {:induction false} RepeatedVerificationGrantsAgain(w: World, userId: nat, req: VerifyRequest,
                                                           record: P.GatewayPayment, now: nat, later: nat)
    requires Consistent(w) && Truthy(req.paymentId) && Accepted(req, record)
    requires U.ById(w.users.rows, userId).Some? && ResolvePayment(w, req, record).Some? && req.credits.Some?
    ensures var r1 := Verify(w, userId, req, Fetched(record), now);
      var r2 := Verify(r1.w, userId, req, Fetched(record), later);
      && r1.reply.code == 200 && r2.reply.code == 200
      && U.Balance(r2.w.users.rows, userId) == U.Balance(w.users.rows, userId) + 2 * req.credits.value
  {
    SuccessGrantsCredits(w, userId, req, record, now);
    SecondVerificationResolves(w, userId, req, record, now);
    var r1 := Verify(w, userId, req, Fetched(record), now);
    SuccessGrantsCredits(r1.w, userId, req, record, later);
  }

  /** After a successful verification the payment carries the request's
      payment id, so the same request resolves it again. */
  lemma {:induction false} SecondVerificationResolves(w: World, userId: nat, req: VerifyRequest,
                                                      record: P.GatewayPayment, now: nat)
    requires Consistent(w) && Truthy(req.paymentId) && Accepted(req, record)
    requires U.ById(w.users.rows, userId).Some? && ResolvePayment(w, req, record).Some? && req.credits.Some?
    ensures var r1 := Verify(w, userId, req, Fetched(record), now);
      Consistent(r1.w) && U.ById(r1.w.users.rows, userId).Some? && ResolvePayment(r1.w, req, record).Some?
  {
    SuccessGrantsCredits(w, userId, req, record, now);
    var r1 := Verify(w, userId, req, Fetched(record), now);
    var p := ResolvePayment(w, req, record).value;
    var row := P.ById(r1.w.payments.rows, p.id).value;
    ResolvesByPaymentId(r1.w, row, req, record);
  }

  /** A stored payment carrying the request's payment id resolves. */
  lemma {:induction false} ResolvesByPaymentId(w: World, row: P.Payment, req: VerifyRequest, record: P.GatewayPayment)
    requires row in w.payments.rows && Truthy(req.paymentId) && row.providerPaymentId == req.paymentId
    ensures ResolvePayment(w, req, record).Some?
  {
  }

  // ---------------------------------------------------------------------
  // create_order

  /** The request carries a truthy amount and receipt. */
  predicate OrderRequestValid(req: OrderRequest) {
    NonZero(req.amount) && Truthy(req.receipt)
  }

  /** An order never touches the logs, the emails or any balance; it answers
      400 exactly for a missing amount or receipt (changing nothing), and adds
      a payment row exactly when it answers 200. */
  lemma {:induction false} CreateOrderShape(w: World, userId: nat, req: OrderRequest, gateway: OrderResult, keyId: string, now: nat)
    requires Consistent(w)
    ensures var r := CreateOrder(w, userId, req, gateway, keyId, now);
      && Consistent(r.w)
      && r.w.logs == w.logs && r.w.notices == w.notices
      && BalancesMoved(w, r.w, userId, 0)
      && (r.reply.code == 400 <==> !OrderRequestValid(req))
      && (!OrderRequestValid(req) ==> r.w == w)
      && (OrderRequestValid(req) && U.ById(w.users.rows, userId).None? ==> r == Outcome(w, Reply(500, Error("Failed to create order"))))
      && (r.reply.code == 200 || r.reply.code == 400 || r.reply.code == 500)
      && |r.w.payments.rows| == |w.payments.rows| + (if r.reply.code == 200 then 1 else 0)
  {
    var r := CreateOrder(w, userId, req, gateway, keyId, now);
    var user := U.ById(w.users.rows, userId);
    if OrderRequestValid(req) && user.Some? {
      var u := user.value.(subscription := TierName(req.notes.GetOr(map[])));
      U.SaveKeepsBalances(w.users, user.value, u, now);
      assert r.w.users == U.SaveUser(w.users, u, now).store;
    } else {
      assert r.w.users == w.users;
    }
    forall k ensures U.Balance(r.w.users.rows, k) == U.Balance(w.users.rows, k) {
    }
  }

  /** A valid order of an existing user whose `RZP_{user}_{ts}` id is free:
      the user's subscription takes the `tierName` note, and exactly one row
      is appended with the next id, status "created", provider "razorpay",
      the gateway's order id, the amount in whole units and currency INR by
      default; the reply carries the gateway's order id. */
  lemma {:induction false} CreateOrderInserts(w: World, userId: nat, req: OrderRequest, gatewayOrderId: string, keyId: string, now: nat)
    requires Consistent(w) && OrderRequestValid(req) && U.ById(w.users.rows, userId).Some?
    requires forall x :: x in w.payments.rows ==> x.orderId != OrderIdFor(userId, now)
    ensures var r := CreateOrder(w, userId, req, OrderMade(gatewayOrderId), keyId, now);
      var currency := req.currency.GetOr("INR");
      && r.reply == Reply(200, OrderCreated(gatewayOrderId, req.amount.value, currency, keyId))
      && r.w.payments.nextId == w.payments.nextId + 1
      && r.w.payments.rows == w.payments.rows + [P.Payment(
           w.payments.nextId, userId, OrderIdFor(userId, now), P.WholeUnits(req.amount.value), currency,
           req.receipt, Some(req.notes.GetOr(map[])), P.STATUS_CREATED, P.PROVIDER_RAZORPAY,
           None, Some(gatewayOrderId), None, now, now)]
      && U.ById(r.w.users.rows, userId).Some?
      && U.ById(r.w.users.rows, userId).value.subscription == TierName(req.notes.GetOr(map[]))
  {
    var user := U.ById(w.users.rows, userId).value;
    var u := user.(subscription := TierName(req.notes.GetOr(map[])));
    U.SaveKeepsBalances(w.users, user, u, now);
    U.ByIdOfRow(w.users, user);
    U.ByIdAfterSave(w.users, u, now, userId);
  }

  /** Two orders of one user in the same second collide on `order_id`: the
      second insert raises, nothing is added, and the reply is 500, although
      the gateway already created the second order. */
  lemma {:induction false} SameSecondOrderFails(w: World, userId: nat, req: OrderRequest, first: string, second: string,
                                                keyId: string, now: nat)
    requires Consistent(w) && OrderRequestValid(req) && U.ById(w.users.rows, userId).Some?
    requires forall x :: x in w.payments.rows ==> x.orderId != OrderIdFor(userId, now)
    ensures var r1 := CreateOrder(w, userId, req, OrderMade(first), keyId, now);
      var r2 := CreateOrder(r1.w, userId, req, OrderMade(second), keyId, now);
      && r1.reply.code == 200
      && r2.reply == Reply(500, Error("Failed to create order"))
      && r2.w.payments == r1.w.payments
  {
    CreateOrderInserts(w, userId, req, first, keyId, now);
    var r1 := CreateOrder(w, userId, req, OrderMade(first), keyId, now);
    CreateOrderShape(w, userId, req, OrderMade(first), keyId, now);
    var user := U.ById(r1.w.users.rows, userId).value;
    var u := user.(subscription := TierName(req.notes.GetOr(map[])));
    U.SaveKeepsBalances(r1.w.users, user, u, now);
    var s2 := U.SaveUser(r1.w.users, u, now);
    var notes := req.notes.GetOr(map[]);
    var p2 := P.NewPayment(userId, OrderIdFor(userId, now), P.WholeUnits(req.amount.value), req.currency.GetOr("INR"),
                           req.receipt, Some(notes), Some(P.STATUS_CREATED), P.PROVIDER_RAZORPAY, Some(second), now);
    var k := |w.payments.rows|;
    assert r1.w.payments.rows[k].orderId == OrderIdFor(userId, now);
    assert r1.w.payments.rows[k].id == w.payments.nextId;
    assert P.OrderIdTaken(r1.w.payments.rows, p2);
    var w2 := r1.w.(users := s2.store);
    assert CreateOrder(r1.w, userId, req, OrderMade(second), keyId, now)
        == Outcome(w2.(payments := P.SavePayment(w2.payments, p2, now).store), Reply(500, Error("Failed to create order")));
  }

  // ---------------------------------------------------------------------
  // get_payment_history

  /** The rows the history maps are exactly the user's payments. */
  lemma {:induction false} HistoryRowsAreTheUsers(w: World, userId: nat)
    ensures var rows := SortDesc(P.OfUser(w.payments.rows, userId), P.CreatedKey);
      && |rows| == |P.OfUser(w.payments.rows, userId)|
      && SortedDesc(rows, P.CreatedKey)
      && forall x :: x in rows <==> x in w.payments.rows && x.userId == userId
  {
    var mine := P.OfUser(w.payments.rows, userId);
    var rows := SortDesc(mine, P.CreatedKey);
    forall x ensures x in rows <==> x in mine {
      assert x in rows <==> x in multiset(rows);
      assert x in mine <==> x in multiset(mine);
    }
  }

  /** The history fails exactly when one of the user's payments has no
      gateway order id (its `.split` raises). */
  lemma {:induction false} HistoryFailsWithoutOrderId(w: World, userId: nat)
    ensures PaymentHistory(w, userId).HistoryFailed?
        <==> exists x :: x in w.payments.rows && x.userId == userId && x.providerOrderId.None?
  {
    HistoryRowsAreTheUsers(w, userId);
    var rows := SortDesc(P.OfUser(w.payments.rows, userId), P.CreatedKey);
    if PaymentHistory(w, userId).HistoryFailed? {
      var i :| 0 <= i < |rows| && rows[i].providerOrderId.None?;
      assert rows[i] in rows;
    } else {
      forall x | x in w.payments.rows && x.userId == userId ensures x.providerOrderId.Some? {
        var i :| 0 <= i < |rows| && rows[i] == x;
      }
    }
  }

  /** A listed history has one entry per payment of the user, newest first. */
  lemma {:induction false} HistoryIsNewestFirst(w: World, userId: nat)
    requires PaymentHistory(w, userId).HistoryOk?
    ensures var e := PaymentHistory(w, userId).entries;
      && |e| == |P.OfUser(w.payments.rows, userId)|
      && forall i, j :: 0 <= i < j < |e| ==> e[i].createdAt >= e[j].createdAt
  {
    HistoryRowsAreTheUsers(w, userId);
    var rows := SortDesc(P.OfUser(w.payments.rows, userId), P.CreatedKey);
    var e := PaymentHistory(w, userId).entries;
    forall i, j | 0 <= i < j < |e| ensures e[i].createdAt >= e[j].createdAt {
      assert P.CreatedKey(rows[i]) >= P.CreatedKey(rows[j]);
    }
  }

  /** Every entry of a listed history is one of the user's payments. */
  lemma {:induction false} HistoryShowsOnlyTheUsers(w: World, userId: nat)
    requires PaymentHistory(w, userId).HistoryOk?
    ensures var e := PaymentHistory(w, userId).entries;
      forall i :: 0 <= i < |e| ==>
        exists x :: x in w.payments.rows && x.userId == userId && x.providerOrderId.Some?
                    && e[i] == Entry(x, U.ById(w.users.rows, userId))
  {
    HistoryRowsAreTheUsers(w, userId);
    var rows := SortDesc(P.OfUser(w.payments.rows, userId), P.CreatedKey);
    var e := PaymentHistory(w, userId).entries;
    forall i | 0 <= i < |e|
      ensures exists x :: x in w.payments.rows && x.userId == userId && x.providerOrderId.Some?
                          && e[i] == Entry(x, U.ById(w.users.rows, userId))
    {
      assert rows[i] in rows;
    }
  }

  /** Every payment of the user appears in a listed history. */
  lemma {:induction false} HistoryShowsEveryPayment(w: World, userId: nat)
    requires PaymentHistory(w, userId).HistoryOk?
    ensures var e := PaymentHistory(w, userId).entries;
      forall x :: x in w.payments.rows && x.userId == userId ==>
        x.providerOrderId.Some? && exists i :: 0 <= i < |e| && e[i] == Entry(x, U.ById(w.users.rows, userId))
  {
    HistoryRowsAreTheUsers(w, userId);
    var rows := SortDesc(P.OfUser(w.payments.rows, userId), P.CreatedKey);
    var e := PaymentHistory(w, userId).entries;
    forall x | x in w.payments.rows && x.userId == userId
      ensures x.providerOrderId.Some? && exists i :: 0 <= i < |e| && e[i] == Entry(x, U.ById(w.users.rows, userId))
    {
      var i :| 0 <= i < |rows| && rows[i] == x;
      assert e[i] == Entry(x, U.ById(w.users.rows, userId));
    }
  }

  /** Every entry shows the last `_` piece of the gateway order id, which
      ends that id and holds no `_`, and the user's current balance (0 when
      the user does not exist). */
  lemma {:induction false} HistoryEntryFields(w: World, userId: nat)
    requires PaymentHistory(w, userId).HistoryOk?
    ensures var e := PaymentHistory(w, userId).entries;
      forall i :: 0 <= i < |e| ==>
        && e[i].remainingCredits == U.Balance(w.users.rows, userId)
        && !Contains(e[i].orderId, '_')
        && exists x :: x in w.payments.rows && x.providerOrderId.Some? && EndsWith(x.providerOrderId.value, e[i].orderId)
  {
    HistoryRowsAreTheUsers(w, userId);
    var rows := SortDesc(P.OfUser(w.payments.rows, userId), P.CreatedKey);
    var e := PaymentHistory(w, userId).entries;
    forall i | 0 <= i < |e|
      ensures !Contains(e[i].orderId, '_')
      ensures exists x :: x in w.payments.rows && x.providerOrderId.Some? && EndsWith(x.providerOrderId.value, e[i].orderId)
    {
      LastSegmentIsSuffix(rows[i].providerOrderId.value, '_');
      assert rows[i] in rows;
    }
  }
}
