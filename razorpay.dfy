/** The Razorpay endpoints as the service runs them: one object holding the
    three tables and the emails sent, whose methods read and save rows step
    by step. Each method is proved to leave exactly the state, and give
    exactly the reply, that `RazorpayFlow` describes. */
module Razorpay {
  import opened Common
  import L = PaymentLogs
  import P = Payments
  import U = Users
  import F = RazorpayFlow

  class Reconciler {
    const logs: L.LogTable
    const payments: P.PaymentTable
    const users: U.UserTable
    var notices: seq<F.Notice>

    ghost predicate Valid()
      reads this, logs, payments, users
    {
      logs.Valid() && payments.Valid() && users.Valid()
    }

    function State(): F.World
      reads this, logs, payments, users
    {
      F.World(logs.State(), payments.State(), users.State(), notices)
    }

    constructor ()
      ensures Valid() && fresh(logs) && fresh(payments) && fresh(users)
      ensures State() == F.World(L.LogStore([], 1), P.PaymentStore([], 1), U.UserStore([], 1), [])
    {
      logs := new L.LogTable();
      payments := new P.PaymentTable();
      users := new U.UserTable();
      notices := [];
    }

    method SaveLog(log: L.LogRow)
      requires Valid()
      modifies logs
      ensures Valid() && State() == F.SaveLog(old(State()), log)
    {
      logs.Save(log.txnid, log.status, Some(log.amount), log.createdAt);
    }

    /** `handle_payment(user, payment, success)`. */
    method HandlePayment(user: Option<U.User>, payment: Option<P.Payment>, success: bool, now: nat)
      returns (after: Option<P.Payment>, raised: bool)
      requires Valid()
      modifies this, payments
      ensures Valid()
      ensures F.Step(State(), after, raised) == F.HandlePayment(old(State()), user, payment, success, now)
    {
      if user.None? || payment.None? {
        return payment, true;
      }
      notices := notices + [F.Notice(user.value.email, user.value.firstname, payment.value.amount, success)];
      var p := payment.value.(status := if success then P.STATUS_COMPLETED else P.STATUS_FAILED, updatedAt := now);
      var saved, ok := payments.Save(p, now);
      after, raised := Some(saved), !ok;
    }

    /** The outer `except` of `verify_payment`. */
    method OuterHandler(log: Option<L.LogRow>, payment: Option<P.Payment>, now: nat) returns (reply: F.Reply)
      requires Valid()
      modifies logs, payments
      ensures Valid() && F.Outcome(State(), reply) == F.OuterHandler(old(State()), log, payment, now)
    {
      if log.Some? {
        SaveLog(log.value.(status := F.STATUS_INCOMPLETE));
      }
      if payment.None? {
        return F.Reply(400, F.Raised);
      }
      var _, ok := payments.Save(payment.value.(status := P.STATUS_PENDING), now);
      reply := F.Reply(if ok then 400 else 500, F.Raised);
    }

    /** The inner `except` of `verify_payment`. */
    method InnerHandler(user: Option<U.User>, payment: Option<P.Payment>, log: L.LogRow, now: nat) returns (reply: F.Reply)
      requires Valid()
      modifies this, logs, payments
      ensures Valid() && F.Outcome(State(), reply) == F.InnerHandler(old(State()), user, payment, log, now)
    {
      var log1 := log.(status := F.STATUS_INCOMPLETE);
      SaveLog(log1);
      var after, raised := HandlePayment(user, payment, false, now);
      if raised {
        reply := OuterHandler(Some(log1), after, now);
      } else {
        reply := F.Reply(400, F.Error("Failed to process payment details"));
      }
    }

    /** `verify_payment` without a payment id in the request. */
    method MissingPaymentId(userId: nat, user: Option<U.User>, latest: Option<P.Payment>, req: F.VerifyRequest, now: nat)
      returns (reply: F.Reply)
      requires Valid()
      modifies this, logs, payments
      ensures Valid() && F.Outcome(State(), reply) == F.MissingPaymentId(old(State()), userId, user, latest, req, now)
    {
      var payment := latest;
      if latest.None? && Truthy(req.orderId) {
        payment := P.ByProviderOrderId(payments.rows, req.orderId);
      }
      assert payment == F.FailureTarget(State(), latest, req);
      var amount := if payment.Some? then 100 * payment.value.amount else req.amount.GetOr(0);
      var log := L.LogRow(0, F.TxnidFor(req.orderId, userId, now), P.STATUS_FAILED, amount, now);
      SaveLog(log);
      if payment.None? {
        return F.Reply(400, F.PaymentIdMissing);
      }
      var after, raised := HandlePayment(user, payment, false, now);
      if raised {
        reply := OuterHandler(Some(log), after, now);
      } else {
        reply := F.Reply(400, F.PaymentIdMissing);
      }
    }

    /** The success path from `user.save()` to `update_credits`. */
    method Settle(user: U.User, payment: Option<P.Payment>, log: L.LogRow, req: F.VerifyRequest,
                  record: P.GatewayPayment, now: nat) returns (reply: F.Reply)
      requires Valid()
      modifies this, logs, payments, users
      ensures Valid() && F.Outcome(State(), reply) == F.Settle(old(State()), user, payment, log, req, record, now)
    {
      var saved, ok := users.Save(user.(subscription := req.subscription), now);
      if !ok || payment.None? {
        reply := InnerHandler(Some(saved), payment, log, now);
        return;
      }
      var p := payment.value.(providerPaymentId := req.paymentId, providerSignature := req.signature,
                              notes := Some(F.MergedNotes(payment.value.notes, record, req.credits)));
      var after, raised := HandlePayment(Some(saved), Some(p), true, now);
      if raised {
        reply := InnerHandler(Some(saved), after, log, now);
        return;
      }
      var log1 := log.(status := after.value.status, amount := 100 * after.value.amount);
      SaveLog(log1);
      var credited, cok := users.UpdateCredits(saved, req.credits, now);
      if !cok {
        reply := InnerHandler(Some(saved), after, log1, now);
        return;
      }
      reply := F.Reply(200, F.Verified(req.credits.value, credited.creditPoint));
    }

    /** `verify_payment` from the pending log onwards. */
    method CheckWithGateway(userId: nat, user: Option<U.User>, latest: Option<P.Payment>, req: F.VerifyRequest,
                            fetch: F.Fetch, now: nat) returns (reply: F.Reply)
      requires Valid()
      modifies this, logs, payments, users
      ensures Valid() && F.Outcome(State(), reply) == F.CheckWithGateway(old(State()), userId, user, latest, req, fetch, now)
    {
      var log := F.PendingLog(State(), userId, req, now);
      SaveLog(log);
      match fetch {
        case FetchRaises =>
          reply := InnerHandler(user, latest, log, now);
        case NothingReturned =>
          SaveLog(log.(status := P.STATUS_FAILED));
          reply := F.Reply(404, F.Error("Payment details not found"));
        case Fetched(record) =>
          if record.status != Some(F.GATEWAY_CAPTURED) && record.status != Some(F.GATEWAY_AUTHORIZED) {
            SaveLog(log.(status := P.STATUS_FAILED));
            reply := F.Reply(400, F.Error("Payment not completed. Status: " + ShowOption(record.status)));
          } else if NonZero(req.amount) && req.amount.value != record.amount.GetOr(0) {
            SaveLog(log.(status := P.STATUS_FAILED));
            reply := F.Reply(400, F.Error("Amount mismatch"));
          } else {
            var payment := F.ResolvePayment(State(), req, record);
            if user.None? {
              reply := InnerHandler(user, payment, log, now);
            } else {
              reply := Settle(user.value, payment, log, req, record, now);
            }
          }
      }
    }

    /** `POST /verify-payment` for the authenticated `userId`. */
    method VerifyPayment(userId: nat, req: F.VerifyRequest, fetch: F.Fetch, now: nat) returns (reply: F.Reply)
      requires Valid()
      modifies this, logs, payments, users
      ensures Valid() && F.Outcome(State(), reply) == F.Verify(old(State()), userId, req, fetch, now)
    {
      var user := U.ById(users.rows, userId);
      var latest := P.LatestByUser(payments.rows, userId);
      if !Truthy(req.paymentId) {
        reply := MissingPaymentId(userId, user, latest, req, now);
      } else {
        reply := CheckWithGateway(userId, user, latest, req, fetch, now);
      }
    }

    /** `POST /create-order` for the authenticated `userId`. */
    method CreateOrder(userId: nat, req: F.OrderRequest, gateway: F.OrderResult, keyId: string, now: nat)
      returns (reply: F.Reply)
      requires Valid()
      modifies payments, users
      ensures Valid() && F.Outcome(State(), reply) == F.CreateOrder(old(State()), userId, req, gateway, keyId, now)
    {
      if !NonZero(req.amount) || !Truthy(req.receipt) {
        return F.Reply(400, F.Error("Amount and receipt are required"));
      }
      var user := U.ById(users.rows, userId);
      var notes := req.notes.GetOr(map[]);
      if user.None? {
        return F.Reply(500, F.Error("Failed to create order"));
      }
      var _, ok := users.Save(user.value.(subscription := F.TierName(notes)), now);
      if !ok || gateway.OrderRaises? {
        return F.Reply(500, F.Error("Failed to create order"));
      }
      var currency := req.currency.GetOr("INR");
      var p := P.NewPayment(userId, F.OrderIdFor(userId, now), P.WholeUnits(req.amount.value), currency, req.receipt,
                            Some(notes), Some(P.STATUS_CREATED), P.PROVIDER_RAZORPAY, Some(gateway.gatewayOrderId), now);
      var _, pok := payments.Save(p, now);
      if !pok {
        return F.Reply(500, F.Error("Failed to create order"));
      }
      reply := F.Reply(200, F.OrderCreated(gateway.gatewayOrderId, req.amount.value, currency, keyId));
    }
  }
}
