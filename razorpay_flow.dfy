/** What the Razorpay endpoints of the inventory service do, as functions of
    the stored state: order creation, payment verification against the
    gateway's record, and the payment history.

    The three tables (payment logs, payments, users) and the list of emails
    sent form the `World`. Every gateway answer and the clock are inputs.
    Log amounts are in hundredths of the currency unit, as the DECIMAL(10,2)
    column holds them; payment amounts are the whole units of the INT column. */
module RazorpayFlow {
  import opened Common
  import opened Queries
  import L = PaymentLogs
  import P = Payments
  import U = Users

  const STATUS_INCOMPLETE := "incomplete"
  const GATEWAY_CAPTURED := "captured"
  const GATEWAY_AUTHORIZED := "authorized"

  /** One call of `handle_email_notification`: to whom, the name and amount
      in the text, and which template. The call never raises. */
  datatype Notice = Notice(email: string, name: Option<string>, amount: int, success: bool)

  datatype World = World(logs: L.LogStore, payments: P.PaymentStore, users: U.UserStore, notices: seq<Notice>)

  ghost predicate Consistent(w: World) {
    L.WellFormed(w.logs) && P.WellFormed(w.payments) && U.WellFormed(w.users)
  }

  /** The JSON bodies the endpoints return. `PaymentIdMissing` is the 400
      with `status: failed`; `Raised` stands for `{'error': str(e)}`. */
  datatype Body =
    | Error(message: string)
    | PaymentIdMissing
    | Raised
    | Verified(creditsAdded: int, totalCredits: int)
    | OrderCreated(orderId: string, amount: int, currency: string, keyId: string)

  datatype Reply = Reply(code: nat, body: Body)

  datatype Outcome = Outcome(w: World, reply: Reply)

  /** `Logs(...).save()` of a log object. */
  function SaveLog(w: World, log: L.LogRow): World {
    w.(logs := L.Upsert(w.logs, log.txnid, log.status, log.amount, log.createdAt))
  }

  /** `f"FAIL_{user_id}_{int(datetime.now().timestamp())}"`. */
  function FailTxnid(userId: nat, now: nat): string {
    "FAIL_" + NatToString(userId) + "_" + NatToString(now)
  }

  /** `f"RZP_{user_id}_{int(datetime.now().timestamp())}"`. */
  function OrderIdFor(userId: nat, now: nat): string {
    "RZP_" + NatToString(userId) + "_" + NatToString(now)
  }

  /** `razorpay_order_id or FAIL_...`. */
  function TxnidFor(orderId: Option<string>, userId: nat, now: nat): string {
    if Truthy(orderId) then orderId.value else FailTxnid(userId, now)
  }

  // ---------------------------------------------------------------------
  // handle_payment

  /** The state after `handle_payment`, the caller's `payment` variable, and
      whether it raised. */
  datatype Step = Step(w: World, payment: Option<P.Payment>, raised: bool)

  /** `handle_payment(user, payment, success)`: one email, then the payment is
      marked completed or failed with `updated_at = now` and saved. A missing
      user or payment raises before anything happens. */
  function HandlePayment(w: World, user: Option<U.User>, payment: Option<P.Payment>, success: bool, now: nat): (r: Step)
    ensures user.None? || payment.None? ==> r == Step(w, payment, true)
    ensures user.Some? && payment.Some? ==>
      var p := payment.value.(status := if success then P.STATUS_COMPLETED else P.STATUS_FAILED, updatedAt := now);
      && r.w.notices == w.notices + [Notice(user.value.email, user.value.firstname, payment.value.amount, success)]
      && r.w.logs == w.logs && r.w.users == w.users
      && r.payment == Some(P.SavePayment(w.payments, p, now).payment)
      && r.w.payments == P.SavePayment(w.payments, p, now).store
      && r.raised == !P.SavePayment(w.payments, p, now).ok
  {
    if user.None? || payment.None? then Step(w, payment, true)
    else
      var n := Notice(user.value.email, user.value.firstname, payment.value.amount, success);
      var p := payment.value.(status := if success then P.STATUS_COMPLETED else P.STATUS_FAILED, updatedAt := now);
      var s := P.SavePayment(w.payments, p, now);
      Step(w.(payments := s.store, notices := w.notices + [n]), Some(s.payment), !s.ok)
  }

  // ---------------------------------------------------------------------
  // verify_payment

  /** The JSON body of `/verify-payment`; an absent key is None. */
  datatype VerifyRequest = VerifyRequest(
    orderId: Option<string>,
    paymentId: Option<string>,
    signature: Option<string>,
    amount: Option<int>,
    credits: Option<int>,
    subscription: Option<string>)

  /** What `razorpay_client.payment.fetch` did. */
  datatype Fetch = Fetched(record: P.GatewayPayment) | NothingReturned | FetchRaises

  /** The outer `except`: the log (when one was built) becomes "incomplete",
      the payment (when there is one) becomes "pending", and the reply is 400.
      A save failing inside the handler escapes the view function: 500. */
  function OuterHandler(w: World, log: Option<L.LogRow>, payment: Option<P.Payment>, now: nat): Outcome {
    var w1 := if log.Some? then SaveLog(w, log.value.(status := STATUS_INCOMPLETE)) else w;
    if payment.None? then Outcome(w1, Reply(400, Raised))
    else
      var s := P.SavePayment(w1.payments, payment.value.(status := P.STATUS_PENDING), now);
      Outcome(w1.(payments := s.store), Reply(if s.ok then 400 else 500, Raised))
  }

  /** The inner `except`: the log becomes "incomplete" and the payment is
      failed through `handle_payment`; if that raises, the outer handler runs. */
  function InnerHandler(w: World, user: Option<U.User>, payment: Option<P.Payment>, log: L.LogRow, now: nat): Outcome {
    var log1 := log.(status := STATUS_INCOMPLETE);
    var w1 := SaveLog(w, log1);
    var h := HandlePayment(w1, user, payment, false, now);
    if h.raised then OuterHandler(h.w, Some(log1), h.payment, now)
    else Outcome(h.w, Reply(400, Error("Failed to process payment details")))
  }

  /** The payment a request without payment id fails: the user's latest,
      else the one of the request's order. */
  function FailureTarget(w: World, latest: Option<P.Payment>, req: VerifyRequest): (r: Option<P.Payment>)
    ensures latest.Some? ==> r == latest
    ensures r.Some? && latest.None? ==> r.value in w.payments.rows && r.value.providerOrderId == req.orderId
  {
    if latest.None? && Truthy(req.orderId) then P.ByProviderOrderId(w.payments.rows, req.orderId) else latest
  }

  /** The request carries no payment id: the failure is logged under the order
      id (or a FAIL_ id), and the user's latest payment, else the payment of
      that order, is failed. */
  function MissingPaymentId(w: World, userId: nat, user: Option<U.User>, latest: Option<P.Payment>,
                            req: VerifyRequest, now: nat): Outcome
  {
    var payment := FailureTarget(w, latest, req);
    var amount := if payment.Some? then 100 * payment.value.amount else req.amount.GetOr(0);
    var log := L.LogRow(0, TxnidFor(req.orderId, userId, now), P.STATUS_FAILED, amount, now);
    var w1 := SaveLog(w, log);
    if payment.None? then Outcome(w1, Reply(400, PaymentIdMissing))
    else
      var h := HandlePayment(w1, user, payment, false, now);
      if h.raised then OuterHandler(h.w, Some(log), h.payment, now)
      else Outcome(h.w, Reply(400, PaymentIdMissing))
  }

  /** The log object of the inner block: the existing row of the order set
      to "pending" with the expected amount, or a new "pending" row. */
  function PendingLog(w: World, userId: nat, req: VerifyRequest, now: nat): (log: L.LogRow)
    ensures log.status == P.STATUS_PENDING
    ensures log.amount == (if NonZero(req.amount) then req.amount.value else 0)
  {
    var amount := if NonZero(req.amount) then req.amount.value else 0;
    var existing := if req.orderId.Some? then L.ByTxnid(w.logs.rows, req.orderId.value) else None;
    if existing.Some? then existing.value.(status := P.STATUS_PENDING, amount := amount)
    else L.LogRow(0, TxnidFor(req.orderId, userId, now), P.STATUS_PENDING, amount, now)
  }

  /** `notes = {**json.loads(notes or '{}'), 'verification_data': ..., 'credits': ...}`. */
  function MergedNotes(notes: Option<P.Notes>, record: P.GatewayPayment, credits: Option<int>): (r: P.Notes)
    ensures "verification_data" in r && r["verification_data"] == P.Details(record)
    ensures "credits" in r && r["credits"] == (if credits.Some? then P.Number(credits.value) else P.Null)
    ensures forall k :: k in notes.GetOr(map[]) && k != "verification_data" && k != "credits" ==>
      k in r && r[k] == notes.GetOr(map[])[k]
    ensures forall k :: k in r ==> k in notes.GetOr(map[]) || k == "verification_data" || k == "credits"
  {
    notes.GetOr(map[])["verification_data" := P.Details(record)]
      ["credits" := if credits.Some? then P.Number(credits.value) else P.Null]
  }

  /** The payment the verification applies to: by the request's payment id,
      else by the order id the gateway reports. */
  function ResolvePayment(w: World, req: VerifyRequest, record: P.GatewayPayment): (r: Option<P.Payment>)
    ensures r.Some? ==> r.value in w.payments.rows
  {
    var byId := P.ByProviderPaymentId(w.payments.rows, req.paymentId);
    if byId.None? && Truthy(record.orderId) then P.ByProviderOrderId(w.payments.rows, record.orderId) else byId
  }

  /** `user.subscription = ...; user.save()` followed by the payment update,
      `handle_payment(..., True)`, the log update and `update_credits`. */
  function Settle(w: World, user: U.User, payment: Option<P.Payment>, log: L.LogRow,
                  req: VerifyRequest, record: P.GatewayPayment, now: nat): Outcome
  {
    var s := U.SaveUser(w.users, user.(subscription := req.subscription), now);
    var w1 := w.(users := s.store);
    if !s.ok || payment.None? then InnerHandler(w1, Some(s.user), payment, log, now)
    else
      var p := payment.value.(providerPaymentId := req.paymentId, providerSignature := req.signature,
                              notes := Some(MergedNotes(payment.value.notes, record, req.credits)));
      var h := HandlePayment(w1, Some(s.user), Some(p), true, now);
      if h.raised then InnerHandler(h.w, Some(s.user), h.payment, log, now)
      else
        var log1 := log.(status := h.payment.value.status, amount := 100 * h.payment.value.amount);
        var w2 := SaveLog(h.w, log1);
        var c := U.AddCredits(w2.users, s.user, req.credits, now);
        if !c.ok then InnerHandler(w2, Some(s.user), h.payment, log1, now)
        else Outcome(w2.(users := c.store), Reply(200, Verified(req.credits.value, c.user.creditPoint)))
  }

  /** The inner block, from the pending log to the end of the checks. */
  function CheckWithGateway(w: World, userId: nat, user: Option<U.User>, latest: Option<P.Payment>,
                            req: VerifyRequest, fetch: Fetch, now: nat): Outcome
  {
    var log := PendingLog(w, userId, req, now);
    var w1 := SaveLog(w, log);
    match fetch
    case FetchRaises => InnerHandler(w1, user, latest, log, now)
    case NothingReturned =>
      Outcome(SaveLog(w1, log.(status := P.STATUS_FAILED)), Reply(404, Error("Payment details not found")))
    case Fetched(record) =>
      if record.status != Some(GATEWAY_CAPTURED) && record.status != Some(GATEWAY_AUTHORIZED) then
        Outcome(SaveLog(w1, log.(status := P.STATUS_FAILED)),
                Reply(400, Error("Payment not completed. Status: " + ShowOption(record.status))))
      else if NonZero(req.amount) && req.amount.value != record.amount.GetOr(0) then
        Outcome(SaveLog(w1, log.(status := P.STATUS_FAILED)), Reply(400, Error("Amount mismatch")))
      else
        var payment := ResolvePayment(w1, req, record);
        if user.None? then InnerHandler(w1, user, payment, log, now)
        else Settle(w1, user.value, payment, log, req, record, now)
  }

  /** `verify_payment(user_id)`. */
  function Verify(w: World, userId: nat, req: VerifyRequest, fetch: Fetch, now: nat): Outcome {
    var user := U.ById(w.users.rows, userId);
    var latest := P.LatestByUser(w.payments.rows, userId);
    if !Truthy(req.paymentId) then MissingPaymentId(w, userId, user, latest, req, now)
    else CheckWithGateway(w, userId, user, latest, req, fetch, now)
  }

  // ---------------------------------------------------------------------
  // create_order

  /** The JSON body of `/create-order`; `currency` is None when the key is absent. */
  datatype OrderRequest = OrderRequest(amount: Option<int>, currency: Option<string>, receipt: Option<string>, notes: Option<P.Notes>)

  /** What `razorpay_client.order.create` did. */
  datatype OrderResult = OrderMade(gatewayOrderId: string) | OrderRaises

  /** `notes.get('tierName')` as the string the subscription column receives. */
  function TierName(notes: P.Notes): Option<string> {
    if "tierName" in notes && notes["tierName"].Text? then Some(notes["tierName"].text) else None
  }

  /** `create_order(user_id)`: amount and receipt are required; the user's
      subscription is set from `tierName` before the gateway is called; the
      order is stored as a "created" payment. Any exception gives 500, and an
      unknown user raises before the never-reached 404. */
  function CreateOrder(w: World, userId: nat, req: OrderRequest, gateway: OrderResult, keyId: string, now: nat): Outcome {
    if !NonZero(req.amount) || !Truthy(req.receipt) then
      Outcome(w, Reply(400, Error("Amount and receipt are required")))
    else
      var user := U.ById(w.users.rows, userId);
      var notes := req.notes.GetOr(map[]);
      if user.None? then Outcome(w, Reply(500, Error("Failed to create order")))
      else
        var s := U.SaveUser(w.users, user.value.(subscription := TierName(notes)), now);
        var w1 := w.(users := s.store);
        if !s.ok || gateway.OrderRaises? then Outcome(w1, Reply(500, Error("Failed to create order")))
        else
          var currency := req.currency.GetOr("INR");
          var p := P.NewPayment(userId, OrderIdFor(userId, now), P.WholeUnits(req.amount.value), currency, req.receipt,
                                Some(notes), Some(P.STATUS_CREATED), P.PROVIDER_RAZORPAY, Some(gateway.gatewayOrderId), now);
          var sp := P.SavePayment(w1.payments, p, now);
          var w2 := w1.(payments := sp.store);
          if !sp.ok then Outcome(w2, Reply(500, Error("Failed to create order")))
          else Outcome(w2, Reply(200, OrderCreated(gateway.gatewayOrderId, req.amount.value, currency, keyId)))
  }

  // ---------------------------------------------------------------------
  // get_payment_history

  /** One entry of the history: `order_id` is the last `_` piece of the
      gateway order id, `plan` the parsed notes, and `join_date` /
      `remaining_credits` come from the user (None / 0 without one). */
  datatype HistoryEntry = HistoryEntry(
    id: nat, orderId: string, amount: int, currency: string, status: string,
    createdAt: nat, updatedAt: nat, plan: P.Notes, joinDate: Option<nat>, remainingCredits: int)

  datatype History = HistoryOk(entries: seq<HistoryEntry>) | HistoryFailed

  function Entry(p: P.Payment, user: Option<U.User>): HistoryEntry
    requires p.providerOrderId.Some?
  {
    HistoryEntry(p.id, LastSegment(p.providerOrderId.value, '_'), p.amount, p.currency, p.status,
                 p.createdAt, p.updatedAt, p.notes.GetOr(map[]),
                 if user.Some? then Some(user.value.createdAt) else None,
                 if user.Some? then user.value.creditPoint else 0)
  }

  /** `get_payment_history(user_id)`: the user's payments newest first; a
      payment without a gateway order id makes `.split` raise: 500. */
  function PaymentHistory(w: World, userId: nat): History {
    var rows := SortDesc(P.OfUser(w.payments.rows, userId), P.CreatedKey);
    var user := U.ById(w.users.rows, userId);
    if exists i :: 0 <= i < |rows| && rows[i].providerOrderId.None? then HistoryFailed
    else HistoryOk(seq(|rows|, i requires 0 <= i < |rows| => Entry(rows[i], user)))
  }
}
