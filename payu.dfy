/** The PayU integration of the inventory service: the SHA-512 hash strings
    of a payment request, of a verify call and of a payment response, the
    classification of the verify call's answer, and the handling of a
    payment response (record it, credit the payer).

    The digest is a parameter `sha`: SHA-512 of the hashed string as a hex
    string. Form fields are strings; a field that
    is absent is None where the code uses `data.get`. */
module PayU {
  import opened Common
  import U = Users

  predicate IsLowerHex(c: char) {
    '0' <= c <= '9' || 'a' <= c <= 'f'
  }

  predicate IsDigest(s: string) {
    |s| == 128 && forall i :: 0 <= i < |s| ==> IsLowerHex(s[i])
  }


  /** `PAYU_MERCHANT_KEY` and `PAYU_SALT`. */
  datatype Config = Config(merchantKey: string, salt: string)

  /** A form or JSON object whose values are strings. */
  type Fields = map<string, string>

  function Get(data: Fields, key: string): Option<string> {
    if key in data then Some(data[key]) else None
  }

  /** The ten literal `|` of both hash strings. */
  const PIPES: string := Repeat('|', 10)

  /** A value the string may hold as one `|`-separated field. */
  predicate Plain(s: string) {
    !Contains(s, '|')
  }

  // ---------------------------------------------------------------------
  // generate_payment_hash

  /** `key|txnid|amount|productinfo|firstname|email|` then the ten pipes and
      the salt. */
  function PaymentHashString(key: string, txnid: string, amount: string, productinfo: string,
                             firstname: string, email: string, salt: string): string
  {
    key + "|" + (txnid + "|" + (amount + "|" + (productinfo + "|" + (firstname + "|" + (email + "|" + (PIPES + salt))))))
  }

  /** The six fields `generate_payment_hash` indexes; a missing one raises
      `KeyError`. */
  predicate HasPaymentFields(data: Fields) {
    "key" in data && "txnid" in data && "amount" in data && "productinfo" in data
    && "firstname" in data && "email" in data
  }

  /** `generate_payment_hash(data)`: None stands for the `KeyError`. */
  function PaymentHash(data: Fields, cfg: Config, sha: string -> string): (r: Option<string>)
    ensures r.Some? <==> HasPaymentFields(data)
    ensures r.Some? ==> r.value == sha(PaymentHashString(data["key"], data["txnid"], data["amount"],
                                                         data["productinfo"], data["firstname"], data["email"], cfg.salt))
  {
    if !HasPaymentFields(data) then None
    else Some(sha(PaymentHashString(data["key"], data["txnid"], data["amount"], data["productinfo"],
                                    data["firstname"], data["email"], cfg.salt)))
  }

  /** With no `|` inside the values, the hashed string is the six fields, the
      five empty `udf` fields and five empty reserved fields, and the salt:
      seventeen fields, as PayU's request hash sequence lists them. */
  lemma {:induction false} PaymentHashFields(key: string, txnid: string, amount: string, productinfo: string,
                                             firstname: string, email: string, salt: string)
    requires Plain(key) && Plain(txnid) && Plain(amount) && Plain(productinfo) && Plain(firstname) && Plain(email)
    requires Plain(salt)
    ensures Split(PaymentHashString(key, txnid, amount, productinfo, firstname, email, salt), '|')
         == [key, txnid, amount, productinfo, firstname, email] + Repeat("", 10) + [salt]
  {
    var r6 := Repeat("", 10) + [salt];
    PipesThenField(salt);
    var t5 := email + "|" + (PIPES + salt);
    PieceThenRest(email, PIPES + salt, r6);
    var t4 := firstname + "|" + t5;
    PieceThenRest(firstname, t5, [email] + r6);
    var t3 := productinfo + "|" + t4;
    PieceThenRest(productinfo, t4, [firstname] + ([email] + r6));
    var t2 := amount + "|" + t3;
    PieceThenRest(amount, t3, [productinfo] + ([firstname] + ([email] + r6)));
    var t1 := txnid + "|" + t2;
    PieceThenRest(txnid, t2, [amount] + ([productinfo] + ([firstname] + ([email] + r6))));
    PieceThenRest(key, t1, [txnid] + ([amount] + ([productinfo] + ([firstname] + ([email] + r6)))));
  }

  /** The ten pipes before a plain field split off ten empty fields. */
  lemma {:induction false} PipesThenField(f: string)
    requires Plain(f)
    ensures Split(PIPES + f, '|') == Repeat("", 10) + [f]
  {
    SplitLeadingSeps(10, f, '|');
    SplitWithoutSep(f, '|');
  }

  /** A plain field, a pipe and the rest split into the field and the rest's
      fields. */
  lemma {:induction false} PieceThenRest(a: string, rest: string, parts: seq<string>)
    requires Plain(a) && Split(rest, '|') == parts
    ensures Split(a + "|" + rest, '|') == [a] + parts
  {
    SplitAfterPiece(a, rest, '|');
  }

  // ---------------------------------------------------------------------
  // generate_verification_hash and the verify call

  /** `merchant_key|verify_payment|txnid|salt`. */
  function VerificationHashString(cfg: Config, txnid: string): string {
    cfg.merchantKey + "|" + ("verify_payment" + "|" + (txnid + "|" + cfg.salt))
  }

  /** With no `|` inside the values the verify hash covers exactly the four
      fields key, command, transaction id and salt. */
  lemma {:induction false} VerificationHashFields(cfg: Config, txnid: string)
    requires Plain(cfg.merchantKey) && Plain(txnid) && Plain(cfg.salt)
    ensures Split(VerificationHashString(cfg, txnid), '|') == [cfg.merchantKey, "verify_payment", txnid, cfg.salt]
  {
    SplitWithoutSep(cfg.salt, '|');
    PieceThenRest(txnid, cfg.salt, [cfg.salt]);
    assert Plain("verify_payment") by {
      assert forall i :: 0 <= i < |"verify_payment"| ==> "verify_payment"[i] != '|';
    }
    PieceThenRest("verify_payment", txnid + "|" + cfg.salt, [txnid, cfg.salt]);
    PieceThenRest(cfg.merchantKey, "verify_payment" + "|" + (txnid + "|" + cfg.salt), ["verify_payment", txnid, cfg.salt]);
  }

  /** The form `verify_payment` posts to PayU's verify URL. */
  function VerifyPayload(cfg: Config, txnid: string, sha: string -> string): (r: Fields)
    ensures r.Keys == {"key", "command", "var1", "hash"}
    ensures r["key"] == cfg.merchantKey && r["command"] == "verify_payment" && r["var1"] == txnid
    ensures r["hash"] == sha(VerificationHashString(cfg, txnid))
  {
    map["key" := cfg.merchantKey, "command" := "verify_payment", "var1" := txnid,
        "hash" := sha(VerificationHashString(cfg, txnid))]
  }

  /** The parts of PayU's JSON answer the code reads: `status` (when it is
      an integer), `msg`, and `transaction_details` by transaction id. */
  datatype VerifyAnswer = VerifyAnswer(status: Option<int>, msg: Option<string>, details: map<string, Fields>)

  /** The HTTP exchange: a response with its code and its body (None when
      `response.json()` raises), or a request that raises. */
  datatype VerifyCall = Responded(code: int, body: Option<VerifyAnswer>) | CallRaises

  /** The dictionary `verify_payment` returns. */
  datatype VerifyResult =
    | Checked(success: bool, transaction: Fields)
    | VerifyError(message: string)

  const MSG_UNKNOWN := "Unknown error occurred"
  const MSG_CONNECT := "Failed to connect to PayU services"
  const MSG_INTERNAL := "Internal server error during payment verification"

  /** `transaction_details.get(txnid, {})`. */
  function Transaction(txnid: string, a: VerifyAnswer): Fields {
    if txnid in a.details then a.details[txnid] else map[]
  }

  /** `verify_payment(txnid)` once the request has been made. */
  function ClassifyVerify(txnid: string, call: VerifyCall): (r: VerifyResult)
    ensures r.Checked? <==> call.Responded? && call.code == 200 && call.body.Some? && call.body.value.status == Some(1)
    ensures r.Checked? ==> r.transaction == Transaction(txnid, call.body.value)
    ensures r.Checked? ==> (r.success <==> Get(r.transaction, "status") == Some("success"))
    ensures call.CallRaises? || (call.Responded? && call.code == 200 && call.body.None?) ==> r == VerifyError(MSG_INTERNAL)
    ensures call.Responded? && call.code != 200 ==> r == VerifyError(MSG_CONNECT)
    ensures call.Responded? && call.code == 200 && call.body.Some? && call.body.value.status != Some(1) ==>
      r == VerifyError(call.body.value.msg.GetOr(MSG_UNKNOWN))
  {
    match call
    case CallRaises => VerifyError(MSG_INTERNAL)
    case Responded(code, body) =>
      if code != 200 then VerifyError(MSG_CONNECT)
      else if body.None? then VerifyError(MSG_INTERNAL)
      else if body.value.status == Some(1) then
        var tx := Transaction(txnid, body.value);
        Checked(Get(tx, "status") == Some("success"), tx)
      else VerifyError(body.value.msg.GetOr(MSG_UNKNOWN))
  }

  // ---------------------------------------------------------------------
  // verify_payment_hash

  /** `|additional_charges` when the field is truthy, else nothing. */
  function ChargesSuffix(data: Fields): string {
    var charges := Get(data, "additional_charges");
    if Truthy(charges) then "|" + charges.value else ""
  }

  /** The response hash string before the charges, as `verify_payment_hash`
      builds it: ten pipes after the status. */
  function ResponseBaseAsWritten(cfg: Config, data: Fields): string {
    cfg.salt + "|" + (ShowOption(Get(data, "status")) + (PIPES
      + (ShowOption(Get(data, "email")) + "|" + (ShowOption(Get(data, "firstname")) + "|"
      + (ShowOption(Get(data, "productinfo")) + "|" + (ShowOption(Get(data, "amount")) + "|"
      + (ShowOption(Get(data, "txnid")) + "|" + cfg.merchantKey)))))))
  }

  function ResponseHashStringAsWritten(cfg: Config, data: Fields): string {
    ResponseBaseAsWritten(cfg, data) + ChargesSuffix(data)
  }

  /** The response hash string before the charges by PayU's reverse sequence
      `SALT|status||||||udf5|udf4|udf3|udf2|udf1|email|...|key` with empty
      `udf` fields: eleven pipes after the status. */
  function ResponseBase(cfg: Config, data: Fields): string {
    cfg.salt + "|" + (ShowOption(Get(data, "status")) + "|" + (PIPES
      + (ShowOption(Get(data, "email")) + "|" + (ShowOption(Get(data, "firstname")) + "|"
      + (ShowOption(Get(data, "productinfo")) + "|" + (ShowOption(Get(data, "amount")) + "|"
      + (ShowOption(Get(data, "txnid")) + "|" + cfg.merchantKey)))))))
  }

  function ResponseHashString(cfg: Config, data: Fields): string {
    ResponseBase(cfg, data) + ChargesSuffix(data)
  }

  /** The supplied hash with `.lower()` applied; "" when the field is absent. */
  function SuppliedHash(data: Fields): string {
    ToLower(Get(data, "hash").GetOr(""))
  }

  /** `verify_payment_hash(data)` as written. */
  function VerifyResponseHashAsWritten(cfg: Config, data: Fields, sha: string -> string): (ok: bool)
    ensures ok <==> sha(ResponseHashStringAsWritten(cfg, data)) == SuppliedHash(data)
  {
    sha(ResponseHashStringAsWritten(cfg, data)) == SuppliedHash(data)
  }

  /** `verify_payment_hash(data)` over PayU's reverse sequence. */
  function VerifyResponseHash(cfg: Config, data: Fields, sha: string -> string): (ok: bool)
    ensures ok <==> sha(ResponseHashString(cfg, data)) == SuppliedHash(data)
  {
    sha(ResponseHashString(cfg, data)) == SuppliedHash(data)
  }

  /** The string as written has one `|` fewer than PayU's reverse sequence,
      so it never equals it: a response PayU signed by that sequence is
      checked against the digest of a different string. */
  lemma {:induction false} AsWrittenDropsAPipe(cfg: Config, data: Fields)
    ensures |ResponseHashString(cfg, data)| == |ResponseHashStringAsWritten(cfg, data)| + 1
    ensures ResponseHashString(cfg, data) != ResponseHashStringAsWritten(cfg, data)
  {
  }

  /** The field as the f-string shows it has no `|` in it. */
  predicate PlainField(data: Fields, k: string) {
    Plain(ShowOption(Get(data, k)))
  }

  /** With plain values and no extra charges, PayU's reverse sequence splits
      into the salt, the status, ten empty fields (five reserved, five
      `udf`), then email, first name, product, amount, transaction id and
      key: eighteen fields. */
  lemma {:induction false} ResponseHashFields(cfg: Config, data: Fields)
    requires !Truthy(Get(data, "additional_charges"))
    requires Plain(cfg.salt) && Plain(cfg.merchantKey)
    requires PlainField(data, "status") && PlainField(data, "email") && PlainField(data, "firstname")
    requires PlainField(data, "productinfo") && PlainField(data, "amount") && PlainField(data, "txnid")
    ensures Split(ResponseHashString(cfg, data), '|')
         == [cfg.salt, ShowOption(Get(data, "status"))] + Repeat("", 10)
            + [ShowOption(Get(data, "email")), ShowOption(Get(data, "firstname")), ShowOption(Get(data, "productinfo")),
               ShowOption(Get(data, "amount")), ShowOption(Get(data, "txnid")), cfg.merchantKey]
  {
    var status, email, firstname := ShowOption(Get(data, "status")), ShowOption(Get(data, "email")), ShowOption(Get(data, "firstname"));
    var product, amount, txnid := ShowOption(Get(data, "productinfo")), ShowOption(Get(data, "amount")), ShowOption(Get(data, "txnid"));
    var key := cfg.merchantKey;
    var t0 := email + "|" + (firstname + "|" + (product + "|" + (amount + "|" + (txnid + "|" + key))));
    var tail := [email, firstname, product, amount, txnid, key];
    SixFields(email, firstname, product, amount, txnid, key);
    SplitLeadingSeps(10, t0, '|');
    PieceThenRest(status, PIPES + t0, Repeat("", 10) + tail);
    PieceThenRest(cfg.salt, status + "|" + (PIPES + t0), [status] + (Repeat("", 10) + tail));
    assert ResponseHashString(cfg, data) == ResponseBase(cfg, data);
    assert [cfg.salt] + ([status] + (Repeat("", 10) + tail)) == [cfg.salt, status] + Repeat("", 10) + tail;
  }

  /** Six plain fields joined by pipes split back into the six. */
  lemma {:induction false} SixFields(a: string, b: string, c: string, d: string, e: string, f: string)
    requires Plain(a) && Plain(b) && Plain(c) && Plain(d) && Plain(e) && Plain(f)
    ensures Split(a + "|" + (b + "|" + (c + "|" + (d + "|" + (e + "|" + f)))), '|') == [a, b, c, d, e, f]
  {
    SplitWithoutSep(f, '|');
    PieceThenRest(e, f, [f]);
    PieceThenRest(d, e + "|" + f, [e, f]);
    PieceThenRest(c, d + "|" + (e + "|" + f), [d, e, f]);
    PieceThenRest(b, c + "|" + (d + "|" + (e + "|" + f)), [c, d, e, f]);
    PieceThenRest(a, b + "|" + (c + "|" + (d + "|" + (e + "|" + f))), [b, c, d, e, f]);
  }

  /** The string as written splits into seventeen fields: nine empty fields
      between the status and the email where PayU's reverse sequence has
      ten. */
  lemma {:induction false} AsWrittenFields(cfg: Config, data: Fields)
    requires !Truthy(Get(data, "additional_charges"))
    requires Plain(cfg.salt) && Plain(cfg.merchantKey)
    requires PlainField(data, "status") && PlainField(data, "email") && PlainField(data, "firstname")
    requires PlainField(data, "productinfo") && PlainField(data, "amount") && PlainField(data, "txnid")
    ensures Split(ResponseHashStringAsWritten(cfg, data), '|')
         == [cfg.salt, ShowOption(Get(data, "status"))] + Repeat("", 9)
            + [ShowOption(Get(data, "email")), ShowOption(Get(data, "firstname")), ShowOption(Get(data, "productinfo")),
               ShowOption(Get(data, "amount")), ShowOption(Get(data, "txnid")), cfg.merchantKey]
  {
    var status, email, firstname := ShowOption(Get(data, "status")), ShowOption(Get(data, "email")), ShowOption(Get(data, "firstname"));
    var product, amount, txnid := ShowOption(Get(data, "productinfo")), ShowOption(Get(data, "amount")), ShowOption(Get(data, "txnid"));
    var key := cfg.merchantKey;
    var t0 := email + "|" + (firstname + "|" + (product + "|" + (amount + "|" + (txnid + "|" + key))));
    var tail := [email, firstname, product, amount, txnid, key];
    SixFields(email, firstname, product, amount, txnid, key);
    SplitLeadingSeps(9, t0, '|');
    PieceThenRest(status, Repeat('|', 9) + t0, Repeat("", 9) + tail);
    PieceThenRest(cfg.salt, status + "|" + (Repeat('|', 9) + t0), [status] + (Repeat("", 9) + tail));
    AsWrittenShape(cfg, data);
    assert [cfg.salt] + ([status] + (Repeat("", 9) + tail)) == [cfg.salt, status] + Repeat("", 9) + tail;
  }

  /** The first of the ten pipes as written ends the status field. */
  lemma {:induction false} AsWrittenShape(cfg: Config, data: Fields)
    requires !Truthy(Get(data, "additional_charges"))
    ensures ResponseHashStringAsWritten(cfg, data)
         == cfg.salt + "|" + (ShowOption(Get(data, "status")) + "|" + (Repeat('|', 9)
              + (ShowOption(Get(data, "email")) + "|" + (ShowOption(Get(data, "firstname")) + "|"
              + (ShowOption(Get(data, "productinfo")) + "|" + (ShowOption(Get(data, "amount")) + "|"
              + (ShowOption(Get(data, "txnid")) + "|" + cfg.merchantKey)))))))
  {
    var status := ShowOption(Get(data, "status"));
    var t0 := ShowOption(Get(data, "email")) + "|" + (ShowOption(Get(data, "firstname")) + "|"
              + (ShowOption(Get(data, "productinfo")) + "|" + (ShowOption(Get(data, "amount")) + "|"
              + (ShowOption(Get(data, "txnid")) + "|" + cfg.merchantKey))));
    assert PIPES == "|" + Repeat('|', 9);
    assert status + (PIPES + t0) == status + "|" + (Repeat('|', 9) + t0);
    assert ResponseHashStringAsWritten(cfg, data) == ResponseBaseAsWritten(cfg, data);
  }

  /** A response PayU signed by its reverse sequence fails the check as
      written, for a digest that tells the two strings apart. */
  lemma {:induction false} AsWrittenRejectsSignedResponse(cfg: Config, data: Fields, sha: string -> string)
    requires "hash" in data && ToLower(data["hash"]) == sha(ResponseHashString(cfg, data))
    requires sha(ResponseHashString(cfg, data)) != sha(ResponseHashStringAsWritten(cfg, data))
    ensures !VerifyResponseHashAsWritten(cfg, data, sha)
    ensures VerifyResponseHash(cfg, data, sha)
  {
    assert SuppliedHash(data) == sha(ResponseHashString(cfg, data));
  }

  /** Extra charges extend either hashed string by `|charges` at the end;
      an empty or missing field adds nothing. */
  lemma {:induction false} ChargesExtendTheString(cfg: Config, data: Fields)
    ensures var base := ResponseHashStringAsWritten(cfg, data - {"additional_charges"});
      ResponseHashStringAsWritten(cfg, data)
        == base + (if Truthy(Get(data, "additional_charges")) then "|" + data["additional_charges"] else "")
    ensures var base := ResponseHashString(cfg, data - {"additional_charges"});
      ResponseHashString(cfg, data)
        == base + (if Truthy(Get(data, "additional_charges")) then "|" + data["additional_charges"] else "")
  {
    var d := data - {"additional_charges"};
    assert Get(d, "status") == Get(data, "status") && Get(d, "email") == Get(data, "email");
    assert Get(d, "firstname") == Get(data, "firstname") && Get(d, "productinfo") == Get(data, "productinfo");
    assert Get(d, "amount") == Get(data, "amount") && Get(d, "txnid") == Get(data, "txnid");
    assert ChargesSuffix(d) == "";
    assert ResponseBase(cfg, d) == ResponseBase(cfg, data);
    assert ResponseBaseAsWritten(cfg, d) == ResponseBaseAsWritten(cfg, data);
  }

  /** A hex digest (what `hexdigest().lower()` returns) is already lower
      case, so `.lower()` on the supplied hash matches it. */
  lemma DigestIsLower(d: string)
    requires IsDigest(d)
    ensures ToLower(d) == d
  {
    forall i | 0 <= i < |d| ensures LowerChar(d[i]) == d[i] {
      assert IsLowerHex(d[i]);
    }
  }

  /** A response without a `hash` field is rejected by either check: no hex
      digest is empty. */
  lemma {:induction false} MissingHashFails(cfg: Config, data: Fields, sha: string -> string)
    requires "hash" !in data
    ensures IsDigest(sha(ResponseHashStringAsWritten(cfg, data))) ==> !VerifyResponseHashAsWritten(cfg, data, sha)
    ensures IsDigest(sha(ResponseHashString(cfg, data))) ==> !VerifyResponseHash(cfg, data, sha)
  {
    assert SuppliedHash(data) == ToLower("");
  }

  /** A response whose `hash` is, in either letter case, the digest of the
      string a check hashes passes that check: the string as written for the
      check as written, the reverse sequence for the corrected one. */
  lemma {:induction false} SignedResponseVerifies(cfg: Config, data: Fields, sha: string -> string)
    requires "hash" in data
    ensures ToLower(data["hash"]) == sha(ResponseHashStringAsWritten(cfg, data)) ==> VerifyResponseHashAsWritten(cfg, data, sha)
    ensures ToLower(data["hash"]) == sha(ResponseHashString(cfg, data)) ==> VerifyResponseHash(cfg, data, sha)
  {
  }

  /** Replacing the hash by any other value is rejected by either check:
      the hashed strings do not read the `hash` field. */
  lemma {:induction false} AlteredHashFails(cfg: Config, data: Fields, sha: string -> string, forged: string)
    ensures ToLower(forged) != sha(ResponseHashStringAsWritten(cfg, data)) ==>
      !VerifyResponseHashAsWritten(cfg, data["hash" := forged], sha)
    ensures ToLower(forged) != sha(ResponseHashString(cfg, data)) ==> !VerifyResponseHash(cfg, data["hash" := forged], sha)
  {
    var d := data["hash" := forged];
    assert Get(d, "status") == Get(data, "status") && Get(d, "email") == Get(data, "email");
    assert Get(d, "firstname") == Get(data, "firstname") && Get(d, "productinfo") == Get(data, "productinfo");
    assert Get(d, "amount") == Get(data, "amount") && Get(d, "txnid") == Get(data, "txnid");
    assert Get(d, "additional_charges") == Get(data, "additional_charges");
    assert SuppliedHash(d) == ToLower(forged);
  }

  // ---------------------------------------------------------------------
  // process_payment_response

  /** The payment record the handler saves. */
  datatype Record = Record(txnid: Option<string>, status: Option<string>, amount: int, email: Option<string>, data: Fields)

  /** The user the handler credits: the one with the response's email. */
  function Payer(users: seq<U.User>, data: Fields): Option<U.User> {
    var email := Get(data, "email");
    if email.Some? then U.ByEmail(users, email.value) else None
  }

  /** Whether the handler reports success, given the outcome of the hash
      check: the hash verified and the amount converts with `float`. */
  predicate Accepted(verified: bool, amount: Option<int>) {
    verified && amount.Some?
  }

  /** The user table after the handler, given the outcome of the hash
      check: credited by the amount when the response is accepted, says
      "success" and names a known email. */
  function CreditedBy(st: U.UserStore, verified: bool, data: Fields, amount: Option<int>, now: nat): U.UserStore {
    var payer := Payer(st.rows, data);
    if Accepted(verified, amount) && Get(data, "status") == Some("success") && payer.Some?
    then U.AddCredits(st, payer.value, amount, now).store
    else st
  }

  /** The user table after `process_payment_response` as written: it calls
      the check as written. */
  function Credited(st: U.UserStore, cfg: Config, data: Fields, sha: string -> string, amount: Option<int>, now: nat): U.UserStore {
    CreditedBy(st, VerifyResponseHashAsWritten(cfg, data, sha), data, amount, now)
  }

  /** The user table after the handler with the corrected check. */
  function CreditedCorrected(st: U.UserStore, cfg: Config, data: Fields, sha: string -> string, amount: Option<int>, now: nat): U.UserStore {
    CreditedBy(st, VerifyResponseHash(cfg, data, sha), data, amount, now)
  }

  /** A response PayU signed by its reverse sequence is never credited by
      the handler as written, whatever it claims; the corrected handler
      credits its payer. */
  lemma {:induction false} SignedResponseCreditsNothing(st: U.UserStore, cfg: Config, data: Fields, sha: string -> string,
                                                        amount: Option<int>, now: nat)
    requires "hash" in data && ToLower(data["hash"]) == sha(ResponseHashString(cfg, data))
    requires sha(ResponseHashString(cfg, data)) != sha(ResponseHashStringAsWritten(cfg, data))
    ensures !Accepted(VerifyResponseHashAsWritten(cfg, data, sha), amount)
    ensures Credited(st, cfg, data, sha, amount, now) == st
    ensures Accepted(VerifyResponseHash(cfg, data, sha), amount) <==> amount.Some?
    ensures amount.Some? && Get(data, "status") == Some("success") && Payer(st.rows, data).Some? ==>
      var payer := Payer(st.rows, data).value;
      U.Balance(CreditedCorrected(st, cfg, data, sha, amount, now).rows, payer.id)
        == U.Balance(st.rows, payer.id) + amount.value
  {
    AsWrittenRejectsSignedResponse(cfg, data, sha);
    if amount.Some? && Get(data, "status") == Some("success") && Payer(st.rows, data).Some? {
      SuccessCreditsThePayer(st, cfg, data, sha, amount, now);
    }
  }

  /** A response that fails a handler's hash check moves no balance in that
      handler, whatever it claims. */
  lemma {:induction false} ForgedResponseGrantsNothing(st: U.UserStore, cfg: Config, data: Fields, sha: string -> string,
                                                       amount: Option<int>, now: nat)
    ensures !VerifyResponseHash(cfg, data, sha) ==> CreditedCorrected(st, cfg, data, sha, amount, now) == st
    ensures !VerifyResponseHashAsWritten(cfg, data, sha) ==> Credited(st, cfg, data, sha, amount, now) == st
  {
  }

  /** An accepted "success" response raises the payer's balance by the
      amount and no other balance; any other status moves nothing. This holds
      for the corrected handler and, on the responses its check lets
      through, for the handler as written. */
  lemma {:induction false} SuccessCreditsThePayer(st: U.UserStore, cfg: Config, data: Fields, sha: string -> string,
                                                  amount: Option<int>, now: nat)
    requires amount.Some?
    ensures var payer := Payer(st.rows, data);
      VerifyResponseHash(cfg, data, sha) ==>
      forall id :: U.Balance(CreditedCorrected(st, cfg, data, sha, amount, now).rows, id) == U.Balance(st.rows, id)
        + (if Get(data, "status") == Some("success") && payer.Some? && id == payer.value.id then amount.value else 0)
    ensures var payer := Payer(st.rows, data);
      VerifyResponseHashAsWritten(cfg, data, sha) ==>
      forall id :: U.Balance(Credited(st, cfg, data, sha, amount, now).rows, id) == U.Balance(st.rows, id)
        + (if Get(data, "status") == Some("success") && payer.Some? && id == payer.value.id then amount.value else 0)
  {
    var payer := Payer(st.rows, data);
    if Get(data, "status") == Some("success") && payer.Some? {
      U.CreditsMoveOneBalance(st, payer.value, amount.value, now);
    }
  }

  /** The handler's store: the saved records and the user table. */
  class Receiver {
    var records: seq<Record>
    const users: U.UserTable

    constructor (users: U.UserTable)
      ensures this.users == users && records == []
    {
      this.users := users;
      records := [];
    }

    /** What `process_payment_response` does once the hash check has
        given `verified`. `amount` is what `float(data.get('amount'))`
        gives, None when it raises. */
    method Apply(verified: bool, data: Fields, amount: Option<int>, now: nat) returns (ok: bool)
      requires users.Valid()
      modifies this, users
      ensures users.Valid()
      ensures ok <==> Accepted(verified, amount)
      ensures records == old(records) + (if ok then [Record(Get(data, "txnid"), Get(data, "status"), amount.value,
                                                           Get(data, "email"), data)] else [])
      ensures users.State() == CreditedBy(old(users.State()), verified, data, amount, now)
    {
      if !verified {
        return false;
      }
      if amount.None? {
        return false;
      }
      records := records + [Record(Get(data, "txnid"), Get(data, "status"), amount.value, Get(data, "email"), data)];
      if Get(data, "status") == Some("success") {
        var payer := Payer(users.rows, data);
        if payer.Some? {
          var _, _ := users.UpdateCredits(payer.value, amount, now);
        }
      }
      ok := true;
    }

    /** `process_payment_response(data)` as written: the hash is checked by
        `verify_payment_hash` as written. */
    method Process(cfg: Config, data: Fields, sha: string -> string, amount: Option<int>, now: nat) returns (ok: bool)
      requires users.Valid()
      modifies this, users
      ensures users.Valid()
      ensures ok <==> VerifyResponseHashAsWritten(cfg, data, sha) && amount.Some?
      ensures records == old(records) + (if ok then [Record(Get(data, "txnid"), Get(data, "status"), amount.value,
                                                           Get(data, "email"), data)] else [])
      ensures users.State() == Credited(old(users.State()), cfg, data, sha, amount, now)
    {
      var verified := VerifyResponseHashAsWritten(cfg, data, sha);
      ok := Apply(verified, data, amount, now);
    }

    /** `process_payment_response(data)` with the corrected check over
        PayU's reverse sequence. */
    method ProcessCorrected(cfg: Config, data: Fields, sha: string -> string, amount: Option<int>, now: nat) returns (ok: bool)
      requires users.Valid()
      modifies this, users
      ensures users.Valid()
      ensures ok <==> VerifyResponseHash(cfg, data, sha) && amount.Some?
      ensures records == old(records) + (if ok then [Record(Get(data, "txnid"), Get(data, "status"), amount.value,
                                                           Get(data, "email"), data)] else [])
      ensures users.State() == CreditedCorrected(old(users.State()), cfg, data, sha, amount, now)
    {
      var verified := VerifyResponseHash(cfg, data, sha);
      ok := Apply(verified, data, amount, now);
    }
  }
}
