/** The SantimPay client: the signed-token payloads, the request bodies of the
    four processor operations, and the way each operation turns the
    processor's answer or a failure into its own result.

    Signing (`signES256`) and the HTTP POST are parameters: a `Signer` and a
    `Transport`. The clock is a millisecond count passed in by the caller. */
module Sdk {
  import opened Text
  import opened Js

  /** `signES256(payload, privateKey)`: returns a token or throws. */
  type Signer = (JsValue, string) -> Outcome<JsValue>

  /** A settled HTTP response: its status code and its parsed body. */
  datatype Response = Response(status: int, data: JsValue)

  /** `await axios.post(url, body)`: resolves with a response or rejects with an error value. */
  type Transport = (string, JsValue) -> Outcome<Response>

  const InitiatePaymentPath := "/initiate-payment"
  const PayoutTransferPath := "/payout-transfer"
  const DirectPaymentPath := "/direct-payment"
  const TransactionStatusPath := "/fetch-transaction-status"

  const InitiateFailure := "Failed to initiate payment"
  const PayoutFailure := "Failed to initiate B2C"
  const DirectFailure := "Failed to initiate direct payment"
  /** The status query reuses the initiate message. */
  const StatusFailure := "Failed to initiate payment"

  /** `Math.floor(nowMs / 1000)`: the second in which nowMs falls. */
  function Seconds(nowMs: nat): (s: nat)
    ensures s * 1000 <= nowMs < s * 1000 + 1000
  {
    nowMs / 1000
  }

  /** A payload is stamped with the second of nowMs. */
  predicate StampedAt(payload: JsValue, nowMs: nat) {
    Get(payload, "generated") == Num(Seconds(nowMs))
  }

  /** Two readings that share a stamp lie less than a second apart, and readings
      a second or more apart never share one. */
  lemma SameStampSameSecond(t1: nat, t2: nat)
    ensures Seconds(t1) == Seconds(t2) ==> t1 - t2 < 1000 && t2 - t1 < 1000
    ensures t1 + 1000 <= t2 ==> Seconds(t1) != Seconds(t2)
  {
  }

  /** `error.response?.data` */
  function ResponseData(error: JsValue): JsValue {
    Get(Get(error, "response"), "data")
  }

  /** The value the catch block of every operation throws for a caught error:
      the processor's response body when the error carries a response with a
      truthy body, and otherwise the error itself. Reading the response of a
      nullish error throws a TypeError instead. */
  function Normalize(error: JsValue): (thrown: JsValue)
    ensures !Nullish(thrown)
    ensures Truthy(ResponseData(error)) ==> thrown == ResponseData(error)
    ensures !Nullish(error) && !Truthy(ResponseData(error)) ==> thrown == error
  {
    if Nullish(error) then TypeErrorReading(error, "response")
    else if Truthy(Get(error, "response")) && Truthy(ResponseData(error)) then ResponseData(error)
    else error
  }

  /** An error the operation raises itself (`new Error(m)`) leaves the catch block unchanged. */
  lemma NormalizeKeepsOwnErrors(message: string)
    ensures Normalize(ErrorObject(message)) == ErrorObject(message)
  {
  }

  /** The TypeError raised by reading a property of a nullish value (a missing
      processor body, say) leaves the catch block unchanged. */
  lemma NormalizeKeepsTypeErrors(v: JsValue, k: string)
    ensures Prop(v, k).Threw? ==> Normalize(Prop(v, k).error) == Prop(v, k).error
  {
  }

  /** The try/catch around an operation: a returned value passes, a thrown one is normalised. */
  function Settle(attempt: Outcome<JsValue>): (r: Outcome<JsValue>)
    ensures r.Threw? <==> attempt.Threw?
    ensures r.Returned? ==> r == attempt
    ensures r.Threw? ==> r.error == Normalize(attempt.error) && !Nullish(r.error)
  {
    match attempt
    case Returned(v) => Returned(v)
    case Threw(e) => Threw(Normalize(e))
  }

  /** Status 200 yields the response body; any other status raises the operation's own error. */
  function Accept(response: Response, failure: string): (r: Outcome<JsValue>)
    ensures r.Returned? <==> response.status == 200
    ensures r.Returned? ==> r.value == response.data
    ensures r.Threw? ==> r.error == ErrorObject(failure)
    ensures r.Threw? ==> !Nullish(r.error) && Get(r.error, "response") == Undefined
                         && Normalize(r.error) == r.error
  {
    if response.status == 200 then Returned(response.data) else Threw(ErrorObject(failure))
  }

  /** The phone-number guard: the value is truthy and its length compares greater than zero. */
  predicate PhoneGuard(phone: JsValue) {
    Truthy(phone) && GreaterThanZero(Get(phone, "length"))
  }

  /** The guard holds for a non-empty string and for an object whose `length`
      compares greater than zero, and for nothing else. */
  lemma PhoneGuardCases(phone: JsValue)
    ensures PhoneGuard(phone) <==> (phone.Str? && phone.s != "")
                                   || (phone.Obj? && GreaterThanZero(Get(phone, "length")))
  {
  }

  /** For a string, the guard holds exactly when the string is not empty. */
  lemma PhoneGuardOnStrings(s: string)
    ensures PhoneGuard(Str(s)) <==> s != ""
  {
  }

  /** Positional binding of a JavaScript call: a missing argument is `undefined`
      and an argument beyond the declared parameters is dropped. */
  function Arg(args: seq<JsValue>, i: nat): (v: JsValue)
    ensures i < |args| ==> v == args[i]
    ensures i >= |args| ==> v == Undefined
  {
    if i < |args| then args[i] else Undefined
  }

  const InitiatePayloadKeys := ["amount", "paymentReason", "merchantId", "generated"]
  const DirectPayloadKeys := ["amount", "paymentReason", "paymentMethod", "phoneNumber", "merchantId", "generated"]
  const TransactionPayloadKeys := ["id", "merId", "generated"]

  const InitiateBodyKeys := ["id", "amount", "reason", "merchantId", "signedToken",
                             "successRedirectUrl", "failureRedirectUrl", "notifyUrl", "cancelRedirectUrl"]
  const PayoutBodyKeys := ["id", "clientReference", "amount", "reason", "merchantId", "signedToken",
                           "receiverAccountNumber", "notifyUrl", "paymentMethod"]
  const DirectBodyKeys := ["id", "amount", "reason", "merchantId", "signedToken",
                           "phoneNumber", "paymentMethod", "notifyUrl"]
  const StatusBodyKeys := ["id", "merchantId", "signedToken"]

  /** No key list of a payload or body repeats a key. */
  lemma KeyListsDistinct()
    ensures Distinct(InitiatePayloadKeys) && Distinct(DirectPayloadKeys) && Distinct(TransactionPayloadKeys)
    ensures Distinct(InitiateBodyKeys) && Distinct(PayoutBodyKeys)
    ensures Distinct(DirectBodyKeys) && Distinct(StatusBodyKeys)
  {
  }

  /** The arguments of `generatePaymentUrl`, in the order it declares them. */
  datatype PaymentUrlArgs = PaymentUrlArgs(id: JsValue, amount: JsValue, paymentReason: JsValue,
                                           successRedirectUrl: JsValue, failureRedirectUrl: JsValue,
                                           notifyUrl: JsValue, phoneNumber: JsValue, cancelRedirectUrl: JsValue)

  /** The arguments after the parameter defaults: phone number and cancel URL default to "". */
  function WithDefaults(a: PaymentUrlArgs): (d: PaymentUrlArgs)
    ensures d.phoneNumber == Default(a.phoneNumber, Str(""))
    ensures d.cancelRedirectUrl == Default(a.cancelRedirectUrl, Str(""))
    ensures d.(phoneNumber := a.phoneNumber, cancelRedirectUrl := a.cancelRedirectUrl) == a
  {
    a.(phoneNumber := Default(a.phoneNumber, Str("")), cancelRedirectUrl := Default(a.cancelRedirectUrl, Str("")))
  }

  /** The arguments of `sendToCustomer`, in the order it declares them. */
  datatype PayoutArgs = PayoutArgs(id: JsValue, amount: JsValue, paymentReason: JsValue, phoneNumber: JsValue,
                                   paymentMethod: JsValue, notifyUrl: JsValue)

  /** The arguments of `directPayment`, in the order it declares them. */
  datatype DirectPaymentArgs = DirectPaymentArgs(id: JsValue, amount: JsValue, paymentReason: JsValue,
                                                 notifyUrl: JsValue, phoneNumber: JsValue, paymentMethod: JsValue)

  class SantimpaySdk {
    const merchantId: string
    const privateKey: string
    /** `PRODUCTION_BASE_URL`; the constants module is not part of this model,
        so its value is supplied at construction. */
    const baseUrl: string

    constructor (merchantId: string, privateKey: string, baseUrl: string)
      ensures this.merchantId == merchantId && this.privateKey == privateKey
      ensures this.baseUrl == baseUrl
    {
      this.merchantId := merchantId;
      this.privateKey := privateKey;
      this.baseUrl := baseUrl;
    }

    // ---------------------------------------------------------------------
    // Signed-token payloads

    /** The payload signed for a hosted payment: exactly the amount, the reason,
        this client's merchant id and the second of generation. */
    function InitiatePaymentPayload(amount: JsValue, paymentReason: JsValue, nowMs: nat): (p: JsValue)
      ensures p.Obj? && p.keys == InitiatePayloadKeys
    {
      var props := map["amount" := amount, "paymentReason" := paymentReason,
              "merchantId" := Str(merchantId), "generated" := Num(Seconds(nowMs))];
      Obj(InitiatePayloadKeys, props)
    }

    /** What the hosted-payment payload carries under each of its keys. */
    lemma InitiatePayloadFields(amount: JsValue, paymentReason: JsValue, nowMs: nat)
      ensures var p := InitiatePaymentPayload(amount, paymentReason, nowMs);
              && Get(p, "amount") == amount && Get(p, "paymentReason") == paymentReason
              && Get(p, "merchantId") == Str(merchantId) && StampedAt(p, nowMs)
    {
    }

    function SignedTokenForInitiatePayment(amount: JsValue, paymentReason: JsValue, nowMs: nat,
                                           sign: Signer): Outcome<JsValue>
    {
      sign(InitiatePaymentPayload(amount, paymentReason, nowMs), privateKey)
    }

    /** The payload signed for a direct payment or a payout, over the four parameters. */
    function DirectPaymentPayload(amount: JsValue, paymentReason: JsValue, paymentMethod: JsValue,
                                  phoneNumber: JsValue, nowMs: nat): (p: JsValue)
      ensures p.Obj? && p.keys == DirectPayloadKeys
    {
      var props := map["amount" := amount, "paymentReason" := paymentReason,
              "paymentMethod" := paymentMethod, "phoneNumber" := phoneNumber,
              "merchantId" := Str(merchantId), "generated" := Num(Seconds(nowMs))];
      Obj(DirectPayloadKeys, props)
    }

    /** What the direct-payment payload carries under each of its keys. */
    lemma DirectPayloadFields(amount: JsValue, paymentReason: JsValue, paymentMethod: JsValue,
                              phoneNumber: JsValue, nowMs: nat)
      ensures var p := DirectPaymentPayload(amount, paymentReason, paymentMethod, phoneNumber, nowMs);
              && Get(p, "amount") == amount && Get(p, "paymentReason") == paymentReason
              && Get(p, "paymentMethod") == paymentMethod && Get(p, "phoneNumber") == phoneNumber
              && Get(p, "merchantId") == Str(merchantId) && StampedAt(p, nowMs)
    {
    }

    function SignedTokenForDirectPayment(amount: JsValue, paymentReason: JsValue, paymentMethod: JsValue,
                                         phoneNumber: JsValue, nowMs: nat, sign: Signer): Outcome<JsValue>
    {
      sign(DirectPaymentPayload(amount, paymentReason, paymentMethod, phoneNumber, nowMs), privateKey)
    }

    /** `generateSignedTokenForDirectPaymentOrB2C(amount, paymentReason, paymentMethod, phoneNumber)`
        applied to whatever argument list the caller passes. */
    function DirectOrB2CPayload(args: seq<JsValue>, nowMs: nat): (p: JsValue)
      ensures p.Obj? && p.keys == DirectPayloadKeys
    {
      DirectPaymentPayload(Arg(args, 0), Arg(args, 1), Arg(args, 2), Arg(args, 3), nowMs)
    }

    /** The B2C generator binds its four parameters by position. */
    lemma DirectOrB2CPayloadFields(args: seq<JsValue>, nowMs: nat)
      ensures var p := DirectOrB2CPayload(args, nowMs);
              && Get(p, "amount") == Arg(args, 0) && Get(p, "paymentReason") == Arg(args, 1)
              && Get(p, "paymentMethod") == Arg(args, 2) && Get(p, "phoneNumber") == Arg(args, 3)
              && Get(p, "merchantId") == Str(merchantId) && StampedAt(p, nowMs)
    {
      DirectPayloadFields(Arg(args, 0), Arg(args, 1), Arg(args, 2), Arg(args, 3), nowMs);
    }

    function SignedTokenForDirectPaymentOrB2C(args: seq<JsValue>, nowMs: nat, sign: Signer): Outcome<JsValue>
    {
      sign(DirectOrB2CPayload(args, nowMs), privateKey)
    }

    /** The payload signed for a status query; the merchant id goes under `merId`. */
    function TransactionPayload(id: JsValue, nowMs: nat): (p: JsValue)
      ensures p.Obj? && p.keys == TransactionPayloadKeys
    {
      var props := map["id" := id, "merId" := Str(merchantId), "generated" := Num(Seconds(nowMs))];
      Obj(TransactionPayloadKeys, props)
    }

    /** What the status-query payload carries; it has no `merchantId` key. */
    lemma TransactionPayloadFields(id: JsValue, nowMs: nat)
      ensures var p := TransactionPayload(id, nowMs);
              && Get(p, "id") == id && Get(p, "merId") == Str(merchantId) && StampedAt(p, nowMs)
              && !Has(p, "merchantId")
    {
    }

    function SignedTokenForGetTransaction(id: JsValue, nowMs: nat, sign: Signer): Outcome<JsValue>
    {
      sign(TransactionPayload(id, nowMs), privateKey)
    }

    /** Every signed payload changes when the clock moves to another second, so
        no two operations minted in different seconds are signed over the same payload. */
    lemma PayloadsAreFresh(amount: JsValue, paymentReason: JsValue, paymentMethod: JsValue,
                           phoneNumber: JsValue, id: JsValue, t1: nat, t2: nat)
      ensures InitiatePaymentPayload(amount, paymentReason, t1) == InitiatePaymentPayload(amount, paymentReason, t2)
              <==> Seconds(t1) == Seconds(t2)
      ensures DirectPaymentPayload(amount, paymentReason, paymentMethod, phoneNumber, t1)
              == DirectPaymentPayload(amount, paymentReason, paymentMethod, phoneNumber, t2)
              <==> Seconds(t1) == Seconds(t2)
      ensures TransactionPayload(id, t1) == TransactionPayload(id, t2) <==> Seconds(t1) == Seconds(t2)
    {
      if Seconds(t1) != Seconds(t2) {
        assert Get(InitiatePaymentPayload(amount, paymentReason, t1), "generated")
            != Get(InitiatePaymentPayload(amount, paymentReason, t2), "generated");
        assert Get(DirectPaymentPayload(amount, paymentReason, paymentMethod, phoneNumber, t1), "generated")
            != Get(DirectPaymentPayload(amount, paymentReason, paymentMethod, phoneNumber, t2), "generated");
        assert Get(TransactionPayload(id, t1), "generated") != Get(TransactionPayload(id, t2), "generated");
      }
    }

    /** The two direct-payment generators agree when given their four parameters. */
    lemma DirectGeneratorsAgree(amount: JsValue, paymentReason: JsValue, paymentMethod: JsValue,
                                phoneNumber: JsValue, nowMs: nat)
      ensures DirectOrB2CPayload([amount, paymentReason, paymentMethod, phoneNumber], nowMs)
              == DirectPaymentPayload(amount, paymentReason, paymentMethod, phoneNumber, nowMs)
    {
    }

    // ---------------------------------------------------------------------
    // Request bodies

    /** The hosted-payment body as the object literal builds it, before the phone number. */
    function InitiateBaseBody(a: PaymentUrlArgs, token: JsValue): (body: JsValue)
      ensures body.Obj? && body.keys == InitiateBodyKeys
    {
      var props := map["id" := a.id, "amount" := a.amount, "reason" := a.paymentReason,
              "merchantId" := Str(merchantId), "signedToken" := token,
              "successRedirectUrl" := a.successRedirectUrl, "failureRedirectUrl" := a.failureRedirectUrl,
              "notifyUrl" := a.notifyUrl, "cancelRedirectUrl" := a.cancelRedirectUrl];
      Obj(InitiateBodyKeys, props)
    }

    /** The hosted-payment body: the phone number is appended only when it passes
        the guard (the key is then absent, not empty). */
    function InitiateBody(a: PaymentUrlArgs, token: JsValue): (body: JsValue)
      ensures body.Obj?
      ensures body.keys == InitiateBodyKeys + (if PhoneGuard(a.phoneNumber) then ["phoneNumber"] else [])
    {
      var base := InitiateBaseBody(a, token);
      if PhoneGuard(a.phoneNumber) then Assign(base, "phoneNumber", a.phoneNumber) else base
    }

    /** The hosted-payment body carries the phone number exactly when it passes the guard. */
    lemma InitiateBodyPhone(a: PaymentUrlArgs, token: JsValue)
      ensures var body := InitiateBody(a, token);
              && (Has(body, "phoneNumber") <==> PhoneGuard(a.phoneNumber))
              && (Has(body, "phoneNumber") ==> Get(body, "phoneNumber") == a.phoneNumber)
    {
      if PhoneGuard(a.phoneNumber) {
        AssignFields(InitiateBaseBody(a, token), "phoneNumber", a.phoneNumber);
      } else {
        InitiateBaseBodyFields(a, token);
      }
    }

    /** What the hosted-payment body carries under each of its other keys: the
        transaction id unchanged, the reason, this client's merchant id, the
        token, and the redirect and notify URLs. */
    lemma InitiateBodyFields(a: PaymentUrlArgs, token: JsValue)
      ensures var body := InitiateBody(a, token);
              && Get(body, "id") == a.id && Get(body, "amount") == a.amount
              && Get(body, "reason") == a.paymentReason
              && Get(body, "merchantId") == Str(merchantId) && Get(body, "signedToken") == token
              && Get(body, "successRedirectUrl") == a.successRedirectUrl
              && Get(body, "failureRedirectUrl") == a.failureRedirectUrl
              && Get(body, "notifyUrl") == a.notifyUrl && Get(body, "cancelRedirectUrl") == a.cancelRedirectUrl
    {
      var base := InitiateBaseBody(a, token);
      InitiateBaseBodyFields(a, token);
      if PhoneGuard(a.phoneNumber) {
        InitiateBodyKeepsBase(base, a.phoneNumber);
      }
    }

    /** Appending the phone number leaves the literal's other fields as they were. */
    lemma InitiateBodyKeepsBase(base: JsValue, phone: JsValue)
      requires base.Obj?
      ensures var body := Assign(base, "phoneNumber", phone);
              && Get(body, "id") == Get(base, "id") && Get(body, "amount") == Get(base, "amount")
              && Get(body, "reason") == Get(base, "reason")
              && Get(body, "merchantId") == Get(base, "merchantId")
              && Get(body, "signedToken") == Get(base, "signedToken")
              && Get(body, "successRedirectUrl") == Get(base, "successRedirectUrl")
              && Get(body, "failureRedirectUrl") == Get(base, "failureRedirectUrl")
              && Get(body, "notifyUrl") == Get(base, "notifyUrl")
              && Get(body, "cancelRedirectUrl") == Get(base, "cancelRedirectUrl")
    {
      AssignFields(base, "phoneNumber", phone);
    }

    /** What the hosted-payment object literal carries; it has no phone number. */
    lemma InitiateBaseBodyFields(a: PaymentUrlArgs, token: JsValue)
      ensures var body := InitiateBaseBody(a, token);
              && !Has(body, "phoneNumber")
              && Get(body, "id") == a.id && Get(body, "amount") == a.amount
              && Get(body, "reason") == a.paymentReason
              && Get(body, "merchantId") == Str(merchantId) && Get(body, "signedToken") == token
              && Get(body, "successRedirectUrl") == a.successRedirectUrl
              && Get(body, "failureRedirectUrl") == a.failureRedirectUrl
              && Get(body, "notifyUrl") == a.notifyUrl && Get(body, "cancelRedirectUrl") == a.cancelRedirectUrl
    {
    }

    /** The payout body, built from the keys and values the object literal lists. */
    function PayoutBody(a: PayoutArgs, token: JsValue): (body: JsValue)
      ensures body.Obj? && body.keys == PayoutBodyKeys
    {
      var props := map["id" := a.id, "clientReference" := a.id, "amount" := a.amount,
              "reason" := a.paymentReason, "merchantId" := Str(merchantId), "signedToken" := token,
              "receiverAccountNumber" := a.phoneNumber, "notifyUrl" := a.notifyUrl,
              "paymentMethod" := a.paymentMethod];
      Obj(PayoutBodyKeys, props)
    }

    /** What the payout body carries: `id` and `clientReference` both carry the
        transaction id and the phone number travels as `receiverAccountNumber`. */
    lemma PayoutBodyFields(a: PayoutArgs, token: JsValue)
      ensures var body := PayoutBody(a, token);
              && Get(body, "id") == a.id && Get(body, "clientReference") == a.id
              && Get(body, "receiverAccountNumber") == a.phoneNumber && !Has(body, "phoneNumber")
              && Get(body, "amount") == a.amount && Get(body, "reason") == a.paymentReason
              && Get(body, "merchantId") == Str(merchantId) && Get(body, "signedToken") == token
              && Get(body, "notifyUrl") == a.notifyUrl && Get(body, "paymentMethod") == a.paymentMethod
    {
    }

    /** The direct-payment body as the object literal builds it. */
    function DirectBaseBody(a: DirectPaymentArgs, token: JsValue): (body: JsValue)
      ensures body.Obj? && body.keys == DirectBodyKeys
    {
      var props := map["id" := a.id, "amount" := a.amount, "reason" := a.paymentReason,
              "merchantId" := Str(merchantId), "signedToken" := token,
              "phoneNumber" := a.phoneNumber, "paymentMethod" := a.paymentMethod, "notifyUrl" := a.notifyUrl];
      Obj(DirectBodyKeys, props)
    }

    /** The direct-payment body after the guarded re-assignment of the phone number. */
    function DirectBody(a: DirectPaymentArgs, token: JsValue): (body: JsValue)
      ensures body.Obj? && body.keys == DirectBodyKeys
    {
      var base := DirectBaseBody(a, token);
      if PhoneGuard(a.phoneNumber) then Assign(base, "phoneNumber", a.phoneNumber) else base
    }

    /** What the direct-payment body carries under each of its keys: the phone
        number is always there, holding the argument even when it is empty. */
    lemma DirectBodyFields(a: DirectPaymentArgs, token: JsValue)
      ensures var body := DirectBody(a, token);
              && Has(body, "phoneNumber") && Get(body, "phoneNumber") == a.phoneNumber
              && Get(body, "id") == a.id && Get(body, "amount") == a.amount
              && Get(body, "reason") == a.paymentReason
              && Get(body, "merchantId") == Str(merchantId) && Get(body, "signedToken") == token
              && Get(body, "paymentMethod") == a.paymentMethod && Get(body, "notifyUrl") == a.notifyUrl
    {
      DirectPhoneAssignmentIsNoOp(a, token);
      DirectBaseBodyFields(a, token);
    }

    /** What the direct-payment object literal carries. */
    lemma DirectBaseBodyFields(a: DirectPaymentArgs, token: JsValue)
      ensures var body := DirectBaseBody(a, token);
              && Has(body, "phoneNumber") && Get(body, "phoneNumber") == a.phoneNumber
              && Get(body, "id") == a.id && Get(body, "amount") == a.amount
              && Get(body, "reason") == a.paymentReason
              && Get(body, "merchantId") == Str(merchantId) && Get(body, "signedToken") == token
              && Get(body, "paymentMethod") == a.paymentMethod && Get(body, "notifyUrl") == a.notifyUrl
    {
    }

    /** The guarded re-assignment in the direct payment is a no-op. */
    lemma DirectPhoneAssignmentIsNoOp(a: DirectPaymentArgs, token: JsValue)
      ensures DirectBody(a, token) == DirectBaseBody(a, token)
    {
      AssignSameValue(DirectBaseBody(a, token), "phoneNumber");
    }

    /** The status-query body. */
    function StatusBody(id: JsValue, token: JsValue): (body: JsValue)
      ensures body.Obj? && body.keys == StatusBodyKeys
      ensures Get(body, "id") == id && Get(body, "merchantId") == Str(merchantId)
      ensures Get(body, "signedToken") == token
    {
      var props := map["id" := id, "merchantId" := Str(merchantId), "signedToken" := token];
      Obj(StatusBodyKeys, props)
    }

    /** Every payload and body the client builds is a well-formed object: its keys
        are distinct and are exactly the keys it maps. */
    lemma InitiatePayloadWellFormed(amount: JsValue, paymentReason: JsValue, nowMs: nat)
      ensures WellFormed(InitiatePaymentPayload(amount, paymentReason, nowMs))
    {
      var p := InitiatePaymentPayload(amount, paymentReason, nowMs);
      LiteralWellFormed(p.keys, p.props);
    }

    lemma DirectPayloadWellFormed(amount: JsValue, paymentReason: JsValue, paymentMethod: JsValue,
                                  phoneNumber: JsValue, nowMs: nat)
      ensures WellFormed(DirectPaymentPayload(amount, paymentReason, paymentMethod, phoneNumber, nowMs))
    {
      var q := DirectPaymentPayload(amount, paymentReason, paymentMethod, phoneNumber, nowMs);
      assert Distinct(DirectPayloadKeys) by { KeyListsDistinct(); }
      assert q.props.Keys == set k | k in DirectPayloadKeys;
      LiteralWellFormed(q.keys, q.props);
    }

    lemma TransactionPayloadWellFormed(id: JsValue, nowMs: nat)
      ensures WellFormed(TransactionPayload(id, nowMs))
    {
      var t := TransactionPayload(id, nowMs);
      LiteralWellFormed(t.keys, t.props);
    }

    lemma InitiateBodyWellFormed(a: PaymentUrlArgs, token: JsValue)
      ensures WellFormed(InitiateBody(a, token))
    {
      InitiateBaseBodyWellFormed(a, token);
      if PhoneGuard(a.phoneNumber) {
        AssignWellFormed(InitiateBaseBody(a, token), "phoneNumber", a.phoneNumber);
      }
    }

    lemma InitiateBaseBodyWellFormed(a: PaymentUrlArgs, token: JsValue)
      ensures WellFormed(InitiateBaseBody(a, token))
    {
      var b := InitiateBaseBody(a, token);
      assert Distinct(InitiateBodyKeys) by { KeyListsDistinct(); }
      assert b.props.Keys == set k | k in InitiateBodyKeys;
      LiteralWellFormed(b.keys, b.props);
    }

    lemma PayoutBodyWellFormed(a: PayoutArgs, token: JsValue)
      ensures WellFormed(PayoutBody(a, token))
    {
      var b := PayoutBody(a, token);
      assert Distinct(PayoutBodyKeys) by { KeyListsDistinct(); }
      assert b.props.Keys == set k | k in PayoutBodyKeys;
      LiteralWellFormed(b.keys, b.props);
    }

    lemma DirectBodyWellFormed(a: DirectPaymentArgs, token: JsValue)
      ensures WellFormed(DirectBody(a, token))
    {
      DirectBaseBodyWellFormed(a, token);
      DirectPhoneAssignmentIsNoOp(a, token);
    }

    lemma DirectBaseBodyWellFormed(a: DirectPaymentArgs, token: JsValue)
      ensures WellFormed(DirectBaseBody(a, token))
    {
      var d := DirectBaseBody(a, token);
      assert Distinct(DirectBodyKeys) by { KeyListsDistinct(); }
      assert d.props.Keys == set k | k in DirectBodyKeys;
      LiteralWellFormed(d.keys, d.props);
    }

    lemma StatusBodyWellFormed(id: JsValue, token: JsValue)
      ensures WellFormed(StatusBody(id, token))
    {
      var s := StatusBody(id, token);
      LiteralWellFormed(s.keys, s.props);
    }

    // ---------------------------------------------------------------------
    // The four operations, as functions of the signer and the transport

    /** `generatePaymentUrl`, after its parameter defaults. */
    function PaymentUrlOutcome(a: PaymentUrlArgs, nowMs: nat, sign: Signer, post: Transport): (r: Outcome<JsValue>)
      ensures r.Threw? ==> !Nullish(r.error)
    {
      Settle(
        match SignedTokenForInitiatePayment(a.amount, a.paymentReason, nowMs, sign)
        case Threw(e) => Threw(e)
        case Returned(token) =>
          match post(baseUrl + InitiatePaymentPath, InitiateBody(WithDefaults(a), token))
          case Threw(e) => Threw(e)
          case Returned(response) =>
            if response.status == 200 then Prop(response.data, "url")
            else Threw(ErrorObject(InitiateFailure)))
    }

    /** The argument list `sendToCustomer` passes to the token generator: five
        arguments (amount, reason, merchant id, payment method, phone number)
        for its four parameters. */
    function PayoutTokenArguments(a: PayoutArgs): (args: seq<JsValue>)
      ensures |args| == 5 && args[2] == Str(merchantId)
    {
      [a.amount, a.paymentReason, Str(merchantId), a.paymentMethod, a.phoneNumber]
    }

    /** `sendToCustomer` */
    function PayoutOutcome(a: PayoutArgs, nowMs: nat, sign: Signer, post: Transport): (r: Outcome<JsValue>)
      ensures r.Threw? ==> !Nullish(r.error)
    {
      Settle(
        match SignedTokenForDirectPaymentOrB2C(PayoutTokenArguments(a), nowMs, sign)
        case Threw(e) => Threw(e)
        case Returned(token) =>
          match post(baseUrl + PayoutTransferPath, PayoutBody(a, token))
          case Threw(e) => Threw(e)
          case Returned(response) => Accept(response, PayoutFailure))
    }

    /** `directPayment` */
    function DirectPaymentOutcome(a: DirectPaymentArgs, nowMs: nat, sign: Signer, post: Transport): (r: Outcome<JsValue>)
      ensures r.Threw? ==> !Nullish(r.error)
    {
      Settle(
        match SignedTokenForDirectPayment(a.amount, a.paymentReason, a.paymentMethod, a.phoneNumber, nowMs, sign)
        case Threw(e) => Threw(e)
        case Returned(token) =>
          match post(baseUrl + DirectPaymentPath, DirectBody(a, token))
          case Threw(e) => Threw(e)
          case Returned(response) => Accept(response, DirectFailure))
    }

    /** `checkTransactionStatus` */
    function TransactionStatusOutcome(id: JsValue, nowMs: nat, sign: Signer, post: Transport): (r: Outcome<JsValue>)
      ensures r.Threw? ==> !Nullish(r.error)
    {
      Settle(
        match SignedTokenForGetTransaction(id, nowMs, sign)
        case Threw(e) => Threw(e)
        case Returned(token) =>
          match post(baseUrl + TransactionStatusPath, StatusBody(id, token))
          case Threw(e) => Threw(e)
          case Returned(response) => Accept(response, StatusFailure))
    }

    // ---------------------------------------------------------------------
    // Properties of the operations

    /** A hosted payment yields a URL exactly when the token was minted over the
        amount and reason, the processor answered the body carrying that token
        with status 200 and a body; the URL is that body's `url`. Any other status
        yields the client's own "Failed to initiate payment" error. */
    lemma PaymentUrlResult(a: PaymentUrlArgs, nowMs: nat, sign: Signer, post: Transport)
      ensures var r := PaymentUrlOutcome(a, nowMs, sign, post);
              var token := sign(InitiatePaymentPayload(a.amount, a.paymentReason, nowMs), privateKey);
              var sent := if token.Threw? then Threw(token.error)
                          else post(baseUrl + InitiatePaymentPath, InitiateBody(WithDefaults(a), token.value));
              && (r.Returned? <==> sent.Returned? && sent.value.status == 200 && !Nullish(sent.value.data))
              && (r.Returned? ==> r.value == Get(sent.value.data, "url"))
              && (sent.Returned? && sent.value.status != 200 ==> r == Threw(ErrorObject(InitiateFailure)))
              && (sent.Threw? ==> r == Threw(Normalize(sent.error)))
    {
    }

    /** With the phone number and the cancel URL left out, the body has no
        `phoneNumber` key and an empty `cancelRedirectUrl`. */
    lemma PaymentUrlDefaults(a: PaymentUrlArgs, token: JsValue)
      requires a.phoneNumber.Undefined? && a.cancelRedirectUrl.Undefined?
      ensures var body := InitiateBody(WithDefaults(a), token);
              && !Has(body, "phoneNumber") && Get(body, "cancelRedirectUrl") == Str("")
              && body.keys == InitiateBodyKeys
    {
      InitiateBodyPhone(WithDefaults(a), token);
      InitiateBodyFields(WithDefaults(a), token);
    }

    /** The payout signs the merchant id in the `paymentMethod` slot and the payment
        method in the `phoneNumber` slot; the phone number is not signed at all. */
    lemma PayoutTokenArgumentsShifted(a: PayoutArgs, otherPhone: JsValue, nowMs: nat)
      ensures var p := DirectOrB2CPayload(PayoutTokenArguments(a), nowMs);
              && Get(p, "paymentMethod") == Str(merchantId)
              && Get(p, "phoneNumber") == a.paymentMethod
              && Get(p, "amount") == a.amount && Get(p, "paymentReason") == a.paymentReason
              && p == DirectOrB2CPayload(PayoutTokenArguments(a.(phoneNumber := otherPhone)), nowMs)
    {
    }

    /** A concrete payout whose signed payment method is not the one requested. */
    lemma PayoutSignsWrongPaymentMethod(nowMs: nat)
      requires merchantId != "telebirr"
      ensures var a := PayoutArgs(Str("tx-1"), Num(100), Str("refund"), Str("0911000000"),
                                  Str("telebirr"), Str("https://example.com/notify"));
              var p := DirectOrB2CPayload(PayoutTokenArguments(a), nowMs);
              Get(p, "paymentMethod") != Str("telebirr") && Get(p, "phoneNumber") != Str("0911000000")
    {
    }

    /** The payload the payout evidently means to sign: its own payment method and phone number. */
    function PayoutTokenPayloadIntended(a: PayoutArgs, nowMs: nat): (p: JsValue)
      ensures Get(p, "paymentMethod") == a.paymentMethod && Get(p, "phoneNumber") == a.phoneNumber
      ensures Get(p, "amount") == a.amount && Get(p, "paymentReason") == a.paymentReason
      ensures Get(p, "merchantId") == Str(merchantId) && StampedAt(p, nowMs)
      ensures p == DirectPaymentPayload(a.amount, a.paymentReason, a.paymentMethod, a.phoneNumber, nowMs)
    {
      DirectOrB2CPayload([a.amount, a.paymentReason, a.paymentMethod, a.phoneNumber], nowMs)
    }

    /** The payout's result for any signer and transport: a signing failure or a
        rejected post is thrown normalised; an answer with status 200 returns the
        processor's body verbatim, and any other status "Failed to initiate B2C". */
    lemma PayoutResult(a: PayoutArgs, nowMs: nat, sign: Signer, post: Transport)
      ensures var r := PayoutOutcome(a, nowMs, sign, post);
              var token := sign(DirectOrB2CPayload(PayoutTokenArguments(a), nowMs), privateKey);
              && (token.Threw? ==> r == Threw(Normalize(token.error)))
              && (token.Returned? ==>
                    var sent := post(baseUrl + PayoutTransferPath, PayoutBody(a, token.value));
                    && (sent.Threw? ==> r == Threw(Normalize(sent.error)))
                    && (sent.Returned? ==>
                          r == (if sent.value.status == 200 then Returned(sent.value.data)
                                else Threw(ErrorObject(PayoutFailure)))))
    {
      NormalizeKeepsOwnErrors(PayoutFailure);
    }

    /** The direct payment's result for any signer and transport, as for the payout,
        with "Failed to initiate direct payment" for a status other than 200. */
    lemma DirectPaymentResult(a: DirectPaymentArgs, nowMs: nat, sign: Signer, post: Transport)
      ensures var r := DirectPaymentOutcome(a, nowMs, sign, post);
              var token := sign(DirectPaymentPayload(a.amount, a.paymentReason, a.paymentMethod, a.phoneNumber, nowMs),
                                privateKey);
              && (token.Threw? ==> r == Threw(Normalize(token.error)))
              && (token.Returned? ==>
                    var sent := post(baseUrl + DirectPaymentPath, DirectBody(a, token.value));
                    && (sent.Threw? ==> r == Threw(Normalize(sent.error)))
                    && (sent.Returned? ==>
                          r == (if sent.value.status == 200 then Returned(sent.value.data)
                                else Threw(ErrorObject(DirectFailure)))))
    {
      NormalizeKeepsOwnErrors(DirectFailure);
    }

    /** The status query's result for any signer and transport, as for the payout,
        with "Failed to initiate payment" for a status other than 200. */
    lemma StatusResult(id: JsValue, nowMs: nat, sign: Signer, post: Transport)
      ensures var r := TransactionStatusOutcome(id, nowMs, sign, post);
              var token := sign(TransactionPayload(id, nowMs), privateKey);
              && (token.Threw? ==> r == Threw(Normalize(token.error)))
              && (token.Returned? ==>
                    var sent := post(baseUrl + TransactionStatusPath, StatusBody(id, token.value));
                    && (sent.Threw? ==> r == Threw(Normalize(sent.error)))
                    && (sent.Returned? ==>
                          r == (if sent.value.status == 200 then Returned(sent.value.data)
                                else Threw(ErrorObject(StatusFailure)))))
    {
      NormalizeKeepsOwnErrors(StatusFailure);
    }

    /** The four operations treat a signing failure the same way: a signer that
        throws e makes each of them throw `Normalize(e)`, whatever the transport. */
    lemma SigningFailuresNormalisedAlike(p: PaymentUrlArgs, b: PayoutArgs, d: DirectPaymentArgs, id: JsValue,
                                         nowMs: nat, e: JsValue, post: Transport)
      ensures var sign: Signer := (x, k) => Threw(e);
              && PaymentUrlOutcome(p, nowMs, sign, post) == Threw(Normalize(e))
              && PayoutOutcome(b, nowMs, sign, post) == Threw(Normalize(e))
              && DirectPaymentOutcome(d, nowMs, sign, post) == Threw(Normalize(e))
              && TransactionStatusOutcome(id, nowMs, sign, post) == Threw(Normalize(e))
    {
    }

    /** The four operations treat a rejected post the same way: for any signer
        that returns a token, a transport that rejects with e makes each of them
        throw `Normalize(e)`. */
    lemma TransportFailuresNormalisedAlike(p: PaymentUrlArgs, b: PayoutArgs, d: DirectPaymentArgs, id: JsValue,
                                           nowMs: nat, e: JsValue, sign: Signer)
      requires forall x, k :: sign(x, k).Returned?
      ensures var post: Transport := (u, x) => Threw(e);
              && PaymentUrlOutcome(p, nowMs, sign, post) == Threw(Normalize(e))
              && PayoutOutcome(b, nowMs, sign, post) == Threw(Normalize(e))
              && DirectPaymentOutcome(d, nowMs, sign, post) == Threw(Normalize(e))
              && TransactionStatusOutcome(id, nowMs, sign, post) == Threw(Normalize(e))
    {
    }

    // ---------------------------------------------------------------------
    // The operations as the client runs them: sign, build the body, post,
    // inspect the status, and normalise whatever was thrown.

    method GeneratePaymentUrl(a: PaymentUrlArgs, nowMs: nat, sign: Signer, post: Transport)
      returns (r: Outcome<JsValue>)
      ensures r == PaymentUrlOutcome(a, nowMs, sign, post)
    {
      var args := WithDefaults(a);
      var attempt: Outcome<JsValue>;
      var token := SignedTokenForInitiatePayment(args.amount, args.paymentReason, nowMs, sign);
      if token.Threw? {
        attempt := Threw(token.error);
      } else {
        var payload := InitiateBody(args, token.value);
        var response := post(baseUrl + InitiatePaymentPath, payload);
        if response.Threw? {
          attempt := Threw(response.error);
        } else if response.value.status == 200 {
          attempt := Prop(response.value.data, "url");
        } else {
          attempt := Threw(ErrorObject(InitiateFailure));
        }
      }
      r := Settle(attempt);
    }

    method SendToCustomer(a: PayoutArgs, nowMs: nat, sign: Signer, post: Transport) returns (r: Outcome<JsValue>)
      ensures r == PayoutOutcome(a, nowMs, sign, post)
    {
      var attempt: Outcome<JsValue>;
      var token := SignedTokenForDirectPaymentOrB2C(
                     [a.amount, a.paymentReason, Str(merchantId), a.paymentMethod, a.phoneNumber], nowMs, sign);
      if token.Threw? {
        attempt := Threw(token.error);
      } else {
        var payload := PayoutBody(a, token.value);
        var response := post(baseUrl + PayoutTransferPath, payload);
        if response.Threw? {
          attempt := Threw(response.error);
        } else if response.value.status == 200 {
          attempt := Returned(response.value.data);
        } else {
          attempt := Threw(ErrorObject(PayoutFailure));
        }
      }
      r := Settle(attempt);
    }

    method DirectPayment(a: DirectPaymentArgs, nowMs: nat, sign: Signer, post: Transport) returns (r: Outcome<JsValue>)
      ensures r == DirectPaymentOutcome(a, nowMs, sign, post)
    {
      var attempt: Outcome<JsValue>;
      var token := SignedTokenForDirectPayment(a.amount, a.paymentReason, a.paymentMethod, a.phoneNumber, nowMs, sign);
      if token.Threw? {
        attempt := Threw(token.error);
      } else {
        var payload := DirectBody(a, token.value);
        var response := post(baseUrl + DirectPaymentPath, payload);
        if response.Threw? {
          attempt := Threw(response.error);
        } else if response.value.status == 200 {
          attempt := Returned(response.value.data);
        } else {
          attempt := Threw(ErrorObject(DirectFailure));
        }
      }
      r := Settle(attempt);
    }

    method CheckTransactionStatus(id: JsValue, nowMs: nat, sign: Signer, post: Transport) returns (r: Outcome<JsValue>)
      ensures r == TransactionStatusOutcome(id, nowMs, sign, post)
    {
      var attempt: Outcome<JsValue>;
      var token := SignedTokenForGetTransaction(id, nowMs, sign);
      if token.Threw? {
        attempt := Threw(token.error);
      } else {
        var response := post(baseUrl + TransactionStatusPath, StatusBody(id, token.value));
        if response.Threw? {
          attempt := Threw(response.error);
        } else if response.value.status == 200 {
          attempt := Returned(response.value.data);
        } else {
          attempt := Threw(ErrorObject(StatusFailure));
        }
      }
      r := Settle(attempt);
    }
  }
}
