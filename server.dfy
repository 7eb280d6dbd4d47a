/** The logic of the three payment endpoints of the HTTP server, with the web
    framework stripped away: a handler takes the request's fields (and the
    clock and random readings it would make) and produces the status code and
    JSON body it replies with. */
module Server {
  import opened Text
  import opened Js
  import opened Sdk

  /** The fields `POST /api/payments/initiate` destructures from its body; a missing field is `undefined`. */
  datatype InitiateRequest = InitiateRequest(orderId: JsValue, amount: JsValue, description: JsValue,
                                             phoneNumber: JsValue)

  /** A reply: the status code given to `res.status` (200 when only `res.json` is called) and the JSON body. */
  datatype HttpResponse = HttpResponse(status: JsValue, body: JsValue)

  /** What the initiate handler does before any await: reply at once, or call the client. */
  datatype InitiatePlan = Respond(response: HttpResponse) | CallSdk(args: PaymentUrlArgs)

  const BaseUrl := "https://santim-express.onrender.com"
  const CallbackUrl := BaseUrl + "/api/payments/callback"
  const RequiredMessage := "orderId and amount are required"
  const InitiateFailureMessage := "Failed to initiate payment"
  const StatusFailureMessage := "Failed to check payment status"
  const CallbackFailureMessage := "Callback processing failed"

  /** The 400 reply to a request without a usable order id or amount. */
  const BadRequest := HttpResponse(Num(400), Obj(["success", "message"],
                                                 map["success" := Bool(false), "message" := Str(RequiredMessage)]))

  // -----------------------------------------------------------------------
  // Transaction ids

  /** `Math.floor(Math.random() * 1000)` for a reading of `Math.random()`. */
  function RandomSuffix(random: real): (r: nat)
    requires 0.0 <= random < 1.0
    ensures r <= 999
    ensures r as real <= random * 1000.0 < r as real + 1.0
  {
    (random * 1000.0).Floor
  }

  /** `txn_${Date.now()}_${suffix}` */
  function TransactionId(nowMs: nat, suffix: nat): string {
    "txn_" + NatToString(nowMs) + "_" + NatToString(suffix)
  }

  /** Reads the clock reading and the suffix back out of a transaction id. */
  function ParseTransactionId(s: string): Option<(nat, nat)> {
    if |s| < 4 || s[..4] != "txn_" then None
    else
      var rest := s[4..];
      match FirstIndex(rest, '_')
      case None => None
      case Some(i) =>
        var ms, suffix := rest[..i], rest[i + 1..];
        if ms != "" && suffix != "" && AllDigits(ms) && AllDigits(suffix)
        then Some((ParseNat(ms), ParseNat(suffix)))
        else None
  }

  /** A transaction id determines the clock reading and the suffix it was made from. */
  lemma TransactionIdRoundTrip(nowMs: nat, suffix: nat)
    ensures ParseTransactionId(TransactionId(nowMs, suffix)) == Some((nowMs, suffix))
  {
    var a, b := NatToString(nowMs), NatToString(suffix);
    var s := TransactionId(nowMs, suffix);
    assert s[..4] == "txn_";
    assert s[4..] == a + ['_'] + b;
    DigitsExclude(a, '_');
    FirstIndexAfter(a, '_', b);
    assert (a + ['_'] + b)[..|a|] == a;
    assert (a + ['_'] + b)[|a| + 1..] == b;
    ParseNatToString(nowMs);
    ParseNatToString(suffix);
  }

  /** Distinct clock readings or suffixes give distinct transaction ids. */
  lemma TransactionIdInjective(t1: nat, r1: nat, t2: nat, r2: nat)
    ensures TransactionId(t1, r1) == TransactionId(t2, r2) <==> t1 == t2 && r1 == r2
  {
    TransactionIdRoundTrip(t1, r1);
    TransactionIdRoundTrip(t2, r2);
  }

  // -----------------------------------------------------------------------
  // Redirect URLs

  /** `${baseUrl}/payment/${page}?transactionId=${id}` */
  function RedirectUrl(page: string, id: string): string {
    BaseUrl + "/payment/" + page + "?transactionId=" + id
  }

  /** The value of a URL's query when the query is the single `transactionId` parameter. */
  function QueryTransactionId(url: string): Option<string> {
    match FirstIndex(url, '?')
    case None => None
    case Some(i) =>
      var query := url[i + 1..];
      if |query| >= 14 && query[..14] == "transactionId=" then Some(query[14..]) else None
  }

  lemma NoQueryInPagePath()
    ensures '?' !in BaseUrl + "/payment/"
  {
    var p := BaseUrl + "/payment/";
    assert forall i :: 0 <= i < |p| ==> p[i] != '?';
  }

  /** A redirect URL carries the transaction id as its `transactionId` query value. */
  lemma RedirectUrlCarriesId(page: string, id: string)
    requires '?' !in page
    ensures QueryTransactionId(RedirectUrl(page, id)) == Some(id)
  {
    var p := BaseUrl + "/payment/" + page;
    NoQueryInPagePath();
    assert '?' !in p;
    var t := "transactionId=" + id;
    assert RedirectUrl(page, id) == p + ['?'] + t;
    FirstIndexAfter(p, '?', t);
    assert (p + ['?'] + t)[|p| + 1..] == t;
  }

  // -----------------------------------------------------------------------
  // POST /api/payments/initiate

  /** Validation, id generation and argument derivation of the initiate handler. */
  function PlanInitiate(req: InitiateRequest, nowMs: nat, random: real): (plan: InitiatePlan)
    requires 0.0 <= random < 1.0
    ensures plan.Respond? <==> !Truthy(req.orderId) || !Truthy(req.amount)
    ensures plan.Respond? ==> plan.response == BadRequest
  {
    if !Truthy(req.orderId) || !Truthy(req.amount) then Respond(BadRequest)
    else
      var id := TransactionId(nowMs, RandomSuffix(random));
      CallSdk(PaymentUrlArgs(
        Str(id),
        req.amount,
        Or(req.description, Str("Payment for Order #" + TemplateString(req.orderId))),
        Str(RedirectUrl("success", id)),
        Str(RedirectUrl("failed", id)),
        Str(CallbackUrl),
        Or(req.phoneNumber, Str("")),
        Str(RedirectUrl("canceled", id))))
  }

  /** A request passing validation calls the client with one generated id,
      `txn_<ms>_<r>` with r at most 999, which is also the `transactionId` of
      the success, failed and canceled redirect URLs; the amount is passed on,
      and the description and phone number fall back to their defaults. */
  lemma PlanArguments(req: InitiateRequest, nowMs: nat, random: real)
    requires 0.0 <= random < 1.0
    requires Truthy(req.orderId) && Truthy(req.amount)
    ensures var a := PlanInitiate(req, nowMs, random).args;
            var suffix := RandomSuffix(random);
            && suffix <= 999
            && a.id == Str(TransactionId(nowMs, suffix))
            && ParseTransactionId(a.id.s) == Some((nowMs, suffix))
            && a.successRedirectUrl.Str? && QueryTransactionId(a.successRedirectUrl.s) == Some(a.id.s)
            && a.failureRedirectUrl.Str? && QueryTransactionId(a.failureRedirectUrl.s) == Some(a.id.s)
            && a.cancelRedirectUrl.Str? && QueryTransactionId(a.cancelRedirectUrl.s) == Some(a.id.s)
            && a.notifyUrl == Str(CallbackUrl)
            && a.amount == req.amount
            && a.paymentReason == (if Truthy(req.description) then req.description
                                   else Str("Payment for Order #" + TemplateString(req.orderId)))
            && a.phoneNumber == (if Truthy(req.phoneNumber) then req.phoneNumber else Str(""))
  {
    var id := TransactionId(nowMs, RandomSuffix(random));
    TransactionIdRoundTrip(nowMs, RandomSuffix(random));
    RedirectUrlCarriesId("success", id);
    RedirectUrlCarriesId("failed", id);
    RedirectUrlCarriesId("canceled", id);
  }

  /** The success reply echoes the client's URL and the generated id. */
  function PaymentInitiated(paymentUrl: JsValue, transactionId: JsValue): (resp: HttpResponse)
    ensures resp.status == Num(200)
    ensures resp.body.Obj? && resp.body.keys == ["success", "paymentUrl", "transactionId"]
    ensures Get(resp.body, "success") == Bool(true)
    ensures Get(resp.body, "paymentUrl") == paymentUrl && Get(resp.body, "transactionId") == transactionId
  {
    HttpResponse(Num(200), Obj(["success", "paymentUrl", "transactionId"],
                               map["success" := Bool(true), "paymentUrl" := paymentUrl,
                                   "transactionId" := transactionId]))
  }

  /** The reply to an error caught while initiating: the processor's status and
      message when the error carries a `response`, otherwise 500 with the
      error's own message or the default one. */
  function ErrorResponse(error: JsValue): (resp: HttpResponse)
    requires !Nullish(error)
    ensures var response := Get(error, "response");
            Truthy(response) ==>
              && resp.status == Get(response, "status")
              && Get(resp.body, "message") == Or(Get(Get(response, "data"), "message"), Str(InitiateFailureMessage))
    ensures !Truthy(Get(error, "response")) ==>
              && resp.status == Num(500)
              && Get(resp.body, "message") == Or(Get(error, "message"), Str(InitiateFailureMessage))
    ensures Get(resp.body, "success") == Bool(false)
    ensures Get(resp.body, "error") == Or(Get(Get(error, "response"), "data"), Get(error, "message"))
  {
    var response := Get(error, "response");
    var message :=
      if Truthy(response) then Or(Get(Get(response, "data"), "message"), Str(InitiateFailureMessage))
      else if Truthy(Get(error, "message")) then Get(error, "message")
      else Str(InitiateFailureMessage);
    var status := if Truthy(response) then Get(response, "status") else Num(500);
    HttpResponse(status, Obj(["success", "message", "error"],
                             map["success" := Bool(false), "message" := message,
                                 "error" := Or(Get(response, "data"), Get(error, "message"))]))
  }

  /** The initiate handler: validate, derive the arguments, call the client, and
      reply with the URL or with the mapped error. */
  method InitiatePayment(sdk: SantimpaySdk, req: InitiateRequest, nowMs: nat, random: real,
                         tokenNowMs: nat, sign: Signer, post: Transport) returns (resp: HttpResponse)
    requires 0.0 <= random < 1.0
    ensures !Truthy(req.orderId) || !Truthy(req.amount) ==> resp == BadRequest
    ensures Truthy(req.orderId) && Truthy(req.amount) ==>
              var a := PlanInitiate(req, nowMs, random).args;
              var out := sdk.PaymentUrlOutcome(a, tokenNowMs, sign, post);
              resp == (if out.Returned? then PaymentInitiated(out.value, a.id) else ErrorResponse(out.error))
  {
    var plan := PlanInitiate(req, nowMs, random);
    if plan.Respond? {
      return plan.response;
    }
    var a := plan.args;
    var paymentUrl := sdk.GeneratePaymentUrl(a, tokenNowMs, sign, post);
    if paymentUrl.Returned? {
      resp := PaymentInitiated(paymentUrl.value, a.id);
    } else {
      var error := paymentUrl.error;
      var errorMessage := Str(InitiateFailureMessage);
      var statusCode := Num(500);
      if Truthy(Get(error, "response")) {
        errorMessage := Or(Get(Get(Get(error, "response"), "data"), "message"), errorMessage);
        statusCode := Get(Get(error, "response"), "status");
      } else if Truthy(Get(error, "message")) {
        errorMessage := Get(error, "message");
      }
      resp := HttpResponse(statusCode, Obj(["success", "message", "error"],
                                           map["success" := Bool(false), "message" := errorMessage,
                                               "error" := Or(Get(Get(error, "response"), "data"),
                                                             Get(error, "message"))]));
    }
  }

  /** The body the client posts for a validated request carries the generated id,
      the same id that the redirect URLs carry and the success reply echoes. */
  lemma InitiateCorrelation(sdk: SantimpaySdk, req: InitiateRequest, nowMs: nat, random: real,
                            tokenNowMs: nat, token: JsValue, paymentUrl: JsValue)
    requires 0.0 <= random < 1.0
    requires Truthy(req.orderId) && Truthy(req.amount)
    ensures var a := PlanInitiate(req, nowMs, random).args;
            var t := TransactionId(nowMs, RandomSuffix(random));
            var body := sdk.InitiateBody(WithDefaults(a), token);
            && Get(body, "id") == Str(t)
            && Get(body, "successRedirectUrl").Str? && QueryTransactionId(Get(body, "successRedirectUrl").s) == Some(t)
            && Get(body, "failureRedirectUrl").Str? && QueryTransactionId(Get(body, "failureRedirectUrl").s) == Some(t)
            && Get(body, "cancelRedirectUrl").Str? && QueryTransactionId(Get(body, "cancelRedirectUrl").s) == Some(t)
            && Get(PaymentInitiated(paymentUrl, a.id).body, "transactionId") == Str(t)
  {
    PlanArguments(req, nowMs, random);
    var a := PlanInitiate(req, nowMs, random).args;
    sdk.InitiateBodyFields(WithDefaults(a), token);
  }

  /** A processor rejection reaches the caller with status 500: the client throws
      the processor's body, which has no `response` of its own, so the handler's
      branch for `error.response` does not apply and the processor's status is lost. */
  lemma RejectionRepliesWith500(e: JsValue)
    requires Truthy(ResponseData(e)) && !Truthy(Get(ResponseData(e), "response"))
    ensures ErrorResponse(Normalize(e)).status == Num(500)
    ensures Get(ErrorResponse(Normalize(e)).body, "message")
            == Or(Get(ResponseData(e), "message"), Str(InitiateFailureMessage))
  {
  }

  /** A transport error whose response has an empty (falsy) body passes the
      client's catch unchanged, so the handler replies with the processor's status. */
  lemma EmptyBodyKeepsStatus(e: JsValue)
    requires Truthy(Get(e, "response")) && !Truthy(ResponseData(e))
    ensures Normalize(e) == e
    ensures ErrorResponse(Normalize(e)).status == Get(Get(e, "response"), "status")
    ensures Get(ErrorResponse(Normalize(e)).body, "message")
            == Or(Get(ResponseData(e), "message"), Str(InitiateFailureMessage))
  {
  }

  /** An error the client raises itself (a non-200 answer) is answered 500 with its message. */
  lemma ClientErrorRepliesWith500(message: string)
    requires message != ""
    ensures ErrorResponse(Normalize(ErrorObject(message))).status == Num(500)
    ensures Get(ErrorResponse(Normalize(ErrorObject(message))).body, "message") == Str(message)
  {
    NormalizeKeepsOwnErrors(message);
  }

  // -----------------------------------------------------------------------
  // POST /api/payments/callback

  /** The callback acknowledges any body it can destructure, echoing its
      `thirdPartyId`; destructuring a nullish body throws and is answered 500. */
  function Callback(body: JsValue): (resp: HttpResponse)
    ensures !Nullish(body) ==>
              && resp.status == Num(200)
              && resp.body.Obj? && resp.body.keys == ["status", "thirdPartyId"]
              && Get(resp.body, "status") == Str("received")
              && Get(resp.body, "thirdPartyId") == Get(body, "thirdPartyId")
    ensures Nullish(body) ==>
              && resp.status == Num(500)
              && resp.body.Obj? && resp.body.keys == ["status", "message"]
              && Get(resp.body, "status") == Str("error")
              && Get(resp.body, "message") == Str(CallbackFailureMessage)
  {
    if Nullish(body) then
      HttpResponse(Num(500), Obj(["status", "message"],
                                 map["status" := Str("error"), "message" := Str(CallbackFailureMessage)]))
    else
      HttpResponse(Num(200), Obj(["status", "thirdPartyId"],
                                 map["status" := Str("received"), "thirdPartyId" := Get(body, "thirdPartyId")]))
  }

  // -----------------------------------------------------------------------
  // GET /api/payments/status/:transactionId

  /** The status reply wraps the client's result unchanged. */
  function StatusReport(transactionId: string, status: JsValue): (resp: HttpResponse)
    ensures resp.status == Num(200)
    ensures resp.body.Obj? && resp.body.keys == ["success", "transactionId", "status"]
    ensures Get(resp.body, "success") == Bool(true)
    ensures Get(resp.body, "transactionId") == Str(transactionId) && Get(resp.body, "status") == status
  {
    HttpResponse(Num(200), Obj(["success", "transactionId", "status"],
                               map["success" := Bool(true), "transactionId" := Str(transactionId),
                                   "status" := status]))
  }

  const StatusCheckFailed := HttpResponse(Num(500), Obj(["success", "message"],
                                                        map["success" := Bool(false),
                                                            "message" := Str(StatusFailureMessage)]))

  /** The status handler: any failure of the client is answered 500 with a fixed message. */
  method PaymentStatus(sdk: SantimpaySdk, transactionId: string, nowMs: nat, sign: Signer, post: Transport)
    returns (resp: HttpResponse)
    ensures var out := sdk.TransactionStatusOutcome(Str(transactionId), nowMs, sign, post);
            && (out.Returned? ==> resp == StatusReport(transactionId, out.value))
            && (out.Threw? ==> resp == StatusCheckFailed)
  {
    var status := sdk.CheckTransactionStatus(Str(transactionId), nowMs, sign, post);
    if status.Returned? {
      resp := StatusReport(transactionId, status.value);
    } else {
      resp := StatusCheckFailed;
    }
  }

  /** On a 200 answer the status endpoint replies with the processor's body itself. */
  lemma StatusRepliesProcessorBody(sdk: SantimpaySdk, transactionId: string, nowMs: nat,
                                   sign: Signer, post: Transport)
    ensures var token := sign(sdk.TransactionPayload(Str(transactionId), nowMs), sdk.privateKey);
            token.Returned? ==>
              var sent := post(sdk.baseUrl + TransactionStatusPath, sdk.StatusBody(Str(transactionId), token.value));
              sent.Returned? && sent.value.status == 200 ==>
                sdk.TransactionStatusOutcome(Str(transactionId), nowMs, sign, post) == Returned(sent.value.data)
                && Get(StatusReport(transactionId, sent.value.data).body, "status") == sent.value.data
  {
  }
}
