/**
 * The three routes of the adapter with their gateway calls abstracted away:
 * each route is split into the outbound request it makes and the answer it
 * gives for the gateway's reply.
 */
module Handlers {
  import opened Wrappers
  import opened Js
  import opened Upstream
  import CreatePayload
  import CreateResponse

  const ApiBase: string := "https://app.venuzpay.com/api/v1"
  const CreatePixUrl: string := ApiBase + "/gateway/pix/receive"
  const StatusPixUrl: string := ApiBase + "/gateway/pix/status"

  /** An outbound gateway call: a POST with a JSON object body, or a GET. */
  datatype Outbound = Post(url: string, body: map<string, Json>) | Fetch(url: string)

  /**
   * `POST /api/pix/create`, outbound half. When the caller's truthy
   * `callbackUrl` cannot be converted to a string, the regex test throws
   * outside the `try`: no call is made and, under Express 4, the handler
   * sends no answer.
   * Otherwise the payload is posted to the fixed creation URL: it has the
   * fixed keys, an identifier that is never falsy and is the caller's truthy
   * `externalId` when there is one, `metadata.source` set to the marker, and
   * the callback URL by precedence.
   */
  function CreateCall(body: map<string, Json>, now: nat, webhookBase: Option<string>): (call: Option<Outbound>)
    ensures call.None? <==> CreatePayload.CallbackTestThrows(Prop(body, "callbackUrl"))
    ensures call.Some? ==> call.value.Post? && call.value.url == CreatePixUrl
    ensures call.Some? ==>
      var sent := call.value.body;
      && CreatePayload.AlwaysKeys <= sent.Keys
      && Truthy(Some(sent["identifier"]))
      && (Truthy(Prop(body, "externalId")) ==> sent["identifier"] == body["externalId"])
      && sent["metadata"].JObj?
      && "source" in sent["metadata"].fields
      && sent["metadata"].fields["source"] == JStr(CreatePayload.SourceMarker)
    ensures call.Some? && CreatePayload.CallerUrlUsable(Prop(body, "callbackUrl")) ==>
      Prop(call.value.body, "callbackUrl") == Prop(body, "callbackUrl")
    ensures call.Some? && !CreatePayload.CallerUrlUsable(Prop(body, "callbackUrl")) && CreatePayload.Configured(webhookBase) ==>
      Prop(call.value.body, "callbackUrl") == Some(JStr(CreatePayload.SynthesisedCallback(webhookBase.value)))
    ensures call.Some? && !CreatePayload.CallerUrlUsable(Prop(body, "callbackUrl")) && !CreatePayload.Configured(webhookBase) ==>
      "callbackUrl" !in call.value.body
  {
    match CreatePayload.BuildPayload(CreatePayload.ReadChargeRequest(body), now, webhookBase)
    case Failure(_) => None
    case Success(p) =>
      CreatePayload.PayloadJsonFields(p);
      Some(Post(CreatePixUrl, CreatePayload.PayloadJson(p)))
  }

  /**
   * `POST /api/pix/create`, answering half: 201 with the normalised fields
   * when the reply normalises; a TypeError from normalising is caught like
   * any error without a response (500 with its message); a gateway error is
   * mapped by the shared error mapping.
   */
  function CreateAnswer(reply: Reply): (r: HttpResponse)
    ensures reply.Answered? ==> (r.code == 201 <==> CreateResponse.NormalizeCreateReply(reply.data).Success?)
    ensures reply.Answered? && CreateResponse.NormalizeCreateReply(reply.data).Success? ==>
      r.body == JsonBody(JObj(CreateResponse.CreatedJson(CreateResponse.NormalizeCreateReply(reply.data).value)))
    ensures reply.Answered? && CreateResponse.NormalizeCreateReply(reply.data).Failure? ==>
      r == HttpResponse(InternalError,
        JsonBody(MessageBody(CreateResponse.Message(CreateResponse.NormalizeCreateReply(reply.data).error))))
    ensures reply.Threw? ==> r == ErrorReply(reply.error)
  {
    match reply
    case Answered(data) =>
      (match CreateResponse.NormalizeCreateReply(data)
       case Success(c) => HttpResponse(201, JsonBody(JObj(CreateResponse.CreatedJson(c))))
       case Failure(te) => ErrorReply(Caught(None, CreateResponse.Message(te))))
    case Threw(e) => ErrorReply(e)
  }

  /** `${STATUS_PIX_URL}/${id}`. */
  function StatusUrl(id: string): (url: string)
    ensures StatusPixUrl + "/" <= url
    ensures url[|StatusPixUrl| + 1..] == id
  {
    StatusPixUrl + "/" + id
  }

  /** The id a status URL asks about, if it is one. */
  function StatusIdOf(url: string): Option<string> {
    if StatusPixUrl + "/" <= url then Some(url[|StatusPixUrl| + 1..]) else None
  }

  /** The id can be read back from the status URL string. */
  lemma StatusUrlRoundTrip(id: string)
    ensures StatusIdOf(StatusUrl(id)) == Some(id)
  {
  }

  /** Distinct ids give distinct status URL strings. */
  lemma StatusUrlInjective(id1: string, id2: string)
    requires StatusUrl(id1) == StatusUrl(id2)
    ensures id1 == id2
  {
    StatusUrlRoundTrip(id1);
    StatusUrlRoundTrip(id2);
  }

  /** `GET /api/pix/status/:id`, outbound half: the URL string handed to axios. */
  function StatusCall(id: string): (call: Outbound)
    ensures call.Fetch? && StatusIdOf(call.url) == Some(id)
  {
    StatusUrlRoundTrip(id);
    Fetch(StatusUrl(id))
  }

  /**
   * `GET /api/pix/status/:id`, answering half: the gateway's body verbatim
   * with 200, or the shared error mapping.
   */
  function StatusAnswer(reply: Reply): (r: HttpResponse)
    ensures reply.Answered? ==> r == HttpResponse(200, JsonBody(reply.data))
    ensures reply.Threw? ==> r.code == ErrorCode(reply.error) && r.body == JsonBody(ErrorBody(reply.error))
  {
    match reply
    case Answered(data) => HttpResponse(200, JsonBody(data))
    case Threw(e) => ErrorReply(e)
  }

  /** Both gateway-calling routes answer a gateway error in the same way. */
  lemma GatewayErrorsAnsweredAlike(e: Caught)
    ensures CreateAnswer(Threw(e)) == StatusAnswer(Threw(e))
  {
  }

  /**
   * When the reply normalises, the create route's 201 answer has a status
   * exactly when the gateway sent one, and with exactly the gateway's value:
   * no status is invented.
   */
  lemma CreateAnswerNeverInventsStatus(data: Json)
    requires CreateResponse.NormalizeCreateReply(data).Success?
    ensures CreateAnswer(Answered(data)).body.JsonBody?
    ensures CreateAnswer(Answered(data)).body.value.JObj?
    ensures Prop(CreateAnswer(Answered(data)).body.value.fields, "status") == Get(data, "status")
    ensures Prop(CreateAnswer(Answered(data)).body.value.fields, "transactionId") == Get(data, "transactionId")
  {
    CreateResponse.CreatedJsonFields(CreateResponse.NormalizeCreateReply(data).value);
  }

  /**
   * QR data under keys other than `qrCodeImage`/`qrCodeBase64` and
   * `qrCodeText`/`payload` is not surfaced: a reply carrying only
   * `pix.base64` and `pix.code` is answered without QR fields.
   */
  lemma ForeignQrKeysIgnored()
    ensures var data := JObj(map[
        "transactionId" := JStr("tx1"),
        "status" := JStr("pending"),
        "pix" := JObj(map["base64" := JStr("Q"), "code" := JStr("0002")])]);
      CreateAnswer(Answered(data)) ==
        HttpResponse(201, JsonBody(JObj(map["transactionId" := JStr("tx1"), "status" := JStr("pending")])))
  {
    var data := JObj(map[
        "transactionId" := JStr("tx1"),
        "status" := JStr("pending"),
        "pix" := JObj(map["base64" := JStr("Q"), "code" := JStr("0002")])]);
    var c := CreateResponse.NormalizeCreateReply(data).value;
    assert c == CreateResponse.Created(Some(JStr("tx1")), Some(JStr("pending")), None, None, None, None);
    CreateResponse.CreatedJsonFields(c);
    assert CreateResponse.CreatedJson(c) == map["transactionId" := JStr("tx1"), "status" := JStr("pending")];
  }

  /**
   * Only the four candidate keys under `pix` feed the QR fields: setting any
   * other key of an object `pix` (such as `base64` or `code`) leaves the
   * normalised reply unchanged.
   */
  lemma PixKeysOutsideCandidatesIgnored(f: map<string, Json>, pf: map<string, Json>, k: string, v: Json)
    requires Prop(f, "pix") == Some(JObj(pf))
    requires k !in {"qrCodeImage", "qrCodeBase64", "qrCodeText", "payload"}
    ensures CreateResponse.NormalizeCreateReply(JObj(f["pix" := JObj(pf[k := v])])) ==
      CreateResponse.NormalizeCreateReply(JObj(f))
  {
    var g := f["pix" := JObj(pf[k := v])];
    assert Get(JObj(g), "transactionId") == Get(JObj(f), "transactionId");
    assert Get(JObj(g), "status") == Get(JObj(f), "status");
    assert Get(JObj(g), "fee") == Get(JObj(f), "fee");
    assert Get(JObj(g), "order") == Get(JObj(f), "order");
  }

  /** The two fields the webhook route reads from the notification's top level. */
  datatype WebhookNotice = WebhookNotice(transactionId: Option<Json>, status: Option<Json>)

  /**
   * `const { transactionId, status } = req.body`: the two top-level values,
   * `undefined` when missing; nothing is looked up under a nested key.
   */
  function WebhookNoticeOf(body: map<string, Json>): (n: WebhookNotice)
    ensures n.transactionId.Some? <==> "transactionId" in body
    ensures n.status.Some? <==> "status" in body
    ensures n.transactionId.Some? ==> n.transactionId.value == body["transactionId"]
    ensures n.status.Some? ==> n.status.value == body["status"]
  {
    WebhookNotice(Prop(body, "transactionId"), Prop(body, "status"))
  }

  /**
   * `POST /api/webhook/pix` acknowledges with 200 `OK` whenever the log line's
   * template literal can convert both values to strings. Otherwise the
   * synchronous handler throws and Express answers 500 with its error page.
   */
  function WebhookAnswer(body: map<string, Json>): (r: HttpResponse)
    ensures r.code == 200 <==>
      CoercibleProp(WebhookNoticeOf(body).transactionId) && CoercibleProp(WebhookNoticeOf(body).status)
    ensures r.code == 200 ==> r.body == TextBody("OK")
    ensures r.code != 200 ==> r == HttpResponse(InternalError, ErrorPage)
  {
    var n := WebhookNoticeOf(body);
    if CoercibleProp(n.transactionId) && CoercibleProp(n.status) then HttpResponse(200, TextBody("OK"))
    else HttpResponse(InternalError, ErrorPage)
  }

  /** A `transactionId` object with its own `toString` key makes the webhook answer 500. */
  lemma WebhookToStringKeyFails()
    ensures WebhookAnswer(map["transactionId" := JObj(map["toString" := JNum(0.0)])]).code == InternalError
  {
  }

  /**
   * The notice depends on the two top-level keys only: a nested
   * `transaction` object or any other key leaves it unchanged.
   */
  lemma WebhookReadsTopLevelOnly(body: map<string, Json>, key: string, v: Json)
    requires key != "transactionId" && key != "status"
    ensures WebhookNoticeOf(body[key := v]) == WebhookNoticeOf(body)
  {
  }
}
