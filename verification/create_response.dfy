/**
 * The answer to a successful create call: fields picked out of the gateway's
 * reply, with the QR image and text each taken from the first of two
 * candidate keys under `pix` that is truthy.
 */
module CreateResponse {
  import opened Wrappers
  import opened Js

  /** The fields the create route answers with; `None` fields are left undefined. */
  datatype Created = Created(
    transactionId: Option<Json>,
    status: Option<Json>,
    fee: Option<Json>,
    order: Option<Json>,
    qrCodeBase64: Option<Json>,
    qrCodeText: Option<Json>)

  /**
   * The TypeErrors the normaliser can throw: destructuring a null reply, or
   * reading a property of a null `pix`.
   */
  datatype TypeError =
    | DestructureNull(property: string, target: string)
    | ReadOfNull(property: string)

  /** The message Node's V8 engine gives each TypeError. */
  function Message(e: TypeError): string {
    match e
    case DestructureNull(p, t) => "Cannot destructure property '" + p + "' of '" + t + "' as it is null."
    case ReadOfNull(p) => "Cannot read properties of null (reading '" + p + "')"
  }

  /** `pix` after its destructuring default `{}` (applied only when missing). */
  function PixOf(data: Json): Json
    requires !data.JNull?
  {
    Get(data, "pix").GetOr(JObj(map[]))
  }

  /**
   * `const { transactionId, status, fee, order, pix = {} } = data` followed by
   * `pix.qrCodeImage || pix.qrCodeBase64` and `pix.qrCodeText || pix.payload`.
   * It throws exactly when the reply is null or its `pix` is null; otherwise
   * the four plain fields pass through unchanged (a missing status stays
   * missing), each QR field is the first candidate when that is truthy and
   * the second one as it is otherwise, and a missing or non-object `pix`
   * leaves both QR fields undefined.
   */
  function NormalizeCreateReply(data: Json): (r: Result<Created, TypeError>)
    ensures r.Failure? <==> data.JNull? || Get(data, "pix") == Some(JNull)
    ensures r.Success? ==>
      && r.value.transactionId == Get(data, "transactionId")
      && r.value.status == Get(data, "status")
      && r.value.fee == Get(data, "fee")
      && r.value.order == Get(data, "order")
    ensures r.Success? ==>
      var pix := PixOf(data);
      && (Truthy(Get(pix, "qrCodeImage")) ==> r.value.qrCodeBase64 == Get(pix, "qrCodeImage"))
      && (!Truthy(Get(pix, "qrCodeImage")) ==> r.value.qrCodeBase64 == Get(pix, "qrCodeBase64"))
      && (Truthy(Get(pix, "qrCodeText")) ==> r.value.qrCodeText == Get(pix, "qrCodeText"))
      && (!Truthy(Get(pix, "qrCodeText")) ==> r.value.qrCodeText == Get(pix, "payload"))
    ensures r.Success? && !PixOf(data).JObj? ==> r.value.qrCodeBase64.None? && r.value.qrCodeText.None?
  {
    if data.JNull? then Failure(DestructureNull("transactionId", "data"))
    else
      var pix := PixOf(data);
      if pix.JNull? then Failure(ReadOfNull("qrCodeImage"))
      else
        Success(Created(
          Get(data, "transactionId"),
          Get(data, "status"),
          Get(data, "fee"),
          Get(data, "order"),
          Or(Get(pix, "qrCodeImage"), Get(pix, "qrCodeBase64")),
          Or(Get(pix, "qrCodeText"), Get(pix, "payload"))))
  }

  /** The JSON object the create route sends for a normalised reply. */
  function CreatedJson(c: Created): map<string, Json> {
    var m0: map<string, Json> := map[];
    var m1 := SetDefined(m0, "transactionId", c.transactionId);
    var m2 := SetDefined(m1, "status", c.status);
    var m3 := SetDefined(m2, "fee", c.fee);
    var m4 := SetDefined(m3, "order", c.order);
    var m5 := SetDefined(m4, "qrCodeBase64", c.qrCodeBase64);
    SetDefined(m5, "qrCodeText", c.qrCodeText)
  }

  /** Reading the answer back gives each defined field under its own key, and nothing else. */
  lemma CreatedJsonFields(c: Created)
    ensures var m := CreatedJson(c);
      && Prop(m, "transactionId") == c.transactionId
      && Prop(m, "status") == c.status
      && Prop(m, "fee") == c.fee
      && Prop(m, "order") == c.order
      && Prop(m, "qrCodeBase64") == c.qrCodeBase64
      && Prop(m, "qrCodeText") == c.qrCodeText
      && forall k :: k in m ==> k in {"transactionId", "status", "fee", "order", "qrCodeBase64", "qrCodeText"}
  {
  }
}
