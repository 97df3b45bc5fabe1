/**
 * The body the adapter POSTs to the gateway when a charge is created: the
 * request body's fields after destructuring defaults, a generated identifier,
 * the origin marker in `metadata`, the callback URL policy and the optional
 * due date.
 */
module CreatePayload {
  import opened Wrappers
  import opened Js
  import Decimal
  import Text

  /** Origin marker written into every payload's `metadata.source`. */
  const SourceMarker: string := "telegram"

  /** Path appended to the configured webhook base URL. */
  const WebhookPath: string := "/api/webhook/pix"

  /** Prefix of identifiers generated from the clock. */
  const GeneratedPrefix: string := "tg_"

  /** The fields of a charge request after destructuring with defaults. */
  datatype ChargeRequest = ChargeRequest(
    amount: Option<Json>,
    externalId: Option<Json>,
    customerEmail: Option<Json>,
    shippingFee: Json,
    extraFee: Json,
    discount: Json,
    products: Json,
    splits: Json,
    dueDate: Option<Json>,
    metadata: Json,
    callbackUrl: Option<Json>)

  /** The upstream creation payload; `None` fields are left undefined. */
  datatype Payload = Payload(
    identifier: Json,
    amount: Option<Json>,
    shippingFee: Json,
    extraFee: Json,
    discount: Json,
    clientEmail: Json,
    products: Json,
    splits: Json,
    metadata: map<string, Json>,
    callbackUrl: Option<Json>,
    dueDate: Option<Json>)

  /**
   * Destructuring of the request body: a default replaces a missing key only,
   * so an explicit `null`, `0` or `""` is kept.
   */
  function ReadChargeRequest(body: map<string, Json>): ChargeRequest {
    ChargeRequest(
      Prop(body, "amount"),
      Prop(body, "externalId"),
      Prop(body, "customerEmail"),
      Prop(body, "shippingFee").GetOr(JNum(0.0)),
      Prop(body, "extraFee").GetOr(JNum(0.0)),
      Prop(body, "discount").GetOr(JNum(0.0)),
      Prop(body, "products").GetOr(JArr([])),
      Prop(body, "splits").GetOr(JArr([])),
      Prop(body, "dueDate"),
      Prop(body, "metadata").GetOr(JObj(map[])),
      Prop(body, "callbackUrl"))
  }

  /**
   * `id` is the identifier generated at clock reading `now`: `tg_` followed
   * by a non-empty digit string without leading zeros that denotes `now`.
   */
  predicate IsGeneratedAt(id: Json, now: nat) {
    && id.JStr?
    && GeneratedPrefix <= id.s
    && Decimal.Canonical(id.s[|GeneratedPrefix|..])
    && Decimal.Parse(id.s[|GeneratedPrefix|..]) == now
  }

  /** Exactly one identifier is generated at each clock reading: `tg_` and its decimal digits. */
  lemma GeneratedIdentifierExact(id: Json, now: nat)
    ensures IsGeneratedAt(id, now) <==> id == JStr(GeneratedPrefix + Decimal.Show(now))
  {
    var expected := GeneratedPrefix + Decimal.Show(now);
    assert expected[|GeneratedPrefix|..] == Decimal.Show(now);
    Decimal.ParseShow(now);
    if IsGeneratedAt(id, now) {
      var digits := id.s[|GeneratedPrefix|..];
      Decimal.ShowParse(digits);
      assert id.s == GeneratedPrefix + digits;
    }
  }

  /**
   * `externalId || \`tg_${Date.now()}\``, with the clock reading passed in as
   * `now`. The identifier is never falsy; a truthy caller id is kept as it is,
   * otherwise the identifier encodes the clock reading.
   */
  function Identifier(externalId: Option<Json>, now: nat): (id: Json)
    ensures Truthy(Some(id))
    ensures Truthy(externalId) ==> Some(id) == externalId
    ensures !Truthy(externalId) ==> IsGeneratedAt(id, now)
  {
    if Truthy(externalId) then externalId.value
    else
      var s := GeneratedPrefix + Decimal.Show(now);
      assert s[|GeneratedPrefix|..] == Decimal.Show(now);
      Decimal.ParseShow(now);
      JStr(s)
  }

  /** `{ email: customerEmail || '' }`. */
  function ClientEmail(customerEmail: Option<Json>): (email: Json)
    ensures Truthy(customerEmail) ==> Some(email) == customerEmail
    ensures !Truthy(customerEmail) ==> email == JStr("")
  {
    Or(customerEmail, Some(JStr(""))).value
  }

  /**
   * `{ ...metadata, source: 'telegram' }`: every spread key is kept with its
   * value except `source`, which the marker overwrites; nothing else is added.
   */
  function TaggedMetadata(metadata: Json): (m: map<string, Json>)
    ensures "source" in m && m["source"] == JStr(SourceMarker)
    ensures forall k :: k != "source" ==> (k in m <==> k in Spread(metadata))
    ensures forall k :: k in m && k != "source" ==> m[k] == Spread(metadata)[k]
  {
    Spread(metadata)["source" := JStr(SourceMarker)]
  }

  /** The caller's callback URL is used when it is truthy and matches `^https?://`. */
  predicate CallerUrlUsable(callbackUrl: Option<Json>) {
    Truthy(callbackUrl) && MatchesHttpScheme(callbackUrl.value)
  }

  /** `WEBHOOK_BASE_URL` is set to a non-empty string. */
  predicate Configured(webhookBase: Option<string>) {
    webhookBase.Some? && webhookBase.value != ""
  }

  /** The URL synthesised from the webhook base: trailing slashes stripped, webhook path appended. */
  function SynthesisedCallback(base: string): string {
    Text.StripTrailingSlashes(base) + WebhookPath
  }

  /** The TypeError `String()` throws for a value it cannot convert to a primitive. */
  datatype ConversionError = CannotConvertToPrimitive

  /**
   * `callbackUrl && /^https?:\/\//.test(callbackUrl)` throws when a truthy
   * caller value cannot be converted to a string.
   */
  predicate CallbackTestThrows(callbackUrl: Option<Json>) {
    Truthy(callbackUrl) && !Coercible(callbackUrl.value)
  }

  /**
   * Callback URL policy. The test throws for a truthy caller value that
   * cannot be converted to a string. Otherwise a usable caller URL wins, even
   * over a configured base; failing that a configured base yields the
   * synthesised URL; failing that the field is left out.
   */
  function ResolveCallback(callbackUrl: Option<Json>, webhookBase: Option<string>): (r: Result<Option<Json>, ConversionError>)
    ensures r.Failure? <==> CallbackTestThrows(callbackUrl)
    ensures r.Success? && CallerUrlUsable(callbackUrl) ==> r.value == callbackUrl
    ensures r.Success? && !CallerUrlUsable(callbackUrl) && Configured(webhookBase) ==>
      r.value == Some(JStr(SynthesisedCallback(webhookBase.value)))
    ensures r.Success? ==> (r.value.Some? <==> CallerUrlUsable(callbackUrl) || Configured(webhookBase))
  {
    if CallbackTestThrows(callbackUrl) then Failure(CannotConvertToPrimitive)
    else if CallerUrlUsable(callbackUrl) then Success(callbackUrl)
    else if Configured(webhookBase) then Success(Some(JStr(SynthesisedCallback(webhookBase.value))))
    else Success(None)
  }

  /** `if (dueDate) payload.dueDate = dueDate`: only a truthy due date is sent, unchanged. */
  function DueDate(dueDate: Option<Json>): (r: Option<Json>)
    ensures r.Some? <==> Truthy(dueDate)
    ensures r.Some? ==> r == dueDate
  {
    if Truthy(dueDate) then dueDate else None
  }

  /**
   * The payload built from a charge request, a clock reading and the webhook
   * base setting, or the TypeError the callback test throws.
   */
  function BuildPayload(q: ChargeRequest, now: nat, webhookBase: Option<string>): Result<Payload, ConversionError> {
    match ResolveCallback(q.callbackUrl, webhookBase)
    case Failure(e) => Failure(e)
    case Success(callbackUrl) =>
      Success(Payload(
        Identifier(q.externalId, now),
        q.amount,
        q.shippingFee,
        q.extraFee,
        q.discount,
        ClientEmail(q.customerEmail),
        q.products,
        q.splits,
        TaggedMetadata(q.metadata),
        callbackUrl,
        DueDate(q.dueDate)))
  }

  /** Keys every payload carries. */
  const AlwaysKeys: set<string> :=
    {"identifier", "shippingFee", "extraFee", "discount", "client", "products", "splits", "metadata"}

  /** The properties every payload defines, under their JSON keys. */
  function FixedJson(p: Payload): map<string, Json> {
    map[
      "identifier" := p.identifier,
      "shippingFee" := p.shippingFee,
      "extraFee" := p.extraFee,
      "discount" := p.discount,
      "client" := JObj(map["email" := p.clientEmail]),
      "products" := p.products,
      "splits" := p.splits,
      "metadata" := JObj(p.metadata)]
  }

  /** The JSON object axios sends: `undefined` properties are dropped by `JSON.stringify`. */
  function PayloadJson(p: Payload): map<string, Json> {
    SetDefined(SetDefined(SetDefined(FixedJson(p), "amount", p.amount), "callbackUrl", p.callbackUrl), "dueDate", p.dueDate)
  }

  /** The fixed part has exactly the always-present keys. */
  lemma FixedJsonFields(p: Payload)
    ensures FixedJson(p).Keys == AlwaysKeys
    ensures var m := FixedJson(p);
      && m["identifier"] == p.identifier
      && m["shippingFee"] == p.shippingFee
      && m["extraFee"] == p.extraFee
      && m["discount"] == p.discount
      && m["client"] == JObj(map["email" := p.clientEmail])
      && m["products"] == p.products
      && m["splits"] == p.splits
      && m["metadata"] == JObj(p.metadata)
  {
  }

  /** Reading a payload back from its JSON object gives its fields, and only defined ones appear. */
  lemma PayloadJsonFields(p: Payload)
    ensures var m := PayloadJson(p);
      && AlwaysKeys <= m.Keys
      && (forall k :: k in m ==> k in AlwaysKeys || k == "amount" || k == "callbackUrl" || k == "dueDate")
      && m["identifier"] == p.identifier
      && m["shippingFee"] == p.shippingFee
      && m["extraFee"] == p.extraFee
      && m["discount"] == p.discount
      && m["client"] == JObj(map["email" := p.clientEmail])
      && m["products"] == p.products
      && m["splits"] == p.splits
      && m["metadata"] == JObj(p.metadata)
      && Prop(m, "amount") == p.amount
      && Prop(m, "callbackUrl") == p.callbackUrl
      && Prop(m, "dueDate") == p.dueDate
  {
    var fixed := FixedJson(p);
    FixedJsonFields(p);
    assert "amount" !in AlwaysKeys && "callbackUrl" !in AlwaysKeys && "dueDate" !in AlwaysKeys;
    var m1 := SetDefined(fixed, "amount", p.amount);
    var m2 := SetDefined(m1, "callbackUrl", p.callbackUrl);
    var m3 := SetDefined(m2, "dueDate", p.dueDate);
    assert Prop(m3, "amount") == p.amount;
    assert Prop(m3, "callbackUrl") == p.callbackUrl;
  }

  /** The wire body of the create call for a given request body, or the TypeError thrown before it is sent. */
  function WireBody(body: map<string, Json>, now: nat, webhookBase: Option<string>): Result<map<string, Json>, ConversionError> {
    match BuildPayload(ReadChargeRequest(body), now, webhookBase)
    case Failure(e) => Failure(e)
    case Success(p) => Success(PayloadJson(p))
  }

  /**
   * Which keys the wire body has: the fixed ones, `amount` exactly when the
   * caller sent one, `callbackUrl` exactly when the policy yields one, and
   * `dueDate` exactly when a truthy due date was sent.
   */
  lemma WireBodyKeys(body: map<string, Json>, now: nat, webhookBase: Option<string>)
    ensures WireBody(body, now, webhookBase).Failure? <==> CallbackTestThrows(Prop(body, "callbackUrl"))
    ensures WireBody(body, now, webhookBase).Success? ==>
      var w := WireBody(body, now, webhookBase).value;
      && AlwaysKeys <= w.Keys
      && ("amount" in w <==> "amount" in body)
      && ("callbackUrl" in w <==> CallerUrlUsable(Prop(body, "callbackUrl")) || Configured(webhookBase))
      && ("dueDate" in w <==> Truthy(Prop(body, "dueDate")))
      && forall k :: k in w ==> k in AlwaysKeys || k == "amount" || k == "callbackUrl" || k == "dueDate"
  {
    var built := BuildPayload(ReadChargeRequest(body), now, webhookBase);
    if built.Success? {
      PayloadJsonFields(built.value);
    }
  }

  /**
   * Values copied from the request: `amount` unchanged and unvalidated, fees
   * and discount defaulting to 0 and line items to `[]` only when missing,
   * the e-mail defaulting to "" when falsy, and the due date unchanged when
   * it is sent.
   */
  lemma WireBodyCopiesAndDefaults(body: map<string, Json>, now: nat, webhookBase: Option<string>)
    ensures WireBody(body, now, webhookBase).Success? ==>
      var w := WireBody(body, now, webhookBase).value;
      && Prop(w, "amount") == Prop(body, "amount")
      && w["shippingFee"] == (if "shippingFee" in body then body["shippingFee"] else JNum(0.0))
      && w["extraFee"] == (if "extraFee" in body then body["extraFee"] else JNum(0.0))
      && w["discount"] == (if "discount" in body then body["discount"] else JNum(0.0))
      && w["products"] == (if "products" in body then body["products"] else JArr([]))
      && w["splits"] == (if "splits" in body then body["splits"] else JArr([]))
      && w["client"] == JObj(map["email" :=
           if Truthy(Prop(body, "customerEmail")) then body["customerEmail"] else JStr("")])
      && (Truthy(Prop(body, "dueDate")) ==> w["dueDate"] == body["dueDate"])
  {
    var built := BuildPayload(ReadChargeRequest(body), now, webhookBase);
    if built.Success? {
      PayloadJsonFields(built.value);
    }
  }

  /**
   * The identifier sent upstream: the caller's truthy `externalId`, otherwise
   * `tg_` followed by the clock reading; never falsy.
   */
  lemma WireBodyIdentifier(body: map<string, Json>, now: nat, webhookBase: Option<string>)
    ensures WireBody(body, now, webhookBase).Success? ==>
      var id := WireBody(body, now, webhookBase).value["identifier"];
      && Truthy(Some(id))
      && (Truthy(Prop(body, "externalId")) ==> id == body["externalId"])
      && (!Truthy(Prop(body, "externalId")) ==> IsGeneratedAt(id, now))
  {
    var built := BuildPayload(ReadChargeRequest(body), now, webhookBase);
    if built.Success? {
      PayloadJsonFields(built.value);
    }
  }

  /**
   * Two requests without a truthy `externalId` made at different clock
   * readings get different identifiers.
   */
  lemma GeneratedIdentifiersDiffer(externalId: Option<Json>, t1: nat, t2: nat)
    requires !Truthy(externalId) && t1 != t2
    ensures Identifier(externalId, t1) != Identifier(externalId, t2)
  {
  }

  /** The metadata sent upstream is the tagged spread of the request's `metadata`, `{}` when missing. */
  lemma WireBodyMetadata(body: map<string, Json>, now: nat, webhookBase: Option<string>)
    ensures WireBody(body, now, webhookBase).Success? ==>
      WireBody(body, now, webhookBase).value["metadata"] ==
        JObj(TaggedMetadata(if "metadata" in body then body["metadata"] else JObj(map[])))
  {
    var built := BuildPayload(ReadChargeRequest(body), now, webhookBase);
    if built.Success? {
      PayloadJsonFields(built.value);
    }
  }

  /**
   * For an object `metadata` the tagged copy has exactly the caller's keys
   * plus `source`, the caller's values except under `source`, and the marker
   * under `source` whatever the caller sent there.
   */
  lemma TaggedObjectMetadata(fields: map<string, Json>)
    ensures TaggedMetadata(JObj(fields)).Keys == fields.Keys + {"source"}
    ensures TaggedMetadata(JObj(fields))["source"] == JStr(SourceMarker)
    ensures forall k :: k in fields && k != "source" ==> TaggedMetadata(JObj(fields))[k] == fields[k]
  {
  }

  /**
   * With a base URL that has an http(s) scheme and a host, the callback URL
   * the payload carries is a string starting with `http://` or `https://`,
   * unless it is the caller's own array, which is forwarded as an array
   * because only its string form was tested.
   */
  lemma CallbackIsHttpUrl(callbackUrl: Option<Json>, webhookBase: Option<string>, hostAt: nat)
    requires Configured(webhookBase) ==>
      && Text.HasHttpScheme(webhookBase.value)
      && Text.SchemeLength(webhookBase.value) <= hostAt < |webhookBase.value|
      && webhookBase.value[hostAt] != '/'
    ensures var r := ResolveCallback(callbackUrl, webhookBase);
      r.Success? && r.value.Some? ==>
        || (r.value.value.JStr? && Text.HasHttpScheme(r.value.value.s))
        || (r.value == callbackUrl && r.value.value.JArr?)
  {
    if !CallbackTestThrows(callbackUrl) && !CallerUrlUsable(callbackUrl) && Configured(webhookBase) {
      var base := webhookBase.value;
      Text.StripKeepsScheme(base, hostAt);
      var r := Text.StripTrailingSlashes(base);
      if "http://" <= r {
        assert (r + WebhookPath)[..7] == r[..7];
      } else {
        assert (r + WebhookPath)[..8] == r[..8];
      }
    }
  }

  /**
   * An array whose string form starts with a scheme passes the test and is
   * forwarded as the array itself, even when a webhook base is configured.
   */
  lemma ArrayCallbackForwarded()
    ensures var cb := JArr([JStr("https://x"), JStr("y")]);
      && ToStr(cb) == "https://x,y"
      && ResolveCallback(Some(cb), Some("https://hook.example")) == Success(Some(cb))
  {
    var cb := JArr([JStr("https://x"), JStr("y")]);
    assert Join(cb, 1) == "y";
    assert Join(cb, 0) == "https://x" + "," + "y";
    assert Text.HasHttpScheme("https://x");
  }

  /**
   * A base that is only a scheme loses its `//` to slash stripping: the
   * synthesised callback is then a URL with no host.
   */
  lemma SchemeOnlyBaseLosesSlashes()
    ensures ResolveCallback(None, Some("https://")) == Success(Some(JStr("https:/api/webhook/pix")))
  {
    Text.StripTrailingSlashesUnique("https:", "//");
    assert "https:" + "//" == "https://";
    assert "https:" + WebhookPath == "https:/api/webhook/pix";
  }
}
