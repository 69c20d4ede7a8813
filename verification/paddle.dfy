/**
 * backend/app/paddle.py: checking a webhook's signature, reading the buyer
 * and the plan out of a purchase event, and the shape of the licence token
 * issued for it. HMAC-SHA256 (RFC 2104) and the random suffix are inputs.
 */
module Paddle {
  import opened Wrappers
  import opened Json
  import RemindModels

  newtype Byte = b: int | 0 <= b < 256

  /** `hmac.new(secret.encode(), body, "sha256").hexdigest()`, left abstract. */
  type Hmac = (string, seq<Byte>) -> string

  predicate IsAscii(s: string) {
    forall i :: 0 <= i < |s| ==> s[i] < 128 as char
  }

  /** `hmac.compare_digest` raised `TypeError`: a `str` argument held a non-ASCII character. */
  datatype DigestError = NonAsciiDigest

  /** `verify_paddle_webhook`: false without a secret; otherwise a constant-time comparison of the hex digests. */
  function Verify(secret: Option<string>, hmac: Hmac, body: seq<Byte>, signature: string): (r: Result<bool, DigestError>)
    ensures secret.None? || secret.value == "" ==> r == Ok(false)
    ensures secret.Some? && secret.value != "" ==>
              (r.Err? <==> !IsAscii(hmac(secret.value, body)) || !IsAscii(signature))
    ensures r == Ok(true) <==> && secret.Some? && secret.value != "" && IsAscii(signature)
                               && signature == hmac(secret.value, body)
  {
    if secret.None? || secret.value == "" then Ok(false)
    else
      var expected := hmac(secret.value, body);
      if !IsAscii(expected) || !IsAscii(signature) then Err(NonAsciiDigest)
      else Ok(expected == signature)
  }

  /** A body signed with the configured secret verifies; any other ASCII signature does not. */
  lemma SignedBodyVerifies(secret: string, hmac: Hmac, body: seq<Byte>, other: string)
    requires secret != "" && IsAscii(hmac(secret, body))
    requires IsAscii(other) && other != hmac(secret, body)
    ensures Verify(Some(secret), hmac, body, hmac(secret, body)) == Ok(true)
    ensures Verify(Some(secret), hmac, body, other) == Ok(false)
  {
  }

  /** `PADDLE_PRODUCT_MAPPING` as shipped. */
  const ShippedMapping: map<string, string> := map[]

  /** `product_id in paddle_map` raised `TypeError`: the id was a list or an object. */
  datatype LookupError = Unhashable

  /** `get_plan_tier_from_paddle_product`: the mapped tier of a string id, `None` for anything else. */
  function PlanTierOf(mapping: map<string, string>, productId: Json): (r: Result<Option<string>, LookupError>)
    ensures r.Err? <==> productId.JArray? || productId.JObject?
    ensures r.Ok? ==> (r.value.Some? <==> productId.JStr? && productId.s in mapping)
    ensures r.Ok? && r.value.Some? ==> r.value.value == mapping[productId.s]
  {
    if productId.JArray? || productId.JObject? then Err(Unhashable)
    else if productId.JStr? && productId.s in mapping then Ok(Some(mapping[productId.s]))
    else Ok(None)
  }

  /** With the shipped empty mapping no product has a tier. */
  lemma ShippedMappingHasNoTier(productId: Json)
    ensures PlanTierOf(ShippedMapping, productId).Ok? ==> PlanTierOf(ShippedMapping, productId).value.None?
  {
  }

  /** The `AttributeError` that escapes a handler: `data` or `attributes` was not an object. */
  datatype EventError = NotAnObject

  /** `event["data"]["attributes"]`, each level defaulting to `{}`. */
  function Attributes(event: map<string, Json>): (r: Result<map<string, Json>, EventError>)
    ensures r.Ok? <==> Get(event, "data", JObject(map[])).JObject?
                       && Get(Get(event, "data", JObject(map[])).fields, "attributes", JObject(map[])).JObject?
  {
    var data := Get(event, "data", JObject(map[]));
    if !data.JObject? then Err(NotAnObject)
    else
      var attributes := Get(data.fields, "attributes", JObject(map[]));
      if !attributes.JObject? then Err(NotAnObject) else Ok(attributes.fields)
  }

  /** What a purchase event yields: the buyer's email and the plan tier. */
  datatype Purchase = Purchase(email: Json, tier: string)

  /**
   * `handle_subscription_created` and `handle_transaction_completed`, whose
   * bodies are the same: `None` for a missing email or product, for an
   * unknown product or an empty tier, and for a `TypeError` from the lookup.
   */
  function HandlePurchase(mapping: map<string, string>, event: map<string, Json>): (r: Result<Option<Purchase>, EventError>)
    ensures r.Err? <==> Attributes(event).Err?
    ensures r.Ok? && r.value.Some? <==>
              && Attributes(event).Ok?
              && var attrs := Attributes(event).value;
                 var product := Get(attrs, "product_id", JNull);
                 && Truthy(Get(attrs, "customer_email", JNull)) && Truthy(product)
                 && product.JStr? && product.s in mapping && mapping[product.s] != ""
    ensures r.Ok? && r.value.Some? ==>
              var attrs := Attributes(event).value;
              && r.value.value.email == attrs["customer_email"]
              && r.value.value.tier == mapping[attrs["product_id"].s]
  {
    match Attributes(event)
    case Err(e) => Err(e)
    case Ok(attrs) =>
      var email := Get(attrs, "customer_email", JNull);
      var product := Get(attrs, "product_id", JNull);
      if !Truthy(email) || !Truthy(product) then Ok(None)
      else match PlanTierOf(mapping, product)
        case Err(_) => Ok(None)
        case Ok(None) => Ok(None)
        case Ok(Some(tier)) => if tier == "" then Ok(None) else Ok(Some(Purchase(email, tier)))
  }

  /** With the shipped mapping no event ever yields a purchase. */
  lemma ShippedMappingIssuesNothing(event: map<string, Json>)
    ensures HandlePurchase(ShippedMapping, event).Ok? ==> HandlePurchase(ShippedMapping, event).value.None?
  {
  }

  /** A well-formed event for a mapped product yields the buyer and the tier (`test_handle_subscription_created_success`). */
  lemma MappedProductPurchase(email: string, product: string, tier: string)
    requires email != "" && product != "" && tier != ""
    ensures var attrs := map["customer_email" := JStr(email), "product_id" := JStr(product)];
            var event := map["data" := JObject(map["attributes" := JObject(attrs)])];
            HandlePurchase(map[product := tier], event) == Ok(Some(Purchase(JStr(email), tier)))
  {
  }

  predicate IsHexDigit(c: char) {
    '0' <= c <= '9' || 'a' <= c <= 'f'
  }

  /** `secrets.token_hex(12)`: 24 lower-case hex digits. */
  predicate IsTokenSuffix(s: string) {
    |s| == 24 && forall i :: 0 <= i < |s| ==> IsHexDigit(s[i])
  }

  const TokenPrefix: string := "remind_"

  /** `create_license_token(plan_tier, email)`, given the random suffix. */
  function CreateLicenseToken(tier: string, suffix: string): (t: string)
    ensures TokenPrefix <= t
    ensures |t| == |TokenPrefix| + |tier| + 1 + |suffix|
    ensures t[|TokenPrefix|..|TokenPrefix| + |tier|] == tier
    ensures t[|t| - |suffix| - 1] == '_' && t[|t| - |suffix|..] == suffix
  {
    TokenPrefix + tier + "_" + suffix
  }

  /** Reads a token back into its tier and suffix. */
  function TokenParts(t: string): (r: Option<(string, string)>)
    ensures r.Some? ==> IsTokenSuffix(r.value.1) && TokenPrefix <= t
  {
    if |t| >= |TokenPrefix| + 25 && TokenPrefix <= t && t[|t| - 25] == '_' && IsTokenSuffix(t[|t| - 24..])
    then Some((t[|TokenPrefix|..|t| - 25], t[|t| - 24..]))
    else None
  }

  /** The tier and suffix of an issued token can be read back out of it. */
  lemma TokenRoundTrip(tier: string, suffix: string)
    requires IsTokenSuffix(suffix)
    ensures TokenParts(CreateLicenseToken(tier, suffix)) == Some((tier, suffix))
  {
    var t := CreateLicenseToken(tier, suffix);
    assert t[|TokenPrefix|..|t| - 25] == tier;
  }

  /** An issued token is long enough to be stored as the client's licence. */
  lemma IssuedTokenIsALicence(tier: string, suffix: string, createdAt: nat)
    requires IsTokenSuffix(suffix)
    ensures RemindModels.MakeLicense(CreateLicenseToken(tier, suffix), createdAt, None).Ok?
  {
  }
}
