/** Concrete requests through the pipeline: a payment request that is forwarded, the same
    request with a signature that does not verify, and requests whose credentials are
    empty or not strings. Only the request is concrete; the codec, the library and the
    network are whatever the environment says, constrained only where a scenario needs it. */
module Scenarios {
  import opened Wrappers
  import opened Primitives
  import KeyLoader
  import opened Signature
  import opened Payload
  import opened Headers
  import opened Target
  import opened Responses
  import opened Proxy
  import opened HandlerProperties

  const SignedValue := "1000|order123"

  /** The decoded body `{"sec": <signature>, "secval": "1000|order123", "amount": 1000}`. */
  function PaymentFields(signature: string): Object {
    map[SecKey := JString(signature), SecValKey := JString(SignedValue), "amount" := JNumber(1000.0)]
  }

  /** What remains of the payment body once the credentials are stripped. */
  function PaymentPayload(): Object {
    map["amount" := JNumber(1000.0)]
  }

  /** A POST to `/pay/request` with no query. */
  predicate PaymentRequest(env: Env, r: Request, signature: string) {
    && r.httpMethod == "POST" && r.path == "/pay/request" && r.rawQuery == ""
    && r.body.Ok? && env.codec.unmarshal(r.body.value) == Some(JObject(PaymentFields(signature)))
  }

  /** Both credentials of the payment body are strings. */
  lemma PaymentCredentials(signature: string)
    ensures StringField(PaymentFields(signature), SecKey) == Some(signature)
    ensures StringField(PaymentFields(signature), SecValKey) == Some(SignedValue)
  {
  }

  /** Stripping the credentials leaves only the amount. */
  lemma PaymentPayloadIsSanitized(signature: string)
    ensures Sanitized(PaymentFields(signature)) == PaymentPayload()
  {
    var s := Sanitized(PaymentFields(signature));
    assert s.Keys == PaymentPayload().Keys;
  }

  /** A payment request is decoded into its three fields and reaches the credential checks. */
  lemma PaymentDecoded(env: Env, r: Request, signature: string)
    requires PaymentRequest(env, r, signature)
    requires KeyLoader.LoadPublicKey(env.keyFile, env.lib).Ok?
    ensures Handle(env, r) == Admit(env, r, KeyLoader.LoadPublicKey(env.keyFile, env.lib).value, PaymentFields(signature))
  {
    assert DecodedBody(env, r) == Some(PaymentFields(signature));
    HandleStages(env, r);
  }

  /** The payment fields with an accepted signature are forwarded as `{"amount": 1000}`,
      after a verification of the signed value against the signature. */
  lemma PaymentAdmitted(env: Env, r: Request, key: RsaPublicKey, signature: string)
    requires signature != ""
    requires VerifySignature(env.lib, key, SignedValue, signature).Pass?
    ensures Admit(env, r, key, PaymentFields(signature)) ==
      Forward(env, r, PaymentPayload(), [LoadKey, ReadBody, DecodeJson, Verify(SignedValue, signature)])
  {
    PaymentCredentials(signature);
    AdmitAccepted(env, r, key, PaymentFields(signature));
    PaymentPayloadIsSanitized(signature);
  }

  /** A payment request whose signature verifies is verified on the signed value and sent
      once to `https://sep.shaparak.ir/pay/request`, with the inbound method, the custom
      inbound headers, and the encoding of `{"amount": 1000}` as its body. */
  lemma PaymentForwarded(env: Env, r: Request, signature: string)
    requires PaymentRequest(env, r, signature) && signature != ""
    requires KeyLoader.LoadPublicKey(env.keyFile, env.lib).Ok?
    requires VerifySignature(env.lib, KeyLoader.LoadPublicKey(env.keyFile, env.lib).value, SignedValue, signature).Pass?
    requires env.codec.marshal(PaymentPayload()).Some?
    requires env.net.newRequest("POST", "https://sep.shaparak.ir/pay/request")
    ensures var calls := Handle(env, r).calls;
      && |calls| == 7 && calls[3] == Verify(SignedValue, signature)
      && calls[6] == Send(Outbound("POST", "https://sep.shaparak.ir/pay/request", CustomHeaders(r.header),
                                   env.codec.marshal(PaymentPayload()).value))
  {
    PaymentDecoded(env, r, signature);
    PaymentAdmitted(env, r, KeyLoader.LoadPublicKey(env.keyFile, env.lib).value, signature);
    PaymentUrl(r);
    PaymentSent(env, r, signature);
  }

  /** `/pay/request` with no query is forwarded to `https://sep.shaparak.ir/pay/request`. */
  lemma PaymentUrl(r: Request)
    requires r.path == "/pay/request" && r.rawQuery == ""
    ensures TargetUrl(r.path, r.rawQuery) == "https://sep.shaparak.ir/pay/request"
  {
  }

  /** Forwarding the payment payload encodes, builds and then sends it. */
  lemma PaymentSent(env: Env, r: Request, signature: string)
    requires env.codec.marshal(PaymentPayload()).Some?
    requires env.net.newRequest(r.httpMethod, TargetUrl(r.path, r.rawQuery))
    ensures var calls := Forward(env, r, PaymentPayload(), [LoadKey, ReadBody, DecodeJson, Verify(SignedValue, signature)]).calls;
      && |calls| == 7 && calls[3] == Verify(SignedValue, signature)
      && calls[6] == Send(Outbound(r.httpMethod, TargetUrl(r.path, r.rawQuery), CustomHeaders(r.header),
                                   env.codec.marshal(PaymentPayload()).value))
  {
    ForwardSends(env, r, PaymentPayload(), [LoadKey, ReadBody, DecodeJson, Verify(SignedValue, signature)]);
  }

  /** The caller of a forwarded payment request receives the upstream's status, headers
      and body unchanged when the body is copied without error. */
  lemma PaymentRelayed(env: Env, r: Request, signature: string, up: Upstream)
    requires PaymentRequest(env, r, signature) && signature != ""
    requires KeyLoader.LoadPublicKey(env.keyFile, env.lib).Ok?
    requires VerifySignature(env.lib, KeyLoader.LoadPublicKey(env.keyFile, env.lib).value, SignedValue, signature).Pass?
    requires env.codec.marshal(PaymentPayload()).Some?
    requires env.net.newRequest("POST", "https://sep.shaparak.ir/pay/request")
    requires env.net.send(Outbound("POST", "https://sep.shaparak.ir/pay/request", CustomHeaders(r.header),
                                   env.codec.marshal(PaymentPayload()).value)) == Ok(up)
    requires !up.copyFails
    ensures Handle(env, r).response == Relayed(up)
    ensures Handle(env, r).response.status == up.status
    ensures Handle(env, r).response.header == Populated(up.header)
    ensures Handle(env, r).response.body == up.body
  {
    PaymentDecoded(env, r, signature);
    PaymentAdmitted(env, r, KeyLoader.LoadPublicKey(env.keyFile, env.lib).value, signature);
    PaymentUrl(r);
    ForwardRelays(env, r, PaymentPayload(), [LoadKey, ReadBody, DecodeJson, Verify(SignedValue, signature)], up);
    RelayedFaithfully(up, "");
  }

  /** The same request with a signature that does not verify (a tampered one, say) is
      refused with 401 and never sent. */
  lemma TamperedPaymentRefused(env: Env, r: Request, signature: string)
    requires PaymentRequest(env, r, signature) && signature != ""
    requires KeyLoader.LoadPublicKey(env.keyFile, env.lib).Ok?
    requires VerifySignature(env.lib, KeyLoader.LoadPublicKey(env.keyFile, env.lib).value, SignedValue, signature).Fail?
    ensures Handle(env, r).response == ErrorResponse(401, SignatureFailed)
    ensures !UpstreamContacted(Handle(env, r).calls)
  {
    PaymentCredentials(signature);
    SignatureFailureTerminal(env, r);
  }

  /** `{"sec": "", "secval": ""}` is answered with 404 before the verifier is consulted. */
  lemma EmptyCredentialsNotFound(env: Env, r: Request)
    requires KeyLoader.LoadPublicKey(env.keyFile, env.lib).Ok? && r.body.Ok?
    requires env.codec.unmarshal(r.body.value) == Some(JObject(map[SecKey := JString(""), SecValKey := JString("")]))
    ensures Handle(env, r).response == ErrorResponse(404, "")
    ensures !VerifierConsulted(Handle(env, r).calls) && !UpstreamContacted(Handle(env, r).calls)
  {
    TypeCheckBeforeEmptiness(env, r);
  }

  /** `{"sec": 123, "secval": "1000|order123"}` is answered with 400: a number is not a string. */
  lemma NumericSignatureRejected(env: Env, r: Request)
    requires KeyLoader.LoadPublicKey(env.keyFile, env.lib).Ok? && r.body.Ok?
    requires env.codec.unmarshal(r.body.value) == Some(JObject(map[SecKey := JNumber(123.0), SecValKey := JString(SignedValue)]))
    ensures Handle(env, r).response == ErrorResponse(400, FieldsNotStrings)
    ensures !VerifierConsulted(Handle(env, r).calls) && !UpstreamContacted(Handle(env, r).calls)
  {
    TypeCheckBeforeEmptiness(env, r);
  }
}
