/** What the pipeline promises: the exit taken for each failing check, the order of the
    checks, and that the verifier and the upstream are reached only when every earlier
    check passed. */
module HandlerProperties {
  import opened Wrappers
  import opened Primitives
  import KeyLoader
  import opened Signature
  import opened Payload
  import opened Headers
  import opened Target
  import opened Responses
  import opened Proxy

  /** The signature verifier was called. */
  ghost predicate VerifierConsulted(calls: seq<Call>) {
    exists i :: 0 <= i < |calls| && calls[i].Verify?
  }

  /** A request was sent upstream. */
  ghost predicate UpstreamContacted(calls: seq<Call>) {
    exists i :: 0 <= i < |calls| && calls[i].Send?
  }

  /** The signature check of `data` passes under `key`. */
  predicate SignatureAccepted(env: Env, key: RsaPublicKey, data: Object) {
    && StringField(data, SecKey).Some? && StringField(data, SecValKey).Some?
    && StringField(data, SecKey).value != "" && StringField(data, SecValKey).value != ""
    && VerifySignature(env.lib, key, StringField(data, SecValKey).value, StringField(data, SecKey).value).Pass?
  }

  /** The calls `Forward` adds after `seen`: an encoding, and after that neither a
      verification nor anything following a send; unless the last call is the send, the
      reply is one of the two 500 errors. */
  lemma ForwardTrace(env: Env, r: Request, payload: Object, seen: seq<Call>)
    ensures var calls := Forward(env, r, payload, seen).calls;
      && |seen| < |calls| && calls[..|seen|] == seen && calls[|seen|] == EncodeJson(payload)
      && (forall i :: |seen| <= i < |calls| ==> !calls[i].Verify?)
      && (forall i :: |seen| <= i < |calls| - 1 ==> !calls[i].Send?)
      && (calls[|calls| - 1].Send? ||
          Forward(env, r, payload, seen).response in {ErrorResponse(500, EncodeFailed), ErrorResponse(500, RequestFailed)})
  {
    var encoding := seen + [EncodeJson(payload)];
    if env.codec.marshal(payload).Some? {
      var url := TargetUrl(r.path, r.rawQuery);
      var building := encoding + [NewRequest(r.httpMethod, url)];
      assert building[..|seen|] == seen;
      if env.net.newRequest(r.httpMethod, url) {
        var outbound := Outbound(r.httpMethod, url, CustomHeaders(r.header), env.codec.marshal(payload).value);
        var sending := building + [Send(outbound)];
        assert sending[..|seen|] == seen;
      }
    }
  }

  /** When the payload encodes and the request can be built, `Forward` encodes, builds and
      sends, in that order, and the request sent is the one built from the encoding. */
  lemma ForwardSends(env: Env, r: Request, payload: Object, seen: seq<Call>)
    requires env.codec.marshal(payload).Some?
    requires env.net.newRequest(r.httpMethod, TargetUrl(r.path, r.rawQuery))
    ensures Forward(env, r, payload, seen).calls ==
      seen + [EncodeJson(payload), NewRequest(r.httpMethod, TargetUrl(r.path, r.rawQuery)),
              Send(Outbound(r.httpMethod, TargetUrl(r.path, r.rawQuery), CustomHeaders(r.header),
                            env.codec.marshal(payload).value))]
  {
  }

  /** When encoding, building and sending succeed, the handler sends the relayed answer. */
  lemma ForwardRelays(env: Env, r: Request, payload: Object, seen: seq<Call>, up: Upstream)
    requires env.codec.marshal(payload).Some?
    requires env.net.newRequest(r.httpMethod, TargetUrl(r.path, r.rawQuery))
    requires env.net.send(Outbound(r.httpMethod, TargetUrl(r.path, r.rawQuery), CustomHeaders(r.header),
                                   env.codec.marshal(payload).value)) == Ok(up)
    ensures Forward(env, r, payload, seen).response == Relayed(up)
  {
  }

  /** The calls `Admit` makes: the three earlier stages, then a verification exactly when
      both credentials are non-empty strings, and a send only as the last call and only
      when the signature was accepted, in which case the rest is `Forward`'s. */
  lemma AdmitTrace(env: Env, r: Request, key: RsaPublicKey, data: Object)
    ensures var calls := Admit(env, r, key, data).calls;
      && |calls| >= 3 && calls[..3] == [LoadKey, ReadBody, DecodeJson]
      && (forall i :: 0 <= i < |calls| && calls[i].Verify? ==>
            && i == 3
            && StringField(data, SecValKey) == Some(calls[i].data) && calls[i].data != ""
            && StringField(data, SecKey) == Some(calls[i].signature) && calls[i].signature != "")
      && (forall i :: 0 <= i < |calls| - 1 ==> !calls[i].Send?)
    ensures SignatureAccepted(env, key, data) ==>
      Admit(env, r, key, data) == Forward(env, r, Sanitized(data), [LoadKey, ReadBody, DecodeJson,
        Verify(StringField(data, SecValKey).value, StringField(data, SecKey).value)])
    ensures !SignatureAccepted(env, key, data) ==> !UpstreamContacted(Admit(env, r, key, data).calls)
  {
    if SignatureAccepted(env, key, data) {
      var seen := [LoadKey, ReadBody, DecodeJson,
                   Verify(StringField(data, SecValKey).value, StringField(data, SecKey).value)];
      AdmitAccepted(env, r, key, data);
      ForwardTrace(env, r, Sanitized(data), seen);
      var calls := Forward(env, r, Sanitized(data), seen).calls;
      assert calls[..4] == seen;
      assert calls[..3] == seen[..3];
      forall i | 0 <= i < 4
        ensures calls[i] == seen[i]
      {
        assert calls[..4][i] == calls[i];
      }
    } else {
      AdmitRefused(env, r, key, data);
    }
  }

  /** A request whose signature check passes goes on to be forwarded. */
  lemma AdmitAccepted(env: Env, r: Request, key: RsaPublicKey, data: Object)
    requires SignatureAccepted(env, key, data)
    ensures Admit(env, r, key, data) == Forward(env, r, Sanitized(data), [LoadKey, ReadBody, DecodeJson,
      Verify(StringField(data, SecValKey).value, StringField(data, SecKey).value)])
  {
    var sec := StringField(data, SecKey);
    var secval := StringField(data, SecValKey);
    assert !(sec.None? || secval.None?) && !(sec.value == "" || secval.value == "");
    assert VerifySignature(env.lib, key, secval.value, sec.value).Pass?;
  }

  /** A request whose signature check does not pass is refused after the three earlier
      calls (400 or 404) or right after the verification (401). */
  lemma AdmitRefused(env: Env, r: Request, key: RsaPublicKey, data: Object)
    requires !SignatureAccepted(env, key, data)
    ensures var x := Admit(env, r, key, data);
      || (x.calls == [LoadKey, ReadBody, DecodeJson] &&
          x.response in {ErrorResponse(400, FieldsNotStrings), ErrorResponse(404, "")})
      || (&& StringField(data, SecKey).Some? && StringField(data, SecValKey).Some?
          && StringField(data, SecKey).value != "" && StringField(data, SecValKey).value != ""
          && x.calls == [LoadKey, ReadBody, DecodeJson,
                         Verify(StringField(data, SecValKey).value, StringField(data, SecKey).value)]
          && x.response == ErrorResponse(401, SignatureFailed))
  {
  }

  /** Until the body has decoded into a map, the handler makes only the first of the
      calls `LoadKey`, `ReadBody`, `DecodeJson`; once it has, the rest is `Admit`'s. */
  lemma HandleStages(env: Env, r: Request)
    ensures var loaded := KeyLoader.LoadPublicKey(env.keyFile, env.lib);
      if loaded.Ok? && DecodedBody(env, r).Some? then
        Handle(env, r) == Admit(env, r, loaded.value, DecodedBody(env, r).value)
      else
        && Handle(env, r).calls in {[LoadKey], [LoadKey, ReadBody], [LoadKey, ReadBody, DecodeJson]}
        && !VerifierConsulted(Handle(env, r).calls) && !UpstreamContacted(Handle(env, r).calls)
  {
    if KeyLoader.LoadPublicKey(env.keyFile, env.lib).Ok? && DecodedBody(env, r).Some? {
      HandleDecoded(env, r);
    } else {
      HandleEarlyExit(env, r);
    }
  }

  /** Once the key loaded and the body decoded into a map, the rest is `Admit`'s. */
  lemma HandleDecoded(env: Env, r: Request)
    requires KeyLoader.LoadPublicKey(env.keyFile, env.lib).Ok? && DecodedBody(env, r).Some?
    ensures Handle(env, r) == Admit(env, r, KeyLoader.LoadPublicKey(env.keyFile, env.lib).value, DecodedBody(env, r).value)
  {
    assert r.body.Ok? && IntoMap(env.codec.unmarshal(r.body.value)) == DecodedBody(env, r);
  }

  /** A request whose key does not load or whose body does not decode into a map stops
      after one of the calls `LoadKey`, `ReadBody`, `DecodeJson`. */
  lemma HandleEarlyExit(env: Env, r: Request)
    requires !(KeyLoader.LoadPublicKey(env.keyFile, env.lib).Ok? && DecodedBody(env, r).Some?)
    ensures Handle(env, r).calls in {[LoadKey], [LoadKey, ReadBody], [LoadKey, ReadBody, DecodeJson]}
    ensures !VerifierConsulted(Handle(env, r).calls) && !UpstreamContacted(Handle(env, r).calls)
  {
    var calls := Handle(env, r).calls;
    var early := [LoadKey, ReadBody, DecodeJson];
    if KeyLoader.LoadPublicKey(env.keyFile, env.lib).Err? {
      assert calls == early[..1];
    } else if r.body.Err? {
      assert calls == early[..2];
    } else {
      assert calls == early;
    }
    forall i | 0 <= i < |calls|
      ensures !calls[i].Verify? && !calls[i].Send?
    {
      assert calls[i] == early[i];
    }
  }

  /** The key is always loaded first, and a key that does not load ends the request with
      500 and the loader's message before the body is even read. */
  lemma KeyLoadedFirst(env: Env, r: Request)
    ensures |Handle(env, r).calls| >= 1 && Handle(env, r).calls[0] == LoadKey
    ensures KeyLoader.LoadPublicKey(env.keyFile, env.lib).Err? <==> Handle(env, r).calls == [LoadKey]
    ensures KeyLoader.LoadPublicKey(env.keyFile, env.lib).Err? ==>
      Handle(env, r).response ==
        ErrorResponse(500, KeyErrorPrefix + KeyLoader.Message(KeyLoader.LoadPublicKey(env.keyFile, env.lib).error))
  {
    HandleStages(env, r);
    var loaded := KeyLoader.LoadPublicKey(env.keyFile, env.lib);
    if loaded.Ok? && DecodedBody(env, r).Some? {
      AdmitTrace(env, r, loaded.value, DecodedBody(env, r).value);
      assert Handle(env, r).calls[..3][0] == LoadKey;
    }
  }

  /** A body that cannot be read ends the request with 500 before it is decoded. */
  lemma BodyReadFailure(env: Env, r: Request)
    requires KeyLoader.LoadPublicKey(env.keyFile, env.lib).Ok? && r.body.Err?
    ensures Handle(env, r) == Exchange(ErrorResponse(500, BodyReadFailed), [LoadKey, ReadBody])
  {
  }

  /** A body that does not decode into a map ends the request with 400. */
  lemma InvalidJsonRejected(env: Env, r: Request)
    requires KeyLoader.LoadPublicKey(env.keyFile, env.lib).Ok? && r.body.Ok?
    requires DecodedBody(env, r).None?
    ensures Handle(env, r) == Exchange(ErrorResponse(400, InvalidJson), [LoadKey, ReadBody, DecodeJson])
  {
  }

  /** A body that is the JSON literal `null` decodes without error into an empty map, so
      it is refused by the type check, not as invalid JSON. */
  lemma NullBodyFailsTypeCheck(env: Env, r: Request)
    requires KeyLoader.LoadPublicKey(env.keyFile, env.lib).Ok? && r.body.Ok?
    requires env.codec.unmarshal(r.body.value) == Some(JNull)
    ensures Handle(env, r) == Exchange(ErrorResponse(400, FieldsNotStrings), [LoadKey, ReadBody, DecodeJson])
  {
  }

  /** The type check comes before the emptiness check, and both before verification: a
      missing or non-string credential gives 400, an empty one 404, and in neither case is
      the verifier consulted or the upstream contacted. */
  lemma TypeCheckBeforeEmptiness(env: Env, r: Request)
    requires KeyLoader.LoadPublicKey(env.keyFile, env.lib).Ok?
    requires DecodedBody(env, r).Some?
    ensures var data := DecodedBody(env, r).value;
      StringField(data, SecKey).None? || StringField(data, SecValKey).None? ==>
        && Handle(env, r).response == ErrorResponse(400, FieldsNotStrings)
        && !VerifierConsulted(Handle(env, r).calls) && !UpstreamContacted(Handle(env, r).calls)
    ensures var data := DecodedBody(env, r).value;
      StringField(data, SecKey).Some? && StringField(data, SecValKey).Some? &&
      (StringField(data, SecKey).value == "" || StringField(data, SecValKey).value == "") ==>
        && Handle(env, r).response == ErrorResponse(404, "")
        && !VerifierConsulted(Handle(env, r).calls) && !UpstreamContacted(Handle(env, r).calls)
  {
    HandleStages(env, r);
  }

  /** A signature that fails to verify, for whatever reason, gives 401 with the one fixed
      message, and nothing is sent upstream. */
  lemma SignatureFailureTerminal(env: Env, r: Request)
    requires KeyLoader.LoadPublicKey(env.keyFile, env.lib).Ok?
    requires DecodedBody(env, r).Some?
    requires var data := DecodedBody(env, r).value;
      && StringField(data, SecKey).Some? && StringField(data, SecValKey).Some?
      && StringField(data, SecKey).value != "" && StringField(data, SecValKey).value != ""
      && VerifySignature(env.lib, KeyLoader.LoadPublicKey(env.keyFile, env.lib).value,
                         StringField(data, SecValKey).value, StringField(data, SecKey).value).Fail?
    ensures Handle(env, r).response == ErrorResponse(401, SignatureFailed)
    ensures VerifierConsulted(Handle(env, r).calls) && !UpstreamContacted(Handle(env, r).calls)
  {
    HandleStages(env, r);
    assert Handle(env, r).calls[3].Verify?;
  }

  /** The verifier is called at most once, only after the key loaded and the body decoded,
      and only with the two credential strings, both non-empty: the signed value from
      `secval` and the signature from `sec`. */
  lemma VerifierSeesCredentials(env: Env, r: Request, i: int)
    requires 0 <= i < |Handle(env, r).calls| && Handle(env, r).calls[i].Verify?
    ensures i == 3
    ensures KeyLoader.LoadPublicKey(env.keyFile, env.lib).Ok? && DecodedBody(env, r).Some?
    ensures var data := DecodedBody(env, r).value;
      && StringField(data, SecValKey) == Some(Handle(env, r).calls[i].data)
      && StringField(data, SecKey) == Some(Handle(env, r).calls[i].signature)
      && Handle(env, r).calls[i].data != "" && Handle(env, r).calls[i].signature != ""
  {
    HandleStages(env, r);
    var loaded := KeyLoader.LoadPublicKey(env.keyFile, env.lib);
    if loaded.Ok? && DecodedBody(env, r).Some? {
      AdmitTrace(env, r, loaded.value, DecodedBody(env, r).value);
    }
  }

  /** The only request sent upstream is the last call, so there is at most one attempt. It
      is sent only when the key loaded, the body decoded into `data` and the signature
      verified, and it carries the inbound method, the target URL, the allow-listed
      inbound headers, and the encoding of `data` without the two credential fields. */
  lemma ForwardedRequest(env: Env, r: Request, i: int)
    requires 0 <= i < |Handle(env, r).calls| && Handle(env, r).calls[i].Send?
    ensures i == |Handle(env, r).calls| - 1
    ensures KeyLoader.LoadPublicKey(env.keyFile, env.lib).Ok? && DecodedBody(env, r).Some?
    ensures SignatureAccepted(env, KeyLoader.LoadPublicKey(env.keyFile, env.lib).value, DecodedBody(env, r).value)
    ensures env.codec.marshal(Sanitized(DecodedBody(env, r).value)).Some?
    ensures Handle(env, r).calls[i].request ==
      Outbound(r.httpMethod, TargetUrl(r.path, r.rawQuery), CustomHeaders(r.header),
               env.codec.marshal(Sanitized(DecodedBody(env, r).value)).value)
  {
    var loaded := KeyLoader.LoadPublicKey(env.keyFile, env.lib);
    if !(loaded.Ok? && DecodedBody(env, r).Some?) {
      HandleEarlyExit(env, r);
      assert false;
    }
    HandleDecoded(env, r);
    var data := DecodedBody(env, r).value;
    AdmitTrace(env, r, loaded.value, data);
    assert SignatureAccepted(env, loaded.value, data);
    var seen := [LoadKey, ReadBody, DecodeJson,
                 Verify(StringField(data, SecValKey).value, StringField(data, SecKey).value)];
    SendIsLast(env, r, Sanitized(data), seen, i - |seen|);
  }

  /** In `Forward`'s calls after `seen`, a send is the last call and carries the outbound
      request built from the encoded payload. */
  lemma SendIsLast(env: Env, r: Request, payload: Object, seen: seq<Call>, j: int)
    requires forall k :: 0 <= k < |seen| ==> !seen[k].Send?
    requires 0 <= |seen| + j < |Forward(env, r, payload, seen).calls|
    requires Forward(env, r, payload, seen).calls[|seen| + j].Send?
    ensures |seen| + j == |Forward(env, r, payload, seen).calls| - 1
    ensures env.codec.marshal(payload).Some?
    ensures Forward(env, r, payload, seen).calls[|seen| + j].request ==
      Outbound(r.httpMethod, TargetUrl(r.path, r.rawQuery), CustomHeaders(r.header), env.codec.marshal(payload).value)
  {
  }

  /** Once the request was sent, a transport error gives 502 and no retry; an answer is
      relayed with its status, every header value it carries, and its body. */
  lemma UpstreamOutcome(env: Env, r: Request)
    requires UpstreamContacted(Handle(env, r).calls)
    ensures var o := Handle(env, r).calls[|Handle(env, r).calls| - 1];
      && o.Send?
      && (env.net.send(o.request).Err? ==> Handle(env, r).response == ErrorResponse(502, UpstreamUnreachable))
      && (env.net.send(o.request).Ok? ==> Handle(env, r).response == Relayed(env.net.send(o.request).value))
  {
    var calls := Handle(env, r).calls;
    var i :| 0 <= i < |calls| && calls[i].Send?;
    ForwardedRequest(env, r, i);
    HandleStages(env, r);
  }

  /** A relayed response has the upstream status, exactly the upstream headers that carry
      values, and the upstream body, followed by the error text only when copying failed. */
  lemma RelayedFaithfully(up: Upstream, name: string)
    ensures Relayed(up).status == up.status
    ensures name in Relayed(up).header <==> name in up.header && up.header[name] != []
    ensures name in Relayed(up).header ==> Relayed(up).header[name] == up.header[name]
    ensures |Relayed(up).body| >= |up.body| && Relayed(up).body[..|up.body|] == up.body
    ensures !up.copyFails ==> Relayed(up).body == up.body
  {
  }

  /** A request that is not forwarded ends with one of the handler's own error replies:
      status 400, 401, 404 or 500, as plain text. */
  lemma UnforwardedRepliesAreErrors(env: Env, r: Request)
    requires !UpstreamContacted(Handle(env, r).calls)
    ensures Handle(env, r).response.status in {400, 401, 404, 500}
    ensures Handle(env, r).response.header == ErrorHeader
  {
    HandleStages(env, r);
    var loaded := KeyLoader.LoadPublicKey(env.keyFile, env.lib);
    if loaded.Ok? && DecodedBody(env, r).Some? {
      var data := DecodedBody(env, r).value;
      AdmitTrace(env, r, loaded.value, data);
      if SignatureAccepted(env, loaded.value, data) {
        var seen := [LoadKey, ReadBody, DecodeJson,
                     Verify(StringField(data, SecValKey).value, StringField(data, SecKey).value)];
        ForwardTrace(env, r, Sanitized(data), seen);
      }
    }
  }

  /** Two requests refused by the signature check receive the same response, whatever
      made each check fail (a bad encoding or a rejected signature, with any cause). */
  lemma SignatureFailureIsUniform(env1: Env, r1: Request, env2: Env, r2: Request)
    requires VerifierConsulted(Handle(env1, r1).calls) && !UpstreamContacted(Handle(env1, r1).calls)
    requires VerifierConsulted(Handle(env2, r2).calls) && !UpstreamContacted(Handle(env2, r2).calls)
    requires Handle(env1, r1).response.status == 401 && Handle(env2, r2).response.status == 401
    ensures Handle(env1, r1).response == Handle(env2, r2).response
  {
    RefusedAfterVerification(env1, r1);
    RefusedAfterVerification(env2, r2);
  }

  /** A request that reached the verifier but was not forwarded was refused by the
      signature check (401, with the fixed message) or failed to be encoded or built (500). */
  lemma RefusedAfterVerification(env: Env, r: Request)
    requires VerifierConsulted(Handle(env, r).calls) && !UpstreamContacted(Handle(env, r).calls)
    ensures Handle(env, r).response in
      {ErrorResponse(401, SignatureFailed), ErrorResponse(500, EncodeFailed), ErrorResponse(500, RequestFailed)}
  {
    var calls := Handle(env, r).calls;
    var i :| 0 <= i < |calls| && calls[i].Verify?;
    VerifierSeesCredentials(env, r, i);
    HandleStages(env, r);
    var loaded := KeyLoader.LoadPublicKey(env.keyFile, env.lib);
    var data := DecodedBody(env, r).value;
    AdmitTrace(env, r, loaded.value, data);
    if SignatureAccepted(env, loaded.value, data) {
      var seen := [LoadKey, ReadBody, DecodeJson,
                   Verify(StringField(data, SecValKey).value, StringField(data, SecKey).value)];
      ForwardTrace(env, r, Sanitized(data), seen);
    }
  }
}
