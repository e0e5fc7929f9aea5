/** `proxyHandler`: the per-request pipeline. It loads the key, reads and decodes the body,
    checks the two credential fields, verifies the signature, strips the credentials,
    builds the outbound request and relays the upstream's answer. Every check has one exit
    with its own status, and nothing after a failed check is attempted.

    `Handle` states the pipeline as a function of the request and of what each collaborator
    returns; `Serve` is the handler itself, written step by step against a response writer,
    and is proved to produce what `Handle` says. Besides the response, `Handle` lists the
    collaborator calls made, in order, so that "not reached" can be stated. */
module Proxy {
  import opened Wrappers
  import opened Text
  import opened Primitives
  import KeyLoader
  import opened Signature
  import opened Payload
  import opened Headers
  import opened Target
  import opened Responses

  /** The inbound request; `body` is what `io.ReadAll(r.Body)` produced. */
  datatype Request = Request(httpMethod: string, path: string, rawQuery: string, header: Header,
                             body: Result<seq<byte>, string>)

  /** The request sent upstream. */
  datatype Outbound = Outbound(httpMethod: string, url: string, header: Header, body: seq<byte>)

  /** What `client.Do` returns when the upstream answered: its status, its header set, the
      body bytes `io.Copy` delivered, and whether that copy ended in an error. */
  datatype Upstream = Upstream(status: int, header: Header, body: seq<byte>, copyFails: bool)

  /** `json.Unmarshal` (the decoded document, `None` for invalid JSON) and `json.Marshal`. */
  datatype Codec = Codec(unmarshal: seq<byte> -> Option<Json>, marshal: Object -> Option<seq<byte>>)

  /** Whether `http.NewRequestWithContext` accepts a method and URL, and `client.Do`. */
  datatype Network = Network(newRequest: (string, string) -> bool, send: Outbound -> Result<Upstream, string>)

  /** Everything outside the handler for one request: the key file as read for it, the
      cryptographic library, the JSON codec and the network. */
  datatype Env = Env(keyFile: Result<seq<byte>, string>, lib: Library, codec: Codec, net: Network)

  /** A collaborator call the handler makes. */
  datatype Call =
    | LoadKey
    | ReadBody
    | DecodeJson
    | Verify(data: string, signature: string)
    | EncodeJson(payload: Object)
    | NewRequest(httpMethod: string, url: string)
    | Send(request: Outbound)

  /** The response the handler sends and the calls made to produce it. */
  datatype Exchange = Exchange(response: Response, calls: seq<Call>)

  const KeyErrorPrefix := "Public key error: "
  const BodyReadFailed := "Error reading request body"
  const InvalidJson := "Invalid JSON"
  const FieldsNotStrings := "sec and secval must be strings"
  const SignatureFailed := "Signature verification failed"
  const EncodeFailed := "Error generating modified body"
  const RequestFailed := "Failed to create request"
  const UpstreamUnreachable := "Failed to reach target server"
  const TransferFailed := "Response transfer failed"

  /** The body's map, when the body was read and decodes into one. */
  function DecodedBody(env: Env, r: Request): Option<Object> {
    if r.body.Ok? then IntoMap(env.codec.unmarshal(r.body.value)) else None
  }

  /** What the handler sends for a relayed upstream answer: its status, every header
      with a value, its body, and the text of `http.Error` when copying the body failed. */
  function Relayed(up: Upstream): Response {
    Response(up.status, Populated(up.header), up.body + if up.copyFails then Utf8(TransferFailed + "\n") else [])
  }

  /** The pipeline. */
  function Handle(env: Env, r: Request): Exchange {
    match KeyLoader.LoadPublicKey(env.keyFile, env.lib)
    case Err(e) => Exchange(ErrorResponse(500, KeyErrorPrefix + KeyLoader.Message(e)), [LoadKey])
    case Ok(key) =>
      match r.body
      case Err(_) => Exchange(ErrorResponse(500, BodyReadFailed), [LoadKey, ReadBody])
      case Ok(raw) =>
        match IntoMap(env.codec.unmarshal(raw))
        case None => Exchange(ErrorResponse(400, InvalidJson), [LoadKey, ReadBody, DecodeJson])
        case Some(data) => Admit(env, r, key, data)
  }

  /** The credential checks and the signature check, after the body decoded into `data`. */
  function Admit(env: Env, r: Request, key: RsaPublicKey, data: Object): Exchange {
    var seen := [LoadKey, ReadBody, DecodeJson];
    var sec := StringField(data, SecKey);
    var secval := StringField(data, SecValKey);
    if sec.None? || secval.None? then Exchange(ErrorResponse(400, FieldsNotStrings), seen)
    else if sec.value == "" || secval.value == "" then Exchange(ErrorResponse(404, ""), seen)
    else
      var verified := seen + [Verify(secval.value, sec.value)];
      if VerifySignature(env.lib, key, secval.value, sec.value).Fail? then
        Exchange(ErrorResponse(401, SignatureFailed), verified)
      else Forward(env, r, Sanitized(data), verified)
  }

  /** Encoding the sanitised payload, building the outbound request and relaying. */
  function Forward(env: Env, r: Request, payload: Object, seen: seq<Call>): Exchange {
    var encoding := seen + [EncodeJson(payload)];
    match env.codec.marshal(payload)
    case None => Exchange(ErrorResponse(500, EncodeFailed), encoding)
    case Some(body) =>
      var url := TargetUrl(r.path, r.rawQuery);
      var building := encoding + [NewRequest(r.httpMethod, url)];
      if !env.net.newRequest(r.httpMethod, url) then Exchange(ErrorResponse(500, RequestFailed), building)
      else
        var outbound := Outbound(r.httpMethod, url, CustomHeaders(r.header), body);
        var sending := building + [Send(outbound)];
        match env.net.send(outbound)
        case Err(_) => Exchange(ErrorResponse(502, UpstreamUnreachable), sending)
        case Ok(up) => Exchange(Relayed(up), sending)
  }

  /** `proxyHandler(w, r)`. */
  method Serve(env: Env, r: Request, w: ResponseWriter) returns (ghost calls: seq<Call>)
    requires w.Unused()
    modifies w, w.header
    ensures w.Sent() == Handle(env, r).response
    ensures calls == Handle(env, r).calls
  {
    calls := [LoadKey];
    var loaded := KeyLoader.LoadPublicKey(env.keyFile, env.lib);
    if loaded.Err? {
      HttpError(w, KeyErrorPrefix + KeyLoader.Message(loaded.error), 500);
      return;
    }

    calls := calls + [ReadBody];
    if r.body.Err? {
      HttpError(w, BodyReadFailed, 500);
      return;
    }

    calls := calls + [DecodeJson];
    var decoded := IntoMap(env.codec.unmarshal(r.body.value));
    if decoded.None? {
      HttpError(w, InvalidJson, 400);
      return;
    }
    assert Handle(env, r) == Admit(env, r, loaded.value, decoded.value);
    calls := CheckCredentials(env, r, loaded.value, decoded.value, w);
  }

  /** The part of `proxyHandler` from the type assertions to the signature check. */
  method CheckCredentials(env: Env, r: Request, key: RsaPublicKey, data: Object, w: ResponseWriter)
    returns (ghost calls: seq<Call>)
    requires w.Unused()
    modifies w, w.header
    ensures w.Sent() == Admit(env, r, key, data).response
    ensures calls == Admit(env, r, key, data).calls
  {
    calls := [LoadKey, ReadBody, DecodeJson];
    var sec := StringField(data, SecKey);
    var secval := StringField(data, SecValKey);
    if sec.None? || secval.None? {
      HttpError(w, FieldsNotStrings, 400);
      return;
    }
    if sec.value == "" || secval.value == "" {
      HttpError(w, "", 404);
      return;
    }

    calls := calls + [Verify(secval.value, sec.value)];
    var verdict := VerifySignature(env.lib, key, secval.value, sec.value);
    if verdict.Fail? {
      HttpError(w, SignatureFailed, 401);
      return;
    }

    var payload := Sanitize(data);
    calls := SendUpstream(env, r, payload, calls, w);
  }

  /** The part of `proxyHandler` from re-encoding the payload to relaying the answer. */
  method SendUpstream(env: Env, r: Request, payload: Object, ghost seen: seq<Call>, w: ResponseWriter)
    returns (ghost calls: seq<Call>)
    requires w.Unused()
    modifies w, w.header
    ensures w.Sent() == Forward(env, r, payload, seen).response
    ensures calls == Forward(env, r, payload, seen).calls
  {
    calls := seen + [EncodeJson(payload)];
    var encoded := env.codec.marshal(payload);
    if encoded.None? {
      HttpError(w, EncodeFailed, 500);
      return;
    }

    var url := BuildTargetUrl(r.path, r.rawQuery);
    calls := calls + [NewRequest(r.httpMethod, url)];
    if !env.net.newRequest(r.httpMethod, url) {
      HttpError(w, RequestFailed, 500);
      return;
    }
    var outHeader := new HeaderMap();
    ForwardCustomHeaders(r.header, outHeader);
    AppendedToEmpty(CustomHeaders(r.header));
    var outbound := Outbound(r.httpMethod, url, outHeader.values, encoded.value);

    calls := calls + [Send(outbound)];
    var answer := env.net.send(outbound);
    if answer.Err? {
      HttpError(w, UpstreamUnreachable, 502);
      return;
    }
    Relay(answer.value, w);
  }

  /** The last lines of `proxyHandler`: every upstream header value is added to the
      writer's header set, then the upstream status is written, then the body is copied;
      a failed copy adds the text of `http.Error` to what was already sent. */
  method Relay(up: Upstream, w: ResponseWriter)
    requires w.Unused()
    modifies w, w.header
    ensures w.Sent() == Relayed(up)
  {
    CopyHeaders(up.header, w.header);
    AppendedToEmpty(Populated(up.header));
    w.WriteHeader(up.status);
    w.Write(up.body);
    ghost var copied := Response(up.status, Populated(up.header), up.body);
    assert w.status == Some(up.status) && w.sentHeader == Populated(up.header) && w.body == up.body;
    if up.copyFails {
      HttpError(w, TransferFailed, 500);
      assert w.status == Some(up.status) && w.sentHeader == Populated(up.header);
      assert w.body == up.body + Utf8(TransferFailed + "\n");
    } else {
      assert w.Sent() == copied;
    }
  }
}
