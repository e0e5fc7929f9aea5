# Signature-checking reverse proxy, modelled in Dafny

The modelled service is a small HTTP reverse proxy in Go (`main.go`). For every inbound
request it:

1. loads an RSA public key from `public_key.pem`;
2. reads the JSON body and extracts the string fields `sec` (a base64 signature) and
   `secval` (the signed value);
3. verifies the signature with RSA PKCS #1 v1.5 over SHA-256;
4. strips both fields from the body;
5. forwards the rest to the same path and query on the fixed origin
   `https://sep.shaparak.ir`, carrying only inbound headers named `x-…` in any case;
6. relays the upstream answer's headers, status and body to the caller.

Every check has its own exit:

| failure | status |
|---|---|
| key does not load | 500 |
| body cannot be read | 500 |
| invalid JSON | 400 |
| a credential is missing or not a string | 400 |
| a credential is empty | 404 |
| the signature fails | 401 |
| re-encoding fails | 500 |
| the request cannot be built | 500 |
| the upstream cannot be reached | 502 |

The model follows the source's structure:

- `KeyLoader.LoadPublicKey` and `Signature.VerifySignature` are functions. `verifySignature`
  computes a value from its inputs. `loadPublicKey` also reads the key file; the model
  takes the outcome of that read as an input, so the rest of the loader is a pure function
  of it.
- The handler appears twice:
  - `Proxy.Handle` is a function of the request and of what each collaborator returns. It
    yields the response and the ordered list of collaborator calls, so "the verifier is
    not consulted" and "nothing is sent upstream" can be stated.
  - `Proxy.Serve` is the handler step by step: it writes into a `Responses.ResponseWriter`
    object and fills `Headers.HeaderMap` objects with the two header loops. It is proved to
    send exactly what `Handle` says.
- The header loops pick each next name arbitrarily, as Go's map iteration does. They are
  proved correct whatever order is chosen.
- Cryptography, the PEM and PKIX parsers, base64, the JSON codec and the network are
  parameters: fields of function type in `Primitives.Library`, `Proxy.Codec` and
  `Proxy.Network`. Every property holds for every behaviour of these collaborators.
- The key file's contents and the inbound body are given as their read outcome: bytes, or
  an error message.

Modules: `Wrappers`, `Text` (ASCII lower-casing, `TrimSpace`, UTF-8), `Primitives`,
`KeyLoader`, `Signature`, `Payload`, `Headers`, `Target`, `Responses`, `Proxy`,
`HandlerProperties` (ordering, exits and the "not reached" properties) and `Scenarios`
(concrete requests).

Three behaviours of `main.go` are easy to miss:

- **A body that is the JSON literal `null`** is answered 400 "sec and secval must be
  strings", not "Invalid JSON": `json.Unmarshal` into a map accepts `null` and leaves the
  map nil, and the type assertions then fail (`HandlerProperties.NullBodyFailsTypeCheck`).
- **A failure while copying the upstream body** does not turn the reply into a 500: the
  status and headers are already committed, so the handler only writes
  "Response transfer failed\n" after the bytes already sent, and the caller sees the
  upstream's status (`Proxy.Relayed`, `Proxy.Relay`). The client gets that text only when
  a committed `Content-Length` leaves room for it and the connection still works.
- **A key-loading failure** is answered 500 with the loader's error text, including the
  file-read error (`HandlerProperties.KeyLoadedFirst`).

## Model

| member | source | states |
|---|---|---|
| Text.HasPrefix | main.go:192 | definition: `strings.HasPrefix`; its use in the allow-list is characterised by `Headers.CustomHeaderIff` |
| Text.ToLower | main.go:192 | definition: `strings.ToLower` on ASCII letters; its properties are in `Text.ToLowerAt` |
| Text.ToLowerAt | main.go:192 | lower-casing keeps the length and maps each character on its own |
| Text.TrimLeft | main.go:42 | the result is no longer than the input and does not start with white space |
| Text.TrimLeftCuts | main.go:42 | the result is a suffix of the input, and everything cut off is white space |
| Text.TrimRight | main.go:42 | the result is no longer than the input and does not end with white space |
| Text.TrimRightCuts | main.go:42 | the result is a prefix of the input, and everything cut off is white space |
| Text.TrimSpace | main.go:42 | the trimmed key file neither starts nor ends with white space |
| Text.TrimSpaceSlice | main.go:42 | the trimmed key file is a contiguous slice of the file with only white space cut off on either side |
| Text.TrimSpaceIdempotent | main.go:42 | trimming an already trimmed key file changes nothing |
| Text.EncodeChar | main.go:76 | one character encodes to one to four bytes; ASCII, and nothing else, encodes to its own code in one byte |
| Text.Utf8 | main.go:76 | a string's bytes number at least as many as its characters and at most four times that |
| Text.Utf8RoundTrip | main.go:76 | the bytes of a string decode back to that string, one lead byte at a time |
| Text.Utf8Injective | main.go:76 | two strings have the same bytes exactly when they are equal, so the verifier hashes a different input for every different value |
| KeyLoader.Message | main.go:39-63 | definition: the six error texts of the loader, each check's own; `HandlerProperties.KeyLoadedFirst` states that the 500 reply carries them |
| KeyLoader.LoadPublicKey | main.go:36-67 | a returned key always has a modulus and a non-zero exponent |
| KeyLoader.DecodeKey | main.go:43-66 | after trimming, a returned key always has a modulus and a non-zero exponent |
| KeyLoader.LoadSucceedsIff | main.go:36-67 | the loader returns a key exactly when the file was read, a PEM block was found in the trimmed contents, the block type is "PUBLIC KEY" or "RSA PUBLIC KEY", the PKIX parser returned that RSA key, and the key is usable |
| KeyLoader.FirstFailingCheckDecides | main.go:37-64 | when every earlier check passed, a failing check yields its own error: the read error with its cause, no PEM block, the unexpected block type with its name, the parser's error, a key that is not RSA, an RSA key without a modulus or with a zero exponent |
| KeyLoader.ErrorNamesItsCheck | main.go:43-64 | each error other than the read error is returned only when its own check failed and every earlier check passed |
| KeyLoader.EarlyFailureSkipsParser | main.go:37-52 | after a read failure, a missing block or a wrong block type, the PKIX parser is not consulted: any other parser gives the same result |
| KeyLoader.SurroundingSpaceIgnored | main.go:42-43 | white space around the PEM text does not change the outcome |
| Signature.VerifySignature | main.go:69-85 | definition: base64 decoding, the SHA-256 digest of the value's UTF-8 bytes and the PKCS #1 v1.5 check, each failure with its own error; its properties are in `Signature.AcceptsIff` and `Signature.BadEncodingSkipsCheck` |
| Signature.AcceptsIff | main.go:69-85 | a signature is accepted exactly when it is valid base64 and the PKCS #1 v1.5 check of the decoded bytes against SHA-256 of the value's UTF-8 bytes passes |
| Signature.BadEncodingSkipsCheck | main.go:70-73 | a signature that is not base64 fails with the decoder's error, and no hash or RSA check is consulted |
| Payload.IntoMap | main.go:136-140 | decoding into a map succeeds exactly for an object, which yields its fields, and for `null`, which yields an empty map |
| Payload.StringField | main.go:143-144 | the type assertion yields a string exactly when the key is present and holds a JSON string, and then yields that string |
| Payload.Sanitized | main.go:164-165 | definition: the body's map without `sec` and `secval`; its properties are in `Payload.SanitizedExact` and `Payload.Sanitize` |
| Payload.Sanitize | main.go:164-165 | the forwarded map has exactly the keys of the body except `sec` and `secval`, each with its original value |
| Payload.SanitizedExact | main.go:163-165 | neither credential survives; every other key survives with its value; the size drops by the number of credential keys present |
| Headers.IsCustomHeader | main.go:192 | definition: the lower-cased name starts with `x-`; its properties are in `Headers.CustomHeaderIff` |
| Headers.CustomHeaders | main.go:191-198 | definition: the inbound headers that pass the allow-list and have values; its properties are in `Headers.ForwardedIff` and `Headers.ForwardCustomHeaders` |
| Headers.CustomHeaderIff | main.go:192 | a name passes the allow-list exactly when it starts with `x-` or `X-` |
| Headers.ForwardedIff | main.go:191-198 | the forwarded set holds exactly the inbound `x-` headers that have values, each with its values unchanged and in order |
| Headers.HeaderMap.constructor | main.go:184 | a new request's header set is empty |
| Headers.HeaderMap.Add | main.go:196 | `Add` appends one value after the values already under the name and changes nothing else |
| Headers.HeaderMap.Set | main.go:124 | `Set` replaces the values under the name by one value (used by `http.Error`) |
| Headers.HeaderMap.Del | main.go:124 | `Del` removes the name (used by `http.Error`) |
| Headers.AddEach | main.go:195-197 | adding every value of a non-empty list appends that list, in order, under the name; an empty list changes nothing |
| Headers.CopyValues | main.go:191-198 | visiting the names in any order adds, for each kept name with values, all its values after those already present |
| Headers.ForwardCustomHeaders | main.go:190-198 | the outbound header set receives exactly the inbound `x-` headers with values |
| Headers.CopyHeaders | main.go:224-228 | the writer's header set receives every upstream header that has a value, with all its values |
| Target.TargetUrl | main.go:175-178 | definition: the target URL; its properties are in `Target.TargetUrlShape` and `Target.SplitTargetUrl` |
| Target.BuildTargetUrl | main.go:174-178 | the URL is the origin and the path, followed by `?` and the raw query when the query is non-empty |
| Target.TargetUrlShape | main.go:175-178 | the URL starts with origin plus path; a `?` follows exactly when the query is non-empty, and then the query runs to the end |
| Target.SplitTargetUrl | main.go:175-178 | for a path without `?`, the path and query can be read back from the URL |
| Responses.ResponseWriter.WriteHeader | main.go:230 | the first call commits the status and a snapshot of the header set; a later call changes nothing |
| Responses.ResponseWriter.constructor | main.go:121 | the writer handed to the handler has an empty header set, no status and no body |
| Responses.ResponseWriter.Write | main.go:232 | writing commits status 200 if nothing was committed and appends the bytes to the body the handler has written |
| Responses.ErrorResponse | main.go:124 | definition: the response `http.Error` gives on a fresh writer; `Responses.HttpError` proves it is what such a writer sends |
| Responses.HttpError | main.go:232-235 | `http.Error` marks the reply as plain text and writes the message and a newline after what the handler already wrote; on a fresh writer the handler sends exactly `ErrorResponse(code, message)`, and on a committed one the status and sent headers stay as they were |
| Proxy.Handle | main.go:121-236 | definition: the response and the ordered collaborator calls of the whole handler; `Proxy.Serve` is proved to send it, and its properties are in `HandlerProperties` |
| Proxy.Admit | main.go:142-165 | definition: the credential checks, the verification and the stripping; its properties are in `HandlerProperties.AdmitTrace`, `AdmitAccepted` and `AdmitRefused` |
| Proxy.Forward | main.go:167-235 | definition: re-encoding, building the request, sending it and relaying the answer; its properties are in `HandlerProperties.ForwardTrace`, `ForwardSends` and `ForwardRelays` |
| Proxy.Relayed | main.go:223-235 | definition: the reply relayed from an upstream answer; its properties are in `HandlerProperties.RelayedFaithfully` and `Proxy.Relay` |
| Proxy.Serve | main.go:121-236 | the handler sends exactly the response `Handle` describes and makes exactly the calls `Handle` lists |
| Proxy.CheckCredentials | main.go:142-165 | the credential and signature checks send what `Admit` describes |
| Proxy.SendUpstream | main.go:167-221 | re-encoding, building, header filtering and sending produce what `Forward` describes; the outbound header set is exactly the inbound `x-` headers |
| Proxy.Relay | main.go:223-235 | the handler commits the upstream status and every upstream header with a value, and writes the body, followed by the error text only when the copy failed |
| HandlerProperties.ForwardTrace | main.go:167-220 | after the signature step, an encoding comes first, no verification follows, nothing follows a send, and unless a send is made the reply is one of the two 500 errors |
| HandlerProperties.ForwardRelays | main.go:216-235 | when encoding, building and sending succeed, the handler sends the relayed answer |
| HandlerProperties.ForwardSends | main.go:184-216 | when encoding and building succeed, the calls are encode, build, send, in that order, and the request sent carries the inbound method, the target URL, the `x-` headers and the encoded payload |
| HandlerProperties.AdmitTrace | main.go:142-161 | the verifier is called only as the fourth call and only with two non-empty string credentials; a send is only the last call; a send happens only when the signature was accepted |
| HandlerProperties.AdmitAccepted | main.go:156-168 | an accepted signature leads on to forwarding the sanitised payload |
| HandlerProperties.AdmitRefused | main.go:142-161 | a request whose signature check does not pass is refused with 400 or 404 before verification, or with 401 right after it |
| HandlerProperties.HandleStages | main.go:121-140 | until the body decodes into a map, at most the first three calls are made and neither the verifier nor the upstream is reached |
| HandlerProperties.HandleDecoded | main.go:121-144 | once the key loaded and the body decoded into a map, the handler continues with the credential checks on that map |
| HandlerProperties.HandleEarlyExit | main.go:121-140 | a key that does not load or a body that does not decode into a map stops the request after at most three calls, and neither the verifier nor the upstream is reached |
| HandlerProperties.KeyLoadedFirst | main.go:122-126 | the key is loaded first; it fails exactly when nothing else is attempted, and then the reply is 500 with the loader's message |
| HandlerProperties.BodyReadFailure | main.go:128-132 | an unreadable body gives 500 before decoding |
| HandlerProperties.InvalidJsonRejected | main.go:136-140 | a body that does not decode into a map gives 400 "Invalid JSON" before any field is examined |
| HandlerProperties.NullBodyFailsTypeCheck | main.go:136-149 | a `null` body passes decoding and is refused by the type check with 400 |
| HandlerProperties.TypeCheckBeforeEmptiness | main.go:142-154 | a missing or non-string credential gives 400, an empty one gives 404, and in neither case is the verifier or the upstream reached |
| HandlerProperties.SignatureFailureTerminal | main.go:156-161 | a failing signature, for any cause, gives 401 with the fixed message, and nothing is sent |
| HandlerProperties.VerifierSeesCredentials | main.go:142-157 | the verifier is called only as the fourth call, after the key loaded and the body decoded, with `secval` as the value and `sec` as the signature, both non-empty |
| HandlerProperties.ForwardedRequest | main.go:163-216 | the send is the last call, so it happens at most once; it happens only after an accepted signature, and it carries the inbound method, the target URL, the `x-` headers and the encoding of the body without `sec` and `secval` |
| HandlerProperties.UpstreamOutcome | main.go:215-235 | once sent, a transport error gives 502 without a retry, and an answer is relayed |
| HandlerProperties.RelayedFaithfully | main.go:223-235 | a relayed reply has the upstream status, a header set that the handler commits holding exactly the upstream headers with values, and a body that starts with the upstream body and equals it when the copy succeeded |
| HandlerProperties.UnforwardedRepliesAreErrors | main.go:121-188 | a request that is not forwarded gets a plain-text error with status 400, 401, 404 or 500 |
| HandlerProperties.RefusedAfterVerification | main.go:156-188 | a request that reached the verifier but was not sent got 401 with the fixed message, or one of the two 500 errors |
| HandlerProperties.SignatureFailureIsUniform | main.go:156-161 | any two requests refused with 401 after verification receive identical responses, whatever made each check fail |
| Scenarios.PaymentPayloadIsSanitized | main.go:164-165 | stripping the payment body leaves `{"amount": 1000}` |
| Scenarios.PaymentUrl | main.go:175-178 | `/pay/request` with no query targets `https://sep.shaparak.ir/pay/request` |
| Scenarios.PaymentDecoded | main.go:128-144 | the payment body reaches the credential checks with its three fields |
| Scenarios.PaymentAdmitted | main.go:156-168 | an accepted payment signature forwards `{"amount": 1000}` after verifying "1000\|order123" |
| Scenarios.PaymentForwarded | main.go:121-216 | a signed POST to `/pay/request` makes seven calls: the verification of "1000\|order123", and one send of POST to `https://sep.shaparak.ir/pay/request` with the `x-` headers and the encoding of `{"amount": 1000}` |
| Scenarios.PaymentRelayed | main.go:216-235 | when the body is copied without error, the handler sends the upstream's status, headers and body unchanged |
| Scenarios.TamperedPaymentRefused | main.go:156-161 | the same request with a signature that fails gives 401, and nothing is sent |
| Scenarios.EmptyCredentialsNotFound | main.go:151-154 | `{"sec": "", "secval": ""}` gives 404; neither the verifier nor the upstream is reached |
| Scenarios.NumericSignatureRejected | main.go:143-149 | a numeric `sec` gives 400; neither the verifier nor the upstream is reached |

## Left out

- `showServerInfo`, `main`, and the server's port and read, write and idle timeouts:
  start-up and diagnostics only.
- The cryptography is not modelled; `pem.Decode`, `x509.ParsePKIXPublicKey`, base64
  decoding, SHA-256 and `rsa.VerifyPKCS1v15` are parameters. So the model cannot show:
  - that a valid signature from the matching private key verifies;
  - that flipping any byte of the signature or of the value makes verification fail;
  - whether a PKCS #1 "RSA PUBLIC KEY" block, which the type check admits, is accepted by
    the PKIX parser.
- File reading, body reading and their errors are given as outcomes. The closing of the
  bodies and `log.Printf` are left out, as they do not affect the reply.
- `encoding/json` is a parameter, so any decoder and encoder is allowed. Numbers are exact
  reals, not `float64`, so rounding of large numbers on the way through is not modelled.
  The key order of the re-encoded body is the codec's.
- The request context, its timeout and cancellation, the client timeout, the connection
  pool and the dialer settings are not modelled. Their effect is only a transport error,
  which `Network.send` may return.
- Redirects that `client.Do` follows, and headers the transport adds or removes (such as
  `Accept-Encoding` and transparent gzip), are inside `Network.send` and not modelled.
- `Network.newRequest` decides whether `http.NewRequestWithContext` accepts the method and
  URL. The URL parser is not modelled, including how a path with an encoded `?` or `#` is
  parsed again.
- Concurrency is not modelled: requests do not share state, so each is modelled on its own.
- `net/http` is not part of this model. `http.Error`, `ResponseWriter.WriteHeader` and
  `Write` are modelled from their documented behaviour, except what the next line names.
  The status codes passed to `WriteHeader` are assumed valid, so its panic on codes out of
  range is not modelled.
- Responses.ResponseWriter.Write: the model sends the header set the handler committed and
  nothing more. The server adds headers of its own: `Content-Type`, sniffed from the first
  512 bytes when the committed set has none; `Content-Length`, for a short body written
  before the handler returns; and `Date`. So `Response`, `Sent()`, `Proxy.Relay` and
  `HandlerProperties.RelayedFaithfully` describe the headers the handler commits. When the
  upstream sends no `Content-Type`, the client also receives a sniffed one. Likewise
  `body` is what the handler writes, not what reaches the client. `net/http` refuses
  (`ErrContentLength`) bytes beyond a committed `Content-Length`. That is why the text
  `http.Error` writes after a failed copy can be lost when the upstream's `Content-Length`
  was relayed. It is also lost when the copy failed because writing to the client failed.
  For an inbound `HEAD` request the server discards every body, including the error texts
  of `ErrorResponse`.
- Responses.HttpError: on a committed writer the message is always added to the body the
  handler writes. Whether `net/http` delivers it is subject to the `Content-Length`, the
  connection and `HEAD` limits in the line above, which are not modelled.
- Headers.HeaderMap.Add: names are stored as given. `Header.Add` also canonicalises the
  key; inbound and upstream header names already arrive canonical from `net/http`, so this
  is not modelled.
- Text.ToLowerAt: lower-cases ASCII letters only. `strings.ToLower` also maps non-ASCII
  letters, and none of them lower-cases to `x` or `-`.
- Text.TrimSpace: trims ASCII white space only. `strings.TrimSpace` also trims Unicode
  white space, which a PEM file does not hold around its armour.
- Text.Utf8: strings are sequences of Unicode scalar values. A Go string holding bytes
  that are not valid UTF-8 is not modelled.
- Proxy.Relay: a failed copy is represented by the bytes delivered before the failure and
  a flag. Streaming and partial writes to the client are not modelled.
