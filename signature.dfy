/** `verifySignature`: base64-decodes the signature, hashes the signed value with SHA-256
    and checks the signature with RSASSA-PKCS1-v1_5, stopping at the first failure. */
module Signature {
  import opened Wrappers
  import opened Text
  import opened Primitives

  datatype SignatureError = BadEncoding(cause: string) | Rejected(cause: string)

  /** `verifySignature(publicKey, data, signature)`. */
  function VerifySignature(lib: Library, key: RsaPublicKey, data: string, signature: string): Outcome<SignatureError> {
    match lib.base64Decode(signature)
    case Err(cause) => Fail(BadEncoding(cause))
    case Ok(signatureBytes) =>
      match lib.verifyPkcs1v15(key, lib.sha256(Utf8(data)), signatureBytes)
      case Fail(cause) => Fail(Rejected(cause))
      case Pass => Pass
  }

  /** The verifier accepts exactly when the signature decodes and the PKCS #1 v1.5 check
      of the decoded bytes against the SHA-256 digest of the UTF-8 bytes of `data` passes. */
  lemma AcceptsIff(lib: Library, key: RsaPublicKey, data: string, signature: string)
    ensures VerifySignature(lib, key, data, signature).Pass? <==>
              && lib.base64Decode(signature).Ok?
              && lib.verifyPkcs1v15(key, lib.sha256(Utf8(data)), lib.base64Decode(signature).value).Pass?
  {
  }

  /** A signature that is not valid base64 is refused with the decoder's error, before
      anything is hashed or checked: any other hash function or RSA check gives the same. */
  lemma BadEncodingSkipsCheck(lib: Library, key: RsaPublicKey, data: string, signature: string,
                              hash: seq<byte> -> seq<byte>,
                              check: (RsaPublicKey, seq<byte>, seq<byte>) -> Outcome<string>)
    requires lib.base64Decode(signature).Err?
    ensures VerifySignature(lib, key, data, signature) == Fail(BadEncoding(lib.base64Decode(signature).error))
    ensures VerifySignature(lib.(sha256 := hash, verifyPkcs1v15 := check), key, data, signature)
         == VerifySignature(lib, key, data, signature)
  {
  }
}
