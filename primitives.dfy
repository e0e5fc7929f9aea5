/** The library calls of the key loader and the signature verifier, which the model does
    not open: PEM decoding, PKIX SubjectPublicKeyInfo parsing, standard base64 decoding,
    SHA-256 and RSASSA-PKCS1-v1_5 verification. A `Library` value bundles one choice of
    each, so every property proved below holds whatever these functions compute. */
module Primitives {
  import opened Wrappers
  import opened Text

  /** A decoded PEM block (`pem.Block`): the word of its BEGIN line and its payload. */
  datatype PemBlock = PemBlock(kind: string, bytes: seq<byte>)

  /** An `*rsa.PublicKey`: the modulus `N` is a pointer that may be nil, `E` a Go int. */
  datatype RsaPublicKey = RsaPublicKey(n: Option<int>, e: int)

  /** What `x509.ParsePKIXPublicKey` hands back: an RSA key or a key of another algorithm. */
  datatype PublicKey = Rsa(key: RsaPublicKey) | OtherAlgorithm(name: string)

  datatype Library = Library(
    /** `pem.Decode`: the first PEM block in the input, if there is one. */
    pemDecode: seq<byte> -> Option<PemBlock>,
    /** `x509.ParsePKIXPublicKey`, with the text of its error. */
    parsePkix: seq<byte> -> Result<PublicKey, string>,
    /** `base64.StdEncoding.DecodeString`, with the text of its error. */
    base64Decode: string -> Result<seq<byte>, string>,
    /** SHA-256 of a byte string. */
    sha256: seq<byte> -> seq<byte>,
    /** `rsa.VerifyPKCS1v15(key, crypto.SHA256, digest, signature)`. */
    verifyPkcs1v15: (RsaPublicKey, seq<byte>, seq<byte>) -> Outcome<string>)
}
