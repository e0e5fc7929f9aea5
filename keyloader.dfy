/** `loadPublicKey`: reads the key file and turns it into an RSA verification key through a
    fixed sequence of checks, the first failing one deciding the error. */
module KeyLoader {
  import opened Wrappers
  import opened Text
  import opened Primitives

  /** One error per check, in the order the checks are made. */
  datatype KeyError =
    | ReadFailed(cause: string)
    | NoPemBlock
    | UnexpectedBlockType(kind: string)
    | ParseFailed(cause: string)
    | NotRsa
    | InvalidRsaKey

  /** The text of the error `loadPublicKey` returns. */
  function Message(e: KeyError): string {
    match e
    case ReadFailed(cause) => "failed to read public key file: " + cause
    case NoPemBlock => "invalid PEM block"
    case UnexpectedBlockType(kind) => "unexpected PEM block type: " + kind
    case ParseFailed(cause) => "failed to parse public key: " + cause
    case NotRsa => "key is not an RSA public key"
    case InvalidRsaKey => "invalid RSA public key"
  }

  /** The two PEM block types the loader admits. */
  predicate AcceptedBlockType(kind: string) {
    kind == "PUBLIC KEY" || kind == "RSA PUBLIC KEY"
  }

  /** An RSA key the loader hands out: its modulus is present and its exponent non-zero. */
  predicate UsableKey(key: RsaPublicKey) {
    key.n.Some? && key.e != 0
  }

  /** `loadPublicKey(path)`, given what reading the file at `path` produced: the contents
      are trimmed and then decoded. */
  function LoadPublicKey(file: Result<seq<byte>, string>, lib: Library): (r: Result<RsaPublicKey, KeyError>)
    ensures r.Ok? ==> UsableKey(r.value)
  {
    match file
    case Err(cause) => Err(ReadFailed(cause))
    case Ok(contents) => DecodeKey(TrimSpace(contents), lib)
  }

  /** The checks of `loadPublicKey` after trimming: one PEM block of an accepted type,
      holding a PKIX-encoded RSA key with a modulus and a non-zero exponent. */
  function DecodeKey(pem: seq<byte>, lib: Library): (r: Result<RsaPublicKey, KeyError>)
    ensures r.Ok? ==> UsableKey(r.value)
  {
    match lib.pemDecode(pem)
    case None => Err(NoPemBlock)
    case Some(block) =>
      if !AcceptedBlockType(block.kind) then Err(UnexpectedBlockType(block.kind))
      else
        match lib.parsePkix(block.bytes)
        case Err(cause) => Err(ParseFailed(cause))
        case Ok(pub) =>
          if !pub.Rsa? then Err(NotRsa)
          else if !UsableKey(pub.key) then Err(InvalidRsaKey)
          else Ok(pub.key)
  }

  /** Every condition the loader demands, as one conjunction. */
  ghost predicate KeyAcceptable(file: Result<seq<byte>, string>, lib: Library, key: RsaPublicKey) {
    && file.Ok?
    && lib.pemDecode(TrimSpace(file.value)).Some?
    && AcceptedBlockType(lib.pemDecode(TrimSpace(file.value)).value.kind)
    && lib.parsePkix(lib.pemDecode(TrimSpace(file.value)).value.bytes) == Ok(Rsa(key))
    && UsableKey(key)
  }

  /** The loader returns `key` exactly when every check passes and the parser produced
      `key`; so it succeeds only when all the conditions hold together. */
  lemma LoadSucceedsIff(file: Result<seq<byte>, string>, lib: Library, key: RsaPublicKey)
    ensures LoadPublicKey(file, lib) == Ok(key) <==> KeyAcceptable(file, lib, key)
  {
  }

  /** The first failing check decides the error: when every check before it passed, a
      failing check yields its own error. */
  lemma FirstFailingCheckDecides(file: Result<seq<byte>, string>, lib: Library)
    ensures file.Err? ==> LoadPublicKey(file, lib) == Err(ReadFailed(file.error))
    ensures file.Ok? && lib.pemDecode(TrimSpace(file.value)).None? ==>
              LoadPublicKey(file, lib) == Err(NoPemBlock)
    ensures && file.Ok?
            && lib.pemDecode(TrimSpace(file.value)).Some?
            && !AcceptedBlockType(lib.pemDecode(TrimSpace(file.value)).value.kind)
            ==> LoadPublicKey(file, lib) == Err(UnexpectedBlockType(lib.pemDecode(TrimSpace(file.value)).value.kind))
    ensures && file.Ok?
            && lib.pemDecode(TrimSpace(file.value)).Some?
            && AcceptedBlockType(lib.pemDecode(TrimSpace(file.value)).value.kind)
            && lib.parsePkix(lib.pemDecode(TrimSpace(file.value)).value.bytes).Err?
            ==> LoadPublicKey(file, lib)
                == Err(ParseFailed(lib.parsePkix(lib.pemDecode(TrimSpace(file.value)).value.bytes).error))
    ensures && file.Ok?
            && lib.pemDecode(TrimSpace(file.value)).Some?
            && AcceptedBlockType(lib.pemDecode(TrimSpace(file.value)).value.kind)
            && lib.parsePkix(lib.pemDecode(TrimSpace(file.value)).value.bytes).Ok?
            && lib.parsePkix(lib.pemDecode(TrimSpace(file.value)).value.bytes).value.OtherAlgorithm?
            ==> LoadPublicKey(file, lib) == Err(NotRsa)
    ensures && file.Ok?
            && lib.pemDecode(TrimSpace(file.value)).Some?
            && AcceptedBlockType(lib.pemDecode(TrimSpace(file.value)).value.kind)
            && lib.parsePkix(lib.pemDecode(TrimSpace(file.value)).value.bytes).Ok?
            && lib.parsePkix(lib.pemDecode(TrimSpace(file.value)).value.bytes).value.Rsa?
            && !UsableKey(lib.parsePkix(lib.pemDecode(TrimSpace(file.value)).value.bytes).value.key)
            ==> LoadPublicKey(file, lib) == Err(InvalidRsaKey)
  {
  }

  /** Each error names its own check: a later check is reported only when all the earlier
      ones passed. */
  lemma ErrorNamesItsCheck(file: Result<seq<byte>, string>, lib: Library)
    ensures LoadPublicKey(file, lib) == Err(NoPemBlock) ==>
              file.Ok? && lib.pemDecode(TrimSpace(file.value)).None?
    ensures LoadPublicKey(file, lib).Err? && LoadPublicKey(file, lib).error.UnexpectedBlockType? ==>
              && file.Ok?
              && lib.pemDecode(TrimSpace(file.value)).Some?
              && !AcceptedBlockType(lib.pemDecode(TrimSpace(file.value)).value.kind)
    ensures LoadPublicKey(file, lib).Err? && LoadPublicKey(file, lib).error.ParseFailed? ==>
              && file.Ok?
              && lib.pemDecode(TrimSpace(file.value)).Some?
              && AcceptedBlockType(lib.pemDecode(TrimSpace(file.value)).value.kind)
              && lib.parsePkix(lib.pemDecode(TrimSpace(file.value)).value.bytes).Err?
    ensures LoadPublicKey(file, lib) == Err(NotRsa) ==>
              && file.Ok?
              && lib.pemDecode(TrimSpace(file.value)).Some?
              && AcceptedBlockType(lib.pemDecode(TrimSpace(file.value)).value.kind)
              && lib.parsePkix(lib.pemDecode(TrimSpace(file.value)).value.bytes).Ok?
              && lib.parsePkix(lib.pemDecode(TrimSpace(file.value)).value.bytes).value.OtherAlgorithm?
    ensures LoadPublicKey(file, lib) == Err(InvalidRsaKey) ==>
              && file.Ok?
              && lib.pemDecode(TrimSpace(file.value)).Some?
              && AcceptedBlockType(lib.pemDecode(TrimSpace(file.value)).value.kind)
              && lib.parsePkix(lib.pemDecode(TrimSpace(file.value)).value.bytes).Ok?
              && lib.parsePkix(lib.pemDecode(TrimSpace(file.value)).value.bytes).value.Rsa?
              && !UsableKey(lib.parsePkix(lib.pemDecode(TrimSpace(file.value)).value.bytes).value.key)
  {
  }

  /** When the file cannot be read, holds no PEM block, or holds a block of another type,
      the PKIX parser is not consulted: replacing it by any other changes nothing. */
  lemma EarlyFailureSkipsParser(file: Result<seq<byte>, string>, lib: Library,
                                parser: seq<byte> -> Result<PublicKey, string>)
    requires LoadPublicKey(file, lib).Err?
    requires LoadPublicKey(file, lib).error.ReadFailed? || LoadPublicKey(file, lib).error.NoPemBlock?
          || LoadPublicKey(file, lib).error.UnexpectedBlockType?
    ensures LoadPublicKey(file, lib.(parsePkix := parser)) == LoadPublicKey(file, lib)
  {
  }

  /** The loader sees the key file only after surrounding white space is trimmed. */
  lemma SurroundingSpaceIgnored(contents: seq<byte>, lib: Library)
    ensures LoadPublicKey(Ok(contents), lib) == LoadPublicKey(Ok(TrimSpace(contents)), lib)
  {
    TrimSpaceIdempotent(contents);
  }
}
