/** What the SDK takes from its platform library: the error kinds it raises,
    the key manager's public-key record and format, and cache policies. */
module SudoCommon {
  import opened Bytes

  /** The errors the core raises. `EncodingTypeError` is the platform's own
      TypeError, thrown by a strict `TextDecoder` at a point where no error
      is caught and re-raised. */
  datatype Error =
    | FatalError(message: string)
    | DecodeError(message: string)
    | NotSignedInError
    | IllegalArgumentError(message: string)
    | EncodingTypeError

  /** The key manager's format tag. Values come back from key storage, so a
      value outside the enumeration is representable. */
  datatype PublicKeyFormat = RSAPublicKey | SPKI | UnrecognizedKeyManagerFormat(raw: string)

  /** A public key as the key manager returns it: raw key bytes and format. */
  datatype PublicKey = PublicKey(keyData: seq<byte>, keyFormat: PublicKeyFormat)

  /** Whether a read may be answered from the local cache. */
  datatype CachePolicy = CacheOnly | RemoteOnly
}
