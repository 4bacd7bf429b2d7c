/** The records exchanged with the key service's GraphQL API. Only the fields
    the core reads or writes are kept. */
module GraphQLTypes {
  import opened Wrappers

  /** The wire key format. The service may send a value this client does not
      know, so one outside the enumeration is representable. */
  datatype KeyFormat = RsaPublicKey | Spki | UnrecognizedGraphQLFormat(raw: string)

  /** A registered public key as the service returns it. `None` for
      `keyFormat` stands for an `undefined` field only; a wire `null` is not
      a case the format transformer handles, and is represented as
      `Some(UnrecognizedGraphQLFormat(...))`. */
  datatype PublicKey = PublicKey(
    id: string,
    keyId: string,
    keyRingId: string,
    algorithm: string,
    keyFormat: Option<KeyFormat>,
    publicKey: string,
    owner: string,
    version: int)

  /** One page of a key ring; `nextToken` is absent (or null) on the last. */
  datatype PaginatedPublicKey = PaginatedPublicKey(items: seq<PublicKey>, nextToken: Option<string>)

  /** The input of the create-public-key mutation. */
  datatype CreatePublicKeyInput = CreatePublicKeyInput(
    keyId: string,
    keyRingId: string,
    algorithm: string,
    publicKey: string,
    keyFormat: KeyFormat)
}
