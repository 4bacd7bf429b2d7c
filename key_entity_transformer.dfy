/** Conversions of whole public-key records into the entity: from the wire
    record, and from the key manager's record plus the id and key ring it
    does not carry. */
module KeyEntityTransformer {
  import opened Wrappers
  import opened SudoCommon
  import GraphQL = GraphQLTypes
  import E = PublicKeyEntities
  import Format = KeyEntityFormatTransformer
  import Base64

  /** Wire record to entity: ids and the key string are copied as they are,
      the format goes through the format conversion, whose error passes
      through unchanged. */
  function TransformGraphQL(data: GraphQL.PublicKey): (r: Result<E.PublicKeyEntity, Error>)
    ensures r.Success? <==> Format.TransformGraphQL(data.keyFormat).Success?
    ensures r.Success? ==>
      && r.value.keyId == data.keyId
      && r.value.keyRingId == data.keyRingId
      && r.value.keyData == data.publicKey
      && r.value.keyFormat == Format.TransformGraphQL(data.keyFormat).value
    ensures r.Failure? ==> r.error == Format.TransformGraphQL(data.keyFormat).error
  {
    match Format.TransformGraphQL(data.keyFormat)
    case Failure(e) => Failure(e)
    case Success(format) => Success(E.PublicKeyEntity(data.keyId, data.keyRingId, format, data.publicKey))
  }

  /** Key-manager record to entity: id and key ring come from the caller,
      the raw key bytes are stored as their padded base64 text (section 4
      of RFC 4648), so decoding `keyData` gives the key bytes back. */
  function TransformKeyManager(publicKey: PublicKey, keyId: string, keyRingId: string): (r: Result<E.PublicKeyEntity, Error>)
    ensures r.Success? <==> Format.TransformKeyManager(publicKey.keyFormat).Success?
    ensures r.Success? ==>
      && r.value.keyId == keyId
      && r.value.keyRingId == keyRingId
      && r.value.keyData == Base64.Encode(publicKey.keyData)
      && Base64.Decode(r.value.keyData) == publicKey.keyData
      && r.value.keyFormat == Format.TransformKeyManager(publicKey.keyFormat).value
    ensures r.Failure? ==> r.error == Format.TransformKeyManager(publicKey.keyFormat).error
  {
    Base64.RoundTrip(publicKey.keyData);
    match Format.TransformKeyManager(publicKey.keyFormat)
    case Failure(e) => Failure(e)
    case Success(format) =>
      Success(E.PublicKeyEntity(keyId, keyRingId, format, Base64.Encode(publicKey.keyData)))
  }

  /** A wire record built from an entity's fields, with the format the
      entity converts to, converts back to the entity: what registering a key
      returns when the service echoes what it was sent. */
  lemma EchoRoundTrip(e: E.PublicKeyEntity, id: string, algorithm: string, owner: string, version: int)
    ensures TransformGraphQL(GraphQL.PublicKey(id, e.keyId, e.keyRingId, algorithm,
                                               Some(Format.TransformEntity(e.keyFormat)),
                                               e.keyData, owner, version)) == Success(e)
  {
    Format.EntityRoundTrip(e.keyFormat);
  }
}
