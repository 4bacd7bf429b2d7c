/** Conversions of the key-format tag between the wire, the entity and the
    key manager. Each is a total match over the known values, with one
    default (a missing wire format is an RSA public key) and an
    IllegalArgumentError naming any value it does not know. */
module KeyEntityFormatTransformer {
  import opened Wrappers
  import opened SudoCommon
  import GraphQL = GraphQLTypes
  import E = PublicKeyEntities

  /** Wire format to entity format. */
  function TransformGraphQL(data: Option<GraphQL.KeyFormat>): (r: Result<E.PublicKeyEntityFormat, Error>)
    ensures r == Success(E.SPKI) <==> data == Some(GraphQL.Spki)
    ensures r == Success(E.RSAPublicKey) <==> data == None || data == Some(GraphQL.RsaPublicKey)
    ensures r.Failure? <==> data.Some? && data.value.UnrecognizedGraphQLFormat?
    ensures r.Failure? ==> r.error == IllegalArgumentError("Unrecognized GraphQL KeyFormat " + data.value.raw)
  {
    match data
    case Some(Spki) => Success(E.SPKI)
    case None => Success(E.RSAPublicKey)
    case Some(RsaPublicKey) => Success(E.RSAPublicKey)
    case Some(UnrecognizedGraphQLFormat(raw)) =>
      Failure(IllegalArgumentError("Unrecognized GraphQL KeyFormat " + raw))
  }

  /** Entity format to wire format. The entity's format has only the two
      values, so this never fails. */
  function TransformEntity(data: E.PublicKeyEntityFormat): (r: GraphQL.KeyFormat)
    ensures !r.UnrecognizedGraphQLFormat?
    ensures r == GraphQL.Spki <==> data == E.SPKI
  {
    match data
    case SPKI => GraphQL.Spki
    case RSAPublicKey => GraphQL.RsaPublicKey
  }

  /** Key-manager format to entity format. */
  function TransformKeyManager(data: PublicKeyFormat): (r: Result<E.PublicKeyEntityFormat, Error>)
    ensures r == Success(E.SPKI) <==> data == SPKI
    ensures r == Success(E.RSAPublicKey) <==> data == RSAPublicKey
    ensures r.Failure? ==> r.error == IllegalArgumentError("Unrecognized KeyManager PublicKeyFormat " + data.raw)
  {
    match data
    case SPKI => Success(E.SPKI)
    case RSAPublicKey => Success(E.RSAPublicKey)
    case UnrecognizedKeyManagerFormat(raw) =>
      Failure(IllegalArgumentError("Unrecognized KeyManager PublicKeyFormat " + raw))
  }

  /** An entity format survives the trip to the wire and back. */
  lemma EntityRoundTrip(e: E.PublicKeyEntityFormat)
    ensures TransformGraphQL(Some(TransformEntity(e))) == Success(e)
  {
  }

  /** A wire format the client knows survives the trip to the entity and
      back; a missing one comes back as RsaPublicKey. */
  lemma GraphQLRoundTrip(g: Option<GraphQL.KeyFormat>)
    requires TransformGraphQL(g).Success?
    ensures g.Some? ==> TransformEntity(TransformGraphQL(g).value) == g.value
    ensures g.None? ==> TransformEntity(TransformGraphQL(g).value) == GraphQL.RsaPublicKey
  {
  }
}
