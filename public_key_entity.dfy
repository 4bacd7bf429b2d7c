/** The SDK's own view of a public key, and the input of an unseal. */
module PublicKeyEntities {

  datatype PublicKeyEntityFormat = SPKI | RSAPublicKey

  /** A public key: its id (which also names the private key in the key
      manager), the key ring it belongs to, its format, and its bytes in
      base64. */
  datatype PublicKeyEntity = PublicKeyEntity(
    keyId: string,
    keyRingId: string,
    keyFormat: PublicKeyEntityFormat,
    keyData: string)

  /** A sealed string, the id of the private key it is sealed for, and an
      algorithm name that nothing inspects. */
  datatype UnsealInput = UnsealInput(encrypted: string, keyId: string, algorithm: string)
}
