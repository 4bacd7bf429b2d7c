/** The key worker: one device key pair, cached after it is generated or
    first loaded, and the unsealing of strings sealed for a private key the
    key manager holds.

    A sealed string is base64 text whose bytes are an RSA-wrapped AES key of
    a fixed size followed by the AES-encrypted payload; there is no length
    prefix, the split point is the configured RSA key size. */
module KeyWorker {
  import opened Wrappers
  import opened Bytes
  import opened SudoCommon
  import E = PublicKeyEntities
  import Transformer = KeyEntityTransformer
  import Format = KeyEntityFormatTransformer
  import Base64
  import Utf8
  import opened Collaborators

  /** RSA key size in bytes (2048-bit keys) when none is configured. */
  const DefaultRsaKeySize := 256

  const KeyNotGenerated := "Key not generated"
  const CouldNotGenerate := "Could not generate public key pair"
  const CouldNotDecryptAesKey := "Could not decrypt AES key from sealed string"
  const CouldNotExtractAesKey := "Could not extract AES key from sealed string"
  const CouldNotUnseal := "Could not unseal sealed payload"
  const CouldNotDecodeUtf8 := "Could not decode unsealed payload as UTF-8"

  /** The key size the constructor keeps: a configured size replaces the
      default only when it is truthy, so undefined and 0 keep 256. */
  function EffectiveRsaKeySize(requested: Option<int>): (r: int)
    ensures r != 0
    ensures requested.Some? && requested.value != 0 ==> r == requested.value
    ensures requested.None? || requested.value == 0 ==> r == DefaultRsaKeySize
  {
    if requested.None? || requested.value == 0 then DefaultRsaKeySize else requested.value
  }

  predicate IsLowerHex(c: char)
  {
    '0' <= c <= '9' || 'a' <= c <= 'f'
  }

  /** The text `uuid.v4()` returns: 36 characters, hyphens at positions 8,
      13, 18 and 23, lower-case hexadecimal digits elsewhere. */
  predicate IsUuidText(s: string)
  {
    |s| == 36 &&
    forall i :: 0 <= i < 36 ==>
      if i == 8 || i == 13 || i == 18 || i == 23 then s[i] == '-' else IsLowerHex(s[i])
  }

  /** The id of the key ring of `subject` under the service's namespace. */
  function KeyRingId(namespace: string, subject: string): string
  {
    namespace + "." + subject
  }

  /** `keyRingId` names the key ring of some non-empty subject under
      `namespace`. */
  predicate InNamespace(keyRingId: string, namespace: string)
  {
    |keyRingId| > |namespace| + 1 && keyRingId[..|namespace| + 1] == namespace + "."
  }

  /** The entity for a key pair whose public key has been found: refused
      with NotSignedInError when there is no subject or it is empty,
      otherwise the key-manager record converted with the key pair id and
      the subject's key ring. */
  function KeyEntityFor(publicKey: PublicKey, keyPairId: string, namespace: string, subject: Option<string>)
    : (r: Result<E.PublicKeyEntity, Error>)
    ensures subject.None? || subject == Some("") ==> r == Failure(NotSignedInError)
    ensures subject.Some? && subject.value != "" ==>
      && (r.Success? <==> Format.TransformKeyManager(publicKey.keyFormat).Success?)
      && (r.Failure? ==> r.error == Format.TransformKeyManager(publicKey.keyFormat).error)
    ensures r.Success? ==>
      && subject.Some? && subject.value != ""
      && r.value.keyId == keyPairId
      && r.value.keyRingId == KeyRingId(namespace, subject.value)
      && InNamespace(r.value.keyRingId, namespace)
      && r.value.keyFormat == Format.TransformKeyManager(publicKey.keyFormat).value
      && r.value.keyData == Base64.Encode(publicKey.keyData)
      && Base64.Decode(r.value.keyData) == publicKey.keyData
    ensures r.Failure? ==> r.error == NotSignedInError || r.error.IllegalArgumentError?
  {
    if subject.None? || subject.value == "" then Failure(NotSignedInError)
    else
      var keyRingId := KeyRingId(namespace, subject.value);
      assert keyRingId[..|namespace| + 1] == namespace + ".";
      Transformer.TransformKeyManager(publicKey, keyPairId, keyRingId)
  }

  /** What generating a key pair returns, given the public key the key
      manager then holds for the new id. */
  function GenerateOutcome(keyPairId: string, generated: Option<PublicKey>, namespace: string, subject: Option<string>)
    : Result<E.PublicKeyEntity, Error>
  {
    match generated
    case None => Failure(FatalError(CouldNotGenerate))
    case Some(publicKey) => KeyEntityFor(publicKey, keyPairId, namespace, subject)
  }

  /** The key pair id stored in the password slot, read with a strict UTF-8
      decoder: an empty slot reads as the empty string, malformed bytes make
      the decoder throw. */
  function StoredKeyPairId(passwords: map<string, seq<byte>>, slot: string): (r: Result<string, Error>)
    ensures slot !in passwords ==> r == Success("")
    ensures r.Failure? ==> slot in passwords && r.error == EncodingTypeError
    ensures r.Success? && slot in passwords ==> Utf8.Encode(r.value) == Utf8.StripBom(passwords[slot])
    ensures r.Success? ==> (r.value == "" <==> slot !in passwords || Utf8.StripBom(passwords[slot]) == [])
  {
    if slot !in passwords then Success("")
    else match Utf8.Decode(passwords[slot])
      case None => Failure(EncodingTypeError)
      case Some(id) => Success(id)
  }

  /** What reading the current key returns: the cached key if there is one;
      otherwise nothing when no id is stored or no public key is held for
      it, else the entity for the stored key pair. */
  function CurrentKeyOutcome(cached: Option<E.PublicKeyEntity>, passwords: map<string, seq<byte>>,
                             publicKeys: map<string, PublicKey>, slot: string, namespace: string,
                             subject: Option<string>): (r: Result<Option<E.PublicKeyEntity>, Error>)
    ensures cached.Some? ==> r == Success(cached)
    ensures cached.None? && r.Success? && r.value.Some? ==>
      var id := StoredKeyPairId(passwords, slot);
      && id.Success? && id.value != "" && id.value in publicKeys
      && r.value.value.keyId == id.value
      && subject.Some? && r.value.value.keyRingId == KeyRingId(namespace, subject.value)
    ensures r.Failure? ==> r.error == EncodingTypeError || r.error == NotSignedInError || r.error.IllegalArgumentError?
    ensures cached.None? && StoredKeyPairId(passwords, slot).Failure? ==> r == Failure(EncodingTypeError)
    ensures cached.None? && StoredKeyPairId(passwords, slot).Success? ==>
      var id := StoredKeyPairId(passwords, slot).value;
      && (id == "" || id !in publicKeys ==> r == Success(None))
      && (id != "" && id in publicKeys && (subject.None? || subject == Some("")) ==> r == Failure(NotSignedInError))
      && (id != "" && id in publicKeys && subject.Some? && subject.value != "" ==>
            var format := Format.TransformKeyManager(publicKeys[id].keyFormat);
            && (format.Success? ==> r.Success? && r.value.Some?)
            && (format.Failure? ==> r == Failure(format.error)))
  {
    if cached.Some? then Success(cached)
    else match StoredKeyPairId(passwords, slot)
      case Failure(e) => Failure(e)
      case Success(id) => if id == "" then Success(None) else LoadOutcome(id, publicKeys, namespace, subject)
  }

  /** What loading the key pair with a stored id returns: nothing when the
      key manager holds no public key for it, else its entity. */
  function LoadOutcome(id: string, publicKeys: map<string, PublicKey>, namespace: string, subject: Option<string>)
    : Result<Option<E.PublicKeyEntity>, Error>
  {
    if id !in publicKeys then Success(None)
    else match KeyEntityFor(publicKeys[id], id, namespace, subject)
      case Failure(e) => Failure(e)
      case Success(key) => Success(Some(key))
  }

  /** The key-manager calls reading the current key makes. */
  function CurrentKeyCalls(cached: Option<E.PublicKeyEntity>, passwords: map<string, seq<byte>>, slot: string)
    : seq<KeyManagerCall>
  {
    if cached.Some? then []
    else match StoredKeyPairId(passwords, slot)
      case Failure(_) => [KeyManagerCall.GetPassword(slot)]
      case Success(id) =>
        [KeyManagerCall.GetPassword(slot)] + (if id == "" then [] else [KeyManagerCall.GetPublicKey(id)])
  }

  /** How many times reading the current key asks for the subject. */
  function CurrentKeySubjectCalls(cached: Option<E.PublicKeyEntity>, passwords: map<string, seq<byte>>,
                                  publicKeys: map<string, PublicKey>, slot: string): nat
  {
    if cached.Some? then 0
    else match StoredKeyPairId(passwords, slot)
      case Failure(_) => 0
      case Success(id) => if id != "" && id in publicKeys then 1 else 0
  }

  /** Where Node's `Buffer.slice` puts an offset: a negative one counts from
      the end, and both are clamped to the buffer. */
  function SliceOffset(offset: int, length: nat): (r: nat)
    ensures r <= length
  {
    if offset < 0 then (if length + offset > 0 then length + offset else 0)
    else if offset < length then offset
    else length
  }

  /** The wrapped AES key and the encrypted payload of a sealed byte string:
      `slice(0, rsaKeySize)` and `slice(rsaKeySize)`. */
  function SplitSealed(payload: seq<byte>, rsaKeySize: int): (parts: (seq<byte>, seq<byte>))
    ensures parts.0 + parts.1 == payload
    ensures 0 <= rsaKeySize <= |payload| ==> |parts.0| == rsaKeySize
    ensures 0 <= |payload| <= rsaKeySize ==> parts.1 == []
  {
    var at := SliceOffset(rsaKeySize, |payload|);
    assert payload[..at] + payload[at..] == payload;
    (payload[..at], payload[at..])
  }

  /** Unsealing once a current key exists: split the decoded bytes, unwrap
      the AES key with the private key named in the input, decrypt the rest
      with it, decode the result as UTF-8. Each stage that fails gives its
      own DecodeError. */
  function UnsealPayload(input: E.UnsealInput, rsaKeySize: int,
                         privateDecrypt: (string, seq<byte>) -> CallResult<Option<seq<byte>>>,
                         symmetricDecrypt: (seq<byte>, seq<byte>) -> CallResult<seq<byte>>)
    : (r: Result<string, Error>)
    ensures r.Success? ==> UnwrapsKey(input, rsaKeySize, privateDecrypt)
    ensures r.Failure? ==> r.error in {DecodeError(CouldNotDecryptAesKey), DecodeError(CouldNotExtractAesKey),
                                       DecodeError(CouldNotUnseal), DecodeError(CouldNotDecodeUtf8)}
  {
    var parts := SplitSealed(Base64.Decode(input.encrypted), rsaKeySize);
    match privateDecrypt(input.keyId, parts.0)
    case Threw => Failure(DecodeError(CouldNotDecryptAesKey))
    case Returned(None) => Failure(DecodeError(CouldNotExtractAesKey))
    case Returned(Some(key)) =>
      match symmetricDecrypt(key, parts.1)
      case Threw => Failure(DecodeError(CouldNotUnseal))
      case Returned(plain) =>
        match Utf8.Decode(plain)
        case None => Failure(DecodeError(CouldNotDecodeUtf8))
        case Some(text) => Success(text)
  }

  /** The key-manager calls unsealing makes once a current key exists. */
  function UnsealCalls(input: E.UnsealInput, rsaKeySize: int,
                       privateDecrypt: (string, seq<byte>) -> CallResult<Option<seq<byte>>>)
    : seq<KeyManagerCall>
  {
    var parts := SplitSealed(Base64.Decode(input.encrypted), rsaKeySize);
    [KeyManagerCall.DecryptWithPrivateKey(input.keyId, parts.0)] +
    match privateDecrypt(input.keyId, parts.0)
    case Returned(Some(key)) => [KeyManagerCall.DecryptWithSymmetricKey(key, parts.1)]
    case _ => []
  }

  /** The private key returns an AES key for the wrapped part of `input`. */
  predicate UnwrapsKey(input: E.UnsealInput, rsaKeySize: int,
                       privateDecrypt: (string, seq<byte>) -> CallResult<Option<seq<byte>>>)
  {
    var unwrapped := privateDecrypt(input.keyId, SplitSealed(Base64.Decode(input.encrypted), rsaKeySize).0);
    unwrapped.Returned? && unwrapped.value.Some?
  }

  /** The AES key that unwrapping the head of the sealed payload yields. */
  function UnwrappedKey(input: E.UnsealInput, rsaKeySize: int,
                        privateDecrypt: (string, seq<byte>) -> CallResult<Option<seq<byte>>>): seq<byte>
    requires UnwrapsKey(input, rsaKeySize, privateDecrypt)
  {
    privateDecrypt(input.keyId, SplitSealed(Base64.Decode(input.encrypted), rsaKeySize).0).value.value
  }

  /** What unsealing returns, given what reading the current key gave. */
  function UnsealOutcome(current: Result<Option<E.PublicKeyEntity>, Error>, input: E.UnsealInput, rsaKeySize: int,
                         privateDecrypt: (string, seq<byte>) -> CallResult<Option<seq<byte>>>,
                         symmetricDecrypt: (seq<byte>, seq<byte>) -> CallResult<seq<byte>>)
    : Result<string, Error>
  {
    match current
    case Failure(e) => Failure(e)
    case Success(None) => Failure(FatalError(KeyNotGenerated))
    case Success(Some(_)) => UnsealPayload(input, rsaKeySize, privateDecrypt, symmetricDecrypt)
  }

  /** Overwrites a buffer with zeros: `new Uint8Array(buffer).fill(0)`. */
  method ZeroFill(buffer: array<byte>)
    modifies buffer
    ensures forall i :: 0 <= i < buffer.Length ==> buffer[i] == 0
  {
    var i := 0;
    while i < buffer.Length
      invariant 0 <= i <= buffer.Length
      invariant forall j :: 0 <= j < i ==> buffer[j] == 0
    {
      buffer[i] := 0;
      i := i + 1;
    }
  }

  /** A generated key pair id reads back from its password slot: a UUID's
      UTF-8 encoding decodes to itself, as it does not start with U+FEFF. */
  lemma {:induction false} GeneratedIdIsStored(passwords: map<string, seq<byte>>, slot: string, keyPairId: string)
    requires IsUuidText(keyPairId)
    ensures StoredKeyPairId(passwords[slot := Utf8.Encode(keyPairId)], slot) == Success(keyPairId)
  {
    assert IsLowerHex(keyPairId[0]);
    Utf8.RoundTrip(keyPairId);
  }

  /** After a successful generation, a worker that has not cached the key
      (a new worker over the same key manager) loads the very same key,
      reading the slot and the public key once each and the subject once. */
  lemma ReloadAfterGenerate(passwords: map<string, seq<byte>>, publicKeys: map<string, PublicKey>, slot: string,
                            keyPairId: string, generated: Option<PublicKey>, namespace: string, subject: Option<string>)
    requires IsUuidText(keyPairId)
    requires GenerateOutcome(keyPairId, generated, namespace, subject).Success?
    ensures
      var passwords' := passwords[slot := Utf8.Encode(keyPairId)];
      var publicKeys' := AfterKeyGeneration(publicKeys, keyPairId, generated);
      && CurrentKeyOutcome(None, passwords', publicKeys', slot, namespace, subject)
         == Success(Some(GenerateOutcome(keyPairId, generated, namespace, subject).value))
      && CurrentKeyCalls(None, passwords', slot) == [KeyManagerCall.GetPassword(slot), KeyManagerCall.GetPublicKey(keyPairId)]
      && CurrentKeySubjectCalls(None, passwords', publicKeys', slot) == 1
  {
    GeneratedIdIsStored(passwords, slot, keyPairId);
  }

  /** A loaded key is the stored key pair's: its id is the stored id, its
      bytes are the key manager's public key, its key ring the subject's;
      loading it read the slot, the public key and the subject once each. */
  lemma LoadedKey(passwords: map<string, seq<byte>>, publicKeys: map<string, PublicKey>, slot: string,
                  namespace: string, subject: Option<string>, key: E.PublicKeyEntity)
    requires CurrentKeyOutcome(None, passwords, publicKeys, slot, namespace, subject) == Success(Some(key))
    ensures StoredKeyPairId(passwords, slot) == Success(key.keyId)
    ensures key.keyId != "" && key.keyId in publicKeys
    ensures key.keyData == Base64.Encode(publicKeys[key.keyId].keyData)
    ensures Base64.Decode(key.keyData) == publicKeys[key.keyId].keyData
    ensures subject.Some? && subject.value != "" && key.keyRingId == KeyRingId(namespace, subject.value)
    ensures CurrentKeyCalls(None, passwords, slot) == [KeyManagerCall.GetPassword(slot), KeyManagerCall.GetPublicKey(key.keyId)]
    ensures CurrentKeySubjectCalls(None, passwords, publicKeys, slot) == 1
  {
  }

  /** With no key pair id stored there is no current key, and only the
      password slot is read. */
  lemma NoStoredKeyPair(passwords: map<string, seq<byte>>, publicKeys: map<string, PublicKey>, slot: string,
                        namespace: string, subject: Option<string>)
    requires slot !in passwords || passwords[slot] == [] || passwords[slot] == Utf8.Bom
    ensures CurrentKeyOutcome(None, passwords, publicKeys, slot, namespace, subject) == Success(None)
    ensures CurrentKeyCalls(None, passwords, slot) == [KeyManagerCall.GetPassword(slot)]
    ensures CurrentKeySubjectCalls(None, passwords, publicKeys, slot) == 0
  {
  }

  /** A stored key pair id for which the key manager holds no public key
      gives no current key, after reading the slot and asking for that
      public key, and without asking for the subject. */
  lemma NoPublicKeyForStoredId(passwords: map<string, seq<byte>>, publicKeys: map<string, PublicKey>, slot: string,
                               namespace: string, subject: Option<string>, id: string)
    requires StoredKeyPairId(passwords, slot) == Success(id) && id != "" && id !in publicKeys
    ensures CurrentKeyOutcome(None, passwords, publicKeys, slot, namespace, subject) == Success(None)
    ensures CurrentKeyCalls(None, passwords, slot) == [KeyManagerCall.GetPassword(slot), KeyManagerCall.GetPublicKey(id)]
    ensures CurrentKeySubjectCalls(None, passwords, publicKeys, slot) == 0
  {
  }

  /** A key pair saved earlier, whose id was stored as UTF-8 and whose
      public key the key manager holds, is loaded for a signed-in user: the
      entity carries that id, the subject's key ring, the converted format
      and the key's base64 text, after reading the slot, the public key and
      the subject once each. */
  lemma {:induction false} PreviouslySavedKey(passwords: map<string, seq<byte>>, publicKeys: map<string, PublicKey>,
                                              slot: string, namespace: string, subject: string, id: string)
    requires id != [] && id[0] != Utf8.ByteOrderMark
    requires slot in passwords && passwords[slot] == Utf8.Encode(id) && id in publicKeys
    requires subject != "" && Format.TransformKeyManager(publicKeys[id].keyFormat).Success?
    ensures CurrentKeyOutcome(None, passwords, publicKeys, slot, namespace, Some(subject))
            == Success(Some(E.PublicKeyEntity(id, KeyRingId(namespace, subject),
                                              Format.TransformKeyManager(publicKeys[id].keyFormat).value,
                                              Base64.Encode(publicKeys[id].keyData))))
    ensures CurrentKeyCalls(None, passwords, slot) == [KeyManagerCall.GetPassword(slot), KeyManagerCall.GetPublicKey(id)]
    ensures CurrentKeySubjectCalls(None, passwords, publicKeys, slot) == 1
  {
    Utf8.RoundTrip(id);
  }

  /** Reading the current key only reads: it never stores a password or
      generates a key pair. */
  lemma ReadingNeverGenerates(cached: Option<E.PublicKeyEntity>, passwords: map<string, seq<byte>>, slot: string)
    ensures forall call <- CurrentKeyCalls(cached, passwords, slot) :: call.GetPassword? || call.GetPublicKey?
  {
  }

  /** Each stage of unsealing that fails has its own error, and unsealing
      fails with nothing but these. */
  lemma UnsealErrors(input: E.UnsealInput, rsaKeySize: int,
                     privateDecrypt: (string, seq<byte>) -> CallResult<Option<seq<byte>>>,
                     symmetricDecrypt: (seq<byte>, seq<byte>) -> CallResult<seq<byte>>)
    ensures
      var parts := SplitSealed(Base64.Decode(input.encrypted), rsaKeySize);
      var unwrapped := privateDecrypt(input.keyId, parts.0);
      var r := UnsealPayload(input, rsaKeySize, privateDecrypt, symmetricDecrypt);
      && (r == Failure(DecodeError(CouldNotDecryptAesKey)) <==> unwrapped.Threw?)
      && (r == Failure(DecodeError(CouldNotExtractAesKey)) <==> unwrapped == Returned(None))
      && (r == Failure(DecodeError(CouldNotUnseal)) <==>
            unwrapped.Returned? && unwrapped.value.Some? && symmetricDecrypt(unwrapped.value.value, parts.1).Threw?)
      && (r == Failure(DecodeError(CouldNotDecodeUtf8)) <==>
            unwrapped.Returned? && unwrapped.value.Some? && symmetricDecrypt(unwrapped.value.value, parts.1).Returned?
            && Utf8.Decode(symmetricDecrypt(unwrapped.value.value, parts.1).value).None?)
      && (r.Failure? ==> r.error.DecodeError?)
  {
  }

  /** What unsealing returns is the exact decoding of what the symmetric
      decryption produced: it encodes back to those bytes, less a leading
      byte order mark. */
  lemma UnsealedTextIsPlaintext(input: E.UnsealInput, rsaKeySize: int,
                                privateDecrypt: (string, seq<byte>) -> CallResult<Option<seq<byte>>>,
                                symmetricDecrypt: (seq<byte>, seq<byte>) -> CallResult<seq<byte>>)
    requires UnsealPayload(input, rsaKeySize, privateDecrypt, symmetricDecrypt).Success?
    ensures
      var parts := SplitSealed(Base64.Decode(input.encrypted), rsaKeySize);
      var unwrapped := privateDecrypt(input.keyId, parts.0);
      && unwrapped.Returned? && unwrapped.value.Some?
      && symmetricDecrypt(unwrapped.value.value, parts.1).Returned?
      && Utf8.Encode(UnsealPayload(input, rsaKeySize, privateDecrypt, symmetricDecrypt).value)
         == Utf8.StripBom(symmetricDecrypt(unwrapped.value.value, parts.1).value)
  {
    var parts := SplitSealed(Base64.Decode(input.encrypted), rsaKeySize);
    var key := privateDecrypt(input.keyId, parts.0).value.value;
  }

  /** The sealed layout: a string sealed as the base64 of an RSA block of
      `rsaKeySize` bytes wrapping an AES key, followed by the text's UTF-8
      encrypted with that key, unseals to the text; the private key sees
      exactly the block and the AES key exactly the rest. */
  lemma {:induction false} UnsealsWhatWasSealed(text: string, wrappedKey: seq<byte>, encryptedText: seq<byte>,
                                                aesKey: seq<byte>, keyId: string, algorithm: string,
                                                privateDecrypt: (string, seq<byte>) -> CallResult<Option<seq<byte>>>,
                                                symmetricDecrypt: (seq<byte>, seq<byte>) -> CallResult<seq<byte>>)
    requires privateDecrypt(keyId, wrappedKey) == Returned(Some(aesKey))
    requires symmetricDecrypt(aesKey, encryptedText) == Returned(Utf8.Encode(text))
    requires text == [] || text[0] != Utf8.ByteOrderMark
    ensures
      var input := E.UnsealInput(Base64.Encode(wrappedKey + encryptedText), keyId, algorithm);
      && UnsealPayload(input, |wrappedKey|, privateDecrypt, symmetricDecrypt) == Success(text)
      && UnsealCalls(input, |wrappedKey|, privateDecrypt)
         == [KeyManagerCall.DecryptWithPrivateKey(keyId, wrappedKey), KeyManagerCall.DecryptWithSymmetricKey(aesKey, encryptedText)]
  {
    var payload := wrappedKey + encryptedText;
    Base64.RoundTrip(payload);
    SealedSplit(wrappedKey, encryptedText);
    Utf8.RoundTrip(text);
  }

  /** The split point of a sealed payload is the RSA block size. */
  lemma SealedSplit(wrappedKey: seq<byte>, encryptedText: seq<byte>)
    ensures SplitSealed(wrappedKey + encryptedText, |wrappedKey|) == (wrappedKey, encryptedText)
  {
    var payload := wrappedKey + encryptedText;
    assert payload[..|wrappedKey|] == wrappedKey;
    assert payload[|wrappedKey|..] == encryptedText;
  }

  /** A payload no longer than the block is taken whole for the wrapped key,
      and the AES key then sees no data. */
  lemma ShortPayload(payload: seq<byte>, rsaKeySize: int)
    requires |payload| <= rsaKeySize
    ensures SplitSealed(payload, rsaKeySize) == (payload, [])
  {
    assert payload[..|payload|] == payload;
  }

  class DefaultKeyWorker {
    /** The cached current key; once set it is never cleared. */
    var currentPublicKey: Option<E.PublicKeyEntity>
    const keyManager: SudoKeyManager
    const sudoUserClient: SudoUserClient
    /** The password slot the current key pair id is stored in. */
    const keyPairIdKey: string
    /** The namespace of key ring ids. */
    const keyRingServiceName: string
    /** Where a sealed payload is split: the size of an RSA block. */
    const rsaKeySize: int

    /** A cached key has an id and lies in this worker's key ring namespace,
        so a key answered from the cache has the shape of a loaded one. */
    ghost predicate Valid()
      reads this
    {
      currentPublicKey.Some? ==>
        currentPublicKey.value.keyId != "" && InNamespace(currentPublicKey.value.keyRingId, keyRingServiceName)
    }

    constructor (keyManager: SudoKeyManager, sudoUserClient: SudoUserClient, keyPairIdKey: string,
                 keyRingServiceName: string, rsaKeySize: Option<int>)
      ensures Valid() && currentPublicKey == None
      ensures this.keyManager == keyManager && this.sudoUserClient == sudoUserClient
      ensures this.keyPairIdKey == keyPairIdKey && this.keyRingServiceName == keyRingServiceName
      ensures this.rsaKeySize == EffectiveRsaKeySize(rsaKeySize)
      ensures rsaKeySize.None? || rsaKeySize == Some(0) ==> this.rsaKeySize == DefaultRsaKeySize
    {
      this.keyManager := keyManager;
      this.sudoUserClient := sudoUserClient;
      this.keyPairIdKey := keyPairIdKey;
      this.keyRingServiceName := keyRingServiceName;
      this.rsaKeySize := EffectiveRsaKeySize(rsaKeySize);
      currentPublicKey := None;
    }

    /** Generates a key pair under the fresh id `keyPairId` (what
        `uuid.v4()` returned), stores the id, and caches and returns the
        new key. */
    method GenerateKeyPair(keyPairId: string) returns (r: Result<E.PublicKeyEntity, Error>)
      requires Valid() && IsUuidText(keyPairId)
      modifies this`currentPublicKey, keyManager`passwords, keyManager`publicKeys, keyManager`calls,
               sudoUserClient`getSubjectCalls
      ensures Valid()
      ensures keyManager.passwords == old(keyManager.passwords)[keyPairIdKey := Utf8.Encode(keyPairId)]
      ensures keyManager.publicKeys == AfterKeyGeneration(old(keyManager.publicKeys), keyPairId, keyManager.keyGen(keyPairId))
      ensures keyManager.calls == old(keyManager.calls) + [KeyManagerCall.AddPassword(Utf8.Encode(keyPairId), keyPairIdKey),
                                                           KeyManagerCall.GenerateKeyPair(keyPairId),
                                                           KeyManagerCall.GetPublicKey(keyPairId)]
      ensures sudoUserClient.getSubjectCalls ==
              old(sudoUserClient.getSubjectCalls) + (if keyManager.keyGen(keyPairId).Some? then 1 else 0)
      ensures r == GenerateOutcome(keyPairId, keyManager.keyGen(keyPairId), keyRingServiceName, sudoUserClient.subject)
      ensures currentPublicKey == if r.Success? then Some(r.value) else old(currentPublicKey)
    {
      keyManager.AddPassword(Utf8.Encode(keyPairId), keyPairIdKey);
      keyManager.GenerateKeyPair(keyPairId);
      var publicKey := keyManager.GetPublicKey(keyPairId);
      if publicKey.None? {
        return Failure(FatalError(CouldNotGenerate));
      }
      var subject := sudoUserClient.GetSubject();
      if subject.None? || subject.value == "" {
        return Failure(NotSignedInError);
      }
      var keyRingId := KeyRingId(keyRingServiceName, subject.value);
      r := Transformer.TransformKeyManager(publicKey.value, keyPairId, keyRingId);
      if r.Success? {
        currentPublicKey := Some(r.value);
      }
    }

    /** The cached key, or else the key pair whose id is stored, loaded and
        cached; never generates a key. */
    method GetCurrentPublicKey() returns (r: Result<Option<E.PublicKeyEntity>, Error>)
      requires Valid()
      modifies this`currentPublicKey, keyManager`calls, sudoUserClient`getSubjectCalls
      ensures Valid()
      ensures r == CurrentKeyOutcome(old(currentPublicKey), keyManager.passwords, keyManager.publicKeys,
                                     keyPairIdKey, keyRingServiceName, sudoUserClient.subject)
      ensures keyManager.calls == old(keyManager.calls) + CurrentKeyCalls(old(currentPublicKey), keyManager.passwords, keyPairIdKey)
      ensures sudoUserClient.getSubjectCalls == old(sudoUserClient.getSubjectCalls) +
              CurrentKeySubjectCalls(old(currentPublicKey), keyManager.passwords, keyManager.publicKeys, keyPairIdKey)
      ensures currentPublicKey == if r.Success? && r.value.Some? then r.value else old(currentPublicKey)
      ensures r.Success? && r.value.Some? ==>
        r.value.value.keyId != "" && InNamespace(r.value.value.keyRingId, keyRingServiceName)
    {
      if currentPublicKey.Some? {
        return Success(currentPublicKey);
      }
      var keyPairIdBits := keyManager.GetPassword(keyPairIdKey);
      var keyPairId: string;
      if keyPairIdBits.None? {
        keyPairId := "";
      } else {
        var decoded := Utf8.Decode(keyPairIdBits.value);
        if decoded.None? {
          return Failure(EncodingTypeError);
        }
        keyPairId := decoded.value;
      }
      assert StoredKeyPairId(keyManager.passwords, keyPairIdKey) == Success(keyPairId);
      if keyPairId == "" {
        return Success(None);
      }
      r := LoadKeyPair(keyPairId);
    }

    /** Loads the key pair whose id was read from the password slot, and
        caches its entity. */
    method LoadKeyPair(keyPairId: string) returns (r: Result<Option<E.PublicKeyEntity>, Error>)
      requires Valid() && keyPairId != ""
      modifies this`currentPublicKey, keyManager`calls, sudoUserClient`getSubjectCalls
      ensures Valid()
      ensures r == LoadOutcome(keyPairId, keyManager.publicKeys, keyRingServiceName, sudoUserClient.subject)
      ensures keyManager.calls == old(keyManager.calls) + [KeyManagerCall.GetPublicKey(keyPairId)]
      ensures sudoUserClient.getSubjectCalls == old(sudoUserClient.getSubjectCalls) +
              (if keyPairId in keyManager.publicKeys then 1 else 0)
      ensures currentPublicKey == if r.Success? && r.value.Some? then r.value else old(currentPublicKey)
    {
      var publicKey := keyManager.GetPublicKey(keyPairId);
      if publicKey.None? {
        return Success(None);
      }
      var subject := sudoUserClient.GetSubject();
      if subject.None? || subject.value == "" {
        return Failure(NotSignedInError);
      }
      var keyRingId := KeyRingId(keyRingServiceName, subject.value);
      var key := Transformer.TransformKeyManager(publicKey.value, keyPairId, keyRingId);
      if key.Failure? {
        return Failure(key.error);
      }
      currentPublicKey := Some(key.value);
      r := Success(currentPublicKey);
    }

    /** Unseals `input` with the private key it names. Fails with
        FatalError('Key not generated') and no decryption when there is no
        current key. */
    method UnsealString(input: E.UnsealInput) returns (r: Result<string, Error>, ghost cipherKey: Option<array<byte>>)
      requires Valid()
      modifies this`currentPublicKey, keyManager`calls, keyManager`keyBuffers, sudoUserClient`getSubjectCalls
      ensures Valid()
      ensures
        var current := CurrentKeyOutcome(old(currentPublicKey), keyManager.passwords, keyManager.publicKeys,
                                         keyPairIdKey, keyRingServiceName, sudoUserClient.subject);
        var found := current.Success? && current.value.Some?;
        && r == UnsealOutcome(current, input, rsaKeySize, keyManager.privateDecrypt, keyManager.symmetricDecrypt)
        && keyManager.calls == old(keyManager.calls) + CurrentKeyCalls(old(currentPublicKey), keyManager.passwords, keyPairIdKey)
                               + (if found then UnsealCalls(input, rsaKeySize, keyManager.privateDecrypt) else [])
        && sudoUserClient.getSubjectCalls == old(sudoUserClient.getSubjectCalls) +
           CurrentKeySubjectCalls(old(currentPublicKey), keyManager.passwords, keyManager.publicKeys, keyPairIdKey)
        && currentPublicKey == (if found then current.value else old(currentPublicKey))
        && (cipherKey.Some? <==> found && UnwrapsKey(input, rsaKeySize, keyManager.privateDecrypt))
      ensures cipherKey.None? ==> keyManager.keyBuffers == old(keyManager.keyBuffers)
      ensures cipherKey.Some? ==>
        && fresh(cipherKey.value)
        && keyManager.keyBuffers == old(keyManager.keyBuffers) + [HandedOut(cipherKey.value), UsedAsKey(cipherKey.value)]
        && cipherKey.value.Length == |UnwrappedKey(input, rsaKeySize, keyManager.privateDecrypt)|
        && Zeroed(cipherKey.value)
    {
      cipherKey := None;
      var current := GetCurrentPublicKey();
      if current.Failure? {
        return Failure(current.error), cipherKey;
      }
      if current.value.None? {
        return Failure(FatalError(KeyNotGenerated)), cipherKey;
      }
      r, cipherKey := UnsealWithPrivateKey(input);
    }

    /** The stages of unsealing once a current key exists. The unwrapped
        AES key comes back from the key manager in a buffer this method owns
        (`cipherKey`); that buffer is zeroed once the payload has been
        decrypted, whether decryption succeeded or threw. */
    method UnsealWithPrivateKey(input: E.UnsealInput) returns (r: Result<string, Error>, ghost cipherKey: Option<array<byte>>)
      modifies keyManager`calls, keyManager`keyBuffers
      ensures r == UnsealPayload(input, rsaKeySize, keyManager.privateDecrypt, keyManager.symmetricDecrypt)
      ensures keyManager.calls == old(keyManager.calls) + UnsealCalls(input, rsaKeySize, keyManager.privateDecrypt)
      ensures cipherKey.Some? <==> UnwrapsKey(input, rsaKeySize, keyManager.privateDecrypt)
      ensures cipherKey.None? ==> keyManager.keyBuffers == old(keyManager.keyBuffers)
      ensures cipherKey.Some? ==>
        && fresh(cipherKey.value)
        && keyManager.keyBuffers == old(keyManager.keyBuffers) + [HandedOut(cipherKey.value), UsedAsKey(cipherKey.value)]
        && cipherKey.value.Length == |UnwrappedKey(input, rsaKeySize, keyManager.privateDecrypt)|
        && Zeroed(cipherKey.value)
    {
      cipherKey := None;
      var encrypted := Base64.Decode(input.encrypted);
      var parts := SplitSealed(encrypted, rsaKeySize);
      var unwrapped := keyManager.DecryptWithPrivateKey(input.keyId, parts.0);
      if unwrapped.Threw? {
        return Failure(DecodeError(CouldNotDecryptAesKey)), cipherKey;
      }
      if unwrapped.value.None? {
        return Failure(DecodeError(CouldNotExtractAesKey)), cipherKey;
      }
      var key := unwrapped.value.value;
      cipherKey := Some(key);
      var unsealed := keyManager.DecryptWithSymmetricKey(key, parts.1);
      ZeroFill(key);
      if unsealed.Threw? {
        return Failure(DecodeError(CouldNotUnseal)), cipherKey;
      }
      var text := Utf8.Decode(unsealed.value);
      if text.None? {
        return Failure(DecodeError(CouldNotDecodeUtf8)), cipherKey;
      }
      r := Success(text.value);
    }
  }

  /** Generating a key and then asking for the current one: the second call
      is answered from the cache, so across both the key manager is asked
      for the public key once and the user client for the subject once. */
  method GenerateThenGetCurrent(worker: DefaultKeyWorker, keyPairId: string)
    returns (generated: Result<E.PublicKeyEntity, Error>, current: Result<Option<E.PublicKeyEntity>, Error>)
    requires worker.Valid() && IsUuidText(keyPairId)
    modifies worker`currentPublicKey, worker.keyManager`passwords, worker.keyManager`publicKeys,
             worker.keyManager`calls, worker.sudoUserClient`getSubjectCalls
    ensures worker.Valid()
    ensures generated.Success? ==>
      && current == Success(Some(generated.value))
      && worker.keyManager.calls == old(worker.keyManager.calls) +
           [KeyManagerCall.AddPassword(Utf8.Encode(keyPairId), worker.keyPairIdKey),
            KeyManagerCall.GenerateKeyPair(keyPairId),
            KeyManagerCall.GetPublicKey(keyPairId)]
      && worker.sudoUserClient.getSubjectCalls == old(worker.sudoUserClient.getSubjectCalls) + 1
  {
    generated := worker.GenerateKeyPair(keyPairId);
    current := worker.GetCurrentPublicKey();
  }
}
