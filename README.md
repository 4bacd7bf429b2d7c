# Sudo key repository — a Dafny model

This project models the core of a TypeScript SDK. The SDK keeps one device key pair and registers its public key with a key service. It unseals strings that were sealed for that key.

- **Key worker** (`DefaultKeyWorker`). It keeps one mutable cache slot, the current public key.
  - `generateKeyPair` creates a key pair under a fresh id, stores the id in a password slot, caches the key and returns it.
  - `getCurrentPublicKey` is a read-through cache. It returns the cached key, or else loads the key from the stored id. It never creates a key.
  - `unsealString` base64-decodes the sealed string and splits the bytes at the RSA block size. It then unwraps the AES key with the private key named by the input, decrypts the rest with that AES key, zero-fills the key buffer, and strictly decodes the result as UTF-8. Each failing stage has its own `DecodeError` message.
- **Repository** (`DefaultSudoKeyRepository`).
  - It delegates key generation, lookup and unsealing to the key worker.
  - It registers keys with the fixed algorithm `RSAEncryptionOAEPAESCBC`.
  - It looks up a key by id with the `network-only` policy.
  - `isPublicKeyRegistered` scans the paginated key ring, following continuation tokens.
- **Transformers**. These map key formats and key records between three shapes: the GraphQL wire record, the SDK entity, and the key manager's record.

The collaborators are classes with abstract state:
- The key manager holds a password map and a public-key map. Its cryptography is given as functions fixed at construction.
- The user client holds the signed-in subject.
- The API client holds a finite script of key-ring answers and functions for the other two operations.

Every key-manager and API-client call is appended to a ghost log, and the user client counts its `getSubject` calls. The key manager also logs each key buffer it hands out and each buffer it is given back as a symmetric key. This lets postconditions state which calls an operation makes, with which arguments, and how many times. The platform codecs the core relies on are modelled too: Node's `Buffer` base64 and the strict `TextEncoder`/`TextDecoder` UTF-8. Their round trips are proved.

Files:
- `wrappers.dfy` and `bytes.dfy`: Option/Result and the byte type.
- `base64.dfy` and `utf8.dfy`: the two codecs.
- `sudo_common.dfy`, `graphql_types.dfy` and `public_key_entity.dfy`: the data model.
- `key_entity_format_transformer.dfy` and `key_entity_transformer.dfy`: the transformers.
- `collaborators.dfy`: the collaborators.
- `key_worker.dfy`: the key worker.
- `sudo_key_repository.dfy`: the repository.

Two details of the code that the model keeps:
- **Empty unwrap result.** Only `undefined` counts as a missing unwrapped key (src/private/workers/keyWorker.ts:134-136). A zero-length key buffer is truthy, so it reaches the symmetric decryption.
- **Which failures are reclassified.** Only the two decryptions and the final UTF-8 decode are caught and turned into `DecodeError`s. Any other collaborator failure reaches the caller unchanged. In particular, a stored key pair id that is not valid UTF-8 makes the strict decoder in `getCurrentPublicKey` throw a `TypeError`. The model returns it as `EncodingTypeError`.

## Model

| member | source | states |
|---|---|---|
| KeyEntityFormatTransformer.TransformGraphQL | src/private/transformers/keyEntityFormatTransformer.ts:9-19 | SPKI exactly for Spki; RSAPublicKey exactly for RsaPublicKey or a missing format; IllegalArgumentError naming the value exactly for any other wire value |
| KeyEntityFormatTransformer.TransformEntity | src/private/transformers/keyEntityFormatTransformer.ts:21-30 | never yields an unrecognised wire value; Spki exactly for SPKI |
| KeyEntityFormatTransformer.TransformKeyManager | src/private/transformers/keyEntityFormatTransformer.ts:32-44 | SPKI exactly for SPKI, RSAPublicKey exactly for RSAPublicKey, IllegalArgumentError naming the value otherwise |
| KeyEntityFormatTransformer.EntityRoundTrip | src/private/transformers/keyEntityFormatTransformer.ts:9-30 | an entity format sent to the wire comes back unchanged |
| KeyEntityFormatTransformer.GraphQLRoundTrip | src/private/transformers/keyEntityFormatTransformer.ts:9-30 | a known wire format survives entity and back; a missing one comes back as RsaPublicKey |
| KeyEntityTransformer.TransformGraphQL | src/private/transformers/keyEntityTransformer.ts:8-17 | keyId, keyRingId and keyData copied unchanged, format from the format transformer; succeeds exactly when the format does, with its error otherwise |
| KeyEntityTransformer.TransformKeyManager | src/private/transformers/keyEntityTransformer.ts:19-32 | keyId and keyRingId from the parameters; keyData is the padded RFC 4648 base64 text of the raw key bytes, which decodes back to them; the format is converted, and its error passes through |
| KeyEntityTransformer.EchoRoundTrip | src/private/transformers/keyEntityTransformer.ts:8-17 | a wire record built from an entity's fields and its wire format converts back to the entity |
| Base64.Encode | src/private/transformers/keyEntityTransformer.ts:30 | the padded encoding has 4 characters per started 3-byte group |
| Base64.Decode | src/private/workers/keyWorker.ts:118 | Node's lenient decoder never yields more bytes than it reads characters; Base64.RoundTrip shows it inverts the encoder |
| Base64.RoundTrip | src/private/transformers/keyEntityTransformer.ts:30 | Node's lenient decoder inverts the RFC 4648 encoder on every byte string |
| Utf8.Encode | src/private/workers/keyWorker.ts:47 | between one and four bytes per character |
| Utf8.RoundTrip | src/private/workers/keyWorker.ts:47-48 | strict decoding of an encoding gives the string back, minus a leading U+FEFF, which the decoder drops as a byte order mark |
| Utf8.Decode | src/private/workers/keyWorker.ts:83-85 | whatever the strict decoder accepts is the exact encoding of its result, less a leading BOM; it fails where the fatal decoder throws |
| KeyWorker.KeyEntityFor | src/private/workers/keyWorker.ts:56-68 | NotSignedInError for an absent or empty subject; for a signed-in subject it succeeds exactly when the key format converts, with the format's error otherwise; a key has the given keyId, keyRingId namespace + "." + subject, the converted format and the base64 text of the key bytes |
| KeyWorker.EffectiveRsaKeySize | src/private/workers/keyWorker.ts:40-42 | the block size is never zero: a truthy requested size is kept, undefined or 0 gives 256 |
| KeyWorker.StoredKeyPairId | src/private/workers/keyWorker.ts:82-85 | an absent slot reads as the empty id; a stored id is exactly the text whose encoding is the stored bytes less a BOM, and it is empty exactly when those bytes are; bytes that are not UTF-8 give EncodingTypeError |
| KeyWorker.CurrentKeyOutcome | src/private/workers/keyWorker.ts:74-110 | a cached key is returned as it is; otherwise: EncodingTypeError when the slot is not UTF-8; undefined when the stored id is empty or has no public key; NotSignedInError for a held key without a subject; a loaded key when signed in and the format converts, else the format error; a loaded key carries the stored id and the subject's key ring |
| KeyWorker.SliceOffset | src/private/workers/keyWorker.ts:120-121 | the clamped slice offset lies within the buffer |
| KeyWorker.SplitSealed | src/private/workers/keyWorker.ts:120-121 | the wrapped key and the rest concatenate to the payload; the wrapped key has rsaKeySize bytes when the payload is long enough; a payload no longer than that leaves an empty rest |
| KeyWorker.UnsealPayload | src/private/workers/keyWorker.ts:118-154 | a successful unseal means the private key unwrapped an AES key; every failure is one of the four DecodeErrors of the stages |
| KeyWorker.ZeroFill | src/private/workers/keyWorker.ts:148 | every byte of the buffer is zero afterwards |
| KeyWorker.GeneratedIdIsStored | src/private/workers/keyWorker.ts:46-48 | a UUID stored as UTF-8 in the password slot reads back as itself through the strict decoder |
| KeyWorker.ReloadAfterGenerate | src/private/workers/keyWorker.ts:45-110 | after a successful generation, an uncached load finds the same key with one password read, one public-key read and one subject read |
| KeyWorker.LoadedKey | src/private/workers/keyWorker.ts:82-109 | a loaded key's keyId is the stored id, which is non-empty and held by the key manager; its keyData is the base64 text of that public key and its key ring is the subject's; calls are getPassword, getPublicKey(id) and one getSubject |
| KeyWorker.NoStoredKeyPair | src/private/workers/keyWorker.ts:82-88 | an absent or empty stored id (or a bare BOM) gives undefined after only getPassword, with no getPublicKey and no getSubject |
| KeyWorker.NoPublicKeyForStoredId | src/private/workers/keyWorker.ts:90-93 | a stored id without a public key gives undefined after getPassword and getPublicKey(id), with no getSubject |
| KeyWorker.PreviouslySavedKey | test/unit/private/workers/keyWorker.test.ts:104-122 | a key pair saved earlier, with its id stored as UTF-8, loads for a signed-in user as the entity with that id, the subject's key ring, the converted format and the key's base64 text; one getPassword, one getPublicKey and one getSubject |
| KeyWorker.ReadingNeverGenerates | src/private/workers/keyWorker.ts:74-110 | reading the current key makes only getPassword and getPublicKey calls |
| KeyWorker.UnsealErrors | src/private/workers/keyWorker.ts:124-154 | each of the four DecodeError messages occurs exactly when its stage fails (decrypt throws, unwrap absent, symmetric decrypt throws, invalid UTF-8); no other error arises there |
| KeyWorker.UnsealedTextIsPlaintext | src/private/workers/keyWorker.ts:137-151 | a successful unseal means both decryptions returned, and its text encodes back to the decrypted bytes less a leading BOM |
| KeyWorker.UnsealsWhatWasSealed | src/private/workers/keyWorker.ts:118-151 | base64 of an RSA block followed by AES ciphertext of a text unseals to that text; the private key sees exactly the block, keyed by input.keyId, and the AES key exactly the rest |
| KeyWorker.SealedSplit | src/private/workers/keyWorker.ts:120-121 | the split point is the block size: block + rest splits back into block and rest |
| KeyWorker.ShortPayload | src/private/workers/keyWorker.ts:120-121 | a payload no longer than the block is all wrapped key and leaves no data |
| KeyWorker.DefaultKeyWorker.constructor | src/private/workers/keyWorker.ts:29-43 | empty cache; the RSA key size is 256 unless a truthy size is given |
| KeyWorker.DefaultKeyWorker.GenerateKeyPair | src/private/workers/keyWorker.ts:45-72 | one id is stored under keyPairIdKey, generated, looked up and returned as keyId; FatalError('Could not generate public key pair') when no public key; NotSignedInError without a subject; the cache is the returned key on success and untouched otherwise; exact call log |
| KeyWorker.DefaultKeyWorker.GetCurrentPublicKey | src/private/workers/keyWorker.ts:74-110 | the result and calls are those of the read-through cache; a cached key is returned with no calls; the cache is set only by a load; any key returned has a non-empty id and a key ring in the worker's namespace |
| KeyWorker.DefaultKeyWorker.LoadKeyPair | src/private/workers/keyWorker.ts:90-109 | the load stage: one getPublicKey(id), one getSubject exactly when a public key is held, the load outcome, and the cache set only to a loaded key |
| KeyWorker.DefaultKeyWorker.UnsealString | src/private/workers/keyWorker.ts:112-155 | FatalError('Key not generated') and no decrypt calls without a current key; otherwise the staged unseal and its exact calls; a key buffer is handed out exactly when unwrapping returned a key, it is the buffer given back as the symmetric key, it has the unwrapped key's length, and it is all zeros at the end on every path |
| KeyWorker.DefaultKeyWorker.UnsealWithPrivateKey | src/private/workers/keyWorker.ts:118-154 | the unseal result and the exact decrypt calls are UnsealPayload and UnsealCalls for the given private key; the key manager hands out a buffer exactly when unwrapping yields a key; that same buffer is the symmetric key, has the unwrapped key's length and is all zeros afterwards |
| KeyWorker.GenerateThenGetCurrent | test/unit/private/workers/keyWorker.test.ts:86-102 | after a successful generate, getCurrentPublicKey returns the same key; across both, one getPublicKey and one getSubject |
| SudoKeyRepository.ScanQueriesUniform | src/public/sudoKeyRepository.ts:165-174 | every key-ring query uses the key's keyRingId, the derived fetch policy and no limit, with the tokens in order |
| SudoKeyRepository.RegistrationInput | src/public/sudoKeyRepository.ts:150-156 | keyId, keyRingId and keyData sent as they are, the constant algorithm, and a wire format that converts back to the entity's |
| SudoKeyRepository.Scan | src/public/sudoKeyRepository.ts:164-182 | the scan's first query carries the starting token; its lemmas below give the pages visited, the result and the later tokens |
| SudoKeyRepository.ScanVisits | src/public/sudoKeyRepository.ts:164-182 | every visited page but the last has no match and a next token; the last decides the result; at most one query past the end of the answers |
| SudoKeyRepository.ScanFoundIff | src/public/sudoKeyRepository.ts:175-178 | the scan finds the key exactly when some visited page lists it |
| SudoKeyRepository.ScanStopsAtLastPage | src/public/sudoKeyRepository.ts:179-182 | a scan without a match ends at a page with no nextToken or at an undefined answer |
| SudoKeyRepository.ScanTokens | src/public/sudoKeyRepository.ts:164-179 | the first query of a scan carries the starting token (none from the repository); the i-th later one carries the nextToken of the page answered just before it |
| SudoKeyRepository.UndefinedPageEndsScan | src/public/sudoKeyRepository.ts:175-179 | an undefined answer gives false after that one query |
| SudoKeyRepository.ThreePagesWithoutMatch | test/unit/public/sudoKeyRepository.test.ts:250-310 | three chained pages with no match take exactly three queries with tokens none, next-token-1, next-token-2, and give false |
| SudoKeyRepository.RegistrationRoundTrip | src/public/sudoKeyRepository.ts:147-158 | a service echoing the registration input gives back the registered key |
| SudoKeyRepository.DefaultSudoKeyRepository.constructor | src/public/sudoKeyRepository.ts:118-138 | a fresh key worker over the given key manager, user client, slot, namespace and key size; the given API client |
| SudoKeyRepository.DefaultSudoKeyRepository.Generate | src/public/sudoKeyRepository.ts:139-141 | exactly the key worker's generation: result, cache, stored id, keys and calls |
| SudoKeyRepository.DefaultSudoKeyRepository.GetCurrentPublicKey | src/public/sudoKeyRepository.ts:143-145 | exactly the key worker's read-through result, cache and calls |
| SudoKeyRepository.DefaultSudoKeyRepository.UnsealString | src/public/sudoKeyRepository.ts:193-195 | exactly the key worker's unseal result, cache and calls; a key buffer is handed out exactly when the worker unwraps a key, and it is used as the symmetric key and zeroed |
| SudoKeyRepository.DefaultSudoKeyRepository.RegisterPublicKey | src/public/sudoKeyRepository.ts:147-158 | one create call with the registration input; the result is the service's record converted to an entity |
| SudoKeyRepository.LookupOutcome | src/public/sudoKeyRepository.ts:186-190 | undefined exactly when the service has no record; otherwise the record converted to an entity with its keyId and keyRingId, or the format error |
| SudoKeyRepository.DefaultSudoKeyRepository.IsPublicKeyRegistered | src/public/sudoKeyRepository.ts:160-183 | the result is the scan's; the queries made are exactly the scan's, in order; the unread answers are what the scan leaves |
| SudoKeyRepository.DefaultSudoKeyRepository.GetPublicKeyById | src/public/sudoKeyRepository.ts:185-191 | one lookup with 'network-only'; undefined when the service has no record, otherwise the converted record or its format error |

## Left out

- Cryptography: RSA-OAEP unwrapping, AES-CBC decryption and key-pair generation are functions fixed when the key manager is built. They may return a value, return nothing, or throw. Their algebra is not modelled.
- `uuid.v4()`: the fresh id is a parameter, required to have the text form of a UUID. Randomness and uniqueness are not modelled.
- Logging through `DefaultLogger` is left out. It has no effect on behaviour.
- `async`/`await`: calls are sequential. The race between concurrent `generate` and `getCurrentPublicKey` on the unlocked cache is not modelled.
- Failures of `addPassword`, `generateKeyPair`, `getPassword`, `getPublicKey`, `getSubject`, `createPublicKey`, `getKeyRing` and the by-id lookup are not modelled. The code does not catch them; they would reach the caller unchanged. In the model these calls always return.
- `src/private/client/apiClient.ts` and the GraphQL documents are left out. The API client is an abstract collaborator. Its key-ring answers are a finite script, and it answers undefined once the script is exhausted. This is what bounds the scan. The source loop has no termination guarantee against a service that keeps sending tokens.
- GraphQL record fields the core never reads (timestamps, typename) are not part of the model.
- `FetchPolicyTransformer` is not part of this model. The repository takes the cache-policy-to-fetch-policy mapping as a function, and the fetch policy is an opaque string.
- The repository constructor's default collaborators (`WebSudoCryptoProvider`, `DefaultSudoKeyManager`, `ApiClient`) are left out. The model's constructor takes its collaborators.
- `bufferToArrayBuffer` is left out. On byte sequences it is the identity, so slicing works on the bytes directly.
- KeyEntityFormatTransformer.TransformEntity: the model's entity format is closed, so it does not capture the IllegalArgumentError a caller gets by passing a number other than 0 or 1 for the numeric enum.
- Base64.Decode: models Node's lenient decoder. It accepts both alphabets, skips characters outside them, stops at the first '=' and drops a dangling single character. Node's handling of whitespace and of '=' in the middle of the input is only approximated by these rules.
- The `ArrayBuffer` returned by `TextEncoder.encode` is taken to hold exactly the encoded bytes.
- KeyWorker.DefaultKeyWorker.UnsealString: the model proves that the key buffer the key manager handed out, which is also the one used as the symmetric key, is zeroed. Copies the key manager may keep internally are outside the model.
