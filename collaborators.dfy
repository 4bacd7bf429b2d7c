/** The collaborators the core calls, reduced to abstract state: the key
    manager (secure password and key storage plus the cryptography), the
    user client (who is signed in) and the API client (the key service).
    Cryptographic primitives and the service's answers are given as
    functions fixed at construction; every call is appended to a ghost log,
    so that which calls an operation makes, and with which arguments, can be
    stated in its postcondition. */
module Collaborators {
  import opened Wrappers
  import opened Bytes
  import SudoCommon
  import GraphQL = GraphQLTypes

  /** The outcome of a call that may throw. */
  datatype CallResult<T> = Returned(value: T) | Threw

  datatype KeyManagerCall =
    | AddPassword(password: seq<byte>, name: string)
    | GetPassword(name: string)
    | GenerateKeyPair(keyId: string)
    | GetPublicKey(keyId: string)
    | DecryptWithPrivateKey(keyId: string, data: seq<byte>)
    | DecryptWithSymmetricKey(key: seq<byte>, data: seq<byte>)

  /** What happened to a key buffer: the key manager handed it out holding
      an unwrapped key, or was given it back as the key of a symmetric
      decryption. */
  datatype KeyBufferUse = HandedOut(buffer: array<byte>) | UsedAsKey(buffer: array<byte>)

  /** Every byte of `buffer` is zero. */
  ghost predicate Zeroed(buffer: array<byte>)
    reads buffer
  {
    forall i :: 0 <= i < buffer.Length ==> buffer[i] == 0
  }

  /** The public keys after generating a key pair named `keyId`. */
  function AfterKeyGeneration(publicKeys: map<string, SudoCommon.PublicKey>, keyId: string,
                              generated: Option<SudoCommon.PublicKey>): map<string, SudoCommon.PublicKey>
  {
    match generated
    case Some(k) => publicKeys[keyId := k]
    case None => publicKeys - {keyId}
  }

  class SudoKeyManager {
    /** Stored passwords by slot name. */
    var passwords: map<string, seq<byte>>
    /** Public halves of the stored key pairs, by key pair id. */
    var publicKeys: map<string, SudoCommon.PublicKey>
    /** The public key that generating a key pair with a given id stores,
        None if generation leaves no retrievable key (RSA key generation). */
    const keyGen: string -> Option<SudoCommon.PublicKey>
    /** RSA-OAEP decryption with the named private key. */
    const privateDecrypt: (string, seq<byte>) -> CallResult<Option<seq<byte>>>
    /** AES-CBC decryption with the given key. */
    const symmetricDecrypt: (seq<byte>, seq<byte>) -> CallResult<seq<byte>>
    ghost var calls: seq<KeyManagerCall>
    /** The key buffers handed out and taken back, in order. */
    ghost var keyBuffers: seq<KeyBufferUse>

    constructor (passwords: map<string, seq<byte>>, publicKeys: map<string, SudoCommon.PublicKey>,
                 keyGen: string -> Option<SudoCommon.PublicKey>,
                 privateDecrypt: (string, seq<byte>) -> CallResult<Option<seq<byte>>>,
                 symmetricDecrypt: (seq<byte>, seq<byte>) -> CallResult<seq<byte>>)
      ensures this.passwords == passwords && this.publicKeys == publicKeys
      ensures this.keyGen == keyGen && this.privateDecrypt == privateDecrypt
      ensures this.symmetricDecrypt == symmetricDecrypt
      ensures calls == [] && keyBuffers == []
    {
      this.passwords := passwords;
      this.publicKeys := publicKeys;
      this.keyGen := keyGen;
      this.privateDecrypt := privateDecrypt;
      this.symmetricDecrypt := symmetricDecrypt;
      calls := [];
      keyBuffers := [];
    }

    method AddPassword(password: seq<byte>, name: string)
      modifies this`passwords, this`calls
      ensures passwords == old(passwords)[name := password]
      ensures calls == old(calls) + [KeyManagerCall.AddPassword(password, name)]
    {
      passwords := passwords[name := password];
      calls := calls + [KeyManagerCall.AddPassword(password, name)];
    }

    method GetPassword(name: string) returns (r: Option<seq<byte>>)
      modifies this`calls
      ensures r == (if name in passwords then Some(passwords[name]) else None)
      ensures calls == old(calls) + [KeyManagerCall.GetPassword(name)]
    {
      r := if name in passwords then Some(passwords[name]) else None;
      calls := calls + [KeyManagerCall.GetPassword(name)];
    }

    method GenerateKeyPair(keyId: string)
      modifies this`publicKeys, this`calls
      ensures publicKeys == AfterKeyGeneration(old(publicKeys), keyId, keyGen(keyId))
      ensures calls == old(calls) + [KeyManagerCall.GenerateKeyPair(keyId)]
    {
      publicKeys := AfterKeyGeneration(publicKeys, keyId, keyGen(keyId));
      calls := calls + [KeyManagerCall.GenerateKeyPair(keyId)];
    }

    method GetPublicKey(keyId: string) returns (r: Option<SudoCommon.PublicKey>)
      modifies this`calls
      ensures r == (if keyId in publicKeys then Some(publicKeys[keyId]) else None)
      ensures calls == old(calls) + [KeyManagerCall.GetPublicKey(keyId)]
    {
      r := if keyId in publicKeys then Some(publicKeys[keyId]) else None;
      calls := calls + [KeyManagerCall.GetPublicKey(keyId)];
    }

    /** Returns the unwrapped key in a new buffer the caller owns, and logs
        that buffer as handed out. */
    method DecryptWithPrivateKey(keyId: string, data: seq<byte>) returns (r: CallResult<Option<array<byte>>>)
      modifies this`calls, this`keyBuffers
      ensures calls == old(calls) + [KeyManagerCall.DecryptWithPrivateKey(keyId, data)]
      ensures privateDecrypt(keyId, data).Threw? <==> r.Threw?
      ensures privateDecrypt(keyId, data) == Returned(None) <==> r == Returned(None)
      ensures r.Returned? && r.value.Some? ==>
        && fresh(r.value.value) && Returned(Some(r.value.value[..])) == privateDecrypt(keyId, data)
        && keyBuffers == old(keyBuffers) + [HandedOut(r.value.value)]
      ensures !(r.Returned? && r.value.Some?) ==> keyBuffers == old(keyBuffers)
    {
      calls := calls + [KeyManagerCall.DecryptWithPrivateKey(keyId, data)];
      match privateDecrypt(keyId, data)
      case Threw => r := Threw;
      case Returned(None) => r := Returned(None);
      case Returned(Some(k)) =>
        var buffer := new byte[|k|](i requires 0 <= i < |k| => k[i]);
        assert buffer[..] == k;
        r := Returned(Some(buffer));
        keyBuffers := keyBuffers + [HandedOut(buffer)];
    }

    /** Decrypts with the key held in `key`, and logs that buffer as used. */
    method DecryptWithSymmetricKey(key: array<byte>, data: seq<byte>) returns (r: CallResult<seq<byte>>)
      modifies this`calls, this`keyBuffers
      ensures r == symmetricDecrypt(key[..], data)
      ensures calls == old(calls) + [KeyManagerCall.DecryptWithSymmetricKey(key[..], data)]
      ensures keyBuffers == old(keyBuffers) + [UsedAsKey(key)]
    {
      r := symmetricDecrypt(key[..], data);
      calls := calls + [KeyManagerCall.DecryptWithSymmetricKey(key[..], data)];
      keyBuffers := keyBuffers + [UsedAsKey(key)];
    }
  }

  class SudoUserClient {
    /** The signed-in user's subject; None when nobody is signed in. */
    var subject: Option<string>
    ghost var getSubjectCalls: nat

    constructor (subject: Option<string>)
      ensures this.subject == subject && getSubjectCalls == 0
    {
      this.subject := subject;
      getSubjectCalls := 0;
    }

    method GetSubject() returns (r: Option<string>)
      modifies this`getSubjectCalls
      ensures r == subject
      ensures getSubjectCalls == old(getSubjectCalls) + 1
    {
      r := subject;
      getSubjectCalls := getSubjectCalls + 1;
    }
  }

  /** An opaque read policy of the GraphQL client ('network-only', ...). */
  type FetchPolicy = string

  /** The arguments of one key-ring query. */
  datatype KeyRingQuery = KeyRingQuery(keyRingId: string, fetchPolicy: FetchPolicy, limit: Option<int>, nextToken: Option<string>)

  class ApiClient {
    /** The answers the service gives to successive key-ring queries, in
        order; once they run out it answers undefined. */
    var keyRingResponses: seq<Option<GraphQL.PaginatedPublicKey>>
    /** The record the service returns for a create-public-key input. */
    const createEcho: GraphQL.CreatePublicKeyInput -> GraphQL.PublicKey
    /** The answer to a public-key lookup by id under a read policy. */
    const publicKeyLookup: (string, FetchPolicy) -> Option<GraphQL.PublicKey>
    ghost var keyRingQueries: seq<KeyRingQuery>
    ghost var createInputs: seq<GraphQL.CreatePublicKeyInput>
    ghost var publicKeyQueries: seq<(string, FetchPolicy)>

    constructor (keyRingResponses: seq<Option<GraphQL.PaginatedPublicKey>>,
                 createEcho: GraphQL.CreatePublicKeyInput -> GraphQL.PublicKey,
                 publicKeyLookup: (string, FetchPolicy) -> Option<GraphQL.PublicKey>)
      ensures this.keyRingResponses == keyRingResponses
      ensures this.createEcho == createEcho && this.publicKeyLookup == publicKeyLookup
      ensures keyRingQueries == [] && createInputs == [] && publicKeyQueries == []
    {
      this.keyRingResponses := keyRingResponses;
      this.createEcho := createEcho;
      this.publicKeyLookup := publicKeyLookup;
      keyRingQueries, createInputs, publicKeyQueries := [], [], [];
    }

    method CreatePublicKey(input: GraphQL.CreatePublicKeyInput) returns (r: GraphQL.PublicKey)
      modifies this`createInputs
      ensures r == createEcho(input)
      ensures createInputs == old(createInputs) + [input]
    {
      r := createEcho(input);
      createInputs := createInputs + [input];
    }

    method GetKeyRing(keyRingId: string, fetchPolicy: FetchPolicy, limit: Option<int>, nextToken: Option<string>)
      returns (r: Option<GraphQL.PaginatedPublicKey>)
      modifies this`keyRingResponses, this`keyRingQueries
      ensures r == NextResponse(old(keyRingResponses))
      ensures keyRingResponses == LaterResponses(old(keyRingResponses))
      ensures keyRingQueries == old(keyRingQueries) + [KeyRingQuery(keyRingId, fetchPolicy, limit, nextToken)]
    {
      r := NextResponse(keyRingResponses);
      keyRingResponses := LaterResponses(keyRingResponses);
      keyRingQueries := keyRingQueries + [KeyRingQuery(keyRingId, fetchPolicy, limit, nextToken)];
    }

    method GetPublicKey(keyId: string, fetchPolicy: FetchPolicy) returns (r: Option<GraphQL.PublicKey>)
      modifies this`publicKeyQueries
      ensures r == publicKeyLookup(keyId, fetchPolicy)
      ensures publicKeyQueries == old(publicKeyQueries) + [(keyId, fetchPolicy)]
    {
      r := publicKeyLookup(keyId, fetchPolicy);
      publicKeyQueries := publicKeyQueries + [(keyId, fetchPolicy)];
    }
  }

  function NextResponse(responses: seq<Option<GraphQL.PaginatedPublicKey>>): Option<GraphQL.PaginatedPublicKey>
  {
    if responses == [] then None else responses[0]
  }

  function LaterResponses(responses: seq<Option<GraphQL.PaginatedPublicKey>>): seq<Option<GraphQL.PaginatedPublicKey>>
  {
    if responses == [] then [] else responses[1..]
  }
}
