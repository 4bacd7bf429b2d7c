/** The public face of the SDK: key generation, lookup and unsealing go to
    the key worker; registering a key, looking one up by id and asking
    whether a key is registered go to the key service. */
module SudoKeyRepository {
  import opened Wrappers
  import opened Bytes
  import opened SudoCommon
  import GraphQL = GraphQLTypes
  import E = PublicKeyEntities
  import Format = KeyEntityFormatTransformer
  import Transformer = KeyEntityTransformer
  import opened Collaborators
  import opened KeyWorker
  import Utf8

  /** The algorithm every registered key is declared with. */
  const KeyAlgorithm := "RSAEncryptionOAEPAESCBC"

  /** The read policy of a lookup by id: always the service, never the
      cache. */
  const NetworkOnly: FetchPolicy := "network-only"

  /** A key ring page (or the undefined answer) lists the key `keyId`. */
  predicate PageHasKey(page: Option<GraphQL.PaginatedPublicKey>, keyId: string)
  {
    page.Some? && exists k <- page.value.items :: k.keyId == keyId
  }

  /** The scan goes on past `page`: no match on it and it names a next
      page. */
  predicate Continues(page: Option<GraphQL.PaginatedPublicKey>, keyId: string)
  {
    !PageHasKey(page, keyId) && page.Some? && page.value.nextToken.Some?
  }

  /** The `i`-th answer the service gives, undefined once the scripted
      answers have run out. */
  function PageAt(responses: seq<Option<GraphQL.PaginatedPublicKey>>, i: nat): Option<GraphQL.PaginatedPublicKey>
  {
    if i < |responses| then responses[i] else None
  }

  /** The outcome of a membership scan: whether the key was found, the
      continuation token each query carried, and the answers left over. */
  datatype ScanResult = ScanResult(found: bool, tokens: seq<Option<string>>,
                                   rest: seq<Option<GraphQL.PaginatedPublicKey>>)

  /** The scan over the service's successive answers, starting with
      `token`: fetch a page; stop with true if it lists the key, go on with
      its next token if it has one, stop with false otherwise. */
  function Scan(responses: seq<Option<GraphQL.PaginatedPublicKey>>, keyId: string, token: Option<string>): (r: ScanResult)
    ensures r.tokens != [] && r.tokens[0] == token
    decreases |responses|
  {
    var page := NextResponse(responses);
    if Continues(page, keyId) then
      var later := Scan(LaterResponses(responses), keyId, page.value.nextToken);
      ScanResult(later.found, [token] + later.tokens, later.rest)
    else
      ScanResult(PageHasKey(page, keyId), [token], LaterResponses(responses))
  }

  /** The key-ring queries of a scan that sent `tokens`. */
  function ScanQueries(keyRingId: string, fetchPolicy: FetchPolicy, tokens: seq<Option<string>>): seq<KeyRingQuery>
  {
    seq(|tokens|, i requires 0 <= i < |tokens| => KeyRingQuery(keyRingId, fetchPolicy, None, tokens[i]))
  }

  /** Every query of a scan is for the same key ring, under the same fetch
      policy and without a limit; only the token changes, in order. */
  lemma ScanQueriesUniform(keyRingId: string, fetchPolicy: FetchPolicy, tokens: seq<Option<string>>)
    ensures var qs := ScanQueries(keyRingId, fetchPolicy, tokens);
      && |qs| == |tokens|
      && (forall i :: 0 <= i < |qs| ==> qs[i].keyRingId == keyRingId && qs[i].fetchPolicy == fetchPolicy)
      && (forall i :: 0 <= i < |qs| ==> qs[i].limit == None && qs[i].nextToken == tokens[i])
  {
  }

  /** One step of the scan, seen from a loop that has already sent `sent`:
      the page either ends the scan or hands it on with its next token. */
  lemma ScanStep(responses: seq<Option<GraphQL.PaginatedPublicKey>>, keyId: string, token: Option<string>,
                 sent: seq<Option<string>>)
    ensures
      var now := Scan(responses, keyId, token);
      var page := NextResponse(responses);
      if Continues(page, keyId) then
        var next := Scan(LaterResponses(responses), keyId, page.value.nextToken);
        ScanResult(now.found, sent + now.tokens, now.rest) == ScanResult(next.found, (sent + [token]) + next.tokens, next.rest)
      else
        ScanResult(now.found, sent + now.tokens, now.rest) == ScanResult(PageHasKey(page, keyId), sent + [token], LaterResponses(responses))
  {
    var page := NextResponse(responses);
    if Continues(page, keyId) {
      var next := Scan(LaterResponses(responses), keyId, page.value.nextToken);
      assert sent + ([token] + next.tokens) == (sent + [token]) + next.tokens;
    }
  }

  lemma ScanQueriesAppend(keyRingId: string, fetchPolicy: FetchPolicy, tokens: seq<Option<string>>, token: Option<string>)
    ensures ScanQueries(keyRingId, fetchPolicy, tokens + [token])
            == ScanQueries(keyRingId, fetchPolicy, tokens) + [KeyRingQuery(keyRingId, fetchPolicy, None, token)]
  {
  }

  /** The input that registers `publicKey`: its ids and key text, the fixed
      algorithm, and a wire format that converts back to the entity's. */
  function RegistrationInput(publicKey: E.PublicKeyEntity): (input: GraphQL.CreatePublicKeyInput)
    ensures input.keyId == publicKey.keyId && input.keyRingId == publicKey.keyRingId
    ensures input.publicKey == publicKey.keyData && input.algorithm == KeyAlgorithm
    ensures Format.TransformGraphQL(Some(input.keyFormat)) == Success(publicKey.keyFormat)
  {
    Format.EntityRoundTrip(publicKey.keyFormat);
    GraphQL.CreatePublicKeyInput(publicKey.keyId, publicKey.keyRingId, KeyAlgorithm, publicKey.keyData,
                                 Format.TransformEntity(publicKey.keyFormat))
  }

  /** What a lookup by id returns for the service's answer. */
  function LookupOutcome(answer: Option<GraphQL.PublicKey>): (r: Result<Option<E.PublicKeyEntity>, Error>)
    ensures r == Success(None) <==> answer.None?
    ensures r.Success? && r.value.Some? ==>
      && answer.Some? && Transformer.TransformGraphQL(answer.value) == Success(r.value.value)
      && r.value.value.keyId == answer.value.keyId && r.value.value.keyRingId == answer.value.keyRingId
    ensures r.Failure? ==> answer.Some? && Transformer.TransformGraphQL(answer.value) == Failure(r.error)
  {
    match answer
    case None => Success(None)
    case Some(record) =>
      match Transformer.TransformGraphQL(record)
      case Failure(e) => Failure(e)
      case Success(key) => Success(Some(key))
  }

  /** The pages a scan visits: every one but the last names a next page and
      does not list the key; the last one decides the result. The scan asks
      at most once past the end of the answers. */
  lemma {:induction false} ScanVisits(responses: seq<Option<GraphQL.PaginatedPublicKey>>, keyId: string, token: Option<string>)
    ensures var s := Scan(responses, keyId, token);
      && 1 <= |s.tokens| <= |responses| + 1
      && (forall i :: 0 <= i < |s.tokens| - 1 ==> Continues(PageAt(responses, i), keyId))
      && !Continues(PageAt(responses, |s.tokens| - 1), keyId)
      && s.found == PageHasKey(PageAt(responses, |s.tokens| - 1), keyId)
      && s.rest == (if |s.tokens| <= |responses| then responses[|s.tokens|..] else [])
    decreases |responses|
  {
    var page := NextResponse(responses);
    if Continues(page, keyId) {
      var later := LaterResponses(responses);
      ScanVisits(later, keyId, page.value.nextToken);
      var s := Scan(responses, keyId, token);
      forall i | 0 <= i < |s.tokens| - 1
        ensures Continues(PageAt(responses, i), keyId)
      {
        if i > 0 {
          assert PageAt(responses, i) == PageAt(later, i - 1);
        }
      }
      assert PageAt(responses, |s.tokens| - 1) == PageAt(later, |s.tokens| - 2);
      if |s.tokens| <= |responses| {
        assert responses[|s.tokens|..] == later[|s.tokens| - 1..];
      }
    }
  }

  /** A scan finds the key exactly when some page it visited lists it. */
  lemma ScanFoundIff(responses: seq<Option<GraphQL.PaginatedPublicKey>>, keyId: string, token: Option<string>)
    ensures var s := Scan(responses, keyId, token);
      s.found <==> exists i :: 0 <= i < |s.tokens| && PageHasKey(PageAt(responses, i), keyId)
  {
    ScanVisits(responses, keyId, token);
  }

  /** A scan that does not find the key stops at a page without a next
      token, or at an undefined answer. */
  lemma ScanStopsAtLastPage(responses: seq<Option<GraphQL.PaginatedPublicKey>>, keyId: string, token: Option<string>)
    requires !Scan(responses, keyId, token).found
    ensures var last := PageAt(responses, |Scan(responses, keyId, token).tokens| - 1);
      last.None? || last.value.nextToken.None?
  {
    ScanVisits(responses, keyId, token);
  }

  /** The `i`-th query of a scan carries the starting token if it is the
      first, and otherwise the next token of the page before it. */
  lemma {:induction false} ScanTokens(responses: seq<Option<GraphQL.PaginatedPublicKey>>, keyId: string,
                                      token: Option<string>, i: nat)
    requires i < |Scan(responses, keyId, token).tokens|
    ensures i == 0 ==> Scan(responses, keyId, token).tokens[0] == token
    ensures i > 0 ==> PageAt(responses, i - 1).Some? &&
                      Scan(responses, keyId, token).tokens[i] == PageAt(responses, i - 1).value.nextToken
    decreases i
  {
    if i > 0 {
      var page := NextResponse(responses);
      var later := LaterResponses(responses);
      assert Continues(page, keyId);
      var t := Scan(later, keyId, page.value.nextToken).tokens;
      assert Scan(responses, keyId, token).tokens == [token] + t;
      ScanTokens(later, keyId, page.value.nextToken, i - 1);
      if i > 1 {
        assert PageAt(responses, i - 1) == PageAt(later, i - 2);
      } else {
        assert PageAt(responses, 0) == page;
      }
    }
  }

  /** An undefined first answer ends the scan with false after one query. */
  lemma UndefinedPageEndsScan(responses: seq<Option<GraphQL.PaginatedPublicKey>>, keyId: string, token: Option<string>)
    requires responses == [] || responses[0] == None
    ensures Scan(responses, keyId, token) == ScanResult(false, [token], LaterResponses(responses))
  {
  }

  /** Three pages none of which lists the key, chained by two tokens, take
      three queries and give false. */
  lemma ThreePagesWithoutMatch(other: GraphQL.PublicKey, keyId: string)
    requires other.keyId != keyId
    ensures
      var responses := [Some(GraphQL.PaginatedPublicKey([other], Some("next-token-1"))),
                        Some(GraphQL.PaginatedPublicKey([], Some("next-token-2"))),
                        Some(GraphQL.PaginatedPublicKey([], None))];
      Scan(responses, keyId, None) == ScanResult(false, [None, Some("next-token-1"), Some("next-token-2")], [])
  {
    var responses := [Some(GraphQL.PaginatedPublicKey([other], Some("next-token-1"))),
                      Some(GraphQL.PaginatedPublicKey([], Some("next-token-2"))),
                      Some(GraphQL.PaginatedPublicKey([], None))];
    assert !PageHasKey(responses[0], keyId) && !PageHasKey(responses[1], keyId) && !PageHasKey(responses[2], keyId);
    assert Scan(responses[2..], keyId, Some("next-token-2")) == ScanResult(false, [Some("next-token-2")], []);
    assert Scan(responses[1..], keyId, Some("next-token-1"))
        == ScanResult(false, [Some("next-token-1"), Some("next-token-2")], []);
  }

  /** Registering a key the service echoes back returns that very key. */
  lemma RegistrationRoundTrip(publicKey: E.PublicKeyEntity, id: string, owner: string, version: int)
    ensures var input := RegistrationInput(publicKey);
      Transformer.TransformGraphQL(GraphQL.PublicKey(id, input.keyId, input.keyRingId, input.algorithm,
                                                     Some(input.keyFormat), input.publicKey, owner, version))
      == Success(publicKey)
  {
    Transformer.EchoRoundTrip(publicKey, id, KeyAlgorithm, owner, version);
  }

  class DefaultSudoKeyRepository {
    const keyWorker: DefaultKeyWorker
    const apiClient: ApiClient
    /** The fetch policy that corresponds to a cache policy. */
    const fetchPolicyOf: CachePolicy -> FetchPolicy

    ghost predicate Valid()
      reads this, keyWorker
    {
      keyWorker.Valid()
    }

    constructor (sudoKeyManager: SudoKeyManager, sudoUserClient: SudoUserClient, keyPairIdKey: string,
                 keyRingNameSpace: string, rsaKeySize: Option<int>, apiClient: ApiClient,
                 fetchPolicyOf: CachePolicy -> FetchPolicy)
      ensures Valid() && fresh(keyWorker)
      ensures keyWorker.keyManager == sudoKeyManager && keyWorker.sudoUserClient == sudoUserClient
      ensures keyWorker.keyPairIdKey == keyPairIdKey && keyWorker.keyRingServiceName == keyRingNameSpace
      ensures keyWorker.rsaKeySize == EffectiveRsaKeySize(rsaKeySize) && keyWorker.currentPublicKey == None
      ensures this.apiClient == apiClient && this.fetchPolicyOf == fetchPolicyOf
    {
      keyWorker := new DefaultKeyWorker(sudoKeyManager, sudoUserClient, keyPairIdKey, keyRingNameSpace, rsaKeySize);
      this.apiClient := apiClient;
      this.fetchPolicyOf := fetchPolicyOf;
    }

    /** Generates a key pair through the key worker. */
    method Generate(keyPairId: string) returns (r: Result<E.PublicKeyEntity, Error>)
      requires Valid() && IsUuidText(keyPairId)
      modifies keyWorker`currentPublicKey, keyWorker.keyManager`passwords, keyWorker.keyManager`publicKeys,
               keyWorker.keyManager`calls, keyWorker.sudoUserClient`getSubjectCalls
      ensures Valid()
      ensures r == GenerateOutcome(keyPairId, keyWorker.keyManager.keyGen(keyPairId), keyWorker.keyRingServiceName,
                                   keyWorker.sudoUserClient.subject)
      ensures keyWorker.currentPublicKey == if r.Success? then Some(r.value) else old(keyWorker.currentPublicKey)
      ensures keyWorker.keyManager.passwords ==
              old(keyWorker.keyManager.passwords)[keyWorker.keyPairIdKey := Utf8.Encode(keyPairId)]
      ensures keyWorker.keyManager.publicKeys ==
              AfterKeyGeneration(old(keyWorker.keyManager.publicKeys), keyPairId, keyWorker.keyManager.keyGen(keyPairId))
      ensures keyWorker.keyManager.calls == old(keyWorker.keyManager.calls) +
              [KeyManagerCall.AddPassword(Utf8.Encode(keyPairId), keyWorker.keyPairIdKey),
               KeyManagerCall.GenerateKeyPair(keyPairId), KeyManagerCall.GetPublicKey(keyPairId)]
      ensures keyWorker.sudoUserClient.getSubjectCalls == old(keyWorker.sudoUserClient.getSubjectCalls) +
              (if keyWorker.keyManager.keyGen(keyPairId).Some? then 1 else 0)
    {
      r := keyWorker.GenerateKeyPair(keyPairId);
    }

    /** The key worker's current key. */
    method GetCurrentPublicKey() returns (r: Result<Option<E.PublicKeyEntity>, Error>)
      requires Valid()
      modifies keyWorker`currentPublicKey, keyWorker.keyManager`calls, keyWorker.sudoUserClient`getSubjectCalls
      ensures Valid()
      ensures r == CurrentKeyOutcome(old(keyWorker.currentPublicKey), keyWorker.keyManager.passwords,
                                     keyWorker.keyManager.publicKeys, keyWorker.keyPairIdKey,
                                     keyWorker.keyRingServiceName, keyWorker.sudoUserClient.subject)
      ensures keyWorker.currentPublicKey == if r.Success? && r.value.Some? then r.value else old(keyWorker.currentPublicKey)
      ensures keyWorker.keyManager.calls == old(keyWorker.keyManager.calls) +
              CurrentKeyCalls(old(keyWorker.currentPublicKey), keyWorker.keyManager.passwords, keyWorker.keyPairIdKey)
      ensures keyWorker.sudoUserClient.getSubjectCalls == old(keyWorker.sudoUserClient.getSubjectCalls) +
              CurrentKeySubjectCalls(old(keyWorker.currentPublicKey), keyWorker.keyManager.passwords,
                                     keyWorker.keyManager.publicKeys, keyWorker.keyPairIdKey)
    {
      r := keyWorker.GetCurrentPublicKey();
    }

    /** Unseals through the key worker. */
    method UnsealString(input: E.UnsealInput) returns (r: Result<string, Error>)
      requires Valid()
      modifies keyWorker`currentPublicKey, keyWorker.keyManager`calls, keyWorker.keyManager`keyBuffers,
               keyWorker.sudoUserClient`getSubjectCalls
      ensures Valid()
      ensures r == UnsealOutcome(CurrentKeyOutcome(old(keyWorker.currentPublicKey), keyWorker.keyManager.passwords,
                                                   keyWorker.keyManager.publicKeys, keyWorker.keyPairIdKey,
                                                   keyWorker.keyRingServiceName, keyWorker.sudoUserClient.subject),
                                 input, keyWorker.rsaKeySize, keyWorker.keyManager.privateDecrypt,
                                 keyWorker.keyManager.symmetricDecrypt)
      ensures
        var current := CurrentKeyOutcome(old(keyWorker.currentPublicKey), keyWorker.keyManager.passwords,
                                         keyWorker.keyManager.publicKeys, keyWorker.keyPairIdKey,
                                         keyWorker.keyRingServiceName, keyWorker.sudoUserClient.subject);
        var found := current.Success? && current.value.Some?;
        && keyWorker.keyManager.calls == old(keyWorker.keyManager.calls) +
             CurrentKeyCalls(old(keyWorker.currentPublicKey), keyWorker.keyManager.passwords, keyWorker.keyPairIdKey) +
             (if found then UnsealCalls(input, keyWorker.rsaKeySize, keyWorker.keyManager.privateDecrypt) else [])
        && keyWorker.sudoUserClient.getSubjectCalls == old(keyWorker.sudoUserClient.getSubjectCalls) +
             CurrentKeySubjectCalls(old(keyWorker.currentPublicKey), keyWorker.keyManager.passwords,
                                    keyWorker.keyManager.publicKeys, keyWorker.keyPairIdKey)
        && keyWorker.currentPublicKey == (if found then current.value else old(keyWorker.currentPublicKey))
        && (keyWorker.keyManager.keyBuffers != old(keyWorker.keyManager.keyBuffers) <==>
            found && KeyWorker.UnwrapsKey(input, keyWorker.rsaKeySize, keyWorker.keyManager.privateDecrypt))
      ensures keyWorker.keyManager.keyBuffers != old(keyWorker.keyManager.keyBuffers) ==>
        exists b: array<byte> ::
          && keyWorker.keyManager.keyBuffers == old(keyWorker.keyManager.keyBuffers) + [HandedOut(b), UsedAsKey(b)]
          && Zeroed(b)
    {
      ghost var cipherKey;
      r, cipherKey := keyWorker.UnsealString(input);
    }

    /** Registers `publicKey` with the service and returns the service's
        record of it as an entity. */
    method RegisterPublicKey(publicKey: E.PublicKeyEntity) returns (r: Result<E.PublicKeyEntity, Error>)
      modifies apiClient`createInputs
      ensures apiClient.createInputs == old(apiClient.createInputs) + [RegistrationInput(publicKey)]
      ensures r == Transformer.TransformGraphQL(apiClient.createEcho(RegistrationInput(publicKey)))
    {
      var result := apiClient.CreatePublicKey(RegistrationInput(publicKey));
      r := Transformer.TransformGraphQL(result);
    }

    /** Whether the service lists `publicKey` in its key ring: pages are
        fetched, following continuation tokens, until one lists a key with
        the same id or there is no next page. */
    method IsPublicKeyRegistered(publicKey: E.PublicKeyEntity, cachePolicy: CachePolicy) returns (registered: bool)
      modifies apiClient`keyRingResponses, apiClient`keyRingQueries
      ensures var scan := Scan(old(apiClient.keyRingResponses), publicKey.keyId, None);
        && registered == scan.found
        && apiClient.keyRingQueries ==
           old(apiClient.keyRingQueries) + ScanQueries(publicKey.keyRingId, fetchPolicyOf(cachePolicy), scan.tokens)
        && apiClient.keyRingResponses == scan.rest
    {
      var token: Option<string> := None;
      var fetchPolicy := fetchPolicyOf(cachePolicy);
      ghost var scan := Scan(apiClient.keyRingResponses, publicKey.keyId, None);
      ghost var sent: seq<Option<string>> := [];
      while true
        invariant var now := Scan(apiClient.keyRingResponses, publicKey.keyId, token);
          scan == ScanResult(now.found, sent + now.tokens, now.rest)
        invariant apiClient.keyRingQueries ==
                  old(apiClient.keyRingQueries) + ScanQueries(publicKey.keyRingId, fetchPolicy, sent)
        decreases |apiClient.keyRingResponses|
      {
        ScanStep(apiClient.keyRingResponses, publicKey.keyId, token, sent);
        var result := apiClient.GetKeyRing(publicKey.keyRingId, fetchPolicy, None, token);
        ScanQueriesAppend(publicKey.keyRingId, fetchPolicy, sent, token);
        if PageHasKey(result, publicKey.keyId) {
          return true;
        }
        sent := sent + [token];
        token := if result.Some? then result.value.nextToken else None;
        if token.None? {
          return false;
        }
      }
    }

    /** The service's record of the key `id`, read from the service and
        not from the cache; undefined when it has none. */
    method GetPublicKeyById(id: string) returns (r: Result<Option<E.PublicKeyEntity>, Error>)
      modifies apiClient`publicKeyQueries
      ensures apiClient.publicKeyQueries == old(apiClient.publicKeyQueries) + [(id, NetworkOnly)]
      ensures r == LookupOutcome(apiClient.publicKeyLookup(id, NetworkOnly))
      ensures apiClient.publicKeyLookup(id, NetworkOnly).None? ==> r == Success(None)
    {
      var result := apiClient.GetPublicKey(id, NetworkOnly);
      if result.None? {
        return Success(None);
      }
      var key := Transformer.TransformGraphQL(result.value);
      if key.Failure? {
        return Failure(key.error);
      }
      r := Success(Some(key.value));
    }
  }
}
