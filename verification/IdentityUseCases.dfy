/**
 The use cases of the OAuth flow, one function each: the checks in the order the source
 makes them, then one transaction.
 */
module IdentityUseCases {
  import opened Basics
  import opened ScopeSets
  import opened ConsentMachine
  import opened IdentityStore

  const DEFAULT_CONSENT_TTL_MS := 90 * 24 * 60 * 60 * 1000
  const AUTH_REQUEST_TTL_MS := 10 * 60 * 1000
  const AUTH_CODE_TTL_MS := 10 * 60 * 1000
  const REFRESH_TOKEN_TTL_MS := 30 * 24 * 60 * 60 * 1000
  const OFFLINE_ACCESS: Scope := "offline_access"

  datatype TokenHint = RefreshHint | AccessHint | OtherHint

  /** A token presented for revocation: opaque, or a JWT with the claims it verifies to. */
  datatype Presented = OpaqueToken(token: Opaque) | Jwt(verified: Option<(string, Id)>)

  datatype Command =
    | CreateConsent(userId: string, clientUuid: string, institutionId: string, scopeText: string, purpose: string,
                    expiresAt: int)
    | CreateAuthorizationRequest(clientId: string, userId: string, institutionId: string, scopeText: string,
                                 purpose: string, redirectUri: string, challenge: Option<string>,
                                 challengeMethod: Option<string>)
    | AuthorizeConsent(consentId: Id, actorUserId: string, accountIds: set<string>, grantedText: string)
    | ActivateConsent(consentId: Id, actorUserId: string)
    | ExchangeCode(clientId: string, clientSecret: Option<string>, code: Id, redirectUri: string,
                   verifier: Option<string>)
    | RefreshTokens(clientId: string, clientSecret: Option<string>, refreshToken: Opaque)
    | RevokeToken(clientId: string, presented: Presented, hint: Option<TokenHint>)
    | RevokeConsent(consentId: Id, actorUserId: string)
    | ExpireConsents(candidates: seq<Id>)

  datatype Error =
    | InvalidClient | InvalidInstitution | InvalidScopeFormat | UnsupportedGrant | InvalidRedirectUri | PkceRequired
    | InvalidScope | ChallengeRequired | NotFound | Forbidden | InvalidState | NoOpenRequest | RequestExpired
    | Domain(error: ConsentError)
    | InvalidCode | CodeUsed | CodeExpired | CodeClientMismatch | RedirectUriMismatch | PkceFailed
    | ConsentMissing | ConsentNotAuthorized
    | InvalidRefreshToken | RefreshClientMismatch | TokenReuseDetected(familyId: Id) | RefreshExpired
    | ConsentNotActiveForRefresh | TokenNotFound | StorageFailure

  datatype Reply =
    | ConsentCreated(consentId: Id)
    | ConsentAuthorized(consentId: Id, code: Id)
    | ConsentActivated
    | TokensIssued(consentId: Id, accessId: Id, refreshToken: Option<Opaque>, scopes: set<Scope>)
    | TokensRefreshed(familyId: Id, accessId: Id, refreshToken: Option<Opaque>, scopes: set<Scope>)
    | TokenRevoked
    | ConsentRevoked
    | ConsentsExpired(expiredIds: seq<Id>)
    | Refused(error: Error)

  datatype Outcome = Outcome(store: Store, reply: Reply)

  function Refuse(s: Store, error: Error): Outcome {
    Outcome(s, Refused(error))
  }

  // ---------------------------------------------------------------- shared checks

  function ActiveClient(env: Env, clientId: string): Option<Client> {
    if clientId in env.clients && env.clients[clientId].isActive then Some(env.clients[clientId]) else None
  }

  /** Client lookup, then the secret of a confidential client. */
  function AuthenticatedClient(env: Env, clientId: string, clientSecret: Option<string>): Option<Client> {
    match ActiveClient(env, clientId)
    case None => None
    case Some(client) =>
      if client.isConfidential
         && (clientSecret.None? || client.secretHash.None? || Digest(clientSecret.value) != client.secretHash.value)
      then None else Some(client)
  }

  /** `verifyPkce`: "plain" compares, any other method is S256 and needs both texts. */
  predicate VerifyPkce(env: Env, verifier: string, challenge: string, challengeMethod: string) {
    if challengeMethod == "plain" then verifier == challenge
    else verifier != "" && challenge != "" && env.s256(verifier) == challenge
  }

  /** `ClientAuthPolicy.validateAuthorizationRequest` */
  function ValidateAuthorizationRequest(client: Client, redirectUri: string, challenge: Option<string>,
                                        scopes: set<Scope>): Option<Error>
  {
    if "authorization_code" !in client.grantTypes then Some(UnsupportedGrant)
    else if redirectUri !in client.redirectUris then Some(InvalidRedirectUri)
    else if client.requirePkce && (challenge.None? || challenge.value == "") then Some(PkceRequired)
    else if !(scopes <= client.allowedScopes) then Some(InvalidScope)
    else None
  }

  function ConsentEvent(s: Store, c: ConsentProps, eventType: EventType, now: int): Event {
    Event(s.nextId, ConsentAggregate, c.id, eventType, c.version, now)
  }

  /** `new` ids are taken from the counter; the store keeps where it stands. */
  function Take(s: Store, count: nat): Store {
    s.(nextId := s.nextId + count)
  }

  /** Save a consent and emit the event that carries its version. */
  function SaveAndEmit(s: Store, c: ConsentProps, eventType: EventType, now: int): Store {
    Take(Emit(SaveConsent(s, c), [ConsentEvent(s, c, eventType, now)]), 1)
  }

  // ---------------------------------------------------------------- consents

  function DoCreateConsent(s: Store, cmd: Command, now: int): Outcome
    requires cmd.CreateConsent?
  {
    match FromString(cmd.scopeText)
    case None => Refuse(s, InvalidScopeFormat)
    case Some(scopes) =>
      var id := s.nextId;
      match Submitted(Created(id, cmd.userId, cmd.clientUuid, cmd.institutionId, scopes, cmd.purpose, cmd.expiresAt, now), now)
      case Err(e) => Refuse(s, Domain(e))
      case Ok(c) => Outcome(SaveAndEmit(Take(s, 1), c, ConsentCreatedEvent, now), ConsentCreated(id))
  }

  function RequestCheck(env: Env, cmd: Command): Option<Error>
    requires cmd.CreateAuthorizationRequest?
  {
    if ActiveClient(env, cmd.clientId).None? then Some(InvalidClient)
    else if !(cmd.institutionId in env.institutions && env.institutions[cmd.institutionId]) then Some(InvalidInstitution)
    else match FromString(cmd.scopeText)
      case None => Some(InvalidScopeFormat)
      case Some(scopes) =>
        match ValidateAuthorizationRequest(env.clients[cmd.clientId], cmd.redirectUri, cmd.challenge, scopes)
        case Some(e) => Some(e)
        case None => if cmd.challenge.None? || cmd.challenge.value == "" then Some(ChallengeRequired) else None
  }

  lemma RequestCheckPasses(env: Env, cmd: Command)
    requires cmd.CreateAuthorizationRequest?
    ensures RequestCheck(env, cmd).None? ==>
              cmd.clientId in env.clients && FromString(cmd.scopeText).Some? && cmd.challenge.Some?
  {
    hide FromString;
  }

  function DoCreateAuthorizationRequest(env: Env, s: Store, cmd: Command, now: int): Outcome
    requires cmd.CreateAuthorizationRequest?
  {
    match RequestCheck(env, cmd)
    case Some(e) => Refuse(s, e)
    case None =>
      var client := env.clients[cmd.clientId];
      var scopes := FromString(cmd.scopeText).value;
      var id := s.nextId;
      match Submitted(Created(id, cmd.userId, client.id, cmd.institutionId, scopes, cmd.purpose,
                              now + DEFAULT_CONSENT_TTL_MS, now), now)
      case Err(e) => Refuse(s, Domain(e))
      case Ok(c) =>
        var s1 := SaveAndEmit(Take(s, 2), c, ConsentCreatedEvent, now);
        var request := AuthRequest(client.id, id, cmd.redirectUri, scopes, cmd.challenge.value,
                                   if cmd.challengeMethod.Some? then cmd.challengeMethod.value else "S256",
                                   now + AUTH_REQUEST_TTL_MS, None, now);
        Outcome(SaveAuthorizationRequest(s1, id + 1, request), ConsentCreated(id))
  }

  ghost function DoAuthorizeConsent(s: Store, cmd: Command, now: int): Outcome
    requires cmd.AuthorizeConsent?
  {
    if cmd.consentId !in s.consents then Refuse(s, NotFound) else
    var consent := s.consents[cmd.consentId];
    if consent.userId != cmd.actorUserId then Refuse(s, Forbidden)
    else if consent.status != AWAITING_AUTHORIZATION then Refuse(s, InvalidState)
    else match FindOpenRequest(s, consent.id)
      case None => Refuse(s, NoOpenRequest)
      case Some(requestId) =>
        var request := s.requests[requestId];
        if request.expiresAt <= now then Refuse(s, RequestExpired)
        else match FromString(cmd.grantedText)
          case None => Refuse(s, InvalidScopeFormat)
          case Some(granted) =>
            match Authorized(consent, cmd.accountIds, granted, now)
            case Err(e) => Refuse(s, Domain(e))
            case Ok(c) => Outcome(IssueCode(s, c, requestId, now), ConsentAuthorized(c.id, s.nextId))
  }

  /** The transaction of `AuthorizeConsent`. */
  function IssueCode(s: Store, c: ConsentProps, requestId: Id, now: int): Store
    requires requestId in s.requests
  {
    var request := s.requests[requestId];
    var code := AuthCode(c.clientId, c.userId, c.id, request.redirectUri,
                         if c.grantedScopes.Some? then c.grantedScopes.value else {},
                         request.challenge, request.challengeMethod, now + AUTH_CODE_TTL_MS, None, now);
    var s1 := SaveAndEmit(Take(s, 1), c, ConsentAuthorizedEvent, now);
    SaveAuthorizationCode(MarkRequestConsumed(s1, requestId, now), s.nextId, code)
  }

  function DoActivateConsent(s: Store, cmd: Command, now: int): Outcome
    requires cmd.ActivateConsent?
  {
    if cmd.consentId !in s.consents then Refuse(s, NotFound) else
    var consent := s.consents[cmd.consentId];
    if consent.userId != cmd.actorUserId then Refuse(s, Forbidden)
    else if consent.status != AUTHORIZED then Refuse(s, InvalidState)
    else match Activated(consent, now)
      case Err(e) => Refuse(s, Domain(e))
      case Ok(c) => Outcome(SaveAndEmit(s, c, ConsentActivatedEvent, now), ConsentActivated)
  }

  function DoRevokeConsent(s: Store, cmd: Command, now: int): Outcome
    requires cmd.RevokeConsent?
  {
    if cmd.consentId !in s.consents then Refuse(s, NotFound) else
    var consent := s.consents[cmd.consentId];
    if consent.userId != cmd.actorUserId then Refuse(s, Forbidden)
    else if IsTerminalConsent(consent.status) then Refuse(s, InvalidState)
    else match Revoked(consent, now)
      case Err(e) => Refuse(s, Domain(e))
      case Ok(c) => Outcome(RevokeEverything(s, c, now), ConsentRevoked)
  }

  /** The transaction of `RevokeConsent`: consent, access tokens and families together. */
  function RevokeEverything(s: Store, c: ConsentProps, now: int): Store {
    var s1 := RevokeAccessTokensForConsent(SaveAndEmit(s, c, ConsentRevokedEvent, now), c.id, now);
    s1.(ledger := RevokeFamiliesForConsent(s1.ledger, c.id, now))
  }

  /** One turn of the expiry loop: skip, or expire in a transaction of its own. */
  function ExpireOne(s: Store, id: Id, now: int): Option<Store> {
    if id !in s.consents || IsTerminalConsent(s.consents[id].status) || !IsExpired(s.consents[id], now) then None
    else match Expired(s.consents[id], now)
      case Err(_) => None
      case Ok(c) => Some(SaveAndEmit(s, c, ConsentExpiredEvent, now))
  }

  /** The expiry loop over the candidates the query returned. */
  function DoExpireConsents(s: Store, candidates: seq<Id>, now: int): (done: Outcome)
    ensures done.reply.ConsentsExpired?
    decreases |candidates|
  {
    if candidates == [] then Outcome(s, ConsentsExpired([])) else
    match ExpireOne(s, candidates[0], now)
    case None => DoExpireConsents(s, candidates[1..], now)
    case Some(s1) =>
      var rest := DoExpireConsents(s1, candidates[1..], now);
      Outcome(rest.store, ConsentsExpired([candidates[0]] + rest.reply.expiredIds))
  }

  // ---------------------------------------------------------------- tokens

  /** The checks of the code exchange, in order; None when the exchange goes ahead. */
  function ExchangeCheck(env: Env, s: Store, cmd: Command, now: int): Option<Error>
    requires cmd.ExchangeCode?
  {
    match AuthenticatedClient(env, cmd.clientId, cmd.clientSecret)
    case None => Some(InvalidClient)
    case Some(client) =>
      if Digest(cmd.code) !in s.codes then Some(InvalidCode) else
      var code := s.codes[Digest(cmd.code)];
      if code.usedAt.Some? then Some(CodeUsed)
      else if code.expiresAt <= now then Some(CodeExpired)
      else if code.clientId != client.id then Some(CodeClientMismatch)
      else if code.redirectUri != cmd.redirectUri then Some(RedirectUriMismatch)
      else if (client.requirePkce || code.challenge != "")
              && (code.challenge == "" || cmd.verifier.None?
                  || !VerifyPkce(env, cmd.verifier.value, code.challenge, code.challengeMethod)) then Some(PkceFailed)
      else if code.consentId !in s.consents then Some(ConsentMissing)
      else if s.consents[code.consentId].status !in {AUTHORIZED, ACTIVE} then Some(ConsentNotAuthorized)
      else None
  }

  function DoExchangeCode(env: Env, s: Store, cmd: Command, now: int): Outcome
    requires cmd.ExchangeCode?
  {
    match ExchangeCheck(env, s, cmd, now)
    case Some(e) => Refuse(s, e)
    case None =>
      var code := s.codes[Digest(cmd.code)];
      var consent := s.consents[code.consentId];
      var activated := if consent.status == AUTHORIZED then Activated(consent, now) else Ok(consent);
      match activated
      case Err(e) => Refuse(s, Domain(e))
      case Ok(c) =>
        var token := Opaque(s.nextId, s.nextId + 1);
        var offline := OFFLINE_ACCESS in code.scopes;
        Outcome(IssueTokens(env, s, c, cmd.code, env.clients[cmd.clientId].id, now),
                TokensIssued(c.id, s.nextId + 2, if offline then Some(token) else None, code.scopes))
  }

  /** The transaction of the code exchange. */
  function IssueTokens(env: Env, s: Store, c: ConsentProps, codeId: Id, clientUuid: string, now: int): Store
    requires Digest(codeId) in s.codes
  {
    var code := s.codes[Digest(codeId)];
    var n := s.nextId;
    var s1 := MarkCodeUsed(SaveAndEmit(Take(s, 5), c, ConsentActivatedEvent, now), codeId, now);
    var s2 := SaveAccessToken(s1, n + 2, AccessToken(n + 4, clientUuid, code.userId, c.id, code.scopes,
                                                      now + env.accessTtlSeconds * 1000, None, now));
    var family := Family(clientUuid, code.userId, c.id, Digest(Opaque(n, n + 1)), code.scopes,
                         now + REFRESH_TOKEN_TTL_MS, None, None, 1, now);
    var s3 := if OFFLINE_ACCESS in code.scopes then s2.(ledger := SaveFamily(s2.ledger, n + 3, family)) else s2;
    Take(Emit(s3, [Event(s3.nextId, TokenAggregate, n + 2, TokenIssuedEvent, 1, now)]), 1)
  }

  /** The transaction of the exchange, table by table. */
  lemma IssueTokensTables(env: Env, s: Store, c: ConsentProps, codeId: Id, clientUuid: string, now: int)
    requires Digest(codeId) in s.codes
    ensures var t := IssueTokens(env, s, c, codeId, clientUuid, now); var code := s.codes[Digest(codeId)]; var n := s.nextId;
            && t.nextId == n + 7 && t.requests == s.requests && t.consents == s.consents[c.id := c]
            && t.codes == s.codes[Digest(codeId) := code.(usedAt := Some(now))]
            && t.access == s.access[n + 2 := AccessToken(n + 4, clientUuid, code.userId, c.id, code.scopes,
                                                         now + env.accessTtlSeconds * 1000, None, now)]
            && t.ledger == (if OFFLINE_ACCESS in code.scopes
                            then SaveFamily(s.ledger, n + 3,
                                            Family(clientUuid, code.userId, c.id, Digest(Opaque(n, n + 1)), code.scopes,
                                                   now + REFRESH_TOKEN_TTL_MS, None, None, 1, now))
                            else s.ledger)
            && t.outbox == s.outbox + [Event(n + 5, ConsentAggregate, c.id, ConsentActivatedEvent, c.version, now)]
                           + [Event(n + 6, TokenAggregate, n + 2, TokenIssuedEvent, 1, now)]
  {
    hide SaveFamily;
  }

  /** The checks of the refresh after the family is found, in order; None when the rotation goes ahead. */
  function RefreshCheck(s: Store, client: Client, familyId: Id, token: Opaque, now: int): Option<Error>
    requires familyId in s.ledger.families
  {
    var family := s.ledger.families[familyId];
    if family.clientId != client.id then Some(RefreshClientMismatch)
    else if IsFamilyRevoked(family) then Some(TokenReuseDetected(familyId))
    else if family.expiresAt <= now then Some(RefreshExpired)
    else if Digest(token) != family.currentTokenHash then Some(TokenReuseDetected(familyId))
    else if family.consentId !in s.consents || s.consents[family.consentId].status != ACTIVE
    then Some(ConsentNotActiveForRefresh)
    else None
  }

  ghost function DoRefreshTokens(env: Env, s: Store, cmd: Command, now: int): Outcome
    requires cmd.RefreshTokens?
  {
    match AuthenticatedClient(env, cmd.clientId, cmd.clientSecret)
    case None => Refuse(s, InvalidClient)
    case Some(client) =>
      match FindFamilyByHash(s.ledger, Digest(cmd.refreshToken))
      case None => Refuse(s, InvalidRefreshToken)
      case Some(familyId) =>
        match RefreshCheck(s, client, familyId, cmd.refreshToken, now)
        case Some(TokenReuseDetected(f)) => Outcome(HandleReuse(s, familyId, now), Refused(TokenReuseDetected(familyId)))
        case Some(e) => Refuse(s, e)
        case None =>
          var family := s.ledger.families[familyId];
          var token := Opaque(s.nextId, s.nextId + 1);
          Outcome(RotateFamily(env, s, familyId, client.id, now),
                  TokensRefreshed(familyId, s.nextId + 2,
                                  if OFFLINE_ACCESS in family.scopes then Some(token) else None, family.scopes))
  }

  /** The transaction of a successful refresh, computed from a family read at `generation`. */
  function RotateFrom(env: Env, s: Store, familyId: Id, generation: int, clientUuid: string, now: int): Store
    requires familyId in s.ledger.families
  {
    var family := s.ledger.families[familyId];
    var n := s.nextId;
    var s1 := Take(s, 4);
    var s2 := s1.(ledger := Rotate(s1.ledger, familyId, Digest(Opaque(n, n + 1)), generation + 1,
                                   now + REFRESH_TOKEN_TTL_MS, now));
    var s3 := SaveAccessToken(s2, n + 2, AccessToken(n + 3, clientUuid, family.userId, family.consentId, family.scopes,
                                                      now + env.accessTtlSeconds * 1000, None, now));
    Take(Emit(s3, [Event(s3.nextId, FamilyAggregate, familyId, TokenIssuedEvent, generation + 1, now)]), 1)
  }

  /** The same when nothing ran in between. */
  function RotateFamily(env: Env, s: Store, familyId: Id, clientUuid: string, now: int): Store
    requires familyId in s.ledger.families
  {
    RotateFrom(env, s, familyId, s.ledger.families[familyId].generation, clientUuid, now)
  }

  /** The transaction of `handleReuse`. */
  function HandleReuse(s: Store, familyId: Id, now: int): Store
    requires familyId in s.ledger.families
  {
    var s1 := s.(ledger := RevokeFamily(MarkReuseDetected(s.ledger, familyId, now), familyId, now));
    Take(Emit(s1, [Event(s.nextId, FamilyAggregate, familyId, TokenReuseDetectedEvent, 1, now),
                   Event(s.nextId + 1, FamilyAggregate, familyId, TokenRevokedEvent, 1, now)]), 2)
  }

  ghost predicate HasJti(s: Store, id: Id, jti: Id) {
    id in s.access && s.access[id].jti == jti
  }

  ghost function FindAccessTokenByJti(s: Store, jti: Id): (r: Option<Id>)
    ensures r.Some? ==> HasJti(s, r.value, jti)
    ensures r.None? ==> forall id :: !HasJti(s, id, jti)
  {
    if exists id :: HasJti(s, id, jti) then var id :| HasJti(s, id, jti); Some(id) else None
  }

  /** The family a revocation request reaches, if the refresh branch applies to it. */
  ghost function RevocableFamily(s: Store, cmd: Command, client: Client): Option<Id>
    requires cmd.RevokeToken?
  {
    if cmd.presented.OpaqueToken? && (cmd.hint == None || cmd.hint == Some(RefreshHint)) then
      match FindFamilyByHash(s.ledger, Digest(cmd.presented.token))
      case Some(id) => if s.ledger.families[id].clientId == client.id then Some(id) else None
      case None => None
    else None
  }

  /** The access token it reaches: only a JWT can name one, an opaque token's hash is never a stored jti. */
  ghost function RevocableAccessToken(s: Store, cmd: Command, client: Client): Option<Id>
    requires cmd.RevokeToken?
  {
    if cmd.presented.Jwt? && cmd.presented.verified.Some? && (cmd.hint == None || cmd.hint == Some(AccessHint))
       && cmd.presented.verified.value.0 == client.clientId then
      match FindAccessTokenByJti(s, cmd.presented.verified.value.1)
      case Some(id) => if s.access[id].clientId == client.id then Some(id) else None
      case None => None
    else None
  }

  ghost function DoRevokeToken(env: Env, s: Store, cmd: Command, now: int): Outcome
    requires cmd.RevokeToken?
  {
    match ActiveClient(env, cmd.clientId)
    case None => Refuse(s, InvalidClient)
    case Some(client) =>
      match RevocableFamily(s, cmd, client)
      case Some(id) => Outcome(RevokeFamilyOnRequest(s, id, now), TokenRevoked)
      case None =>
        match RevocableAccessToken(s, cmd, client)
        case Some(id) => Outcome(RevokeAccessOnRequest(s, id, now), TokenRevoked)
        case None => Refuse(s, TokenNotFound)
  }

  function RevokeFamilyOnRequest(s: Store, id: Id, now: int): Store
    requires id in s.ledger.families
  {
    var s1 := s.(ledger := RevokeFamily(s.ledger, id, now));
    Take(Emit(s1, [Event(s.nextId, FamilyAggregate, id, TokenRevokedEvent, 1, now)]), 1)
  }

  function RevokeAccessOnRequest(s: Store, id: Id, now: int): Store
    requires id in s.access
  {
    Take(Emit(RevokeAccessToken(s, id, now), [Event(s.nextId, AccessTokenAggregate, id, TokenRevokedEvent, 1, now)]), 1)
  }

  // ---------------------------------------------------------------- one serial step

  ghost function Execute(env: Env, s: Store, cmd: Command, now: int): Outcome {
    match cmd
    case CreateConsent(_, _, _, _, _, _) => DoCreateConsent(s, cmd, now)
    case CreateAuthorizationRequest(_, _, _, _, _, _, _, _) => DoCreateAuthorizationRequest(env, s, cmd, now)
    case AuthorizeConsent(_, _, _, _) => DoAuthorizeConsent(s, cmd, now)
    case ActivateConsent(_, _) => DoActivateConsent(s, cmd, now)
    case ExchangeCode(_, _, _, _, _) => DoExchangeCode(env, s, cmd, now)
    case RefreshTokens(_, _, _) => DoRefreshTokens(env, s, cmd, now)
    case RevokeToken(_, _, _) => DoRevokeToken(env, s, cmd, now)
    case RevokeConsent(_, _) => DoRevokeConsent(s, cmd, now)
    case ExpireConsents(candidates) => DoExpireConsents(s, candidates, now)
  }

  /** A request: what is asked, when, and whether the database lets its transaction commit. */
  datatype Request = Request(command: Command, now: int, commits: bool)

  /** A transaction that does not commit leaves every table and the outbox as they were. */
  ghost function Step(env: Env, s: Store, r: Request): Outcome {
    var done := Execute(env, s, r.command, r.now);
    if r.commits || done.store == s then done
    else Outcome(s.(nextId := done.store.nextId), Refused(StorageFailure))
  }
}
