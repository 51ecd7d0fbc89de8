/**
 Safety of the OAuth flow over every serial run from empty tables: refresh tokens are
 accepted once, reuse locks the family, a revoked consent is dead, and every issued token
 traces back through one code and one request to the client that asked and the user who
 granted.
 */
module IdentityTheorems {
  import opened Basics
  import opened ScopeSets
  import opened ConsentMachine
  import opened IdentityStore
  import opened IdentityUseCases
  import opened RefreshLedger
  import opened IdentityInvariants
  import opened IdentityRuns

  // ---------------------------------------------------------------- refresh tokens

  /** The client is registered and active and, if confidential, the secret presented is the one stored. */
  ghost predicate Proves(env: Env, clientId: string, clientSecret: Option<string>) {
    && clientId in env.clients && env.clients[clientId].isActive
    && (env.clients[clientId].isConfidential ==>
          clientSecret.Some? && env.clients[clientId].secretHash == Some(Digest(clientSecret.value)))
  }

  lemma AuthenticatedExactly(env: Env, clientId: string, clientSecret: Option<string>)
    ensures Proves(env, clientId, clientSecret) <==> AuthenticatedClient(env, clientId, clientSecret).Some?
    ensures Proves(env, clientId, clientSecret) ==> AuthenticatedClient(env, clientId, clientSecret) == Some(env.clients[clientId])
  {
  }

  ghost predicate LiveToken(s: Store, client: Client, token: Opaque, now: int) {
    && Digest(token) in s.ledger.rows && s.ledger.rows[Digest(token)].familyId in s.ledger.families
    && var row := s.ledger.rows[Digest(token)];
       var f := s.ledger.families[row.familyId];
       && row.usedAt.None? && row.generation == f.generation
       && f.clientId == client.id && !IsFamilyRevoked(f) && now < f.expiresAt
       && f.consentId in s.consents && s.consents[f.consentId].status == ACTIVE
  }

  /**
   A refresh is accepted exactly when the client proves itself and the token is the unused,
   latest-generation row of an unrevoked, unexpired family it owns, under an active consent.
   */
  lemma RefreshAcceptedExactly(env: Env, s: Store, cmd: Command, now: int)
    requires Inv(env, s) && cmd.RefreshTokens?
    ensures DoRefreshTokens(env, s, cmd, now).reply.TokensRefreshed?
            <==> Proves(env, cmd.clientId, cmd.clientSecret) && LiveToken(s, env.clients[cmd.clientId], cmd.refreshToken, now)
  {
    hide ConsentsInv, RequestsInv, CodesInv, FamiliesInv, AccessInv, VersionsInv, OneRowEach, AllGenerations, AuthenticatedClient,
         RotateFamily, HandleReuse;
    AuthenticatedExactly(env, cmd.clientId, cmd.clientSecret);
    var l, hash := s.ledger, Digest(cmd.refreshToken);
    assert FindFamilyByHash(l, hash) == OwnerOf(l, hash) by { LookupIsScan(l, s.nextId, hash); }
    if hash in l.rows {
      assert RowOk(l, hash);
      assert FamilyOk(l, l.rows[hash].familyId);
    }
  }

  /** The token's row and family, when the client that owns it proves itself and presents it. */
  ghost predicate Presents(env: Env, s: Store, cmd: Command, id: Id)
    requires cmd.RefreshTokens?
  {
    && Proves(env, cmd.clientId, cmd.clientSecret)
    && Digest(cmd.refreshToken) in s.ledger.rows && s.ledger.rows[Digest(cmd.refreshToken)].familyId == id
    && id in s.ledger.families && s.ledger.families[id].clientId == env.clients[cmd.clientId].id
  }

  /**
   Which refusal a refresh gets, in terms of the token's row: a revoked family counts as reuse
   even when expired, an expired one is reported expired even for a used token, a used token of
   a live family is reuse, and only then does the consent matter.
   */
  lemma RefreshRefusedExactly(env: Env, s: Store, cmd: Command, now: int, id: Id)
    requires Inv(env, s) && cmd.RefreshTokens? && id in s.ledger.families
    ensures var reply := DoRefreshTokens(env, s, cmd, now).reply; var hash := Digest(cmd.refreshToken);
            var proven := Proves(env, cmd.clientId, cmd.clientSecret); var f := s.ledger.families[id];
            && (reply == Refused(InvalidClient) <==> !proven)
            && (reply == Refused(InvalidRefreshToken) <==> proven && hash !in s.ledger.rows)
            && (hash in s.ledger.rows && s.ledger.rows[hash].familyId == id ==>
                  (reply == Refused(RefreshClientMismatch) <==> proven && f.clientId != env.clients[cmd.clientId].id))
            && (reply == Refused(TokenReuseDetected(id)) <==>
                  && Presents(env, s, cmd, id)
                  && (IsFamilyRevoked(f) || (now < f.expiresAt && s.ledger.rows[hash].usedAt.Some?)))
            && (Presents(env, s, cmd, id) ==>
                  && (reply == Refused(RefreshExpired) <==> !IsFamilyRevoked(f) && f.expiresAt <= now)
                  && (reply == Refused(ConsentNotActiveForRefresh) <==>
                        && !IsFamilyRevoked(f) && now < f.expiresAt && s.ledger.rows[hash].usedAt.None?
                        && (f.consentId in s.consents ==> s.consents[f.consentId].status != ACTIVE)))
  {
    hide ConsentsInv, RequestsInv, CodesInv, FamiliesInv, AccessInv, VersionsInv, OneRowEach, AllGenerations, FindFamilyByHash,
         AuthenticatedClient, RotateFamily, HandleReuse;
    var hash := Digest(cmd.refreshToken);
    AuthenticatedExactly(env, cmd.clientId, cmd.clientSecret);
    LookupIsScan(s.ledger, s.nextId, hash);
    if hash in s.ledger.rows {
      assert RowOk(s.ledger, hash);
      assert FamilyOk(s.ledger, s.ledger.rows[hash].familyId);
    }
  }

  /** A successful rotation issues one new access token. */
  lemma RotationIssuesAccess(env: Env, s: Store, cmd: Command, now: int)
    requires Inv(env, s) && cmd.RefreshTokens? && DoRefreshTokens(env, s, cmd, now).reply.TokensRefreshed?
    ensures var done := DoRefreshTokens(env, s, cmd, now); var t := done.store;
            && done.reply.accessId !in s.access && done.reply.accessId in t.access
            && t.access[done.reply.accessId].scopes == done.reply.scopes
            && t.access[done.reply.accessId].expiresAt == now + env.accessTtlSeconds * 1000
            && t.access[done.reply.accessId].revokedAt == None
  {
    hide ConsentsInv, RequestsInv, CodesInv, FamiliesInv, AccessInv, VersionsInv, LedgerInv, FindFamilyByHash, AuthenticatedClient,
         HandleReuse, Rotate, RefreshCheck;
    LookupIsScan(s.ledger, s.nextId, Digest(cmd.refreshToken));
    FreshIds(s, env, s.nextId + 2);
  }

  /** A successful rotation hands over: the returned token is live until its time is up, the presented one is not. */
  lemma RotationHandsOver(env: Env, s: Store, cmd: Command, now: int, at: int)
    requires Inv(env, s) && cmd.RefreshTokens? && DoRefreshTokens(env, s, cmd, now).reply.TokensRefreshed?
    ensures cmd.clientId in env.clients
    ensures var done := DoRefreshTokens(env, s, cmd, now); var t := done.store; var client := env.clients[cmd.clientId];
            && !LiveToken(t, client, cmd.refreshToken, at)
            && (done.reply.refreshToken.Some? ==>
                  (LiveToken(t, client, done.reply.refreshToken.value, at) <==> at < now + 30 * 24 * 60 * 60 * 1000))
            && done.reply.accessId !in s.access && done.reply.accessId in t.access
            && t.access[done.reply.accessId].scopes == done.reply.scopes
            && t.access[done.reply.accessId].expiresAt == now + env.accessTtlSeconds * 1000
            && t.access[done.reply.accessId].revokedAt == None
  {
    hide ConsentsInv, RequestsInv, CodesInv, FamiliesInv, AccessInv, VersionsInv, OneRowEach, AllGenerations, FindFamilyByHash,
         AuthenticatedClient, HandleReuse;
    var l, hash := s.ledger, Digest(cmd.refreshToken);
    AuthenticatedIsStored(env, cmd.clientId, cmd.clientSecret);
    LookupIsScan(l, s.nextId, hash);
    RotationIssuesAccess(env, s, cmd, now);
    assert RowOk(l, hash) && FamilyOk(l, l.rows[hash].familyId);
    assert Digest(Opaque(s.nextId, s.nextId + 1)) !in l.rows;
  }

  lemma AuthenticatedIsStored(env: Env, clientId: string, clientSecret: Option<string>)
    ensures var client := AuthenticatedClient(env, clientId, clientSecret);
            client.Some? ==> clientId in env.clients && client.value == env.clients[clientId]
  {
  }

  /** A successful exchange leaves the consent active, the code used, and hands out tokens that work until their time is up. */
  lemma ExchangeHandsOver(env: Env, s: Store, cmd: Command, now: int, at: int)
    requires Inv(env, s) && cmd.ExchangeCode? && DoExchangeCode(env, s, cmd, now).reply.TokensIssued?
    ensures cmd.clientId in env.clients
    ensures var done := DoExchangeCode(env, s, cmd, now); var t := done.store; var client := env.clients[cmd.clientId];
            && done.reply.consentId in t.consents && t.consents[done.reply.consentId].status == ACTIVE
            && Digest(cmd.code) in t.codes && t.codes[Digest(cmd.code)].usedAt == Some(now)
            && (done.reply.refreshToken.Some? <==> OFFLINE_ACCESS in done.reply.scopes)
            && (done.reply.refreshToken.Some? ==>
                  (LiveToken(t, client, done.reply.refreshToken.value, at) <==> at < now + 30 * 24 * 60 * 60 * 1000))
            && done.reply.accessId !in s.access && done.reply.accessId in t.access
            && t.access[done.reply.accessId].scopes == done.reply.scopes
            && t.access[done.reply.accessId].consentId == done.reply.consentId
            && t.access[done.reply.accessId].expiresAt == now + env.accessTtlSeconds * 1000
            && t.access[done.reply.accessId].revokedAt == None
  {
    hide RequestsInv, CodesInv, FamiliesInv, VersionsInv, LedgerInv, AuthenticatedClient, VerifyPkce, IssueTokens;
    AuthenticatedIsStored(env, cmd.clientId, cmd.clientSecret);
    FreshIds(s, env, s.nextId + 2);
    var consent := s.consents[s.codes[Digest(cmd.code)].consentId];
    ConsentFacts(s.consents, s.nextId, s.codes[Digest(cmd.code)].consentId);
    var c := if consent.status == AUTHORIZED then Activated(consent, now).value else consent;
    IssueTokensTables(env, s, c, cmd.code, env.clients[cmd.clientId].id, now);
  }

  /** An accepted refresh retires the presented row and leaves the family on the next generation. */
  lemma AcceptanceRetires(env: Env, s: Store, r: Request, familyId: Id)
    requires Inv(env, s) && r.command.RefreshTokens?
    requires Step(env, s, r).reply.TokensRefreshed? && Step(env, s, r).reply.familyId == familyId
    ensures var t := Step(env, s, r).store; var hash := Digest(r.command.refreshToken);
            && OwnerOf(s.ledger, hash) == Some(familyId) && OwnerOf(t.ledger, hash) == Some(familyId)
            && familyId in s.ledger.families && !IsFamilyRevoked(s.ledger.families[familyId])
            && r.now < s.ledger.families[familyId].expiresAt
            && t.ledger.rows[hash].usedAt.Some? && s.ledger.rows[hash].usedAt.None?
            && s.ledger.families[familyId].consentId in s.consents
            && s.consents[s.ledger.families[familyId].consentId].status == ACTIVE
  {
    hide ConsentsInv, RequestsInv, CodesInv, FamiliesInv, AccessInv, VersionsInv, OneRowEach, AllGenerations;
    var l, hash := s.ledger, Digest(r.command.refreshToken);
    LookupIsScan(l, s.nextId, hash);
    assert RowOk(l, hash) && FamilyOk(l, familyId);
    assert Digest(Opaque(s.nextId, s.nextId + 1)) != hash;
  }

  ghost predicate AcceptedAt(env: Env, run: Run, i: nat, token: Opaque) {
    i < |run| && run[i].command.RefreshTokens? && run[i].command.refreshToken == token
    && ReplyAt(env, run, i).TokensRefreshed?
  }

  /** The row of an accepted token stays used, and stays with its family, in every later state. */
  lemma AcceptedStaysUsed(env: Env, run: Run, i: nat, n: nat, token: Opaque)
    requires AcceptedAt(env, run, i, token) && i < n <= |run|
    ensures var l := StateAt(env, run, n).ledger;
            && OwnerOf(l, Digest(token)) == Some(ReplyAt(env, run, i).familyId)
            && l.rows[Digest(token)].usedAt.Some?
  {
    hide Inv, Step, ConsentsEvolve, RequestsEvolve, CodesEvolve, AccessTokensEvolve;
    ReachableInv(env, run, i);
    AcceptanceRetires(env, StateAt(env, run, i), run[i], ReplyAt(env, run, i).familyId);
    RunEvolves(env, run, i + 1, n);
  }

  /** Each refresh token is accepted at most once in a run. */
  lemma EachTokenAcceptedOnce(env: Env, run: Run, i: nat, j: nat, token: Opaque)
    requires AcceptedAt(env, run, i, token) && AcceptedAt(env, run, j, token)
    ensures i == j
  {
    hide Inv, Step;
    var first, last := if i < j then i else j, if i < j then j else i;
    if first < last {
      AcceptedStaysUsed(env, run, first, last, token);
      ReachableInv(env, run, last);
      AcceptanceRetires(env, StateAt(env, run, last), run[last], ReplyAt(env, run, last).familyId);
    }
  }

  /** A family that is revoked, or past its expiry at time `at`. */
  ghost predicate Dead(s: Store, id: Id, at: int) {
    id in s.ledger.families && (IsFamilyRevoked(s.ledger.families[id]) || s.ledger.families[id].expiresAt <= at)
  }

  /** Creating, authorizing, activating and expiring consents leaves the refresh tokens alone. */
  lemma ConsentStepsKeepLedger(env: Env, s: Store, cmd: Command, now: int)
    requires !cmd.ExchangeCode? && !cmd.RefreshTokens? && !cmd.RevokeToken? && !cmd.RevokeConsent?
    ensures Execute(env, s, cmd, now).store.ledger == s.ledger
  {
    hide FromString, RequestCheck, FindOpenRequest, Submitted, Authorized, Activated, DoExchangeCode, DoRefreshTokens,
         DoRevokeToken, DoRevokeConsent;
    if cmd.ExpireConsents? { ExpiryTouchesNoToken(s, cmd.candidates, now); }
  }

  lemma ExchangeKeepsExpiry(env: Env, s: Store, cmd: Command, now: int, id: Id)
    requires Inv(env, s) && id in s.ledger.families && cmd.ExchangeCode?
    ensures var t := DoExchangeCode(env, s, cmd, now).store.ledger;
            id in t.families && t.families[id].expiresAt == s.ledger.families[id].expiresAt
  {
    hide ConsentsInv, RequestsInv, CodesInv, FamiliesInv, AccessInv, VersionsInv, LedgerInv, ExchangeCheck, Activated;
    FreshHash(s.ledger, s.nextId, s.nextId);
  }

  lemma RevocationKeepsExpiry(env: Env, s: Store, cmd: Command, now: int, id: Id)
    requires Inv(env, s) && id in s.ledger.families && (cmd.RevokeToken? || cmd.RevokeConsent?)
    ensures var t := Execute(env, s, cmd, now).store.ledger;
            id in t.families && t.families[id].expiresAt == s.ledger.families[id].expiresAt
  {
    hide ConsentsInv, RequestsInv, CodesInv, FamiliesInv, AccessInv, VersionsInv, LedgerInv, AuthenticatedClient,
         FindAccessTokenByJti, FindFamilyByHash, Revoked;
    if cmd.RevokeToken? && cmd.presented.OpaqueToken? {
      LookupIsScan(s.ledger, s.nextId, Digest(cmd.presented.token));
    }
  }

  lemma RefreshMovesExpiry(env: Env, s: Store, cmd: Command, now: int, id: Id)
    requires Inv(env, s) && id in s.ledger.families && cmd.RefreshTokens?
    ensures var done := DoRefreshTokens(env, s, cmd, now);
            && id in done.store.ledger.families
            && (done.store.ledger.families[id].expiresAt == s.ledger.families[id].expiresAt
                || (done.reply.TokensRefreshed? && done.reply.familyId == id))
  {
    hide ConsentsInv, RequestsInv, CodesInv, FamiliesInv, AccessInv, VersionsInv, LedgerInv, AuthenticatedClient,
         FindFamilyByHash, RefreshCheck;
    LookupIsScan(s.ledger, s.nextId, Digest(cmd.refreshToken));
  }

  /** Only an accepted refresh of the family moves its expiry. */
  lemma ExpiryMovesOnlyByRotation(env: Env, s: Store, cmd: Command, now: int, id: Id)
    requires Inv(env, s) && id in s.ledger.families
    ensures id in Execute(env, s, cmd, now).store.ledger.families
    ensures var done := Execute(env, s, cmd, now);
            done.store.ledger.families[id].expiresAt == s.ledger.families[id].expiresAt
            || (cmd.RefreshTokens? && done.reply.TokensRefreshed? && done.reply.familyId == id)
  {
    hide Inv, DoExchangeCode, DoRefreshTokens, DoRevokeToken, DoRevokeConsent, DoCreateConsent, DoCreateAuthorizationRequest,
         DoAuthorizeConsent, DoActivateConsent, DoExpireConsents;
    if cmd.RefreshTokens? {
      RefreshMovesExpiry(env, s, cmd, now, id);
    } else if cmd.ExchangeCode? {
      ExchangeKeepsExpiry(env, s, cmd, now, id);
    } else if cmd.RevokeToken? || cmd.RevokeConsent? {
      RevocationKeepsExpiry(env, s, cmd, now, id);
    } else {
      ConsentStepsKeepLedger(env, s, cmd, now);
    }
  }

  /** Expiring consents revokes no token: the families and access tokens are left as they are. */
  lemma {:induction false} ExpiryTouchesNoToken(s: Store, candidates: seq<Id>, now: int)
    ensures var t := DoExpireConsents(s, candidates, now).store;
            t.ledger == s.ledger && t.access == s.access && t.codes == s.codes && t.requests == s.requests
    decreases |candidates|
  {
    if candidates != [] {
      var one := ExpireOne(s, candidates[0], now);
      ExpiryTouchesNoToken(if one.Some? then one.value else s, candidates[1..], now);
    }
  }

  lemma DeadStays(env: Env, s: Store, r: Request, id: Id, at: int)
    requires Inv(env, s) && Dead(s, id, at) && (IsFamilyRevoked(s.ledger.families[id]) || at <= r.now)
    ensures Dead(Step(env, s, r).store, id, at)
    ensures IsFamilyRevoked(s.ledger.families[id]) ==> IsFamilyRevoked(Step(env, s, r).store.ledger.families[id])
    ensures r.command.RefreshTokens? && Step(env, s, r).reply.TokensRefreshed? ==> Step(env, s, r).reply.familyId != id
  {
    hide Inv, Execute, ConsentsEvolve, RequestsEvolve, CodesEvolve, AccessTokensEvolve;
    StepEvolves(env, s, r);
    ExpiryMovesOnlyByRotation(env, s, r.command, r.now, id);
    if r.command.RefreshTokens? && Step(env, s, r).reply.TokensRefreshed? {
      AcceptanceRetires(env, s, r, Step(env, s, r).reply.familyId);
    }
    var done := Execute(env, s, r.command, r.now);
    if r.command.RefreshTokens? && done.reply.TokensRefreshed? {
      AcceptanceRetires(env, s, r.(commits := true), done.reply.familyId);
    }
  }

  lemma {:induction false} DeadForever(env: Env, run: Run, j: nat, n: nat, id: Id, at: int)
    requires j <= n <= |run| && Dead(StateAt(env, run, j), id, at)
    requires IsFamilyRevoked(StateAt(env, run, j).ledger.families[id]) || forall m | j <= m < |run| :: at <= run[m].now
    ensures Dead(StateAt(env, run, n), id, at)
    ensures IsFamilyRevoked(StateAt(env, run, j).ledger.families[id])
            ==> IsFamilyRevoked(StateAt(env, run, n).ledger.families[id])
    ensures n < |run| && run[n].command.RefreshTokens? && ReplyAt(env, run, n).TokensRefreshed?
            ==> ReplyAt(env, run, n).familyId != id
    decreases n
  {
    hide Inv, Step;
    if j < n {
      DeadForever(env, run, j, n - 1, id, at);
      ReachableInv(env, run, n - 1);
      DeadStays(env, StateAt(env, run, n - 1), run[n - 1], id, at);
    }
    if n < |run| {
      ReachableInv(env, run, n);
      DeadStays(env, StateAt(env, run, n), run[n], id, at);
    }
  }

  /** Where a refused refresh leaves the tables. */
  lemma RefusedRefresh(env: Env, s: Store, cmd: Command, now: int, id: Id)
    requires cmd.RefreshTokens? && DoRefreshTokens(env, s, cmd, now).reply.Refused?
    ensures var done := DoRefreshTokens(env, s, cmd, now);
            if done.reply == Refused(TokenReuseDetected(id)) then id in s.ledger.families && done.store == HandleReuse(s, id, now)
            else done.reply.error.TokenReuseDetected? || done.store == s
  {
    hide RotateFamily, HandleReuse, AuthenticatedClient;
  }

  /** A used token presented by its authenticated owner is never accepted, nor is the consent looked at. */
  lemma UsedTokenRefused(env: Env, s: Store, cmd: Command, now: int, id: Id)
    requires Inv(env, s) && cmd.RefreshTokens? && OwnerOf(s.ledger, Digest(cmd.refreshToken)) == Some(id)
    requires s.ledger.rows[Digest(cmd.refreshToken)].usedAt.Some?
    ensures id in s.ledger.families
    ensures DoRefreshTokens(env, s, cmd, now).reply in
              {Refused(InvalidClient), Refused(RefreshClientMismatch), Refused(TokenReuseDetected(id)), Refused(RefreshExpired)}
    ensures DoRefreshTokens(env, s, cmd, now).reply == Refused(RefreshExpired) ==> s.ledger.families[id].expiresAt <= now
  {
    hide ConsentsInv, RequestsInv, CodesInv, FamiliesInv, AccessInv, VersionsInv, OneRowEach, AllGenerations, FindFamilyByHash,
         RotateFamily, HandleReuse, AuthenticatedClient;
    LookupIsScan(s.ledger, s.nextId, Digest(cmd.refreshToken));
    assert RowOk(s.ledger, Digest(cmd.refreshToken)) && FamilyOk(s.ledger, id);
  }

  /** What presenting an already used token does in one step. */
  lemma ReusedTokenLocks(env: Env, s: Store, r: Request, id: Id)
    requires Inv(env, s) && r.command.RefreshTokens?
    requires OwnerOf(s.ledger, Digest(r.command.refreshToken)) == Some(id)
    requires s.ledger.rows[Digest(r.command.refreshToken)].usedAt.Some?
    requires Step(env, s, r).reply !in {Refused(InvalidClient), Refused(RefreshClientMismatch), Refused(StorageFailure)}
    ensures Step(env, s, r).reply in {Refused(TokenReuseDetected(id)), Refused(RefreshExpired)}
    ensures Dead(Step(env, s, r).store, id, r.now)
    ensures Step(env, s, r).reply == Refused(TokenReuseDetected(id))
            ==> IsFamilyRevoked(Step(env, s, r).store.ledger.families[id])
                && Step(env, s, r).store.ledger.families[id].reuseDetectedAt == Some(r.now)
  {
    hide Inv, DoRefreshTokens;
    UsedTokenRefused(env, s, r.command, r.now, id);
    RefusedRefresh(env, s, r.command, r.now, id);
  }

  /**
   After an accepted token is presented again by its authenticated owner, no token of that
   family, old or newest, is accepted again. The reply is reuse detected, or expired when the
   family had expired first, in which case the clock must not run backwards afterwards.
   */
  lemma ReuseLocksFamily(env: Env, run: Run, i: nat, j: nat, k: nat, token: Opaque)
    requires AcceptedAt(env, run, i, token) && i < j < k < |run|
    requires run[j].command.RefreshTokens? && run[j].command.refreshToken == token
    requires ReplyAt(env, run, j) !in {Refused(InvalidClient), Refused(RefreshClientMismatch), Refused(StorageFailure)}
    requires ReplyAt(env, run, j) == Refused(RefreshExpired) ==> forall m | j < m < |run| :: run[j].now <= run[m].now
    ensures ReplyAt(env, run, j) in {Refused(TokenReuseDetected(ReplyAt(env, run, i).familyId)), Refused(RefreshExpired)}
    ensures run[k].command.RefreshTokens?
            && OwnerOf(StateAt(env, run, k).ledger, Digest(run[k].command.refreshToken))
               == Some(ReplyAt(env, run, i).familyId)
            ==> !ReplyAt(env, run, k).TokensRefreshed?
  {
    hide Inv, Step;
    var id := ReplyAt(env, run, i).familyId;
    AcceptedStaysUsed(env, run, i, j, token);
    ReachableInv(env, run, j);
    ReusedTokenLocks(env, StateAt(env, run, j), run[j], id);
    DeadForever(env, run, j + 1, k, id, run[j].now);
    if run[k].command.RefreshTokens? && ReplyAt(env, run, k).TokensRefreshed? {
      ReachableInv(env, run, k);
      AcceptanceRetires(env, StateAt(env, run, k), run[k], ReplyAt(env, run, k).familyId);
    }
  }

  // ---------------------------------------------------------------- revoked and expired consents

  /** Tokens are handed out only by the exchange and the refresh. */
  lemma OtherRepliesIssueNothing(env: Env, s: Store, cmd: Command, now: int)
    ensures var reply := Execute(env, s, cmd, now).reply;
            (reply.TokensIssued? ==> cmd.ExchangeCode?) && (reply.TokensRefreshed? ==> cmd.RefreshTokens?)
  {
  }

  /** And only under a live consent. */
  lemma IssueNeedsLiveConsent(env: Env, s: Store, r: Request)
    requires Inv(env, s)
    ensures var reply := Step(env, s, r).reply;
            && (reply.TokensIssued? ==> r.command.ExchangeCode? && reply.consentId in s.consents
                                        && s.consents[reply.consentId].status in {AUTHORIZED, ACTIVE})
            && (reply.TokensRefreshed? ==>
                  && r.command.RefreshTokens? && reply.familyId in s.ledger.families
                  && s.ledger.families[reply.familyId].consentId in s.consents
                  && s.consents[s.ledger.families[reply.familyId].consentId].status == ACTIVE)
  {
    hide Inv;
    OtherRepliesIssueNothing(env, s, r.command, r.now);
    if r.command.ExchangeCode? && Step(env, s, r).reply.TokensIssued? {
      ExchangeUsesCode(env, s, r);
    }
    if r.command.RefreshTokens? && Step(env, s, r).reply.TokensRefreshed? {
      AcceptanceRetires(env, s, r, Step(env, s, r).reply.familyId);
    }
  }

  ghost predicate GrantsTo(s: Store, reply: Reply, c: Id) {
    || (reply.TokensIssued? && reply.consentId == c)
    || (reply.TokensRefreshed? && reply.familyId in s.ledger.families && s.ledger.families[reply.familyId].consentId == c)
  }

  /** Under a terminal consent, revoked or expired, no code is exchanged and no family refreshed, then or later. */
  lemma TerminalConsentGrantsNothing(env: Env, run: Run, i: nat, n: nat, c: Id)
    requires i <= n < |run|
    requires c in StateAt(env, run, i).consents && IsTerminalConsent(StateAt(env, run, i).consents[c].status)
    ensures !GrantsTo(StateAt(env, run, n), ReplyAt(env, run, n), c)
    ensures c in StateAt(env, run, n).consents && StateAt(env, run, n).consents[c] == StateAt(env, run, i).consents[c]
  {
    hide Inv, Step, RequestsEvolve, CodesEvolve, AccessTokensEvolve, LedgerEvolves;
    RunEvolves(env, run, i, n);
    ReachableInv(env, run, n);
    IssueNeedsLiveConsent(env, StateAt(env, run, n), run[n]);
  }

  /**
   Once a consent is REVOKED it stays so, every access token and family bound to it is
   revoked, in that state and in all later ones, and no access decision on it is allowed.
   */
  lemma RevokedConsentIsDead(env: Env, run: Run, i: nat, n: nat, c: Id, claims: TokenClaims, scope: Scope,
                             accountId: Option<string>, institution: Option<string>, now: int)
    requires i <= n <= |run|
    requires c in StateAt(env, run, i).consents && StateAt(env, run, i).consents[c].status == REVOKED
    ensures var s := StateAt(env, run, n);
            && c in s.consents && s.consents[c] == StateAt(env, run, i).consents[c]
            && (forall id | id in s.ledger.families && s.ledger.families[id].consentId == c :: IsFamilyRevoked(s.ledger.families[id]))
            && (forall id | id in s.access && s.access[id].consentId == c :: s.access[id].revokedAt.Some?)
            && DecideAccountAccess(claims, s.consents[c], scope, accountId, institution, now) != Allowed
  {
    hide ConsentsInv, RequestsInv, CodesInv, FamiliesInv, AccessInv, LedgerInv, VersionsInv, Step, RequestsEvolve,
         CodesEvolve, AccessTokensEvolve, LedgerEvolves;
    var s := StateAt(env, run, n);
    RunEvolves(env, run, i, n);
    ReachableInv(env, run, n);
    assert ConsentEvolves(StateAt(env, run, i).consents[c], s.consents[c]);
    forall id | id in s.ledger.families && s.ledger.families[id].consentId == c
      ensures IsFamilyRevoked(s.ledger.families[id])
    {
      FamilyFacts(s.ledger.families, s.codes, s.consents, id);
    }
    forall id | id in s.access && s.access[id].consentId == c ensures s.access[id].revokedAt.Some? {
      AccessFacts(s.access, s.codes, s.consents, s.nextId, id);
    }
  }

  // ---------------------------------------------------------------- expiry batch

  ghost predicate Due(s: Store, id: Id, now: int) {
    id in s.consents && !IsTerminalConsent(s.consents[id].status) && s.consents[id].expiresAt <= now
  }

  /** A due candidate is expired, and nothing else changes among the consents. */
  lemma ExpireDue(env: Env, s: Store, id: Id, now: int)
    requires Inv(env, s) && Due(s, id, now)
    ensures ExpireOne(s, id, now).Some? && Inv(env, ExpireOne(s, id, now).value)
    ensures var t := ExpireOne(s, id, now).value;
            && t.consents.Keys == s.consents.Keys && t.consents[id].status == EXPIRED
            && forall c | c in s.consents && c != id :: t.consents[c] == s.consents[c]
  {
    hide ConsentsInv, RequestsInv, CodesInv, FamiliesInv, AccessInv, LedgerInv, VersionsInv;
    ConsentFacts(s.consents, s.nextId, id);
    ExpireOneKeeps(env, s, id, now);
  }

  /**
   The expiry loop over any distinct due candidates expires all of them, in order: no stored
   consent is DRAFT, so the batch never throws half way.
   */
  lemma {:induction false} ExpiryBatchCompletes(env: Env, s: Store, candidates: seq<Id>, now: int)
    requires Inv(env, s)
    requires forall k | 0 <= k < |candidates| :: Due(s, candidates[k], now)
    requires forall k, m | 0 <= k < m < |candidates| :: candidates[k] != candidates[m]
    ensures DoExpireConsents(s, candidates, now).reply == ConsentsExpired(candidates)
    ensures var t := DoExpireConsents(s, candidates, now).store;
            && t.consents.Keys == s.consents.Keys
            && forall id | id in s.consents ::
                 if id in candidates then t.consents[id].status == EXPIRED else t.consents[id] == s.consents[id]
    decreases |candidates|
  {
    hide Inv, ExpireOne;
    if candidates != [] {
      var id := candidates[0];
      assert Due(s, id, now);
      ExpireDue(env, s, id, now);
      var t := ExpireOne(s, id, now).value;
      forall k | 0 <= k < |candidates[1..]| ensures Due(t, candidates[1..][k], now) {
        assert Due(s, candidates[k + 1], now);
      }
      ExpiryBatchCompletes(env, t, candidates[1..], now);
      assert candidates == [id] + candidates[1..];
    }
  }

  // ---------------------------------------------------------------- once per consent

  /** A consent yields at most one authorization code. */
  lemma OneCodePerConsent(env: Env, run: Run, i: nat, j: nat)
    requires i < |run| && j < |run| && run[i].command.AuthorizeConsent? && run[j].command.AuthorizeConsent?
    requires ReplyAt(env, run, i).ConsentAuthorized? && ReplyAt(env, run, j).ConsentAuthorized?
    requires ReplyAt(env, run, i).consentId == ReplyAt(env, run, j).consentId
    ensures i == j
  {
    hide Inv, Step, RequestsEvolve, CodesEvolve, AccessTokensEvolve, LedgerEvolves;
    var first, last := if i < j then i else j, if i < j then j else i;
    if first < last {
      ReachableInv(env, run, first);
      ReachableInv(env, run, last);
      AuthorizeGrants(env, StateAt(env, run, first), run[first]);
      AuthorizeGrants(env, StateAt(env, run, last), run[last]);
      RunEvolves(env, run, first + 1, last);
    }
  }

  lemma AuthorizeGrants(env: Env, s: Store, r: Request)
    requires Inv(env, s) && r.command.AuthorizeConsent? && Step(env, s, r).reply.ConsentAuthorized?
    ensures var c := Step(env, s, r).reply.consentId;
            && c in s.consents && s.consents[c].status == AWAITING_AUTHORIZATION
            && c in Step(env, s, r).store.consents && Step(env, s, r).store.consents[c].status == AUTHORIZED
  {
    hide RequestsInv, CodesInv, FamiliesInv, AccessInv, LedgerInv, VersionsInv;
  }

  lemma ExchangeUsesCode(env: Env, s: Store, r: Request)
    requires Inv(env, s) && r.command.ExchangeCode? && Step(env, s, r).reply.TokensIssued?
    ensures var h := Digest(r.command.code); var t := Step(env, s, r).store;
            && h in s.codes && s.codes[h].consentId == Step(env, s, r).reply.consentId && s.codes[h].usedAt == None
            && h in t.codes && t.codes[h].usedAt.Some? && Step(env, s, r).reply.scopes == s.codes[h].scopes
            && Step(env, s, r).reply.consentId in s.consents
            && ExchangeCheck(env, s, r.command, r.now) == None
  {
    hide RequestsInv, CodesInv, FamiliesInv, AccessInv, LedgerInv, VersionsInv;
  }

  /** A consent yields at most one successful exchange. */
  lemma OneExchangePerConsent(env: Env, run: Run, i: nat, j: nat)
    requires i < |run| && j < |run| && run[i].command.ExchangeCode? && run[j].command.ExchangeCode?
    requires ReplyAt(env, run, i).TokensIssued? && ReplyAt(env, run, j).TokensIssued?
    requires ReplyAt(env, run, i).consentId == ReplyAt(env, run, j).consentId
    ensures i == j
  {
    hide ConsentsInv, RequestsInv, FamiliesInv, AccessInv, LedgerInv, VersionsInv, CodeOk, Step, ConsentsEvolve,
         RequestsEvolve, AccessTokensEvolve, LedgerEvolves;
    var first, last := if i < j then i else j, if i < j then j else i;
    if first < last {
      ReachableInv(env, run, first);
      ReachableInv(env, run, last);
      ExchangeUsesCode(env, StateAt(env, run, first), run[first]);
      ExchangeUsesCode(env, StateAt(env, run, last), run[last]);
      var g, h := Digest(run[first].command.code), Digest(run[last].command.code);
      RunEvolves(env, run, first, last);
      assert CodeEvolves(StateAt(env, run, first).codes[g], StateAt(env, run, last).codes[g]);
      RunEvolves(env, run, first + 1, last);
    }
  }

  /** At every point of a run a consent has at most one code and at most one family. */
  lemma OneFamilyPerConsent(env: Env, run: Run, n: nat)
    requires n <= |run|
    ensures var s := StateAt(env, run, n);
            && (forall i, j | i in s.ledger.families && j in s.ledger.families ::
                  s.ledger.families[i].consentId == s.ledger.families[j].consentId ==> i == j)
            && (forall g, h | g in s.codes && h in s.codes :: s.codes[g].consentId == s.codes[h].consentId ==> g == h)
            && (forall id | id in s.ledger.families ::
                  exists h :: IsUsedCode(s.codes, h, s.ledger.families[id].consentId))
  {
    hide ConsentsInv, RequestsInv, AccessInv, LedgerInv, VersionsInv, CodeOk, Step;
    ReachableInv(env, run, n);
  }

  // ---------------------------------------------------------------- scopes

  /**
   Every access token and family carries exactly the granted scopes of its consent, which
   are non-empty and inside both the requested scopes and the client's allowed scopes; every
   family holds offline_access.
   */
  lemma TokenScopesBounded(env: Env, run: Run, n: nat, c: Id, scopes: set<Scope>)
    requires EnvOk(env) && n <= |run|
    requires var s := StateAt(env, run, n);
             || (exists id :: id in s.access && s.access[id].consentId == c && s.access[id].scopes == scopes)
             || (exists id :: id in s.ledger.families && s.ledger.families[id].consentId == c
                              && s.ledger.families[id].scopes == scopes)
    ensures var s := StateAt(env, run, n);
            && c in s.consents && s.consents[c].grantedScopes == Some(scopes)
            && scopes != {} && scopes <= s.consents[c].requestedScopes
            && (forall key | key in env.clients && env.clients[key].id == s.consents[c].clientId ::
                  scopes <= env.clients[key].allowedScopes)
            && (forall id | id in s.ledger.families && s.ledger.families[id].consentId == c ::
                  s.ledger.families[id].scopes == scopes && OFFLINE_ACCESS in scopes)
  {
    hide ConsentsInv, RequestsInv, CodesInv, FamiliesInv, AccessInv, LedgerInv, VersionsInv, Step;
    ReachableInv(env, run, n);
    var s := StateAt(env, run, n);
    if id :| id in s.access && s.access[id].consentId == c && s.access[id].scopes == scopes {
      AccessFacts(s.access, s.codes, s.consents, s.nextId, id);
    } else {
      var id :| id in s.ledger.families && s.ledger.families[id].consentId == c && s.ledger.families[id].scopes == scopes;
      FamilyFacts(s.ledger.families, s.codes, s.consents, id);
    }
    ConsentFacts(s.consents, s.nextId, c);
    var h :| IsUsedCode(s.codes, h, c);
    CodeFacts(s.codes, s.requests, s.consents, s.nextId, h);
    var r :| Backs(s.requests, r, s.codes[h]);
    RequestFacts(env, s.requests, s.consents, s.nextId, r);
    forall id | id in s.ledger.families && s.ledger.families[id].consentId == c
      ensures s.ledger.families[id].scopes == scopes && OFFLINE_ACCESS in scopes
    {
      FamilyFacts(s.ledger.families, s.codes, s.consents, id);
    }
  }

  // ---------------------------------------------------------------- provenance

  /** Step `i` of the run is the authorization request that request row `q` records. */
  ghost predicate RequestedAt(env: Env, run: Run, i: nat, q: AuthRequest) {
    && i < |run| && run[i].command.CreateAuthorizationRequest?
    && ReplyAt(env, run, i) == ConsentCreated(q.consentId)
    && var cmd := run[i].command;
       && cmd.clientId in env.clients && env.clients[cmd.clientId].isActive && env.clients[cmd.clientId].id == q.clientId
       && cmd.redirectUri == q.redirectUri && cmd.redirectUri in env.clients[cmd.clientId].redirectUris
       && cmd.challenge == Some(q.challenge)
       && q.challengeMethod == (if cmd.challengeMethod.Some? then cmd.challengeMethod.value else "S256")
       && FromString(cmd.scopeText) == Some(q.scopes) && q.scopes <= env.clients[cmd.clientId].allowedScopes
  }

  /** Only an authorization request adds a request row, and only an authorization adds a code. */
  lemma RowsComeFrom(env: Env, s: Store, cmd: Command, now: int)
    ensures var t := Execute(env, s, cmd, now).store;
            && (!cmd.CreateAuthorizationRequest? ==> t.requests.Keys == s.requests.Keys)
            && (!cmd.AuthorizeConsent? && !cmd.ExchangeCode? ==> t.codes == s.codes)
            && (!cmd.AuthorizeConsent? ==> t.codes.Keys == s.codes.Keys)
  {
    hide DoCreateConsent, DoCreateAuthorizationRequest, DoAuthorizeConsent, DoActivateConsent, DoExchangeCode,
         DoRefreshTokens, DoRevokeToken, DoRevokeConsent, DoExpireConsents;
    match cmd {
      case CreateConsent(_, _, _, _, _, _) => CreationAddsNoCode(env, s, cmd, now);
      case CreateAuthorizationRequest(_, _, _, _, _, _, _, _) => CreationAddsNoCode(env, s, cmd, now);
      case AuthorizeConsent(_, _, _, _) => AuthorizeAddsNoRequest(s, cmd, now);
      case ActivateConsent(_, _) => StatusChangeAddsNoRow(s, cmd, now);
      case ExchangeCode(_, _, _, _, _) => ExchangeAddsNoRow(env, s, cmd, now);
      case RefreshTokens(_, _, _) => RefreshAddsNoRow(env, s, cmd, now);
      case RevokeToken(_, _, _) => RevocationAddsNoRow(env, s, cmd, now);
      case RevokeConsent(_, _) => StatusChangeAddsNoRow(s, cmd, now);
      case ExpireConsents(candidates) => ExpiryTouchesNoToken(s, candidates, now);
    }
  }

  lemma CreationAddsNoCode(env: Env, s: Store, cmd: Command, now: int)
    ensures cmd.CreateConsent? ==> DoCreateConsent(s, cmd, now).store.codes == s.codes
                                   && DoCreateConsent(s, cmd, now).store.requests == s.requests
    ensures cmd.CreateAuthorizationRequest? ==> DoCreateAuthorizationRequest(env, s, cmd, now).store.codes == s.codes
  {
  }

  lemma StatusChangeAddsNoRow(s: Store, cmd: Command, now: int)
    ensures cmd.ActivateConsent? ==> DoActivateConsent(s, cmd, now).store.codes == s.codes
                                     && DoActivateConsent(s, cmd, now).store.requests == s.requests
    ensures cmd.RevokeConsent? ==> DoRevokeConsent(s, cmd, now).store.codes == s.codes
                                   && DoRevokeConsent(s, cmd, now).store.requests == s.requests
  {
  }

  lemma ExchangeAddsNoRow(env: Env, s: Store, cmd: Command, now: int)
    requires cmd.ExchangeCode?
    ensures var t := DoExchangeCode(env, s, cmd, now).store; t.requests == s.requests && t.codes.Keys == s.codes.Keys
  {
    hide ExchangeCheck, SaveFamily;
    if ExchangeCheck(env, s, cmd, now).None? { ExchangeReads(env, s, cmd, now); }
  }

  /** What the checks of the exchange establish about the rows its transaction reads. */
  lemma ExchangeReads(env: Env, s: Store, cmd: Command, now: int)
    requires cmd.ExchangeCode? && ExchangeCheck(env, s, cmd, now) == None
    ensures Digest(cmd.code) in s.codes && s.codes[Digest(cmd.code)].consentId in s.consents
  {
  }

  lemma RefreshAddsNoRow(env: Env, s: Store, cmd: Command, now: int)
    requires cmd.RefreshTokens?
    ensures var t := DoRefreshTokens(env, s, cmd, now).store; t.requests == s.requests && t.codes == s.codes
  {
    hide Rotate, MarkReuseDetected, RevokeFamily, FindFamilyByHash, AuthenticatedClient, RefreshCheck;
  }

  lemma RevocationAddsNoRow(env: Env, s: Store, cmd: Command, now: int)
    requires cmd.RevokeToken?
    ensures var t := DoRevokeToken(env, s, cmd, now).store; t.requests == s.requests && t.codes == s.codes
  {
  }

  lemma AuthorizeAddsNoRequest(s: Store, cmd: Command, now: int)
    requires cmd.AuthorizeConsent?
    ensures DoAuthorizeConsent(s, cmd, now).store.requests.Keys == s.requests.Keys
  {
  }

  lemma NewRequestIsRequested(env: Env, s: Store, r: Request, id: Id)
    requires id !in s.requests && id in Step(env, s, r).store.requests
    ensures var q := Step(env, s, r).store.requests[id]; var cmd := r.command;
            && cmd.CreateAuthorizationRequest? && Step(env, s, r).reply == ConsentCreated(q.consentId)
            && cmd.clientId in env.clients && env.clients[cmd.clientId].isActive && env.clients[cmd.clientId].id == q.clientId
            && cmd.redirectUri == q.redirectUri && cmd.redirectUri in env.clients[cmd.clientId].redirectUris
            && cmd.challenge == Some(q.challenge)
            && q.challengeMethod == (if cmd.challengeMethod.Some? then cmd.challengeMethod.value else "S256")
            && FromString(cmd.scopeText) == Some(q.scopes) && q.scopes <= env.clients[cmd.clientId].allowedScopes
  {
    RowsComeFrom(env, s, r.command, r.now);
  }

  /** Every request row was created by one successful authorization request of the run. */
  lemma {:induction false} OriginOfRequest(env: Env, run: Run, n: nat, id: Id) returns (i: nat)
    requires n <= |run| && id in StateAt(env, run, n).requests
    ensures i < n && RequestedAt(env, run, i, StateAt(env, run, n).requests[id])
    decreases n
  {
    hide Inv, Step, ConsentsEvolve, CodesEvolve, AccessTokensEvolve, LedgerEvolves;
    assert n > 0;
    var s := StateAt(env, run, n - 1);
    ReachableInv(env, run, n - 1);
    if id in s.requests {
      i := OriginOfRequest(env, run, n - 1, id);
      StepEvolves(env, s, run[n - 1]);
      assert RequestEvolves(s.requests[id], StateAt(env, run, n).requests[id]);
    } else {
      NewRequestIsRequested(env, s, run[n - 1], id);
      i := n - 1;
    }
  }

  /** Step `m` of the run is the user's authorization that issued code `code` as `k` records it. */
  ghost predicate GrantedAt(env: Env, run: Run, m: nat, code: Id, k: AuthCode) {
    && m < |run| && run[m].command.AuthorizeConsent?
    && ReplyAt(env, run, m) == ConsentAuthorized(k.consentId, code)
    && var s := StateAt(env, run, m); var cmd := run[m].command;
       && k.consentId in s.consents && s.consents[k.consentId].userId == cmd.actorUserId && k.userId == cmd.actorUserId
       && FromString(cmd.grantedText).Some?
       && k.scopes == FromString(cmd.grantedText).value * s.consents[k.consentId].requestedScopes && k.scopes != {}
       && exists r :: IsOpenRequest(s, r, k.consentId)
  }

  lemma NewCodeIsGranted(env: Env, s: Store, r: Request, h: Digest<Id>)
    requires Inv(env, s) && h !in s.codes && h in Step(env, s, r).store.codes
    ensures var k := Step(env, s, r).store.codes[h]; var cmd := r.command;
            && cmd.AuthorizeConsent? && Step(env, s, r).reply == ConsentAuthorized(k.consentId, h.preimage)
            && k.consentId in s.consents && s.consents[k.consentId].userId == cmd.actorUserId && k.userId == cmd.actorUserId
            && FromString(cmd.grantedText).Some?
            && k.scopes == FromString(cmd.grantedText).value * s.consents[k.consentId].requestedScopes && k.scopes != {}
            && exists r :: IsOpenRequest(s, r, k.consentId)
  {
    hide RequestsInv, CodesInv, FamiliesInv, AccessInv, LedgerInv, VersionsInv;
    RowsComeFrom(env, s, r.command, r.now);
  }

  /** Every code was issued by one authorization of the run, by the user the consent belongs to. */
  lemma {:induction false} OriginOfCode(env: Env, run: Run, n: nat, h: Digest<Id>) returns (m: nat)
    requires n <= |run| && h in StateAt(env, run, n).codes
    ensures m < n && GrantedAt(env, run, m, h.preimage, StateAt(env, run, n).codes[h])
    decreases n
  {
    hide Inv, Step, ConsentsEvolve, RequestsEvolve, AccessTokensEvolve, LedgerEvolves;
    assert n > 0;
    var s := StateAt(env, run, n - 1);
    ReachableInv(env, run, n - 1);
    if h in s.codes {
      m := OriginOfCode(env, run, n - 1, h);
      StepEvolves(env, s, run[n - 1]);
      assert CodeEvolves(s.codes[h], StateAt(env, run, n).codes[h]);
    } else {
      NewCodeIsGranted(env, s, run[n - 1], h);
      m := n - 1;
    }
  }

  /**
   Every successful exchange, at step j, traces back to an authorization of the same consent
   by its user at an earlier step m, which issued the presented code, and to a still earlier
   request at step i by the same client for the same redirect URI. The presented verifier is the
   challenge of that request under the method "plain", and the S256 transform takes it to the
   challenge under any other. The issued scopes are what the user granted out of what that
   request asked, within what the client may have.
   */
  lemma ExchangeProvenance(env: Env, run: Run, j: nat) returns (i: nat, m: nat)
    requires EnvOk(env) && j < |run| && run[j].command.ExchangeCode? && ReplyAt(env, run, j).TokensIssued?
    ensures i < m < j && run[i].command.CreateAuthorizationRequest? && run[m].command.AuthorizeConsent?
    ensures var ask, grant, swap, reply := run[i].command, run[m].command, run[j].command, ReplyAt(env, run, j);
            && ReplyAt(env, run, i) == ConsentCreated(reply.consentId)
            && ReplyAt(env, run, m) == ConsentAuthorized(reply.consentId, swap.code)
            && ask.clientId == swap.clientId && Proves(env, swap.clientId, swap.clientSecret)
            && ask.redirectUri == swap.redirectUri && ask.redirectUri in env.clients[ask.clientId].redirectUris
            && ask.challenge.Some? && swap.verifier.Some?
            && (ask.challengeMethod == Some("plain") ==> swap.verifier == ask.challenge)
            && (ask.challengeMethod != Some("plain") ==>
                  swap.verifier.value != "" && ask.challenge.value != "" && env.s256(swap.verifier.value) == ask.challenge.value)
            && FromString(ask.scopeText).Some? && FromString(grant.grantedText).Some?
            && reply.scopes == FromString(grant.grantedText).value * FromString(ask.scopeText).value
            && reply.scopes != {} && reply.scopes <= env.clients[ask.clientId].allowedScopes
            && reply.consentId in StateAt(env, run, m).consents
            && StateAt(env, run, m).consents[reply.consentId].userId == grant.actorUserId
  {
    hide ConsentsInv, RequestsInv, CodesInv, FamiliesInv, AccessInv, LedgerInv, VersionsInv, Step, ConsentsEvolve,
         CodesEvolve, AccessTokensEvolve, LedgerEvolves;
    AuthenticatedExactly(env, run[j].command.clientId, run[j].command.clientSecret);
    var s := StateAt(env, run, j);
    var h := Digest(run[j].command.code);
    ReachableInv(env, run, j);
    ExchangeUsesCode(env, s, run[j]);
    CodeFacts(s.codes, s.requests, s.consents, s.nextId, h);
    m := OriginOfCode(env, run, j, h);
    var r :| Backs(s.requests, r, s.codes[h]);
    RequestFacts(env, s.requests, s.consents, s.nextId, r);
    assert r in StateAt(env, run, m).requests by { BackingRequestIsOlder(env, run, m, j, r, s.codes[h].consentId); }
    i := OriginOfRequest(env, run, m, r);
    RunEvolves(env, run, m, j);
    assert RequestEvolves(StateAt(env, run, m).requests[r], s.requests[r]);
    ReachableInv(env, run, m);
    var t := StateAt(env, run, m);
    RequestFacts(env, t.requests, t.consents, t.nextId, r);
  }

  /** The request row of a consent at a later state is the open one the authorization found. */
  lemma BackingRequestIsOlder(env: Env, run: Run, m: nat, j: nat, r: Id, c: Id)
    requires m <= j <= |run| && exists q :: IsOpenRequest(StateAt(env, run, m), q, c)
    requires r in StateAt(env, run, j).requests && StateAt(env, run, j).requests[r].consentId == c
    ensures r in StateAt(env, run, m).requests
  {
    hide ConsentsInv, CodesInv, FamiliesInv, AccessInv, LedgerInv, VersionsInv, RequestOk, Step, ConsentsEvolve,
         CodesEvolve, AccessTokensEvolve, LedgerEvolves;
    var q: Id :| IsOpenRequest(StateAt(env, run, m), q, c);
    RunEvolves(env, run, m, j);
    ReachableInv(env, run, j);
    assert RequestEvolves(StateAt(env, run, m).requests[q], StateAt(env, run, j).requests[q]);
  }

  // ---------------------------------------------------------------- consents without a request

  /** A consent nobody requested: it can only wait or expire. */
  ghost predicate Unrequested(s: Store, c: Id) {
    && c in s.consents && s.consents[c].status in {AWAITING_AUTHORIZATION, EXPIRED}
    && s.consents[c].grantedScopes == None
    && forall r | r in s.requests :: s.requests[r].consentId != c
  }

  lemma {:induction false} ExpiryKeepsUnrequested(s: Store, candidates: seq<Id>, now: int, c: Id)
    requires Unrequested(s, c)
    requires forall k | k in s.consents :: s.consents[k].id == k
    ensures Unrequested(DoExpireConsents(s, candidates, now).store, c)
    decreases |candidates|
  {
    if candidates != [] {
      var one := ExpireOne(s, candidates[0], now);
      ExpiryKeepsUnrequested(if one.Some? then one.value else s, candidates[1..], now, c);
    }
  }

  /** A change of one consent needs an open request or a grant; there is neither. */
  lemma ChangeKeepsUnrequested(env: Env, s: Store, cmd: Command, now: int, c: Id)
    requires Inv(env, s) && Unrequested(s, c) && (cmd.AuthorizeConsent? || cmd.ActivateConsent? || cmd.RevokeConsent?)
    ensures Unrequested(Execute(env, s, cmd, now).store, c)
  {
    hide RequestsInv, CodesInv, FamiliesInv, AccessInv, LedgerInv, VersionsInv, FromString;
    RowsComeFrom(env, s, cmd, now);
  }

  lemma ConsentStepsKeepUnrequested(env: Env, s: Store, cmd: Command, now: int, c: Id)
    requires Inv(env, s) && Unrequested(s, c) && !cmd.ExchangeCode? && !cmd.RefreshTokens? && !cmd.RevokeToken?
    ensures Unrequested(Execute(env, s, cmd, now).store, c)
  {
    hide RequestsInv, CodesInv, FamiliesInv, AccessInv, LedgerInv, VersionsInv, FromString, RequestCheck, ExpireOne, DoExpireConsents,
         DoExchangeCode, DoRefreshTokens, DoRevokeToken, IssueCode, RevokeEverything;
    if cmd.ExpireConsents? {
      ExpiryKeepsUnrequested(s, cmd.candidates, now, c);
    } else if cmd.AuthorizeConsent? || cmd.ActivateConsent? || cmd.RevokeConsent? {
      ChangeKeepsUnrequested(env, s, cmd, now, c);
    }
  }

  /** Refresh and revocation save no consent. */
  lemma RotationKeepsConsents(env: Env, s: Store, cmd: Command, now: int)
    requires cmd.RefreshTokens? || cmd.RevokeToken?
    ensures var t := Execute(env, s, cmd, now).store; t.consents == s.consents && t.requests == s.requests
  {
    hide Rotate, RefreshCheck, RevocableFamily, RevocableAccessToken, FindFamilyByHash, AuthenticatedClient;
  }

  /** Token steps save no consent but the one whose code is exchanged, and that one was requested. */
  lemma TokenStepsKeepUnrequested(env: Env, s: Store, cmd: Command, now: int, c: Id)
    requires Inv(env, s) && Unrequested(s, c) && (cmd.ExchangeCode? || cmd.RefreshTokens? || cmd.RevokeToken?)
    ensures Unrequested(Execute(env, s, cmd, now).store, c)
  {
    hide RequestsInv, CodesInv, FamiliesInv, AccessInv, LedgerInv, VersionsInv, SaveFamily;
    if cmd.ExchangeCode? {
      if Digest(cmd.code) in s.codes { CodeFacts(s.codes, s.requests, s.consents, s.nextId, Digest(cmd.code)); }
      assert Execute(env, s, cmd, now) == DoExchangeCode(env, s, cmd, now);
    } else {
      RotationKeepsConsents(env, s, cmd, now);
      hide Execute;
    }
  }

  lemma StepKeepsUnrequested(env: Env, s: Store, r: Request, c: Id)
    requires Inv(env, s) && Unrequested(s, c)
    ensures Unrequested(Step(env, s, r).store, c)
  {
    hide Inv, Execute;
    if r.command.ExchangeCode? || r.command.RefreshTokens? || r.command.RevokeToken? {
      TokenStepsKeepUnrequested(env, s, r.command, r.now, c);
    } else {
      ConsentStepsKeepUnrequested(env, s, r.command, r.now, c);
    }
    CounterGrows(env, s, r.command, r.now);
  }

  /** A consent made by plain CreateConsent never leaves AWAITING_AUTHORIZATION except by expiry. */
  lemma {:induction false} PlainConsentOnlyExpires(env: Env, run: Run, i: nat, n: nat, c: Id)
    requires i < n <= |run| && run[i].command.CreateConsent? && ReplyAt(env, run, i) == ConsentCreated(c)
    ensures Unrequested(StateAt(env, run, n), c)
    decreases n
  {
    hide Inv, Step;
    if i + 1 == n {
      ReachableInv(env, run, i);
      NewPlainConsent(env, StateAt(env, run, i), run[i], c);
    } else {
      PlainConsentOnlyExpires(env, run, i, n - 1, c);
      ReachableInv(env, run, n - 1);
      StepKeepsUnrequested(env, StateAt(env, run, n - 1), run[n - 1], c);
    }
  }

  lemma NewPlainConsent(env: Env, s: Store, r: Request, c: Id)
    requires Inv(env, s) && r.command.CreateConsent? && Step(env, s, r).reply == ConsentCreated(c)
    ensures Unrequested(Step(env, s, r).store, c)
  {
    hide ConsentsInv, RequestsInv, CodesInv, FamiliesInv, AccessInv, LedgerInv, VersionsInv;
    FreshIds(s, env, s.nextId);
  }

  // ---------------------------------------------------------------- outbox

  /** At every point of a run the outbox holds, for each consent, exactly versions 2 to the current one. */
  lemma ConsentVersionsHaveNoGap(env: Env, run: Run, n: nat, c: Id, v: int)
    requires n <= |run|
    ensures var s := StateAt(env, run, n);
            v in Versions(s.outbox, ConsentAggregate, c) <==> c in s.consents && 2 <= v <= s.consents[c].version
  {
    hide ConsentsInv, RequestsInv, CodesInv, FamiliesInv, AccessInv, LedgerInv, Step;
    ReachableInv(env, run, n);
  }

  // ---------------------------------------------------------------- why the results are about serial runs

  /** The consent an exchange saves, computed from the tables it read. */
  function ExchangedConsent(read: Store, code: Id, now: int): Option<ConsentProps> {
    if Digest(code) !in read.codes || read.codes[Digest(code)].consentId !in read.consents then None
    else
      var consent := read.consents[read.codes[Digest(code)].consentId];
      if consent.status != AUTHORIZED then Some(consent)
      else match Activated(consent, now)
        case Ok(c) => Some(c)
        case Err(_) => None
  }

  /**
   No version is checked on save: for every exchange that succeeds, a revocation of its consent
   that commits between the exchange's reads and its transaction is undone, and a live access
   token stands under the revoked consent.
   */
  lemma StaleExchangeUndoesRevocation(env: Env, read: Store, cmd: Command, now: int, at: int)
    requires Inv(env, read) && cmd.ExchangeCode? && DoExchangeCode(env, read, cmd, now).reply.TokensIssued?
    ensures ExchangedConsent(read, cmd.code, now).Some?
    ensures var c := ExchangedConsent(read, cmd.code, now).value;
            var revoked := DoRevokeConsent(read, RevokeConsent(c.id, c.userId), at);
            && revoked.reply == ConsentRevoked && c.id in revoked.store.consents
            && revoked.store.consents[c.id].status == REVOKED && Digest(cmd.code) in revoked.store.codes
            && var t := IssueTokens(env, revoked.store, c, cmd.code, env.clients[cmd.clientId].id, now);
               && t.consents[c.id].status == ACTIVE
               && exists id :: id in t.access && t.access[id].consentId == c.id && t.access[id].revokedAt.None?
  {
    hide RequestsInv, CodesInv, FamiliesInv, AccessInv, VersionsInv, LedgerInv, VerifyPkce, IssueTokens, RevokeFamiliesForConsent,
         RevokeAccessTokensForConsent;
    AuthenticatedIsStored(env, cmd.clientId, cmd.clientSecret);
    ConsentFacts(read.consents, read.nextId, read.codes[Digest(cmd.code)].consentId);
    RevocationKeepsCodes(read, ExchangedConsent(read, cmd.code, now).value.id, at);
    var c := ExchangedConsent(read, cmd.code, now).value;
    var revoked := DoRevokeConsent(read, RevokeConsent(c.id, c.userId), at).store;
    IssueTokensTables(env, revoked, c, cmd.code, env.clients[cmd.clientId].id, now);
    var t := IssueTokens(env, revoked, c, cmd.code, env.clients[cmd.clientId].id, now);
    assert revoked.nextId + 2 in t.access;
  }

  lemma RevocationKeepsCodes(s: Store, id: Id, at: int)
    requires id in s.consents && s.consents[id].id == id && s.consents[id].status in {AUTHORIZED, ACTIVE}
    ensures var done := DoRevokeConsent(s, RevokeConsent(id, s.consents[id].userId), at);
            && done.reply == ConsentRevoked && done.store.codes == s.codes && id in done.store.consents
            && done.store.consents[id].status == REVOKED
  {
  }
}
