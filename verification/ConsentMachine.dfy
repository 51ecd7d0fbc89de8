/**
 The consent aggregate: its status table, its transition methods, its stored scope
 rows and the access decision that reads it.
 */
module ConsentMachine {
  import opened Basics
  import opened ScopeSets

  type Id = nat

  datatype ConsentStatus =
    | DRAFT | AWAITING_AUTHORIZATION | AUTHORIZED | ACTIVE | REVOKED | EXPIRED | REJECTED

  function ConsentTransitions(current: ConsentStatus): set<ConsentStatus> {
    match current
    case DRAFT => {AWAITING_AUTHORIZATION, REJECTED}
    case AWAITING_AUTHORIZATION => {AUTHORIZED, REJECTED, EXPIRED}
    case AUTHORIZED => {ACTIVE, REVOKED, EXPIRED}
    case ACTIVE => {REVOKED, EXPIRED}
    case REVOKED => {}
    case EXPIRED => {}
    case REJECTED => {}
  }

  predicate CanTransitionConsent(current: ConsentStatus, target: ConsentStatus) {
    target in ConsentTransitions(current)
  }

  predicate IsTerminalConsent(status: ConsentStatus) {
    status == REVOKED || status == EXPIRED || status == REJECTED
  }

  predicate IsAccessGrantingConsent(status: ConsentStatus) {
    status == AUTHORIZED || status == ACTIVE
  }

  datatype ConsentProps = ConsentProps(
    id: Id, userId: string, clientId: string, institutionId: string,
    requestedScopes: set<Scope>, purpose: string, status: ConsentStatus,
    authorizedAccountIds: set<string>, grantedScopes: Option<set<Scope>>, version: int,
    expiresAt: int, authorizedAt: Option<int>, activatedAt: Option<int>, revokedAt: Option<int>,
    createdAt: int, updatedAt: int)

  datatype ConsentError =
    | InvalidStateTransition | ScopeNotGranted | ConsentExpired | ConsentNotActive | AccountNotAuthorized

  datatype Result<+T, +E> = Ok(value: T) | Err(error: E)

  function Created(id: Id, userId: string, clientId: string, institutionId: string,
                   requestedScopes: set<Scope>, purpose: string, expiresAt: int, now: int): ConsentProps {
    ConsentProps(id, userId, clientId, institutionId, requestedScopes, purpose, DRAFT, {}, None, 1,
                 expiresAt, None, None, None, now, now)
  }

  function Submitted(c: ConsentProps, now: int): Result<ConsentProps, ConsentError> {
    if !CanTransitionConsent(c.status, AWAITING_AUTHORIZATION) then Err(InvalidStateTransition) else
      Ok(c.(status := AWAITING_AUTHORIZATION, updatedAt := now, version := c.version + 1))
  }

  function Authorized(c: ConsentProps, accountIds: set<string>, grantedScopes: set<Scope>, now: int)
    : Result<ConsentProps, ConsentError>
  {
    if !CanTransitionConsent(c.status, AUTHORIZED) then Err(InvalidStateTransition)
    else if grantedScopes * c.requestedScopes == {} then Err(ScopeNotGranted)
    else Ok(c.(authorizedAccountIds := accountIds, grantedScopes := Some(grantedScopes * c.requestedScopes),
               status := AUTHORIZED, authorizedAt := Some(now), updatedAt := now, version := c.version + 1))
  }

  function Activated(c: ConsentProps, now: int): Result<ConsentProps, ConsentError> {
    if !CanTransitionConsent(c.status, ACTIVE) then Err(InvalidStateTransition) else
      Ok(c.(status := ACTIVE, activatedAt := Some(now), updatedAt := now, version := c.version + 1))
  }

  function Revoked(c: ConsentProps, now: int): Result<ConsentProps, ConsentError> {
    if !CanTransitionConsent(c.status, REVOKED) then Err(InvalidStateTransition) else
      Ok(c.(status := REVOKED, revokedAt := Some(now), updatedAt := now, version := c.version + 1))
  }

  function Expired(c: ConsentProps, now: int): Result<ConsentProps, ConsentError> {
    if !CanTransitionConsent(c.status, EXPIRED) then Err(InvalidStateTransition) else
      Ok(c.(status := EXPIRED, updatedAt := now, version := c.version + 1))
  }

  predicate IsExpired(c: ConsentProps, now: int) {
    now >= c.expiresAt
  }

  /** `ensureAccess`: None when access is granted, else the error thrown. */
  function EnsureAccess(c: ConsentProps, scope: Scope, accountId: Option<string>, now: int): Option<ConsentError> {
    if IsExpired(c, now) || c.status == EXPIRED then Some(ConsentExpired)
    else if !IsAccessGrantingConsent(c.status) then Some(ConsentNotActive)
    else if !(c.grantedScopes.Some? && scope in c.grantedScopes.value) then Some(ScopeNotGranted)
    else if accountId.Some? && accountId.value !in c.authorizedAccountIds then Some(AccountNotAuthorized)
    else None
  }

  /** What no transition changes, and which way a transition can move the rest. */
  ghost predicate ConsentEvolves(c: ConsentProps, d: ConsentProps) {
    && d.id == c.id && d.userId == c.userId && d.clientId == c.clientId && d.institutionId == c.institutionId
    && d.requestedScopes == c.requestedScopes && d.expiresAt == c.expiresAt && d.createdAt == c.createdAt
    && (c.grantedScopes.Some? ==>
          d.grantedScopes == c.grantedScopes && d.authorizedAccountIds == c.authorizedAccountIds)
    && c.version <= d.version
    && (IsTerminalConsent(c.status) ==> d == c)
    && (c.status != DRAFT ==> d.status != DRAFT)
    && (c.status !in {DRAFT, AWAITING_AUTHORIZATION} ==> d.status != AWAITING_AUTHORIZATION)
  }

  /** The fields a consent may hold at each status once it has been submitted. */
  ghost predicate ConsentShape(c: ConsentProps) {
    && c.version >= 2
    && c.status !in {DRAFT, REJECTED}
    && (c.status == AWAITING_AUTHORIZATION ==> c.grantedScopes.None?)
    && (c.status in {AUTHORIZED, ACTIVE, REVOKED} ==> c.grantedScopes.Some?)
    && (c.grantedScopes.Some? ==> c.grantedScopes.value != {} && c.grantedScopes.value <= c.requestedScopes)
    && (c.status == REVOKED <==> c.revokedAt.Some?)
  }

  /** The mutable aggregate. */
  class Consent {
    const id: Id
    const userId: string
    const clientId: string
    const institutionId: string
    const requestedScopes: set<Scope>
    const purpose: string
    const expiresAt: int
    const createdAt: int
    var status: ConsentStatus
    var authorizedAccountIds: set<string>
    var grantedScopes: Option<set<Scope>>
    var version: int
    var authorizedAt: Option<int>
    var activatedAt: Option<int>
    var revokedAt: Option<int>
    var updatedAt: int

    function Props(): ConsentProps
      reads this
    {
      ConsentProps(id, userId, clientId, institutionId, requestedScopes, purpose, status, authorizedAccountIds,
                   grantedScopes, version, expiresAt, authorizedAt, activatedAt, revokedAt, createdAt, updatedAt)
    }

    constructor (props: ConsentProps)
      ensures Props() == props
    {
      id, userId, clientId, institutionId := props.id, props.userId, props.clientId, props.institutionId;
      requestedScopes, purpose := props.requestedScopes, props.purpose;
      expiresAt, createdAt := props.expiresAt, props.createdAt;
      status, authorizedAccountIds, grantedScopes := props.status, props.authorizedAccountIds, props.grantedScopes;
      version, authorizedAt, activatedAt := props.version, props.authorizedAt, props.activatedAt;
      revokedAt, updatedAt := props.revokedAt, props.updatedAt;
    }

    method SubmitForAuthorization(now: int) returns (error: Option<ConsentError>)
      modifies this
      ensures Applied(old(Props()), Submitted(old(Props()), now), error)
    {
      if !CanTransitionConsent(status, AWAITING_AUTHORIZATION) {
        return Some(InvalidStateTransition);
      }
      status := AWAITING_AUTHORIZATION;
      updatedAt := now;
      version := version + 1;
      return None;
    }

    method Authorize(accountIds: set<string>, granted: set<Scope>, now: int) returns (error: Option<ConsentError>)
      modifies this
      ensures Applied(old(Props()), Authorized(old(Props()), accountIds, granted, now), error)
    {
      if !CanTransitionConsent(status, AUTHORIZED) {
        return Some(InvalidStateTransition);
      }
      var reduced := ReduceTo(granted, requestedScopes);
      if |reduced| == 0 {
        return Some(ScopeNotGranted);
      }
      authorizedAccountIds := accountIds;
      grantedScopes := Some(reduced);
      status := AUTHORIZED;
      authorizedAt := Some(now);
      updatedAt := now;
      version := version + 1;
      return None;
    }

    method Activate(now: int) returns (error: Option<ConsentError>)
      modifies this
      ensures Applied(old(Props()), Activated(old(Props()), now), error)
    {
      if !CanTransitionConsent(status, ACTIVE) {
        return Some(InvalidStateTransition);
      }
      status := ACTIVE;
      activatedAt := Some(now);
      updatedAt := now;
      version := version + 1;
      return None;
    }

    method Revoke(now: int) returns (error: Option<ConsentError>)
      modifies this
      ensures Applied(old(Props()), Revoked(old(Props()), now), error)
    {
      if !CanTransitionConsent(status, REVOKED) {
        return Some(InvalidStateTransition);
      }
      status := REVOKED;
      revokedAt := Some(now);
      updatedAt := now;
      version := version + 1;
      return None;
    }

    method Expire(now: int) returns (error: Option<ConsentError>)
      modifies this
      ensures Applied(old(Props()), Expired(old(Props()), now), error)
    {
      if !CanTransitionConsent(status, EXPIRED) {
        return Some(InvalidStateTransition);
      }
      status := EXPIRED;
      updatedAt := now;
      version := version + 1;
      return None;
    }

    /** The object took the specified step, or threw the specified error and did not change. */
    ghost predicate Applied(before: ConsentProps, spec: Result<ConsentProps, ConsentError>, error: Option<ConsentError>)
      reads this
    {
      match spec
      case Ok(after) => error == None && Props() == after
      case Err(e) => error == Some(e) && Props() == before
    }
  }

  /**
   Every successful transition bumps the version by exactly one, keeps the identity of
   the consent, keeps the shape of a submitted one, and never leaves a terminal status.
   */
  lemma TransitionsEvolve(c: ConsentProps, d: ConsentProps, accountIds: set<string>, granted: set<Scope>, now: int)
    requires ConsentShape(c)
    requires Ok(d) in {Submitted(c, now), Authorized(c, accountIds, granted, now), Activated(c, now),
                       Revoked(c, now), Expired(c, now)}
    ensures d.version == c.version + 1 && ConsentEvolves(c, d) && ConsentShape(d)
    ensures !IsTerminalConsent(c.status)
  {
  }

  /** The status table: forward along a consent's life, REJECTED before authorization, EXPIRED once waiting, REVOKED once authorized. */
  lemma TableExactly(current: ConsentStatus, target: ConsentStatus)
    ensures CanTransitionConsent(current, target)
            <==> || (current == DRAFT && target == AWAITING_AUTHORIZATION) || (current == AWAITING_AUTHORIZATION && target == AUTHORIZED)
                 || (current == AUTHORIZED && target == ACTIVE)
                 || (current in {DRAFT, AWAITING_AUTHORIZATION} && target == REJECTED)
                 || (current in {AWAITING_AUTHORIZATION, AUTHORIZED, ACTIVE} && target == EXPIRED)
                 || (current in {AUTHORIZED, ACTIVE} && target == REVOKED)
    ensures IsTerminalConsent(current) <==> ConsentTransitions(current) == {}
  {
    if !IsTerminalConsent(current) {
      assert CanTransitionConsent(current, if current == DRAFT then REJECTED else EXPIRED);
    }
  }

  /** Where each transition is allowed, and what it writes: status, its time stamp and the version, and for a grant what is granted. */
  lemma TransitionsExactly(c: ConsentProps, accountIds: set<string>, granted: set<Scope>, now: int)
    ensures var d, reduced := c.(updatedAt := now, version := c.version + 1), granted * c.requestedScopes;
            && Submitted(c, now) == (if c.status == DRAFT then Ok(d.(status := AWAITING_AUTHORIZATION)) else Err(InvalidStateTransition))
            && Authorized(c, accountIds, granted, now)
               == (if c.status != AWAITING_AUTHORIZATION then Err(InvalidStateTransition)
                   else if reduced == {} then Err(ScopeNotGranted)
                   else Ok(d.(status := AUTHORIZED, authorizedAccountIds := accountIds, grantedScopes := Some(reduced),
                              authorizedAt := Some(now))))
            && Activated(c, now)
               == (if c.status == AUTHORIZED then Ok(d.(status := ACTIVE, activatedAt := Some(now))) else Err(InvalidStateTransition))
            && Revoked(c, now)
               == (if c.status in {AUTHORIZED, ACTIVE} then Ok(d.(status := REVOKED, revokedAt := Some(now)))
                   else Err(InvalidStateTransition))
            && Expired(c, now)
               == (if c.status in {AWAITING_AUTHORIZATION, AUTHORIZED, ACTIVE} then Ok(d.(status := EXPIRED))
                   else Err(InvalidStateTransition))
  {
  }

  // ---------------------------------------------------------------- stored scope rows

  /** `consentScopeGrantRows`: one row per scope, flagged when granted. */
  function GrantRows(requested: set<Scope>, granted: Option<set<Scope>>): map<Scope, bool> {
    var extra := if granted.Some? then granted.value else {};
    map scope | scope in requested + extra :: scope in extra
  }

  function RequestedOf(rows: map<Scope, bool>): set<Scope> {
    rows.Keys
  }

  function GrantedOf(rows: map<Scope, bool>): Option<set<Scope>> {
    var granted := set scope | scope in rows && rows[scope];
    if granted == {} then None else Some(granted)
  }

  predicate Granted(granted: Option<set<Scope>>, scope: Scope) {
    granted.Some? && scope in granted.value
  }

  method ConsentScopeGrantRows(requested: set<Scope>, granted: Option<set<Scope>>) returns (rows: map<Scope, bool>)
    ensures rows == GrantRows(requested, granted)
  {
    rows := map[];
    var todo := requested;
    while todo != {}
      invariant todo <= requested
      invariant forall s :: s in rows <==> s in requested && s !in todo
      invariant forall s :: s in rows ==> rows[s] == Granted(granted, s)
      decreases |todo|
    {
      var scope :| scope in todo;
      rows := rows[scope := Granted(granted, scope)];
      todo := todo - {scope};
    }
    if granted.Some? {
      rows := MarkGranted(rows, granted.value);
    }
  }

  /** The second loop: every granted scope is set to true, requested or not. */
  method MarkGranted(before: map<Scope, bool>, granted: set<Scope>) returns (rows: map<Scope, bool>)
    ensures forall s :: s in rows <==> s in before || s in granted
    ensures forall s :: s in rows ==> rows[s] == (s in granted || before[s])
  {
    rows := before;
    var todo := granted;
    while todo != {}
      invariant todo <= granted
      invariant forall s :: s in rows <==> s in before || (s in granted && s !in todo)
      invariant forall s :: s in rows ==> rows[s] == ((s in granted && s !in todo) || before[s])
      decreases |todo|
    {
      var scope :| scope in todo;
      rows := rows[scope := true];
      todo := todo - {scope};
    }
  }

  /**
   Reading the scope rows back gives the scopes that were written exactly when the
   granted set is absent, or non-empty and inside the requested set.
   */
  lemma GrantRowsRoundTrip(requested: set<Scope>, granted: Option<set<Scope>>)
    ensures (RequestedOf(GrantRows(requested, granted)) == requested &&
             GrantedOf(GrantRows(requested, granted)) == granted)
            <==> (granted.Some? ==> granted.value != {} && granted.value <= requested)
  {
    var rows := GrantRows(requested, granted);
    var extra := if granted.Some? then granted.value else {};
    assert rows.Keys == requested + extra;
    assert (set scope | scope in rows && rows[scope]) == extra;
    assert requested + extra == requested <==> extra <= requested;
  }

  // ---------------------------------------------------------------- access decisions

  datatype TokenClaims = TokenClaims(scopes: set<Scope>, consentId: Option<Id>, institutionId: Option<string>)

  datatype Decision =
    | Allowed | ConsentMismatch | InstitutionIsolation | TenantMismatch | AccessDenied(error: ConsentError) | InsufficientScope

  /** `AccessPolicy.decideAccountAccess` */
  function DecideAccountAccess(claims: TokenClaims, c: ConsentProps, requiredScope: Scope, accountId: Option<string>,
                               expectedInstitutionId: Option<string>, now: int): Decision
  {
    if claims.consentId != Some(c.id) then ConsentMismatch
    else if expectedInstitutionId.Some? && c.institutionId != expectedInstitutionId.value then InstitutionIsolation
    else if claims.institutionId.Some? && claims.institutionId.value != c.institutionId then TenantMismatch
    else match EnsureAccess(c, requiredScope, accountId, now)
      case Some(error) => AccessDenied(error)
      case None => if requiredScope !in claims.scopes then InsufficientScope else Allowed
  }

  /** Which denial is given: the first binding that fails, expiry before status, scope of the consent before its account. */
  lemma AccessDeniedExactly(claims: TokenClaims, c: ConsentProps, scope: Scope, accountId: Option<string>,
                            institution: Option<string>, now: int)
    requires ConsentShape(c)
    ensures var decision := DecideAccountAccess(claims, c, scope, accountId, institution, now);
            var named, here := claims.consentId == Some(c.id), institution.Some? ==> institution.value == c.institutionId;
            var tenant := claims.institutionId.Some? ==> claims.institutionId.value == c.institutionId;
            var covered := accountId.Some? ==> accountId.value in c.authorizedAccountIds;
            && (decision == ConsentMismatch <==> !named)
            && (decision == InstitutionIsolation <==> named && !here)
            && (decision == TenantMismatch <==> named && here && !tenant)
            && (named && here && tenant ==>
                  && (decision == AccessDenied(ConsentExpired) <==> c.expiresAt <= now || c.status == EXPIRED)
                  && (decision == AccessDenied(ConsentNotActive) <==>
                        now < c.expiresAt && (c.status == AWAITING_AUTHORIZATION || c.status == REVOKED))
                  && (now < c.expiresAt && (c.status == AUTHORIZED || c.status == ACTIVE) ==>
                        && (decision == AccessDenied(ScopeNotGranted) <==> scope !in c.grantedScopes.value)
                        && (decision == AccessDenied(AccountNotAuthorized) <==> scope in c.grantedScopes.value && !covered)
                        && (decision == InsufficientScope <==>
                              scope in c.grantedScopes.value && covered && scope !in claims.scopes)))
  {
  }

  /** Access is allowed exactly when every binding of token, consent, time, scope and account holds. */
  lemma AccessAllowedExactly(claims: TokenClaims, c: ConsentProps, scope: Scope, accountId: Option<string>,
                             institution: Option<string>, now: int)
    requires ConsentShape(c)
    ensures DecideAccountAccess(claims, c, scope, accountId, institution, now) == Allowed
            <==> && claims.consentId == Some(c.id)
                 && (institution.Some? ==> institution.value == c.institutionId)
                 && (claims.institutionId.Some? ==> claims.institutionId.value == c.institutionId)
                 && now < c.expiresAt && (c.status == AUTHORIZED || c.status == ACTIVE)
                 && scope in claims.scopes && scope in c.grantedScopes.value && scope in c.requestedScopes
                 && (accountId.Some? ==> accountId.value in c.authorizedAccountIds)
  {
  }
}
