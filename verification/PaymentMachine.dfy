/** The payment aggregate: its status table, its transition methods and the shape they keep. */
module PaymentMachine {
  import opened Basics

  type Id = nat

  datatype PaymentStatus =
    | CREATED | AWAITING_AUTHORIZATION | AUTHORIZED | SUBMITTED | ACCEPTED | REJECTED | SETTLED | FAILED | CANCELLED

  function PaymentTransitions(current: PaymentStatus): set<PaymentStatus> {
    match current
    case CREATED => {AWAITING_AUTHORIZATION, CANCELLED}
    case AWAITING_AUTHORIZATION => {AUTHORIZED, REJECTED, CANCELLED}
    case AUTHORIZED => {SUBMITTED, CANCELLED, FAILED}
    case SUBMITTED => {ACCEPTED, REJECTED, FAILED, SETTLED}
    case ACCEPTED => {SETTLED, FAILED, REJECTED}
    case REJECTED => {}
    case SETTLED => {}
    case FAILED => {}
    case CANCELLED => {}
  }

  predicate CanTransitionPayment(current: PaymentStatus, target: PaymentStatus) {
    target in PaymentTransitions(current)
  }

  predicate IsTerminalPayment(status: PaymentStatus) {
    status == REJECTED || status == SETTLED || status == FAILED || status == CANCELLED
  }

  predicate IsCancellable(status: PaymentStatus) {
    status == CREATED || status == AWAITING_AUTHORIZATION || status == AUTHORIZED
  }

  /** `PROVIDER_STATUS_MAP`; None for a status it does not list. */
  function ProviderStatus(normalized: string): Option<PaymentStatus> {
    if normalized == "pending" then Some(SUBMITTED)
    else if normalized == "processing" || normalized == "accepted" then Some(ACCEPTED)
    else if normalized == "completed" || normalized == "settled" then Some(SETTLED)
    else if normalized == "rejected" then Some(REJECTED)
    else if normalized == "failed" || normalized == "cancelled" then Some(FAILED)
    else None
  }

  /** What a payment order says; fixed at creation. */
  datatype Order = Order(
    consentId: string, clientId: string, institutionId: string, userId: string, sourceAccountId: string,
    amountMinor: int, currency: string, creditorName: string, creditorAccountRef: string, reference: string,
    providerCode: string, idempotencyKey: Option<string>)

  datatype PaymentProps = PaymentProps(
    id: Id, order: Order, status: PaymentStatus, providerPaymentId: Option<string>, failureReason: Option<string>,
    version: int, authorizedAt: Option<int>, submittedAt: Option<int>, settledAt: Option<int>,
    cancelledAt: Option<int>, createdAt: int, updatedAt: int)

  function Created(id: Id, order: Order, now: int): PaymentProps {
    PaymentProps(id, order, CREATED, None, None, 1, None, None, None, None, now, now)
  }

  function Moved(p: PaymentProps, target: PaymentStatus, now: int): PaymentProps {
    p.(status := target, updatedAt := now, version := p.version + 1)
  }

  /** The transition methods; None where they throw. */
  function Requested(p: PaymentProps, now: int): Option<PaymentProps> {
    if CanTransitionPayment(p.status, AWAITING_AUTHORIZATION) then Some(Moved(p, AWAITING_AUTHORIZATION, now)) else None
  }

  function Authorized(p: PaymentProps, now: int): Option<PaymentProps> {
    if CanTransitionPayment(p.status, AUTHORIZED) then Some(Moved(p, AUTHORIZED, now).(authorizedAt := Some(now))) else None
  }

  function Submitted(p: PaymentProps, providerPaymentId: string, now: int): Option<PaymentProps> {
    if CanTransitionPayment(p.status, SUBMITTED)
    then Some(Moved(p, SUBMITTED, now).(providerPaymentId := Some(providerPaymentId), submittedAt := Some(now)))
    else None
  }

  function WithProviderStatus(p: PaymentProps, target: PaymentStatus, reason: Option<string>, now: int): Option<PaymentProps> {
    if CanTransitionPayment(p.status, target)
    then Some(Moved(p, target, now).(failureReason := reason,
                                     settledAt := if target == SETTLED then Some(now) else p.settledAt))
    else None
  }

  function Cancelled(p: PaymentProps, now: int): Option<PaymentProps> {
    if CanTransitionPayment(p.status, CANCELLED) then Some(Moved(p, CANCELLED, now).(cancelledAt := Some(now))) else None
  }

  // ---------------------------------------------------------------- the shape of a stored payment

  predicate ReachedProvider(status: PaymentStatus) {
    status in {SUBMITTED, ACCEPTED, SETTLED, FAILED, REJECTED}
  }

  /** The versions a payment can have at each status. */
  predicate VersionFits(status: PaymentStatus, version: int) {
    match status
    case CREATED => false
    case AWAITING_AUTHORIZATION => version == 2
    case AUTHORIZED => version == 3
    case SUBMITTED => version == 4
    case ACCEPTED => version == 5
    case REJECTED => 5 <= version <= 6
    case SETTLED => 5 <= version <= 6
    case FAILED => 5 <= version <= 6
    case CANCELLED => 3 <= version <= 4
  }

  /** Status, version and timestamps agree. */
  ghost predicate PaymentShape(p: PaymentProps) {
    && VersionFits(p.status, p.version)
    && (p.providerPaymentId.Some? <==> ReachedProvider(p.status))
    && (p.submittedAt.Some? <==> ReachedProvider(p.status))
    && (p.settledAt.Some? <==> p.status == SETTLED)
    && (p.cancelledAt.Some? <==> p.status == CANCELLED)
    && (p.authorizedAt.None? <==> p.version == 2 || (p.status == CANCELLED && p.version == 3))
  }

  /** One step of a payment's life: the order and id stay, the version moves by one, no terminal status is left. */
  ghost predicate PaymentMoves(p: PaymentProps, q: PaymentProps) {
    q.id == p.id && q.order == p.order && q.createdAt == p.createdAt && q.version == p.version + 1
    && !IsTerminalPayment(p.status) && CanTransitionPayment(p.status, q.status)
  }

  /**
   Every change a use case makes to a well shaped payment keeps the shape. The table alone
   would not: it lets AUTHORIZED fail and AWAITING_AUTHORIZATION be rejected, but a provider
   status reaches only a payment that has a provider id.
   */
  lemma ChangesKeepShape(p: PaymentProps, q: PaymentProps, providerPaymentId: string, target: PaymentStatus,
                         reason: Option<string>, now: int)
    requires PaymentShape(p)
    requires Some(q) in {Authorized(p, now), Submitted(p, providerPaymentId, now), Cancelled(p, now)}
             || (p.providerPaymentId.Some? && Some(q) == WithProviderStatus(p, target, reason, now))
    ensures PaymentShape(q) && PaymentMoves(p, q)
  {
  }

  /** What each transition writes, and from where: status, its time stamp and the version. */
  lemma TransitionsExactly(p: PaymentProps, providerPaymentId: string, now: int)
    ensures var d := p.(updatedAt := now, version := p.version + 1);
            && Requested(p, now) == (if p.status == CREATED then Some(d.(status := AWAITING_AUTHORIZATION)) else None)
            && Authorized(p, now)
               == (if p.status == AWAITING_AUTHORIZATION then Some(d.(status := AUTHORIZED, authorizedAt := Some(now))) else None)
            && Submitted(p, providerPaymentId, now)
               == (if p.status == AUTHORIZED
                   then Some(d.(status := SUBMITTED, providerPaymentId := Some(providerPaymentId), submittedAt := Some(now))) else None)
            && Cancelled(p, now)
               == (if p.status in {CREATED, AWAITING_AUTHORIZATION, AUTHORIZED}
                   then Some(d.(status := CANCELLED, cancelledAt := Some(now))) else None)
  {
  }

  /** A payment that has reached the provider moves on from SUBMITTED, and from ACCEPTED to an end. */
  lemma ProviderTransitionExactly(p: PaymentProps, target: PaymentStatus, reason: Option<string>, now: int)
    requires ReachedProvider(p.status) && ReachedProvider(target)
    ensures WithProviderStatus(p, target, reason, now)
            == if (p.status == SUBMITTED && target != SUBMITTED) || (p.status == ACCEPTED && target in {SETTLED, FAILED, REJECTED})
               then Some(p.(status := target, failureReason := reason, updatedAt := now, version := p.version + 1,
                            settledAt := if target == SETTLED then Some(now) else p.settledAt))
               else None
  {
  }

  /** The table does permit a status that breaks the shape, so the provider-id premise is needed. */
  lemma TableAlonePermitsMore(p: PaymentProps, now: int)
    requires PaymentShape(p) && p.providerPaymentId == None && !IsTerminalPayment(p.status)
    ensures exists target ::
              ReachedProvider(target) && WithProviderStatus(p, target, None, now).Some?
              && !PaymentShape(WithProviderStatus(p, target, None, now).value)
  {
    var target := if p.status == AUTHORIZED then FAILED else REJECTED;
    assert WithProviderStatus(p, target, None, now).Some?;
    assert !PaymentShape(WithProviderStatus(p, target, None, now).value);
  }

  /** A payment is cancellable exactly where the table lets it be cancelled. */
  lemma CancellableIsTable(status: PaymentStatus)
    ensures IsCancellable(status) <==> CanTransitionPayment(status, CANCELLED)
    ensures IsTerminalPayment(status) <==> PaymentTransitions(status) == {}
  {
    if !IsTerminalPayment(status) {
      assert exists t :: t in PaymentTransitions(status) by {
        if CanTransitionPayment(status, CANCELLED) {} else { assert CanTransitionPayment(status, FAILED); }
      }
    }
  }

  /** The mutable aggregate. */
  class Payment {
    const id: Id
    const order: Order
    const createdAt: int
    var status: PaymentStatus
    var providerPaymentId: Option<string>
    var failureReason: Option<string>
    var version: int
    var authorizedAt: Option<int>
    var submittedAt: Option<int>
    var settledAt: Option<int>
    var cancelledAt: Option<int>
    var updatedAt: int

    function Props(): PaymentProps
      reads this
    {
      PaymentProps(id, order, status, providerPaymentId, failureReason, version, authorizedAt, submittedAt, settledAt,
                   cancelledAt, createdAt, updatedAt)
    }

    constructor (props: PaymentProps)
      ensures Props() == props
    {
      id, order, createdAt := props.id, props.order, props.createdAt;
      status, providerPaymentId, failureReason := props.status, props.providerPaymentId, props.failureReason;
      version, authorizedAt, submittedAt := props.version, props.authorizedAt, props.submittedAt;
      settledAt, cancelledAt, updatedAt := props.settledAt, props.cancelledAt, props.updatedAt;
    }

    /** The object took the specified step, or threw and did not change. */
    ghost predicate Applied(before: PaymentProps, spec: Option<PaymentProps>, done: bool)
      reads this
    {
      done == spec.Some? && Props() == if done then spec.value else before
    }

    method RequestAuthorization(now: int) returns (done: bool)
      modifies this
      ensures Applied(old(Props()), Requested(old(Props()), now), done)
    {
      if !CanTransitionPayment(status, AWAITING_AUTHORIZATION) { return false; }
      status := AWAITING_AUTHORIZATION;
      updatedAt := now;
      version := version + 1;
      return true;
    }

    method Authorize(now: int) returns (done: bool)
      modifies this
      ensures Applied(old(Props()), Authorized(old(Props()), now), done)
    {
      if !CanTransitionPayment(status, AUTHORIZED) { return false; }
      status := AUTHORIZED;
      authorizedAt := Some(now);
      updatedAt := now;
      version := version + 1;
      return true;
    }

    method Submit(newProviderPaymentId: string, now: int) returns (done: bool)
      modifies this
      ensures Applied(old(Props()), Submitted(old(Props()), newProviderPaymentId, now), done)
    {
      if !CanTransitionPayment(status, SUBMITTED) { return false; }
      status := SUBMITTED;
      providerPaymentId := Some(newProviderPaymentId);
      submittedAt := Some(now);
      updatedAt := now;
      version := version + 1;
      return true;
    }

    method ApplyProviderStatus(target: PaymentStatus, reason: Option<string>, now: int) returns (done: bool)
      modifies this
      ensures Applied(old(Props()), WithProviderStatus(old(Props()), target, reason, now), done)
    {
      if !CanTransitionPayment(status, target) { return false; }
      status := target;
      failureReason := reason;
      if target == SETTLED {
        settledAt := Some(now);
      }
      updatedAt := now;
      version := version + 1;
      return true;
    }

    method Cancel(now: int) returns (done: bool)
      modifies this
      ensures Applied(old(Props()), Cancelled(old(Props()), now), done)
    {
      CancellableIsTable(status);
      if !IsCancellable(status) { return false; }
      status := CANCELLED;
      cancelledAt := Some(now);
      updatedAt := now;
      version := version + 1;
      return true;
    }
  }
}
