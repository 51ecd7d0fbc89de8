/**
 Payment use cases under arbitrary interleaving. A handler is cut at every database access:
 what it read may be stale by the time it commits, and no version is checked on save. The
 only arbiters are the unique keys (client, idempotency key) and (provider, event).
 */
module PaymentRaces {
  import opened Basics
  import opened PaymentMachine

  datatype EventType = PaymentCreated | PaymentAuthorized | PaymentSubmitted | PaymentStatusChanged | ProviderCallbackReceived

  /** The provider event a callback carries: provider code and event id. */
  datatype Origin = Origin(providerCode: string, providerEventId: string)

  datatype Event = Event(paymentId: Id, eventType: EventType, version: int, origin: Option<Origin>)

  datatype Receipt = Receipt(origin: Origin, paymentId: Id, processedAt: Option<int>)

  datatype Db = Db(nextId: Id, payments: map<Id, PaymentProps>, receipts: map<Id, Receipt>, outbox: seq<Event>)

  /** A change one of the simple use cases wants to make, with the guard it checks on the payment it read. */
  datatype Change =
    | Authorize(actorUserId: string)
    | Submit(answeredId: string)
    | Cancel
    | Reconcile(normalized: string, reason: Option<string>)

  datatype Callback = Callback(origin: Origin, providerPaymentId: string, normalized: string, reason: Option<string>)

  /** Where a handler stands: the next database access it will make, and what it carries. */
  datatype Proc =
    | CreateLookup(order: Order)
    | CreateCommit(draft: PaymentProps)
    | CreateRaced(order: Order)
    | ChangeRead(paymentId: Id, change: Change)
    | ChangeCommit(read: PaymentProps, next: PaymentProps, eventType: EventType)
    | CallbackReceipt(callback: Callback)
    | CallbackRead(callback: Callback, existing: Option<Id>)
    | CallbackCommit(callback: Callback, existing: Option<Id>, receiptId: Id, read: PaymentProps, next: PaymentProps, changed: bool)

  /** What has been answered or committed, oldest first. */
  datatype Entry =
    | Responded(clientId: string, key: string, paymentId: Id)
    | CallbackCommitted(origin: Origin)

  datatype Sys = Sys(db: Db, procs: map<nat, Proc>, log: seq<Entry>)

  const EMPTY := Sys(Db(0, map[], map[], []), map[], [])

  // ---------------------------------------------------------------- repositories

  predicate HasKey(p: PaymentProps, clientId: string, key: string) {
    p.order.clientId == clientId && p.order.idempotencyKey == Some(key)
  }

  ghost predicate KeyOf(db: Db, id: Id, clientId: string, key: string) {
    id in db.payments && HasKey(db.payments[id], clientId, key)
  }

  ghost function FindByIdempotencyKey(db: Db, clientId: string, key: string): (r: Option<Id>)
    ensures r.Some? ==> KeyOf(db, r.value, clientId, key)
    ensures r.None? ==> forall id :: !KeyOf(db, id, clientId, key)
  {
    if exists id :: KeyOf(db, id, clientId, key) then var id :| KeyOf(db, id, clientId, key); Some(id) else None
  }

  ghost predicate ReceiptOf(db: Db, id: Id, origin: Origin) {
    id in db.receipts && db.receipts[id].origin == origin
  }

  ghost function FindByProviderEvent(db: Db, origin: Origin): (r: Option<Id>)
    ensures r.Some? ==> ReceiptOf(db, r.value, origin)
    ensures r.None? ==> forall id :: !ReceiptOf(db, id, origin)
  {
    if exists id :: ReceiptOf(db, id, origin) then var id :| ReceiptOf(db, id, origin); Some(id) else None
  }

  /** `save`: insert, or overwrite every mutable column of the row. */
  function Save(payments: map<Id, PaymentProps>, p: PaymentProps): map<Id, PaymentProps> {
    if p.id in payments then
      payments[p.id := payments[p.id].(status := p.status, providerPaymentId := p.providerPaymentId,
                                       failureReason := p.failureReason, version := p.version,
                                       authorizedAt := p.authorizedAt, submittedAt := p.submittedAt,
                                       settledAt := p.settledAt, cancelledAt := p.cancelledAt, updatedAt := p.updatedAt)]
    else payments[p.id := p]
  }

  // ---------------------------------------------------------------- transactions; None when they throw

  /** Inserting a payment fails on the unique key (client, idempotency key). */
  ghost function InsertPayment(db: Db, p: PaymentProps): Option<Db> {
    if p.order.idempotencyKey.Some? && FindByIdempotencyKey(db, p.order.clientId, p.order.idempotencyKey.value).Some?
    then None
    else Some(db.(payments := Save(db.payments, p),
                  outbox := db.outbox + [Event(p.id, PaymentCreated, p.version, None)]))
  }

  function SaveChange(db: Db, p: PaymentProps, eventType: EventType): Db {
    db.(payments := Save(db.payments, p), outbox := db.outbox + [Event(p.id, eventType, p.version, None)])
  }

  /** The callback transaction; inserting a receipt fails on the unique key (provider, event). */
  ghost function ApplyCallback(db: Db, origin: Origin, existing: Option<Id>, receiptId: Id, p: PaymentProps, changed: bool,
                               now: int): Option<Db>
  {
    if existing.None? && FindByProviderEvent(db, origin).Some? then None
    else if existing.Some? && existing.value !in db.receipts then None
    else
      var receipts := if existing.None? then db.receipts[receiptId := Receipt(origin, p.id, Some(now))]
                      else db.receipts[existing.value := db.receipts[existing.value].(processedAt := Some(now), paymentId := p.id)];
      Some(if changed
           then db.(receipts := receipts, payments := Save(db.payments, p),
                    outbox := db.outbox + [Event(p.id, ProviderCallbackReceived, p.version, Some(origin)),
                                           Event(p.id, PaymentStatusChanged, p.version, Some(origin))])
           else db.(receipts := receipts))
  }

  // ---------------------------------------------------------------- what a handler computes from what it read

  function ChangeOf(p: PaymentProps, change: Change, now: int): Option<PaymentProps> {
    match change
    case Authorize(actorUserId) =>
      if p.order.userId != actorUserId || p.status != AWAITING_AUTHORIZATION then None else Authorized(p, now)
    case Submit(answeredId) => if p.status != AUTHORIZED then None else Submitted(p, answeredId, now)
    case Cancel => if !IsCancellable(p.status) then None else Cancelled(p, now)
    case Reconcile(normalized, reason) =>
      if p.providerPaymentId.None? || p.status != SUBMITTED then None
      else match ProviderStatus(normalized)
        case None => None
        case Some(target) => if target == p.status then None else WithProviderStatus(p, target, reason, now)
  }

  function EventOf(change: Change): EventType {
    match change
    case Authorize(_) => PaymentAuthorized
    case Submit(_) => PaymentSubmitted
    case Cancel => PaymentStatusChanged
    case Reconcile(_, _) => PaymentStatusChanged
  }

  // ---------------------------------------------------------------- steps

  /** Start a handler, or let one make its next database access. */
  datatype Action =
    | Start(h: nat, proc: Proc)
    | Move(h: nat, commits: bool, pick: Option<Id>, now: int)

  predicate IsStart(proc: Proc) {
    proc.CreateLookup? || proc.ChangeRead? || proc.CallbackReceipt?
  }

  function Ended(s: Sys, h: nat): Sys {
    s.(procs := s.procs - {h})
  }

  function At(s: Sys, h: nat, proc: Proc): Sys {
    s.(procs := s.procs[h := proc])
  }

  function Answer(s: Sys, h: nat, order: Order, id: Id): Sys {
    Ended(s, h).(log := if order.idempotencyKey.Some?
                        then s.log + [Responded(order.clientId, order.idempotencyKey.value, id)] else s.log)
  }

  ghost function DoCreateLookup(s: Sys, h: nat, order: Order, now: int): Sys {
    var found := if order.idempotencyKey.Some?
                 then FindByIdempotencyKey(s.db, order.clientId, order.idempotencyKey.value) else None;
    match found
    case Some(id) => Answer(s, h, order, id)
    case None =>
      match Requested(Created(s.db.nextId, order, now), now)
      case None => Ended(s, h)
      case Some(p) => At(s.(db := s.db.(nextId := s.db.nextId + 1)), h, CreateCommit(p))
  }

  ghost function DoCreateCommit(s: Sys, h: nat, p: PaymentProps, commits: bool): Sys {
    match InsertPayment(s.db, p)
    case Some(db) =>
      if commits then Answer(s.(db := db), h, p.order, p.id)
      else if p.order.idempotencyKey.Some? then At(s, h, CreateRaced(p.order)) else Ended(s, h)
    case None => if p.order.idempotencyKey.Some? then At(s, h, CreateRaced(p.order)) else Ended(s, h)
  }

  ghost function DoCreateRaced(s: Sys, h: nat, order: Order): Sys {
    if order.idempotencyKey.None? then Ended(s, h) else
    match FindByIdempotencyKey(s.db, order.clientId, order.idempotencyKey.value)
    case Some(id) => Answer(s, h, order, id)
    case None => Ended(s, h)
  }

  function DoChangeRead(s: Sys, h: nat, id: Id, change: Change, now: int): Sys {
    if id !in s.db.payments then Ended(s, h) else
    match ChangeOf(s.db.payments[id], change, now)
    case None => Ended(s, h)
    case Some(q) => At(s, h, ChangeCommit(s.db.payments[id], q, EventOf(change)))
  }

  function DoChangeCommit(s: Sys, h: nat, q: PaymentProps, eventType: EventType, commits: bool): Sys {
    if commits then Ended(s.(db := SaveChange(s.db, q, eventType)), h) else Ended(s, h)
  }

  ghost function DoCallbackReceipt(s: Sys, h: nat, callback: Callback): Sys {
    match FindByProviderEvent(s.db, callback.origin)
    case Some(id) => if s.db.receipts[id].processedAt.Some? then Ended(s, h) else At(s, h, CallbackRead(callback, Some(id)))
    case None => At(s, h, CallbackRead(callback, None))
  }

  ghost predicate Matches(db: Db, id: Id, providerPaymentId: string) {
    id in db.payments && db.payments[id].providerPaymentId == Some(providerPaymentId)
  }

  /** `findFirst` may pick any payment with the provider id; None only when there is none. */
  ghost function DoCallbackRead(s: Sys, h: nat, c: Callback, existing: Option<Id>, pick: Option<Id>, now: int): Sys {
    if pick.None? then (if exists id :: Matches(s.db, id, c.providerPaymentId) then s else Ended(s, h))
    else if !Matches(s.db, pick.value, c.providerPaymentId) then s
    else
      var p := s.db.payments[pick.value];
      match ProviderStatus(c.normalized)
      case None => Ended(s, h)
      case Some(target) =>
        var next := if p.status == target then Some(p) else WithProviderStatus(p, target, c.reason, now);
        match next
        case None => Ended(s, h)
        case Some(q) =>
          At(s.(db := s.db.(nextId := s.db.nextId + 1)), h,
             CallbackCommit(c, existing, s.db.nextId, p, q, p.status != target))
  }

  ghost function DoCallbackCommit(s: Sys, h: nat, proc: Proc, commits: bool, now: int): Sys
    requires proc.CallbackCommit?
  {
    match ApplyCallback(s.db, proc.callback.origin, proc.existing, proc.receiptId, proc.next, proc.changed, now)
    case Some(db) =>
      if commits then Ended(s.(db := db, log := s.log + [CallbackCommitted(proc.callback.origin)]), h) else Ended(s, h)
    case None => Ended(s, h)
  }

  ghost function Step(s: Sys, a: Action): Sys {
    match a
    case Start(h, proc) => if h in s.procs || !IsStart(proc) then s else At(s, h, proc)
    case Move(h, commits, pick, now) =>
      if h !in s.procs then s else
      match s.procs[h]
      case CreateLookup(order) => DoCreateLookup(s, h, order, now)
      case CreateCommit(p) => DoCreateCommit(s, h, p, commits)
      case CreateRaced(order) => DoCreateRaced(s, h, order)
      case ChangeRead(id, change) => DoChangeRead(s, h, id, change, now)
      case ChangeCommit(_, q, eventType) => DoChangeCommit(s, h, q, eventType, commits)
      case CallbackReceipt(callback) => DoCallbackReceipt(s, h, callback)
      case CallbackRead(callback, existing) => DoCallbackRead(s, h, callback, existing, pick, now)
      case CallbackCommit(_, _, _, _, _, _) => DoCallbackCommit(s, h, s.procs[h], commits, now)
  }

  ghost function After(s: Sys, schedule: seq<Action>): Sys
    decreases |schedule|
  {
    if schedule == [] then s else Step(After(s, schedule[..|schedule| - 1]), schedule[|schedule| - 1])
  }

  // ---------------------------------------------------------------- invariant

  ghost predicate PaymentsInv(payments: map<Id, PaymentProps>, next: Id) {
    forall id | id in payments :: payments[id].id == id && id < next && PaymentShape(payments[id])
  }

  /** At most one payment per (client, idempotency key). */
  ghost predicate KeysUnique(payments: map<Id, PaymentProps>) {
    forall i, j | i in payments && j in payments && payments[i].order.idempotencyKey.Some? ::
      (payments[i].order.clientId == payments[j].order.clientId
       && payments[i].order.idempotencyKey == payments[j].order.idempotencyKey) ==> i == j
  }

  /** Receipts are stored processed, one per provider event. */
  ghost predicate ReceiptsInv(receipts: map<Id, Receipt>, next: Id) {
    && (forall r | r in receipts :: r < next && receipts[r].processedAt.Some?)
    && (forall q, r | q in receipts && r in receipts :: receipts[q].origin == receipts[r].origin ==> q == r)
  }

  /** A handler's copy of a payment is well shaped and about a row of the table with the same order. */
  ghost predicate CopyOk(payments: map<Id, PaymentProps>, p: PaymentProps) {
    p.id in payments && payments[p.id].order == p.order && payments[p.id].createdAt == p.createdAt && PaymentShape(p)
  }

  ghost predicate ProcOk(payments: map<Id, PaymentProps>, receipts: map<Id, Receipt>, next: Id, proc: Proc) {
    match proc
    case CreateCommit(p) => p.id < next && p.id !in payments && PaymentShape(p) && p.version == 2
    case ChangeCommit(read, q, _) => CopyOk(payments, read) && CopyOk(payments, q) && PaymentMoves(read, q)
    case CallbackRead(_, existing) => existing.None?
    case CallbackCommit(_, existing, r, read, q, changed) =>
      existing.None? && r < next && r !in receipts && CopyOk(payments, read) && CopyOk(payments, q)
      && (if changed then PaymentMoves(read, q) else q == read)
    case _ => true
  }

  /** Two handlers never hold the same generated id. */
  ghost predicate OwnIds(procs: map<nat, Proc>) {
    && (forall g, h | g in procs && h in procs && procs[g].CreateCommit? && procs[h].CreateCommit? ::
          procs[g].draft.id == procs[h].draft.id ==> g == h)
    && (forall g, h | g in procs && h in procs && procs[g].CallbackCommit? && procs[h].CallbackCommit? ::
          procs[g].receiptId == procs[h].receiptId ==> g == h)
  }

  ghost predicate ProcsInv(procs: map<nat, Proc>, payments: map<Id, PaymentProps>, receipts: map<Id, Receipt>, next: Id) {
    OwnIds(procs) && forall h | h in procs :: ProcOk(payments, receipts, next, procs[h])
  }

  ghost predicate EntryOk(payments: map<Id, PaymentProps>, receipts: map<Id, Receipt>, e: Entry) {
    match e
    case Responded(clientId, key, id) => id in payments && HasKey(payments[id], clientId, key)
    case CallbackCommitted(origin) => exists r :: r in receipts && receipts[r].origin == origin
  }

  ghost predicate CommitsOnce(log: seq<Entry>) {
    forall i, j | 0 <= i < j < |log| :: log[i].CallbackCommitted? ==> log[i] != log[j]
  }

  ghost predicate LogInv(log: seq<Entry>, payments: map<Id, PaymentProps>, receipts: map<Id, Receipt>) {
    CommitsOnce(log) && forall i | 0 <= i < |log| :: EntryOk(payments, receipts, log[i])
  }

  /** An event of a callback stands next to the other one of its pair. */
  ghost predicate HasPartner(outbox: seq<Event>, i: nat)
    requires i < |outbox|
  {
    outbox[i].origin.Some? ==>
      || (&& outbox[i].eventType == ProviderCallbackReceived && i + 1 < |outbox|
          && outbox[i + 1] == outbox[i].(eventType := PaymentStatusChanged))
      || (&& outbox[i].eventType == PaymentStatusChanged && i > 0
          && outbox[i - 1] == outbox[i].(eventType := ProviderCallbackReceived))
  }

  /** The two events of a callback are both there, stand together and appear once per provider event. */
  ghost predicate PairedOnce(outbox: seq<Event>) {
    && (forall i | 0 <= i < |outbox| :: HasPartner(outbox, i))
    && forall i, j | 0 <= i < j < |outbox| ::
         outbox[i].origin.Some? && outbox[i].origin == outbox[j].origin
         ==> j == i + 1 && outbox[i].eventType == ProviderCallbackReceived && outbox[j].eventType == PaymentStatusChanged
  }

  ghost predicate OutboxInv(outbox: seq<Event>, log: seq<Entry>) {
    PairedOnce(outbox)
    && forall i | 0 <= i < |outbox| && outbox[i].origin.Some? :: CallbackCommitted(outbox[i].origin.value) in log
  }

  ghost predicate SysInv(s: Sys) {
    && PaymentsInv(s.db.payments, s.db.nextId) && KeysUnique(s.db.payments)
    && ReceiptsInv(s.db.receipts, s.db.nextId)
    && ProcsInv(s.procs, s.db.payments, s.db.receipts, s.db.nextId)
    && LogInv(s.log, s.db.payments, s.db.receipts) && OutboxInv(s.db.outbox, s.log)
  }
}
