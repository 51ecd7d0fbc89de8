/**
 The payment handlers as the program runs them: a mutable database, payment objects loaded
 from it, and transactions that buffer events and roll back. Each stretch of a handler
 between two database accesses is proved to be the step the race model takes.
 */
module PaymentPlatform {
  import opened Basics
  import opened PaymentMachine
  import opened PaymentRaces
  import opened PaymentTheorems
  import opened PaymentOutcomes

  /** The event buffer of one transaction. */
  class TransactionContext {
    var events: seq<Event>

    constructor ()
      ensures events == []
    {
      events := [];
    }

    method AddOutboxEvent(e: Event)
      modifies this
      ensures events == old(events) + [e]
    {
      events := events + [e];
    }
  }

  /** How a stretch ends: the handler waits for its next access, answers a creation, has committed a callback, or stops. */
  datatype Phase = Continue(proc: Proc) | Respond(order: Order, id: Id) | Applied(origin: Origin) | Stop

  function Finish(s: Sys, h: nat, db: Db, phase: Phase): Sys {
    match phase
    case Continue(proc) => At(s.(db := db), h, proc)
    case Respond(order, id) => Answer(s.(db := db), h, order, id)
    case Applied(origin) => Ended(s.(db := db, log := s.log + [CallbackCommitted(origin)]), h)
    case Stop => Ended(s.(db := db), h)
  }

  /** The handler `h` of `s` stands at `proc`, and the database holds the tables of `s`. */
  ghost predicate Standing(s: Sys, h: nat, proc: Proc, db: Db) {
    SysInv(s) && s.db == db && h in s.procs && s.procs[h] == proc
  }

  /** What becomes of one candidate of a reconciliation: the provider's answer, None when the call throws, and the commit. */
  datatype Check = Check(id: Id, answer: Option<(string, Option<string>)>, commits: bool, now: int)

  /** The change the answer calls for, if the payment is submitted and the answer differs. */
  function ReconciledCopy(db: Db, c: Check): Option<PaymentProps> {
    if c.id !in db.payments || c.answer.None? || !c.commits then None
    else ChangeOf(db.payments[c.id], Reconcile(c.answer.value.0, c.answer.value.1), c.now)
  }

  function Reconciled(db: Db, c: Check): Db {
    if ReconciledCopy(db, c).None? then db else SaveChange(db, ReconciledCopy(db, c).value, PaymentStatusChanged)
  }

  function ReconciledAll(db: Db, checks: seq<Check>): Db
    decreases |checks|
  {
    if checks == [] then db else Reconciled(ReconciledAll(db, checks[..|checks| - 1]), checks[|checks| - 1])
  }

  /** The batch is a schedule of the race model, so what holds of every schedule holds of it. */
  lemma {:induction false} ReconciliationIsSchedule(schedule: seq<Action>, h: nat, checks: seq<Check>) returns (more: seq<Action>)
    requires h !in After(EMPTY, schedule).procs
    ensures After(EMPTY, schedule + more)
            == After(EMPTY, schedule).(db := ReconciledAll(After(EMPTY, schedule).db, checks))
    decreases |checks|
  {
    hide After, SaveChange, ChangeOf;
    if checks == [] {
      more := [];
      assert schedule + [] == schedule;
    } else {
      var first, c := checks[..|checks| - 1], checks[|checks| - 1];
      more := ReconciliationIsSchedule(schedule, h, first);
      var db := ReconciledAll(After(EMPTY, schedule).db, first);
      if ReconciledCopy(db, c).Some? {
        var change := Reconcile(c.answer.value.0, c.answer.value.1);
        WholeChange(schedule + more, h, c.id, change, c.now);
        more := more + Whole(h, Proc.ChangeRead(c.id, change), c.now);
        assert schedule + more == schedule + more[..|more| - 3] + Whole(h, Proc.ChangeRead(c.id, change), c.now);
      }
    }
  }

  /** What one answered and committed check does, text by text; any other check does nothing. */
  lemma ReconciledExactly(db: Db, c: Check, target: PaymentStatus)
    requires c.id in db.payments ==> PaymentShape(db.payments[c.id]) && db.payments[c.id].id == c.id
    ensures var applies := c.id in db.payments && db.payments[c.id].status == SUBMITTED && c.answer.Some? && c.commits
                           && Says(c.answer.value.0, target) && target != SUBMITTED;
            (ReconciledCopy(db, c).Some? && ReconciledCopy(db, c).value.status == target <==> applies)
            && (applies ==>
                  Reconciled(db, c)
                  == db.(payments := db.payments[c.id := MovedTo(db.payments[c.id], target, c.answer.value.1, c.now)],
                         outbox := db.outbox + [Event(c.id, PaymentStatusChanged, db.payments[c.id].version + 1, None)]))
    ensures ReconciledCopy(db, c).None? ==> Reconciled(db, c) == db
  {
    hide ChangeOf, Says, PaymentShape;
    if c.id in db.payments && c.answer.Some? {
      ChangeExactly(db.payments[c.id], Reconcile(c.answer.value.0, c.answer.value.1), c.now);
      OneMeaning(c.answer.value.0);
    }
  }

  class PaymentDatabase {
    var nextId: Id
    var payments: map<Id, PaymentProps>
    var receipts: map<Id, Receipt>
    var outbox: seq<Event>

    function Model(): Db
      reads this
    {
      Db(nextId, payments, receipts, outbox)
    }

    constructor ()
      ensures Model() == EMPTY.db
    {
      nextId, payments, receipts, outbox := 0, map[], map[], [];
    }

    method Generate() returns (id: Id)
      modifies this`nextId
      ensures id == old(nextId) && nextId == id + 1
    {
      id := nextId;
      nextId := nextId + 1;
    }

    // -------------------------------------------------------------- repositories

    method FindPayment(id: Id) returns (payment: Payment?)
      ensures payment == null <==> id !in payments
      ensures payment != null ==> fresh(payment) && payment.Props() == payments[id]
    {
      if id !in payments { return null; }
      payment := new Payment(payments[id]);
    }

    method FindByKey(clientId: string, key: string) returns (found: Option<Id>)
      requires KeysUnique(payments)
      ensures found == FindByIdempotencyKey(Model(), clientId, key)
    {
      if id :| id in payments && HasKey(payments[id], clientId, key) {
        assert KeyOf(Model(), id, clientId, key);
        return Some(id);
      }
      return None;
    }

    /** `findFirst`: any payment with this provider id, of whatever provider. */
    method FindByProviderPaymentId(providerPaymentId: string) returns (found: Option<Id>)
      ensures found.Some? ==> Matches(Model(), found.value, providerPaymentId)
      ensures found.None? ==> forall id :: !Matches(Model(), id, providerPaymentId)
    {
      if id :| id in payments && payments[id].providerPaymentId == Some(providerPaymentId) {
        return Some(id);
      }
      return None;
    }

    method FindReceipt(origin: Origin) returns (found: Option<Id>)
      requires ReceiptsInv(receipts, nextId)
      ensures found == FindByProviderEvent(Model(), origin)
    {
      if r :| r in receipts && receipts[r].origin == origin {
        assert ReceiptOf(Model(), r, origin);
        return Some(r);
      }
      return None;
    }

    /** Upsert: on update only the mutable columns are written. */
    method SavePayment(payment: Payment)
      modifies this`payments
      ensures payments == Save(old(payments), payment.Props())
    {
      if payment.id in payments {
        var row := payments[payment.id];
        payments := payments[payment.id :=
          row.(status := payment.status, providerPaymentId := payment.providerPaymentId,
               failureReason := payment.failureReason, version := payment.version, authorizedAt := payment.authorizedAt,
               submittedAt := payment.submittedAt, settledAt := payment.settledAt, cancelledAt := payment.cancelledAt,
               updatedAt := payment.updatedAt)];
      } else {
        payments := payments[payment.id := payment.Props()];
      }
    }

    /** `create`: refused when the provider event already has a receipt. */
    method CreateReceipt(id: Id, receipt: Receipt) returns (ok: bool)
      requires ReceiptsInv(receipts, nextId)
      modifies this`receipts
      ensures ok == FindByProviderEvent(old(Model()), receipt.origin).None?
      ensures receipts == if ok then old(receipts)[id := receipt] else old(receipts)
    {
      var taken := FindReceipt(receipt.origin);
      if taken.Some? { return false; }
      receipts := receipts[id := receipt];
      return true;
    }

    /** Update by id: refused when the row does not exist. */
    method MarkProcessed(id: Id, paymentId: Id, now: int) returns (ok: bool)
      modifies this`receipts
      ensures ok == (id in old(receipts))
      ensures receipts == if ok then old(receipts)[id := old(receipts)[id].(processedAt := Some(now), paymentId := paymentId)]
                          else old(receipts)
    {
      if id !in receipts { return false; }
      receipts := receipts[id := receipts[id].(processedAt := Some(now), paymentId := paymentId)];
      return true;
    }

    // -------------------------------------------------------------- creation

    method CreateLookup(ghost s: Sys, ghost h: nat, order: Order, now: int) returns (phase: Phase)
      requires Standing(s, h, Proc.CreateLookup(order), Model())
      modifies this`nextId
      ensures Finish(s, h, Model(), phase) == DoCreateLookup(s, h, order, now)
    {
      if order.idempotencyKey.Some? {
        var existing := FindByKey(order.clientId, order.idempotencyKey.value);
        if existing.Some? { return Respond(order, existing.value); }
      }
      var id := Generate();
      var payment := new Payment(Created(id, order, now));
      var _ := payment.RequestAuthorization(now);
      return Continue(Proc.CreateCommit(payment.Props()));
    }

    method CreateCommit(ghost s: Sys, ghost h: nat, payment: Payment, commits: bool) returns (phase: Phase)
      requires Standing(s, h, Proc.CreateCommit(payment.Props()), Model())
      modifies this`payments, this`outbox
      ensures Finish(s, h, Model(), phase) == DoCreateCommit(s, h, payment.Props(), commits)
    {
      var taken := false;
      if payment.order.idempotencyKey.Some? {
        var holder := FindByKey(payment.order.clientId, payment.order.idempotencyKey.value);
        taken := holder.Some?;
      }
      if taken || !commits {
        if payment.order.idempotencyKey.Some? { return Continue(Proc.CreateRaced(payment.order)); }
        return Stop;
      }
      var ctx := new TransactionContext();
      SavePayment(payment);
      ctx.AddOutboxEvent(Event(payment.id, PaymentCreated, payment.version, None));
      outbox := outbox + ctx.events;
      return Respond(payment.order, payment.id);
    }

    method CreateRaced(ghost s: Sys, ghost h: nat, order: Order) returns (phase: Phase)
      requires Standing(s, h, Proc.CreateRaced(order), Model())
      ensures Finish(s, h, Model(), phase) == DoCreateRaced(s, h, order)
    {
      if order.idempotencyKey.None? { return Stop; }
      var raced := FindByKey(order.clientId, order.idempotencyKey.value);
      if raced.Some? { return Respond(order, raced.value); }
      return Stop;
    }

    // -------------------------------------------------------------- authorize, submit, cancel, reconcile

    /** Load the payment, check the guards of the use case, and change the loaded object. */
    method ChangeRead(ghost s: Sys, ghost h: nat, id: Id, change: Change, now: int) returns (phase: Phase)
      requires Standing(s, h, Proc.ChangeRead(id, change), Model())
      ensures Finish(s, h, Model(), phase) == DoChangeRead(s, h, id, change, now)
    {
      var payment := FindPayment(id);
      if payment == null { return Stop; }
      var read := payment.Props();
      var done;
      match change {
        case Authorize(actorUserId) =>
          if payment.order.userId != actorUserId { return Stop; }
          if payment.status != AWAITING_AUTHORIZATION { return Stop; }
          done := payment.Authorize(now);
        case Submit(answeredId) =>
          if payment.status != AUTHORIZED { return Stop; }
          done := payment.Submit(answeredId, now);
        case Cancel =>
          if !IsCancellable(payment.status) { return Stop; }
          done := payment.Cancel(now);
        case Reconcile(normalized, reason) =>
          if payment.providerPaymentId.None? { return Stop; }
          if payment.status != SUBMITTED { return Stop; }
          var target := ProviderStatus(normalized);
          if target.None? || target.value == payment.status { return Stop; }
          done := payment.ApplyProviderStatus(target.value, reason, now);
      }
      if !done { return Stop; }
      return Continue(Proc.ChangeCommit(read, payment.Props(), EventOf(change)));
    }

    method ChangeCommit(ghost s: Sys, ghost h: nat, ghost read: PaymentProps, payment: Payment, eventType: EventType, commits: bool)
      returns (phase: Phase)
      requires Standing(s, h, Proc.ChangeCommit(read, payment.Props(), eventType), Model())
      modifies this`payments, this`outbox
      ensures Finish(s, h, Model(), phase) == DoChangeCommit(s, h, payment.Props(), eventType, commits)
    {
      var before := payments;
      var ctx := new TransactionContext();
      SavePayment(payment);
      ctx.AddOutboxEvent(Event(payment.id, eventType, payment.version, None));
      if commits {
        outbox := outbox + ctx.events;
      } else {
        payments := before;
      }
      return Stop;
    }

    // -------------------------------------------------------------- provider callbacks

    method CallbackReceipt(ghost s: Sys, ghost h: nat, callback: Callback) returns (phase: Phase)
      requires Standing(s, h, Proc.CallbackReceipt(callback), Model())
      ensures Finish(s, h, Model(), phase) == DoCallbackReceipt(s, h, callback)
    {
      var existing := FindReceipt(callback.origin);
      if existing.Some? && receipts[existing.value].processedAt.Some? { return Stop; }
      return Continue(Proc.CallbackRead(callback, existing));
    }

    method CallbackRead(ghost s: Sys, ghost h: nat, callback: Callback, existing: Option<Id>, now: int)
      returns (phase: Phase, ghost pick: Option<Id>)
      requires Standing(s, h, Proc.CallbackRead(callback, existing), Model())
      modifies this`nextId
      ensures Finish(s, h, Model(), phase) == DoCallbackRead(s, h, callback, existing, pick, now)
    {
      var found := FindByProviderPaymentId(callback.providerPaymentId);
      pick := found;
      if found.None? { return Stop, pick; }
      var payment := new Payment(payments[found.value]);
      var read := payment.Props();
      var target := ProviderStatus(callback.normalized);
      if target.None? { return Stop, pick; }
      var alreadyAtTarget := payment.status == target.value;
      if !alreadyAtTarget {
        var done := payment.ApplyProviderStatus(target.value, callback.reason, now);
        if !done { return Stop, pick; }
      }
      var receiptId := Generate();
      return Continue(Proc.CallbackCommit(callback, existing, receiptId, read, payment.Props(), !alreadyAtTarget)), pick;
    }

    /** One transaction: the receipt, and the payment with its two events when the status changed. */
    method CallbackCommit(ghost s: Sys, ghost h: nat, ghost proc: Proc, callback: Callback, existing: Option<Id>, receiptId: Id,
                          payment: Payment, changed: bool, commits: bool, now: int)
      returns (phase: Phase)
      requires proc.CallbackCommit? && proc == Proc.CallbackCommit(callback, existing, receiptId, proc.read, payment.Props(), changed)
      requires s.db == Model() && ReceiptsInv(receipts, nextId)
      modifies this`payments, this`receipts, this`outbox
      ensures Finish(s, h, Model(), phase) == DoCallbackCommit(s, h, proc, commits, now)
    {
      var paymentsBefore, receiptsBefore := payments, receipts;
      var ctx := new TransactionContext();
      var ok;
      if existing.None? {
        ok := CreateReceipt(receiptId, Receipt(callback.origin, payment.id, Some(now)));
      } else {
        ok := MarkProcessed(existing.value, payment.id, now);
      }
      if !ok { return Stop; }
      if changed {
        SavePayment(payment);
        ctx.AddOutboxEvent(Event(payment.id, ProviderCallbackReceived, payment.version, Some(callback.origin)));
        ctx.AddOutboxEvent(Event(payment.id, PaymentStatusChanged, payment.version, Some(callback.origin)));
      }
      if commits {
        outbox := outbox + ctx.events;
        return Applied(callback.origin);
      }
      payments, receipts := paymentsBefore, receiptsBefore;
      return Stop;
    }

    // -------------------------------------------------------------- the reconciliation loop

    /** One payment, undisturbed; false when there is nothing to change, or the provider or the transaction throws. */
    method ReconcilePayment(c: Check) returns (didUpdate: bool)
      modifies this`payments, this`outbox
      ensures didUpdate == ReconciledCopy(old(Model()), c).Some?
      ensures Model() == Reconciled(old(Model()), c)
    {
      var payment := FindPayment(c.id);
      if payment == null || payment.providerPaymentId.None? { return false; }
      if payment.status != SUBMITTED { return false; }
      if c.answer.None? { return false; }
      var target := ProviderStatus(c.answer.value.0);
      if target.None? || target.value == payment.status { return false; }
      var done := payment.ApplyProviderStatus(target.value, c.answer.value.1, c.now);
      if !done || !c.commits { return false; }
      SavePayment(payment);
      outbox := outbox + [Event(payment.id, PaymentStatusChanged, payment.version, None)];
      return true;
    }

    /** The batch loop: every committed change leaves one event, and `updated` counts them. */
    method ReconcilePending(checks: seq<Check>) returns (checked: nat, updated: nat)
      modifies this`payments, this`outbox
      ensures Model() == ReconciledAll(old(Model()), checks)
      ensures checked == |checks| && |outbox| == |old(outbox)| + updated
    {
      updated := 0;
      for i := 0 to |checks|
        invariant Model() == ReconciledAll(old(Model()), checks[..i])
        invariant |outbox| == |old(outbox)| + updated
      {
        var didUpdate := ReconcilePayment(checks[i]);
        if didUpdate { updated := updated + 1; }
        assert checks[..i + 1][..i] == checks[..i];
      }
      assert checks[..|checks|] == checks;
      checked := |checks|;
    }
  }
}
