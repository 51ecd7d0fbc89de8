/**
 What the payment handlers do to a payment and what they answer, in terms of the stored row and the
 texts they are given: for a handler that runs without interruption exactly, and over every
 schedule where each stored status, order and reason came from.
 */
module PaymentOutcomes {
  import opened Basics
  import opened PaymentMachine
  import opened PaymentRaces
  import opened PaymentTheorems

  // ---------------------------------------------------------------- what a provider's text means

  /** The status a provider's text asks for. Other texts ask for nothing. */
  ghost predicate Says(text: string, status: PaymentStatus) {
    match status
    case SUBMITTED => text == "pending"
    case ACCEPTED => text == "processing" || text == "accepted"
    case SETTLED => text == "completed" || text == "settled"
    case REJECTED => text == "rejected"
    case FAILED => text == "failed" || text == "cancelled"
    case _ => false
  }

  /** A payment takes a provider's status from SUBMITTED, and from ACCEPTED an end. */
  ghost predicate Takes(status: PaymentStatus, target: PaymentStatus) {
    (status == SUBMITTED && target != SUBMITTED) || (status == ACCEPTED && target in {SETTLED, REJECTED, FAILED})
  }

  function MovedTo(p: PaymentProps, target: PaymentStatus, reason: Option<string>, now: int): PaymentProps {
    p.(status := target, failureReason := reason, updatedAt := now, version := p.version + 1,
       settledAt := if target == SETTLED then Some(now) else p.settledAt)
  }

  /** The table of texts, read as the predicate. */
  lemma TextsExactly(text: string)
    ensures forall status :: Says(text, status) <==> ProviderStatus(text) == Some(status)
  {
  }

  /** What each request makes of a stored payment, None when it is refused. */
  lemma ChangeExactly(p: PaymentProps, change: Change, now: int)
    requires PaymentShape(p)
    ensures var d, q := p.(updatedAt := now, version := p.version + 1), ChangeOf(p, change, now);
            match change
            case Authorize(actorUserId) =>
              q == if p.order.userId == actorUserId && p.status == AWAITING_AUTHORIZATION
                   then Some(d.(status := AUTHORIZED, authorizedAt := Some(now))) else None
            case Submit(answeredId) =>
              q == if p.status == AUTHORIZED
                   then Some(d.(status := SUBMITTED, providerPaymentId := Some(answeredId), submittedAt := Some(now))) else None
            case Cancel =>
              q == if p.status in {AWAITING_AUTHORIZATION, AUTHORIZED}
                   then Some(d.(status := CANCELLED, cancelledAt := Some(now))) else None
            case Reconcile(text, reason) =>
              && (forall target :: p.status == SUBMITTED && target != SUBMITTED && Says(text, target)
                    ==> q == Some(MovedTo(p, target, reason, now)))
              && (q.Some? ==> p.status == SUBMITTED && q.value.status != SUBMITTED && Says(text, q.value.status))
  {
    if change.Reconcile? { TextsExactly(change.normalized); }
  }

  /** The event each kind of change leaves. */
  lemma EventExactly(change: Change)
    ensures EventOf(change) == if change.Authorize? then PaymentAuthorized else if change.Submit? then PaymentSubmitted
                               else PaymentStatusChanged
  {
  }

  // ---------------------------------------------------------------- uninterrupted handlers

  /** A refused change ends without a trace. */
  lemma WholeRefusal(schedule: seq<Action>, h: nat, id: Id, change: Change, now: int)
    requires var s := After(EMPTY, schedule);
             h !in s.procs && (id in s.db.payments ==> ChangeOf(s.db.payments[id], change, now).None?)
    ensures After(EMPTY, schedule + Whole(h, ChangeRead(id, change), now)) == After(EMPTY, schedule)
  {
    hide After, ChangeOf, SaveChange;
    var s, w := After(EMPTY, schedule), Whole(h, ChangeRead(id, change), now);
    ThreeMore(schedule, w[0], w[1], w[2]);
    assert s.procs[h := ChangeRead(id, change)] - {h} == s.procs;
  }

  lemma ThreeMore(schedule: seq<Action>, a: Action, b: Action, c: Action)
    ensures After(EMPTY, schedule + [a, b, c]) == Step(Step(Step(After(EMPTY, schedule), a), b), c)
  {
    hide After, Step;
    Extend(schedule, a);
    Extend(schedule + [a], b);
    Extend(schedule + [a] + [b], c);
    assert schedule + [a] + [b] + [c] == schedule + [a, b, c];
  }

  /** Authorizing, submitting, cancelling or reconciling without interruption: one row and one event, or nothing. */
  lemma ChangeRunsExactly(schedule: seq<Action>, h: nat, id: Id, change: Change, now: int)
    requires h !in After(EMPTY, schedule).procs
    ensures var s := After(EMPTY, schedule); var t := After(EMPTY, schedule + Whole(h, ChangeRead(id, change), now));
            if id !in s.db.payments || ChangeOf(s.db.payments[id], change, now).None? then t == s else
            var q := ChangeOf(s.db.payments[id], change, now).value;
            t == s.(db := s.db.(payments := s.db.payments[id := q],
                                outbox := s.db.outbox + [Event(id, EventOf(change), s.db.payments[id].version + 1, None)]))
  {
    hide After, ChangeOf, SysInv;
    ReachableInv(schedule);
    var s := After(EMPTY, schedule);
    if id !in s.db.payments || ChangeOf(s.db.payments[id], change, now).None? {
      WholeRefusal(schedule, h, id, change, now);
    } else {
      WholeChange(schedule, h, id, change, now);
      ChangedCopy(s, id, change, now);
    }
  }

  lemma ChangedCopy(s: Sys, id: Id, change: Change, now: int)
    requires SysInv(s) && id in s.db.payments && ChangeOf(s.db.payments[id], change, now).Some?
    ensures var q := ChangeOf(s.db.payments[id], change, now).value;
            q.id == id && q.version == s.db.payments[id].version + 1 && Save(s.db.payments, q) == s.db.payments[id := q]
  {
    hide KeysUnique, ReceiptsInv, ProcsInv, LogInv, OutboxInv;
    ChangeKeepsShape(s.db.payments[id], change, now);
    hide ChangeOf, PaymentShape;
    SaveCopy(s.db.payments, s.db.nextId, ChangeOf(s.db.payments[id], change, now).value);
  }

  /**
   A provider's answer to a reconciliation decides where a submitted payment goes: each text to its
   status, "pending" and unknown texts nowhere; a payment of another status is left alone.
   */
  lemma ReconciliationDecides(schedule: seq<Action>, h: nat, id: Id, text: string, reason: Option<string>, now: int,
                              target: PaymentStatus)
    requires h !in After(EMPTY, schedule).procs && id in After(EMPTY, schedule).db.payments
    ensures var s := After(EMPTY, schedule); var p := s.db.payments[id];
            var t := After(EMPTY, schedule + Whole(h, ChangeRead(id, Reconcile(text, reason)), now));
            && id in t.db.payments
            && (t.db.payments[id].status == target
                <==> if p.status == SUBMITTED && target != SUBMITTED then Says(text, target)
                     else if p.status == SUBMITTED then forall other :: other != SUBMITTED ==> !Says(text, other)
                     else p.status == target)
            && (p.status == SUBMITTED && target != SUBMITTED && Says(text, target) ==>
                  t == s.(db := s.db.(payments := s.db.payments[id := MovedTo(p, target, reason, now)],
                                      outbox := s.db.outbox + [Event(id, PaymentStatusChanged, p.version + 1, None)])))
            && (t.db.payments[id].status == p.status ==> t == s)
  {
    hide After, ChangeOf, SysInv, Says;
    var change := Reconcile(text, reason);
    ChangeRunsExactly(schedule, h, id, change, now);
    ReachableInv(schedule);
    StoredShape(After(EMPTY, schedule), id);
    ChangeExactly(After(EMPTY, schedule).db.payments[id], change, now);
    OneMeaning(text);
  }

  lemma StoredShape(s: Sys, id: Id)
    requires SysInv(s) && id in s.db.payments
    ensures PaymentShape(s.db.payments[id]) && s.db.payments[id].id == id
  {
    hide KeysUnique, ReceiptsInv, ProcsInv, LogInv, OutboxInv, PaymentShape;
  }

  lemma OneMeaning(text: string)
    ensures forall a, b :: Says(text, a) && Says(text, b) ==> a == b
  {
  }

  // ---------------------------------------------------------------- callbacks

  /** A callback run from its start through its three accesses; `pick` is the payment its query finds. */
  function WholeCallback(h: nat, c: Callback, pick: Option<Id>, now: int): seq<Action> {
    [Start(h, CallbackReceipt(c)), Move(h, true, None, now), Move(h, true, pick, now), Move(h, true, None, now)]
  }

  lemma FourMore(schedule: seq<Action>, a: Action, b: Action, c: Action, d: Action)
    ensures After(EMPTY, schedule + [a, b, c, d]) == Step(Step(Step(Step(After(EMPTY, schedule), a), b), c), d)
  {
    hide After, Step;
    ThreeMore(schedule, a, b, c);
    Extend(schedule + [a, b, c], d);
    assert schedule + [a, b, c] + [d] == schedule + [a, b, c, d];
  }

  lemma Gone(s: Sys, h: nat, x: Proc, y: Proc)
    requires h !in s.procs
    ensures Ended(At(s, h, x), h) == s && At(At(s, h, x), h, y) == At(s, h, y) && Ended(s, h) == s
  {
    assert s.procs[h := x] - {h} == s.procs;
  }

  /** The provider event has been handled before. */
  ghost predicate Handled(s: Sys, c: Callback) {
    exists r :: ReceiptOf(s.db, r, c.origin)
  }

  /** An event that was handled, or that no payment matches, changes nothing. */
  lemma IdleCallback(schedule: seq<Action>, h: nat, c: Callback, pick: Option<Id>, now: int)
    requires var s := After(EMPTY, schedule);
             && h !in s.procs && (pick.Some? ==> Matches(s.db, pick.value, c.providerPaymentId))
             && (Handled(s, c) || (forall id :: !Matches(s.db, id, c.providerPaymentId)))
    ensures After(EMPTY, schedule + WholeCallback(h, c, pick, now)) == After(EMPTY, schedule)
  {
    hide After, PaymentsInv, KeysUnique, ProcsInv, LogInv, OutboxInv, ApplyCallback, Matches, ReceiptOf;
    ReachableInv(schedule);
    var s, w := After(EMPTY, schedule), WholeCallback(h, c, pick, now);
    FourMore(schedule, w[0], w[1], w[2], w[3]);
    var found := FindByProviderEvent(s.db, c.origin);
    if found.Some? { HandledIsProcessed(s, found.value, c.origin); }
    Gone(s, h, CallbackReceipt(c), CallbackRead(c, None));
    Gone(s, h, CallbackRead(c, None), CallbackRead(c, None));
  }

  lemma HandledIsProcessed(s: Sys, r: Id, origin: Origin)
    requires SysInv(s) && ReceiptOf(s.db, r, origin)
    ensures r in s.db.receipts && s.db.receipts[r].processedAt.Some?
  {
    hide PaymentsInv, KeysUnique, ProcsInv, LogInv, OutboxInv;
  }

  /** What a new event with a text does to the payment its query finds. */
  function CallbackResult(s: Sys, c: Callback, id: Id, moved: Option<PaymentProps>, now: int): Sys
    requires id in s.db.payments
  {
    var row := if moved.Some? then moved.value else s.db.payments[id];
    Sys(Db(s.db.nextId + 1, s.db.payments[id := row], s.db.receipts[s.db.nextId := Receipt(c.origin, id, Some(now))],
           s.db.outbox + if moved.Some? then [Event(id, ProviderCallbackReceived, row.version, Some(c.origin)),
                                              Event(id, PaymentStatusChanged, row.version, Some(c.origin))] else []),
        s.procs, s.log + [CallbackCommitted(c.origin)])
  }

  /** What the callback computes from the payment it found; None where it throws. */
  function NextOf(p: PaymentProps, c: Callback, now: int): Option<PaymentProps> {
    match ProviderStatus(c.normalized)
    case None => None
    case Some(target) => if p.status == target then Some(p) else WithProviderStatus(p, target, c.reason, now)
  }

  /** Up to its transaction. */
  lemma CallbackReads(s: Sys, h: nat, c: Callback, id: Id, now: int)
    requires h !in s.procs && !Handled(s, c) && Matches(s.db, id, c.providerPaymentId)
    ensures var p := s.db.payments[id]; var next := NextOf(p, c, now); var w := WholeCallback(h, c, Some(id), now);
            Step(Step(Step(s, w[0]), w[1]), w[2])
            == if next.None? then s
               else At(s.(db := s.db.(nextId := s.db.nextId + 1)), h,
                       CallbackCommit(c, None, s.db.nextId, p, next.value, ProviderStatus(c.normalized) != Some(p.status)))
  {
    hide WithProviderStatus, ProviderStatus;
    Gone(s, h, CallbackReceipt(c), CallbackRead(c, None));
    Gone(s, h, CallbackRead(c, None), CallbackRead(c, None));
    var p := s.db.payments[id];
    if NextOf(p, c, now).Some? {
      var commit := CallbackCommit(c, None, s.db.nextId, p, NextOf(p, c, now).value, ProviderStatus(c.normalized) != Some(p.status));
      Gone(s, h, CallbackRead(c, None), commit);
      assert s.procs[h := CallbackRead(c, None)][h := commit] == s.procs[h := commit];
    }
  }

  lemma CallbackCommits(s: Sys, h: nat, c: Callback, id: Id, now: int, q: PaymentProps, changed: bool)
    requires h !in s.procs && !Handled(s, c) && id in s.db.payments && q.id == id
    requires Save(s.db.payments, q) == s.db.payments[id := q] && s.db.payments[id := s.db.payments[id]] == s.db.payments
    requires !changed ==> q == s.db.payments[id]
    ensures var commit := CallbackCommit(c, None, s.db.nextId, s.db.payments[id], q, changed);
            Step(At(s.(db := s.db.(nextId := s.db.nextId + 1)), h, commit), Move(h, true, None, now))
            == CallbackResult(s, c, id, if changed then Some(q) else None, now)
  {
    hide Save;
    SameLookups(s.db, c.origin, "", "");
    var commit := CallbackCommit(c, None, s.db.nextId, s.db.payments[id], q, changed);
    Gone(CallbackResult(s, c, id, if changed then Some(q) else None, now), h, commit, commit);
  }

  lemma CallbackRuns(schedule: seq<Action>, h: nat, c: Callback, id: Id, now: int)
    requires var s := After(EMPTY, schedule); h !in s.procs && !Handled(s, c) && Matches(s.db, id, c.providerPaymentId)
    ensures var s, t := After(EMPTY, schedule), After(EMPTY, schedule + WholeCallback(h, c, Some(id), now));
            var next := NextOf(s.db.payments[id], c, now);
            if next.None? then t == s
            else t == CallbackResult(s, c, id, if ProviderStatus(c.normalized) == Some(s.db.payments[id].status) then None else next, now)
  {
    hide After, Step, WithProviderStatus, ProviderStatus, SysInv, Save;
    ReachableInv(schedule);
    var s, w := After(EMPTY, schedule), WholeCallback(h, c, Some(id), now);
    FourMore(schedule, w[0], w[1], w[2], w[3]);
    CallbackReads(s, h, c, id, now);
    if NextOf(s.db.payments[id], c, now).Some? {
      NextCopy(s, id, c, now, NextOf(s.db.payments[id], c, now).value);
      CallbackCommits(s, h, c, id, now, NextOf(s.db.payments[id], c, now).value,
                      ProviderStatus(c.normalized) != Some(s.db.payments[id].status));
    } else {
      MoveGone(s, h, now);
    }
  }

  lemma MoveGone(s: Sys, h: nat, now: int)
    requires h !in s.procs
    ensures Step(s, Move(h, true, None, now)) == s
  {
  }

  /** Taking an id changes no lookup. */
  lemma SameLookups(db: Db, origin: Origin, clientId: string, key: string)
    ensures var later := db.(nextId := db.nextId + 1);
            && (FindByProviderEvent(later, origin).None? <==> FindByProviderEvent(db, origin).None?)
            && (FindByIdempotencyKey(later, clientId, key).None? <==> FindByIdempotencyKey(db, clientId, key).None?)
  {
    var later := db.(nextId := db.nextId + 1);
    assert forall r :: ReceiptOf(later, r, origin) <==> ReceiptOf(db, r, origin);
    assert forall id :: KeyOf(later, id, clientId, key) <==> KeyOf(db, id, clientId, key);
  }

  lemma NextCopy(s: Sys, id: Id, c: Callback, now: int, q: PaymentProps)
    requires SysInv(s) && Matches(s.db, id, c.providerPaymentId) && ProviderStatus(c.normalized).Some?
    requires var p, target := s.db.payments[id], ProviderStatus(c.normalized).value;
             Some(q) == if p.status == target then Some(p) else WithProviderStatus(p, target, c.reason, now)
    ensures q.id == id && Save(s.db.payments, q) == s.db.payments[id := q] && s.db.payments[id := s.db.payments[id]] == s.db.payments
    ensures q == s.db.payments[id] <==> s.db.payments[id].status == ProviderStatus(c.normalized).value
  {
    hide KeysUnique, ReceiptsInv, ProcsInv, LogInv, OutboxInv;
    var p, target := s.db.payments[id], ProviderStatus(c.normalized).value;
    if p.status != target { ProviderKeepsShape(p, target, c.reason, now); }
    hide PaymentShape, ProviderStatus;
    SaveCopy(s.db.payments, s.db.nextId, q);
  }

  /**
   A new provider event about a stored payment: its text moves the payment as from where it stands
   it may go, with the receipt and both events; if the payment is there already only the receipt is
   kept; otherwise, and for an unknown text, nothing is kept and the event can come again.
   */
  lemma CallbackDecides(schedule: seq<Action>, h: nat, c: Callback, id: Id, now: int)
    requires var s := After(EMPTY, schedule); h !in s.procs && !Handled(s, c) && Matches(s.db, id, c.providerPaymentId)
    ensures var s, t := After(EMPTY, schedule), After(EMPTY, schedule + WholeCallback(h, c, Some(id), now));
            var p := s.db.payments[id];
            && (forall target :: Says(c.normalized, target) ==>
                  t == if p.status == target then CallbackResult(s, c, id, None, now)
                       else if Takes(p.status, target) then CallbackResult(s, c, id, Some(MovedTo(p, target, c.reason, now)), now)
                       else s)
            && ((forall target :: !Says(c.normalized, target)) ==> t == s)
  {
    hide After, SysInv, Says, Handled;
    ReachableInv(schedule);
    var s := After(EMPTY, schedule);
    var p := s.db.payments[id];
    StoredShape(s, id);
    TextsExactly(c.normalized);
    CallbackRuns(schedule, h, c, id, now);
    if ProviderStatus(c.normalized).Some? {
      var target := ProviderStatus(c.normalized).value;
      SaysReached(c.normalized, target);
      ProviderTransitionExactly(p, target, c.reason, now);
    }
  }

  lemma SaysReached(text: string, target: PaymentStatus)
    ensures Says(text, target) ==> ReachedProvider(target)
  {
  }

  // ---------------------------------------------------------------- creation

  /** A payment as it is stored first. */
  function Waiting(id: Id, order: Order, now: int): PaymentProps {
    PaymentProps(id, order, AWAITING_AUTHORIZATION, None, None, 2, None, None, None, None, now, now)
  }

  function Answered(log: seq<Entry>, order: Order, id: Id): seq<Entry> {
    if order.idempotencyKey.Some? then log + [Responded(order.clientId, order.idempotencyKey.value, id)] else log
  }

  /**
   Creation without interruption: if the client's key names a payment, that one is answered and
   nothing is stored; otherwise a waiting payment with the order as given and its event are stored
   and answered.
   */
  lemma CreationExactly(schedule: seq<Action>, h: nat, order: Order, now: int)
    requires h !in After(EMPTY, schedule).procs
    ensures var s, t := After(EMPTY, schedule), After(EMPTY, schedule + Whole(h, CreateLookup(order), now));
            && (forall id :: order.idempotencyKey.Some? && KeyOf(s.db, id, order.clientId, order.idempotencyKey.value) ==>
                  t == s.(log := Answered(s.log, order, id)))
            && ((order.idempotencyKey.Some? ==> forall id :: !KeyOf(s.db, id, order.clientId, order.idempotencyKey.value)) ==>
                  var n := s.db.nextId;
                  t == s.(log := Answered(s.log, order, n),
                          db := s.db.(nextId := n + 1, payments := s.db.payments[n := Waiting(n, order, now)],
                                      outbox := s.db.outbox + [Event(n, PaymentCreated, 2, None)])))
  {
    hide After, SysInv, KeyOf;
    ReachableInv(schedule);
    var s, w := After(EMPTY, schedule), Whole(h, CreateLookup(order), now);
    ThreeMore(schedule, w[0], w[1], w[2]);
    FreshPayment(s);
    Gone(s, h, CreateLookup(order), CreateCommit(Waiting(s.db.nextId, order, now)));
    Gone(s, h, CreateCommit(Waiting(s.db.nextId, order, now)), CreateLookup(order));
    if order.idempotencyKey.Some? {
      OneHolder(s, order.clientId, order.idempotencyKey.value);
      SameLookups(s.db, Origin("", ""), order.clientId, order.idempotencyKey.value);
    }
  }

  lemma FreshPayment(s: Sys)
    requires SysInv(s)
    ensures s.db.nextId !in s.db.payments
  {
    hide KeysUnique, ReceiptsInv, ProcsInv, LogInv, OutboxInv;
  }

  lemma OneHolder(s: Sys, clientId: string, key: string)
    requires SysInv(s)
    ensures forall i, j :: KeyOf(s.db, i, clientId, key) && KeyOf(s.db, j, clientId, key) ==> i == j
  {
    hide PaymentsInv, ReceiptsInv, ProcsInv, LogInv, OutboxInv;
  }

  /** A creator whose key was taken while it ran answers with the payment that took it, and stores nothing. */
  lemma LoserAnswersWinner(schedule: seq<Action>, h: nat, id: Id, commits: bool, now: int)
    requires var s := After(EMPTY, schedule);
             && h in s.procs && s.procs[h].CreateCommit? && s.procs[h].draft.order.idempotencyKey.Some?
             && KeyOf(s.db, id, s.procs[h].draft.order.clientId, s.procs[h].draft.order.idempotencyKey.value)
    ensures var s := After(EMPTY, schedule); var order := s.procs[h].draft.order;
            After(EMPTY, schedule + [Move(h, commits, None, now), Move(h, commits, None, now)])
            == s.(procs := s.procs - {h}, log := s.log + [Responded(order.clientId, order.idempotencyKey.value, id)])
  {
    hide After, SysInv, KeyOf;
    ReachableInv(schedule);
    var s, a := After(EMPTY, schedule), Move(h, commits, None, now);
    var order := s.procs[h].draft.order;
    OneHolder(s, order.clientId, order.idempotencyKey.value);
    Extend(schedule, a);
    Extend(schedule + [a], a);
    assert schedule + [a] + [a] == schedule + [a, a];
    assert s.procs[h := CreateRaced(order)] - {h} == s.procs - {h};
  }

  /** A creator whose transaction fails though its key is free, or that has none, stores and answers nothing. */
  lemma FailedCreatorAnswersNothing(schedule: seq<Action>, h: nat, now: int)
    requires var s := After(EMPTY, schedule);
             && h in s.procs && s.procs[h].CreateCommit?
             && var order := s.procs[h].draft.order;
                order.idempotencyKey.Some? ==> forall id :: !KeyOf(s.db, id, order.clientId, order.idempotencyKey.value)
    ensures var s := After(EMPTY, schedule);
            After(EMPTY, schedule + [Move(h, false, None, now), Move(h, false, None, now)]) == s.(procs := s.procs - {h})
  {
    hide After, KeyOf;
    var s, a := After(EMPTY, schedule), Move(h, false, None, now);
    Extend(schedule, a);
    Extend(schedule + [a], a);
    assert schedule + [a] + [a] == schedule + [a, a];
    assert s.procs[h := CreateRaced(s.procs[h].draft.order)] - {h} == s.procs - {h};
  }

  /** Tables are written, and callbacks logged, only by a transaction that the database lets commit. */
  lemma OnlyCommitsWrite(s: Sys, a: Action)
    ensures var t := Step(s, a);
            || (t.db == s.db.(nextId := t.db.nextId)
                && (t.log == s.log || (|t.log| == |s.log| + 1 && t.log[..|s.log|] == s.log && t.log[|s.log|].Responded?)))
            || (a.Move? && a.commits && a.h in s.procs && a.h !in t.procs
                && (s.procs[a.h].CreateCommit? || s.procs[a.h].ChangeCommit? || s.procs[a.h].CallbackCommit?))
  {
    hide InsertPayment, ApplyCallback, SaveChange, FindByIdempotencyKey, FindByProviderEvent, ChangeOf, WithProviderStatus,
         ProviderStatus;
  }

  // ---------------------------------------------------------------- where every stored value came from

  /** A handler so started asks for the status, reason and provider id that `p` has, of this payment. */
  ghost predicate AsksFor(start: Proc, p: PaymentProps) {
    match p.status
    case CREATED => false
    case AWAITING_AUTHORIZATION => start == CreateLookup(p.order)
    case AUTHORIZED => start == ChangeRead(p.id, Authorize(p.order.userId))
    case SUBMITTED => p.providerPaymentId.Some? && start == ChangeRead(p.id, Submit(p.providerPaymentId.value))
    case CANCELLED => start == ChangeRead(p.id, Cancel)
    case _ =>
      || (start.ChangeRead? && start.paymentId == p.id && start.change.Reconcile?
          && Says(start.change.normalized, p.status) && p.failureReason == start.change.reason)
      || (start.CallbackReceipt? && p.providerPaymentId == Some(start.callback.providerPaymentId)
          && Says(start.callback.normalized, p.status) && p.failureReason == start.callback.reason)
  }

  ghost predicate StartedBy(a: Action, proc: Proc) {
    a.Start? && a.proc == proc
  }

  ghost predicate Began(schedule: seq<Action>, proc: Proc) {
    exists i :: 0 <= i < |schedule| && StartedBy(schedule[i], proc)
  }

  /** Some handler of the schedule asked for what `p` has become, and one for the payment itself. */
  ghost predicate Traced(schedule: seq<Action>, p: PaymentProps) {
    Began(schedule, CreateLookup(p.order)) && exists start :: AsksFor(start, p) && Began(schedule, start)
  }

  /** What a handler carries goes back to a start in the schedule. */
  ghost predicate ProcTraced(schedule: seq<Action>, proc: Proc) {
    match proc
    case CreateLookup(_) => Began(schedule, proc)
    case CreateCommit(p) => Traced(schedule, p)
    case CreateRaced(_) => true
    case ChangeRead(_, _) => Began(schedule, proc)
    case ChangeCommit(_, next, _) => Traced(schedule, next)
    case CallbackReceipt(_) => Began(schedule, proc)
    case CallbackRead(c, _) => Began(schedule, CallbackReceipt(c))
    case CallbackCommit(_, _, _, _, next, _) => Traced(schedule, next)
  }

  ghost predicate AllTraced(schedule: seq<Action>, s: Sys) {
    && (forall id | id in s.db.payments :: Traced(schedule, s.db.payments[id]))
    && (forall h | h in s.procs :: ProcTraced(schedule, s.procs[h]))
  }

  lemma BeganMore(schedule: seq<Action>, a: Action)
    ensures forall proc :: Began(schedule, proc) ==> Began(schedule + [a], proc)
    ensures a.Start? ==> Began(schedule + [a], a.proc)
  {
    var more := schedule + [a];
    forall proc | Began(schedule, proc) ensures Began(more, proc) {
      var i :| 0 <= i < |schedule| && StartedBy(schedule[i], proc);
      assert StartedBy(more[i], proc);
    }
    if a.Start? { assert StartedBy(more[|schedule|], a.proc); }
  }

  lemma TracedMore(schedule: seq<Action>, a: Action, s: Sys)
    requires AllTraced(schedule, s)
    ensures AllTraced(schedule + [a], s)
  {
    hide Began, AsksFor;
    BeganMore(schedule, a);
    var more := schedule + [a];
    forall p | Traced(schedule, p) ensures Traced(more, p) {
      var start :| AsksFor(start, p) && Began(schedule, start);
      assert Began(more, start);
    }
  }

  lemma ChangeTraced(schedule: seq<Action>, p: PaymentProps, id: Id, change: Change, now: int)
    requires PaymentShape(p) && p.id == id && Traced(schedule, p) && Began(schedule, ChangeRead(id, change))
    requires ChangeOf(p, change, now).Some?
    ensures Traced(schedule, ChangeOf(p, change, now).value)
  {
    hide Began;
    ChangeExactly(p, change, now);
    ChangeKeepsShape(p, change, now);
    hide ChangeOf, Says;
    assert AsksFor(ChangeRead(id, change), ChangeOf(p, change, now).value) by { OnlyProviderTexts(); }
  }

  lemma OnlyProviderTexts()
    ensures forall text, status :: Says(text, status) && status != SUBMITTED ==> status in {ACCEPTED, SETTLED, REJECTED, FAILED}
  {
  }

  lemma CallbackTraced(schedule: seq<Action>, p: PaymentProps, c: Callback, now: int)
    requires PaymentShape(p) && p.providerPaymentId == Some(c.providerPaymentId) && Traced(schedule, p)
    requires Began(schedule, CallbackReceipt(c)) && NextOf(p, c, now).Some?
    ensures Traced(schedule, NextOf(p, c, now).value)
  {
    hide Began, ProviderStatus;
    TextsExactly(c.normalized);
    var target := ProviderStatus(c.normalized).value;
    if p.status != target {
      SaysReached(c.normalized, target);
      ProviderTransitionExactly(p, target, c.reason, now);
      hide Says, WithProviderStatus;
      assert AsksFor(CallbackReceipt(c), NextOf(p, c, now).value) by { OnlyProviderTexts(); }
    }
  }

  /** The handler's own move keeps the trace. */
  lemma ReadTraced(schedule: seq<Action>, s: Sys, a: Action)
    requires SysInv(s) && AllTraced(schedule, s) && a.Move? && a.h in s.procs
    requires !s.procs[a.h].CreateCommit? && !s.procs[a.h].ChangeCommit? && !s.procs[a.h].CallbackCommit?
    ensures AllTraced(schedule, Step(s, a))
  {
    hide Traced, Began, ChangeOf, ProviderStatus, WithProviderStatus, KeysUnique, ReceiptsInv, ProcsInv, LogInv, OutboxInv, PaymentShape;
    assert ProcTraced(schedule, s.procs[a.h]);
    match s.procs[a.h] {
      case CreateLookup(order) => DraftTraced(schedule, s.db.nextId, order, a.now);
      case ChangeRead(id, change) =>
        if id in s.db.payments && ChangeOf(s.db.payments[id], change, a.now).Some? {
          ChangeTraced(schedule, s.db.payments[id], id, change, a.now);
        }
      case CallbackRead(c, _) =>
        if a.pick.Some? && Matches(s.db, a.pick.value, c.providerPaymentId) && NextOf(s.db.payments[a.pick.value], c, a.now).Some? {
          CallbackTraced(schedule, s.db.payments[a.pick.value], c, a.now);
        }
      case _ =>
    }
  }

  lemma DraftTraced(schedule: seq<Action>, id: Id, order: Order, now: int)
    requires Began(schedule, CreateLookup(order))
    ensures Requested(Created(id, order, now), now).Some? ==> Traced(schedule, Requested(Created(id, order, now), now).value)
  {
    hide Began;
    assert AsksFor(CreateLookup(order), Waiting(id, order, now));
  }

  /** A commit stores what the handler carries. */
  lemma CommitTraced(schedule: seq<Action>, s: Sys, a: Action)
    requires SysInv(s) && AllTraced(schedule, s) && a.Move? && a.h in s.procs
    requires s.procs[a.h].CreateCommit? || s.procs[a.h].ChangeCommit? || s.procs[a.h].CallbackCommit?
    ensures AllTraced(schedule, Step(s, a))
  {
    hide Traced, Began, KeysUnique, ReceiptsInv, LogInv, OutboxInv, PaymentShape, PaymentMoves, InsertPayment, Save,
         FindByProviderEvent;
    assert ProcOk(s.db.payments, s.db.receipts, s.db.nextId, s.procs[a.h]) && ProcTraced(schedule, s.procs[a.h]);
    match s.procs[a.h] {
      case CreateCommit(p) => if InsertPayment(s.db, p).Some? { InsertKeeps(s.db, p); }
      case ChangeCommit(_, q, _) => SaveCopy(s.db.payments, s.db.nextId, q);
      case CallbackCommit(_, _, _, _, q, _) => SaveCopy(s.db.payments, s.db.nextId, q);
    }
  }

  lemma StartTraced(schedule: seq<Action>, s: Sys, a: Action)
    requires AllTraced(schedule, s) && (a.Start? ==> Began(schedule, a.proc)) && (a.Move? ==> a.h !in s.procs)
    ensures AllTraced(schedule, Step(s, a))
  {
    hide Traced, Began;
  }

  lemma {:induction false} RunTraced(schedule: seq<Action>)
    ensures AllTraced(schedule, After(EMPTY, schedule))
    decreases |schedule|
  {
    hide AllTraced, Step, SysInv, Began;
    if schedule == [] {
      NothingTraced();
    } else {
      var first, a := schedule[..|schedule| - 1], schedule[|schedule| - 1];
      var s := After(EMPTY, first);
      RunTraced(first);
      ReachableInv(first);
      TracedMore(first, a, s);
      BeganMore(first, a);
      assert first + [a] == schedule;
      if a.Start? || a.h !in s.procs {
        StartTraced(schedule, s, a);
      } else if s.procs[a.h].CreateCommit? || s.procs[a.h].ChangeCommit? || s.procs[a.h].CallbackCommit? {
        CommitTraced(schedule, s, a);
      } else {
        ReadTraced(schedule, s, a);
      }
    }
  }

  lemma NothingTraced()
    ensures AllTraced([], EMPTY)
  {
  }

  /**
   Over every schedule, however the handlers interleave: a payment's order is that of a creation,
   and its status was asked for. Awaiting by that creation, authorized by its own user, submitted
   with the provider id it has, cancelled by a cancellation; and accepted, settled, rejected or
   failed by a callback or reconciliation whose text says so, with its reason.
   */
  lemma StatusWasAsked(schedule: seq<Action>, id: Id) returns (start: Proc)
    requires id in After(EMPTY, schedule).db.payments
    ensures var p := After(EMPTY, schedule).db.payments[id];
            Began(schedule, CreateLookup(p.order)) && Began(schedule, start) && AsksFor(start, p) && p.id == id
  {
    hide After, Began, AsksFor, SysInv;
    RunTraced(schedule);
    ReachableInv(schedule);
    StoredShape(After(EMPTY, schedule), id);
    assert Traced(schedule, After(EMPTY, schedule).db.payments[id]);
    start :| AsksFor(start, After(EMPTY, schedule).db.payments[id]) && Began(schedule, start);
  }
}
