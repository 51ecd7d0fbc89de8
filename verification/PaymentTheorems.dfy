/** What survives every interleaving of payment handlers, and what needs commits to be current. */
module PaymentTheorems {
  import opened Basics
  import opened PaymentMachine
  import opened PaymentRaces

  type Payments = map<Id, PaymentProps>
  type Receipts = map<Id, Receipt>
  type Procs = map<nat, Proc>

  // ---------------------------------------------------------------- tables

  /** Rows are never deleted and orders never change. */
  ghost predicate PaymentsGrow(payments: Payments, more: Payments) {
    forall id | id in payments :: id in more && more[id].order == payments[id].order
                                  && more[id].createdAt == payments[id].createdAt
  }

  ghost predicate ReceiptsGrow(receipts: Receipts, more: Receipts) {
    forall r | r in receipts :: r in more && more[r].origin == receipts[r].origin
  }

  /** Overwriting the mutable columns of the row with a copy of the same order is a plain update. */
  lemma SaveCopy(payments: Payments, next: Id, p: PaymentProps)
    requires PaymentsInv(payments, next) && KeysUnique(payments) && CopyOk(payments, p)
    ensures Save(payments, p) == payments[p.id := p]
    ensures PaymentsInv(Save(payments, p), next) && KeysUnique(Save(payments, p))
    ensures PaymentsGrow(payments, Save(payments, p)) && Save(payments, p).Keys == payments.Keys
  {
  }

  lemma InsertKeeps(db: Db, p: PaymentProps)
    requires PaymentsInv(db.payments, db.nextId) && KeysUnique(db.payments)
    requires p.id < db.nextId && p.id !in db.payments && PaymentShape(p) && InsertPayment(db, p).Some?
    ensures var t := InsertPayment(db, p).value;
            && t.payments == db.payments[p.id := p] && PaymentsInv(t.payments, t.nextId) && KeysUnique(t.payments)
            && PaymentsGrow(db.payments, t.payments)
  {
    hide PaymentShape;
    if p.order.idempotencyKey.Some? {
      var clientId, key := p.order.clientId, p.order.idempotencyKey.value;
      assert forall id :: !KeyOf(db, id, clientId, key);
      forall id | id in db.payments
        ensures db.payments[id].order.clientId != clientId || db.payments[id].order.idempotencyKey != Some(key)
      {
        assert !KeyOf(db, id, clientId, key);
      }
    }
  }

  // ---------------------------------------------------------------- handlers

  lemma GrowthKeepsProc(payments: Payments, more: Payments, receipts: Receipts, others: Receipts, next: Id, later: Id, proc: Proc)
    requires ProcOk(payments, receipts, next, proc) && PaymentsGrow(payments, more) && next <= later
    requires proc.CreateCommit? ==> proc.draft.id !in more
    requires proc.CallbackCommit? ==> proc.receiptId !in others
    ensures ProcOk(more, others, later, proc)
  {
    hide PaymentShape, PaymentMoves;
  }

  /** A handler ends; the tables may have grown, but not by an id another handler holds. */
  lemma EndKeepsProcs(procs: Procs, h: nat, payments: Payments, more: Payments, receipts: Receipts, others: Receipts,
                      next: Id, later: Id)
    requires ProcsInv(procs, payments, receipts, next) && PaymentsGrow(payments, more) && next <= later
    requires forall g | g in procs && g != h && procs[g].CreateCommit? :: procs[g].draft.id !in more
    requires forall g | g in procs && g != h && procs[g].CallbackCommit? :: procs[g].receiptId !in others
    ensures ProcsInv(procs - {h}, more, others, later)
  {
    hide ProcOk;
    forall g | g in procs - {h} ensures ProcOk(more, others, later, (procs - {h})[g]) {
      GrowthKeepsProc(payments, more, receipts, others, next, later, procs[g]);
    }
  }

  /** A handler moves on without touching the tables. */
  lemma MoveKeepsProcs(procs: Procs, h: nat, proc: Proc, payments: Payments, receipts: Receipts, next: Id, later: Id)
    requires ProcsInv(procs, payments, receipts, next) && next <= later && ProcOk(payments, receipts, later, proc)
    requires proc.CreateCommit? ==> proc.draft.id >= next
    requires proc.CallbackCommit? ==> proc.receiptId >= next
    ensures ProcsInv(procs[h := proc], payments, receipts, later)
  {
    hide CopyOk, PaymentShape, PaymentMoves;
    var moved := procs[h := proc];
    forall g | g in moved ensures ProcOk(payments, receipts, later, moved[g]) {
      if g != h {
        ProcIdsHeld(payments, receipts, next, procs[g]);
        GrowthKeepsProc(payments, payments, receipts, receipts, next, later, procs[g]);
      }
    }
  }

  lemma ProcIdsHeld(payments: Payments, receipts: Receipts, next: Id, proc: Proc)
    requires ProcOk(payments, receipts, next, proc)
    ensures proc.CreateCommit? ==> proc.draft.id < next && proc.draft.id !in payments
    ensures proc.CallbackCommit? ==> proc.receiptId < next && proc.receiptId !in receipts
  {
  }

  lemma AllIdsHeld(procs: Procs, payments: Payments, receipts: Receipts, next: Id)
    requires ProcsInv(procs, payments, receipts, next)
    ensures forall g | g in procs && procs[g].CreateCommit? :: procs[g].draft.id < next && procs[g].draft.id !in payments
    ensures forall g | g in procs && procs[g].CallbackCommit? :: procs[g].receiptId < next && procs[g].receiptId !in receipts
  {
    hide CopyOk, PaymentShape, PaymentMoves;
  }

  // ---------------------------------------------------------------- log and outbox

  lemma GrowthKeepsLog(log: seq<Entry>, payments: Payments, more: Payments, receipts: Receipts, others: Receipts)
    requires LogInv(log, payments, receipts) && PaymentsGrow(payments, more) && ReceiptsGrow(receipts, others)
    ensures LogInv(log, more, others)
  {
    forall i | 0 <= i < |log| ensures EntryOk(more, others, log[i]) {
      assert EntryOk(payments, receipts, log[i]);
      if log[i].CallbackCommitted? {
        var r :| r in receipts && receipts[r].origin == log[i].origin;
        assert r in others && others[r].origin == log[i].origin;
      }
    }
  }

  lemma RespondKeepsLog(log: seq<Entry>, payments: Payments, receipts: Receipts, e: Entry)
    requires LogInv(log, payments, receipts) && e.Responded? && EntryOk(payments, receipts, e)
    ensures LogInv(log + [e], payments, receipts)
  {
    hide EntryOk;
  }

  lemma CommitKeepsLog(log: seq<Entry>, payments: Payments, receipts: Receipts, origin: Origin)
    requires LogInv(log, payments, receipts) && CallbackCommitted(origin) !in log
    requires exists r :: r in receipts && receipts[r].origin == origin
    ensures LogInv(log + [CallbackCommitted(origin)], payments, receipts)
  {
  }

  lemma PlainEventKeepsOutbox(outbox: seq<Event>, log: seq<Entry>, e: Event)
    requires OutboxInv(outbox, log) && e.origin == None
    ensures OutboxInv(outbox + [e], log)
  {
    forall i | 0 <= i < |outbox| ensures HasPartner(outbox + [e], i) { assert HasPartner(outbox, i); }
  }

  lemma LongerLogKeepsOutbox(outbox: seq<Event>, log: seq<Entry>, e: Entry)
    requires OutboxInv(outbox, log)
    ensures OutboxInv(outbox, log + [e])
  {
    hide PairedOnce;
  }

  lemma CallbackEventsKeepOutbox(outbox: seq<Event>, log: seq<Entry>, p: PaymentProps, origin: Origin)
    requires OutboxInv(outbox, log) && CallbackCommitted(origin) !in log
    ensures OutboxInv(outbox + [Event(p.id, ProviderCallbackReceived, p.version, Some(origin)),
                                Event(p.id, PaymentStatusChanged, p.version, Some(origin))],
                      log + [CallbackCommitted(origin)])
  {
    assert (log + [CallbackCommitted(origin)])[|log|] == CallbackCommitted(origin);
    var more := outbox + [Event(p.id, ProviderCallbackReceived, p.version, Some(origin)),
                          Event(p.id, PaymentStatusChanged, p.version, Some(origin))];
    assert more[|outbox| + 1] == more[|outbox|].(eventType := PaymentStatusChanged);
    forall i | 0 <= i < |outbox| ensures HasPartner(more, i) { assert HasPartner(outbox, i); }
    forall i | 0 <= i < |outbox| && outbox[i].origin.Some? ensures outbox[i].origin != Some(origin) {}
  }

  // ---------------------------------------------------------------- every step

  lemma CreateLookupKeeps(s: Sys, h: nat, order: Order, now: int)
    requires SysInv(s) && h in s.procs && s.procs[h] == CreateLookup(order)
    ensures SysInv(DoCreateLookup(s, h, order, now))
  {
    hide PaymentsInv, KeysUnique, ReceiptsInv, LogInv, OutboxInv, ProcsInv;
    AllIdsHeld(s.procs, s.db.payments, s.db.receipts, s.db.nextId);
    EndKeepsProcs(s.procs, h, s.db.payments, s.db.payments, s.db.receipts, s.db.receipts, s.db.nextId, s.db.nextId);
    var found := if order.idempotencyKey.Some?
                 then FindByIdempotencyKey(s.db, order.clientId, order.idempotencyKey.value) else None;
    if found.Some? {
      AnswerKeeps(s, h, order, found.value);
    } else {
      var p := Requested(Created(s.db.nextId, order, now), now).value;
      NextIdIsFree(s.db);
      LaterTables(s.db, s.db.nextId + 1);
      MoveKeepsProcs(s.procs, h, CreateCommit(p), s.db.payments, s.db.receipts, s.db.nextId, s.db.nextId + 1);
    }
  }

  lemma NextIdIsFree(db: Db)
    requires PaymentsInv(db.payments, db.nextId) && ReceiptsInv(db.receipts, db.nextId)
    ensures db.nextId !in db.payments && db.nextId !in db.receipts
  {
  }

  lemma LaterTables(db: Db, later: Id)
    requires PaymentsInv(db.payments, db.nextId) && ReceiptsInv(db.receipts, db.nextId) && db.nextId <= later
    ensures PaymentsInv(db.payments, later) && ReceiptsInv(db.receipts, later)
  {
    hide PaymentShape;
  }

  lemma AnswerKeeps(s: Sys, h: nat, order: Order, id: Id)
    requires SysInv(s) && h in s.procs && order.idempotencyKey.Some?
    requires KeyOf(s.db, id, order.clientId, order.idempotencyKey.value)
    ensures SysInv(Answer(s, h, order, id))
  {
    hide PaymentsInv, KeysUnique, ReceiptsInv, LogInv, OutboxInv, ProcsInv;
    AllIdsHeld(s.procs, s.db.payments, s.db.receipts, s.db.nextId);
    EndKeepsProcs(s.procs, h, s.db.payments, s.db.payments, s.db.receipts, s.db.receipts, s.db.nextId, s.db.nextId);
    var e := Responded(order.clientId, order.idempotencyKey.value, id);
    RespondKeepsLog(s.log, s.db.payments, s.db.receipts, e);
    LongerLogKeepsOutbox(s.db.outbox, s.log, e);
  }

  lemma EndKeeps(s: Sys, h: nat)
    requires SysInv(s)
    ensures SysInv(Ended(s, h))
  {
    hide PaymentsInv, KeysUnique, ReceiptsInv, LogInv, OutboxInv, ProcsInv;
    AllIdsHeld(s.procs, s.db.payments, s.db.receipts, s.db.nextId);
    EndKeepsProcs(s.procs, h, s.db.payments, s.db.payments, s.db.receipts, s.db.receipts, s.db.nextId, s.db.nextId);
  }

  /** A handler takes its next phase; the tables stay. */
  lemma PhaseKeeps(s: Sys, h: nat, proc: Proc)
    requires SysInv(s) && ProcOk(s.db.payments, s.db.receipts, s.db.nextId, proc)
    requires !proc.CreateCommit? && !proc.CallbackCommit?
    ensures SysInv(At(s, h, proc))
  {
    hide PaymentsInv, KeysUnique, ReceiptsInv, LogInv, OutboxInv, ProcsInv, ProcOk;
    MoveKeepsProcs(s.procs, h, proc, s.db.payments, s.db.receipts, s.db.nextId, s.db.nextId);
  }

  lemma CreateCommitKeeps(s: Sys, h: nat, p: PaymentProps, commits: bool)
    requires SysInv(s) && h in s.procs && s.procs[h] == CreateCommit(p)
    ensures SysInv(DoCreateCommit(s, h, p, commits))
  {
    hide PaymentsInv, KeysUnique, ReceiptsInv, LogInv, OutboxInv, InsertPayment;
    var done := InsertPayment(s.db, p);
    if done.Some? && commits {
      assert ProcOk(s.db.payments, s.db.receipts, s.db.nextId, s.procs[h]);
      var db := done.value;
      InsertKeeps(s.db, p);
      InsertFrame(s.db, p);
      var e := Event(p.id, PaymentCreated, p.version, None);
      PlainEventKeepsOutbox(s.db.outbox, s.log, e);
      AllIdsHeld(s.procs, s.db.payments, s.db.receipts, s.db.nextId);
      EndKeepsProcs(s.procs, h, s.db.payments, db.payments, s.db.receipts, s.db.receipts, s.db.nextId, s.db.nextId);
      GrowthKeepsLog(s.log, s.db.payments, db.payments, s.db.receipts, s.db.receipts);
      if p.order.idempotencyKey.Some? {
        var entry := Responded(p.order.clientId, p.order.idempotencyKey.value, p.id);
        RespondKeepsLog(s.log, db.payments, db.receipts, entry);
        LongerLogKeepsOutbox(db.outbox, s.log, entry);
      }
    } else if p.order.idempotencyKey.Some? {
      PhaseKeeps(s, h, CreateRaced(p.order));
    } else {
      EndKeeps(s, h);
    }
  }

  lemma InsertFrame(db: Db, p: PaymentProps)
    requires InsertPayment(db, p).Some?
    ensures var t := InsertPayment(db, p).value;
            t.receipts == db.receipts && t.nextId == db.nextId
            && t.outbox == db.outbox + [Event(p.id, PaymentCreated, p.version, None)]
  {
  }

  lemma ChangeReadKeeps(s: Sys, h: nat, id: Id, change: Change, now: int)
    requires SysInv(s) && h in s.procs
    ensures SysInv(DoChangeRead(s, h, id, change, now))
  {
    hide KeysUnique, ReceiptsInv, LogInv, OutboxInv, ProcsInv;
    if id in s.db.payments && ChangeOf(s.db.payments[id], change, now).Some? {
      var p := s.db.payments[id];
      var q := ChangeOf(p, change, now).value;
      ChangeKeepsShape(p, change, now);
      PhaseKeeps(s, h, ChangeCommit(p, q, EventOf(change)));
    } else {
      EndKeeps(s, h);
    }
  }

  lemma ChangeKeepsShape(p: PaymentProps, change: Change, now: int)
    requires PaymentShape(p) && ChangeOf(p, change, now).Some?
    ensures PaymentShape(ChangeOf(p, change, now).value) && PaymentMoves(p, ChangeOf(p, change, now).value)
  {
  }

  lemma ChangeCommitKeeps(s: Sys, h: nat, read: PaymentProps, q: PaymentProps, eventType: EventType, commits: bool)
    requires SysInv(s) && h in s.procs && s.procs[h] == ChangeCommit(read, q, eventType)
    ensures SysInv(DoChangeCommit(s, h, q, eventType, commits))
  {
    hide PaymentsInv, KeysUnique, ReceiptsInv, LogInv, OutboxInv, CopyOk, Save;
    if commits {
      assert ProcOk(s.db.payments, s.db.receipts, s.db.nextId, s.procs[h]);
      SaveCopy(s.db.payments, s.db.nextId, q);
      PlainEventKeepsOutbox(s.db.outbox, s.log, Event(q.id, eventType, q.version, None));
      var more := Save(s.db.payments, q);
      AllIdsHeld(s.procs, s.db.payments, s.db.receipts, s.db.nextId);
      EndKeepsProcs(s.procs, h, s.db.payments, more, s.db.receipts, s.db.receipts, s.db.nextId, s.db.nextId);
      GrowthKeepsLog(s.log, s.db.payments, more, s.db.receipts, s.db.receipts);
    } else {
      EndKeeps(s, h);
    }
  }

  lemma CallbackReceiptKeeps(s: Sys, h: nat, callback: Callback)
    requires SysInv(s) && h in s.procs
    ensures SysInv(DoCallbackReceipt(s, h, callback))
  {
    hide PaymentsInv, KeysUnique, LogInv, OutboxInv, ProcsInv;
    EndKeeps(s, h);
    PhaseKeeps(s, h, CallbackRead(callback, None));
  }

  lemma CallbackReadKeeps(s: Sys, h: nat, c: Callback, existing: Option<Id>, pick: Option<Id>, now: int)
    requires SysInv(s) && h in s.procs && s.procs[h] == CallbackRead(c, existing)
    ensures SysInv(DoCallbackRead(s, h, c, existing, pick, now))
  {
    hide KeysUnique, ReceiptsInv, LogInv, OutboxInv, PaymentShape;
    EndKeeps(s, h);
    if pick.Some? && Matches(s.db, pick.value, c.providerPaymentId) && ProviderStatus(c.normalized).Some? {
      var p := s.db.payments[pick.value];
      var target := ProviderStatus(c.normalized).value;
      var next := if p.status == target then Some(p) else WithProviderStatus(p, target, c.reason, now);
      if next.Some? {
        assert ProcOk(s.db.payments, s.db.receipts, s.db.nextId, s.procs[h]);
        if p.status != target { ProviderKeepsShape(p, target, c.reason, now); }
        ReceiptPhaseKeeps(s, h, CallbackCommit(c, existing, s.db.nextId, p, next.value, p.status != target));
      }
    }
  }

  /** A handler takes a new receipt id to its commit. */
  lemma ReceiptPhaseKeeps(s: Sys, h: nat, proc: Proc)
    requires SysInv(s) && proc.CallbackCommit? && proc.receiptId == s.db.nextId && proc.existing.None?
    requires CopyOk(s.db.payments, proc.read) && CopyOk(s.db.payments, proc.next)
    requires if proc.changed then PaymentMoves(proc.read, proc.next) else proc.next == proc.read
    ensures SysInv(At(s.(db := s.db.(nextId := s.db.nextId + 1)), h, proc))
  {
    hide PaymentsInv, KeysUnique, ReceiptsInv, LogInv, OutboxInv, ProcsInv, CopyOk, PaymentMoves;
    NextIdIsFree(s.db);
    LaterTables(s.db, s.db.nextId + 1);
    MoveKeepsProcs(s.procs, h, proc, s.db.payments, s.db.receipts, s.db.nextId, s.db.nextId + 1);
  }

  lemma ProviderKeepsShape(p: PaymentProps, target: PaymentStatus, reason: Option<string>, now: int)
    requires PaymentShape(p) && p.providerPaymentId.Some? && WithProviderStatus(p, target, reason, now).Some?
    ensures PaymentShape(WithProviderStatus(p, target, reason, now).value)
    ensures PaymentMoves(p, WithProviderStatus(p, target, reason, now).value)
  {
  }

  /** A new receipt: its event had none, so no commit of it is logged yet. */
  lemma NewReceiptKeeps(receipts: Receipts, next: Id, r: Id, receipt: Receipt)
    requires ReceiptsInv(receipts, next) && r < next && r !in receipts && receipt.processedAt.Some?
    requires forall q | q in receipts :: receipts[q].origin != receipt.origin
    ensures ReceiptsInv(receipts[r := receipt], next) && ReceiptsGrow(receipts, receipts[r := receipt])
  {
  }

  lemma NotYetCommitted(s: Sys, origin: Origin)
    requires LogInv(s.log, s.db.payments, s.db.receipts) && FindByProviderEvent(s.db, origin).None?
    ensures CallbackCommitted(origin) !in s.log
    ensures forall q | q in s.db.receipts :: s.db.receipts[q].origin != origin
  {
    forall q | q in s.db.receipts ensures s.db.receipts[q].origin != origin { assert !ReceiptOf(s.db, q, origin); }
    forall i | 0 <= i < |s.log| ensures s.log[i] != CallbackCommitted(origin) {
      assert EntryOk(s.db.payments, s.db.receipts, s.log[i]);
    }
  }

  lemma CallbackCommitKeeps(s: Sys, h: nat, proc: Proc, commits: bool, now: int)
    requires SysInv(s) && h in s.procs && s.procs[h] == proc && proc.CallbackCommit?
    ensures SysInv(DoCallbackCommit(s, h, proc, commits, now))
  {
    hide PaymentsInv, KeysUnique, ReceiptsInv, LogInv, OutboxInv, CopyOk, Save, FindByProviderEvent, PaymentMoves;
    var origin := proc.callback.origin;
    var q := proc.next;
    assert ProcOk(s.db.payments, s.db.receipts, s.db.nextId, proc);
    if commits && FindByProviderEvent(s.db, origin).None? {
      var receipts := s.db.receipts[proc.receiptId := Receipt(origin, q.id, Some(now))];
      NotYetCommitted(s, origin);
      NewReceiptKeeps(s.db.receipts, s.db.nextId, proc.receiptId, Receipt(origin, q.id, Some(now)));
      SaveCopy(s.db.payments, s.db.nextId, q);
      var more := if proc.changed then Save(s.db.payments, q) else s.db.payments;
      AllIdsHeld(s.procs, s.db.payments, s.db.receipts, s.db.nextId);
      EndKeepsProcs(s.procs, h, s.db.payments, more, s.db.receipts, receipts, s.db.nextId, s.db.nextId);
      GrowthKeepsLog(s.log, s.db.payments, more, s.db.receipts, receipts);
      assert receipts[proc.receiptId].origin == origin;
      CommitKeepsLog(s.log, more, receipts, origin);
      if proc.changed {
        CallbackEventsKeepOutbox(s.db.outbox, s.log, q, origin);
      } else {
        LongerLogKeepsOutbox(s.db.outbox, s.log, CallbackCommitted(origin));
      }
    } else {
      EndKeeps(s, h);
    }
  }

  lemma StepKeeps(s: Sys, a: Action)
    requires SysInv(s)
    ensures SysInv(Step(s, a))
  {
    hide SysInv;
    if a.Start? {
      if a.h !in s.procs && IsStart(a.proc) { PhaseKeeps(s, a.h, a.proc); }
    } else if a.h in s.procs {
      match s.procs[a.h] {
        case CreateLookup(order) => CreateLookupKeeps(s, a.h, order, a.now);
        case CreateCommit(p) => CreateCommitKeeps(s, a.h, p, a.commits);
        case CreateRaced(order) => CreateRacedKeeps(s, a.h, order);
        case ChangeRead(id, change) => ChangeReadKeeps(s, a.h, id, change, a.now);
        case ChangeCommit(read, q, eventType) => ChangeCommitKeeps(s, a.h, read, q, eventType, a.commits);
        case CallbackReceipt(callback) => CallbackReceiptKeeps(s, a.h, callback);
        case CallbackRead(callback, existing) => CallbackReadKeeps(s, a.h, callback, existing, a.pick, a.now);
        case CallbackCommit(_, _, _, _, _, _) => CallbackCommitKeeps(s, a.h, s.procs[a.h], a.commits, a.now);
      }
    }
  }

  lemma CreateRacedKeeps(s: Sys, h: nat, order: Order)
    requires SysInv(s) && h in s.procs
    ensures SysInv(DoCreateRaced(s, h, order))
  {
    hide SysInv;
    EndKeeps(s, h);
    if order.idempotencyKey.Some? {
      var found := FindByIdempotencyKey(s.db, order.clientId, order.idempotencyKey.value);
      if found.Some? { AnswerKeeps(s, h, order, found.value); }
    }
  }

  lemma {:induction false} ReachableInv(schedule: seq<Action>)
    ensures SysInv(After(EMPTY, schedule))
    decreases |schedule|
  {
    hide Step;
    if schedule == [] {
      EmptyInv();
    } else {
      hide SysInv;
      ReachableInv(schedule[..|schedule| - 1]);
      StepKeeps(After(EMPTY, schedule[..|schedule| - 1]), schedule[|schedule| - 1]);
    }
  }

  lemma EmptyInv()
    ensures SysInv(EMPTY)
  {
  }

  // ---------------------------------------------------------------- idempotent creation

  /**
   Over any interleaving there is at most one payment per (client, idempotency key), and every
   response for that pair, by early lookup, commit or raced lookup, carries its id.
   */
  lemma OnePaymentPerKey(schedule: seq<Action>, i: nat, j: nat, p: Id, q: Id, clientId: string, key: string)
    ensures var s := After(EMPTY, schedule);
            && (KeyOf(s.db, p, clientId, key) && KeyOf(s.db, q, clientId, key) ==> p == q)
            && (i < |s.log| && j < |s.log| && s.log[i] == Responded(clientId, key, p) && s.log[j] == Responded(clientId, key, q)
                ==> p == q && KeyOf(s.db, p, clientId, key))
  {
    hide PaymentsInv, ReceiptsInv, ProcsInv, OutboxInv, After;
    ReachableInv(schedule);
    var s := After(EMPTY, schedule);
    if i < |s.log| { assert EntryOk(s.db.payments, s.db.receipts, s.log[i]); }
    if j < |s.log| { assert EntryOk(s.db.payments, s.db.receipts, s.log[j]); }
  }

  /** The keyed response of a creator names a payment of that client and key at the moment it is given. */
  lemma CreatorAnswersItsKey(schedule: seq<Action>, a: Action)
    ensures var s := After(EMPTY, schedule); var t := Step(s, a);
            |t.log| == |s.log| + 1 && t.log[|s.log|].Responded? ==>
              a.Move? && a.h in s.procs
              && (s.procs[a.h].CreateLookup? || s.procs[a.h].CreateCommit? || s.procs[a.h].CreateRaced?)
              && var order := if s.procs[a.h].CreateCommit? then s.procs[a.h].draft.order else s.procs[a.h].order;
                 && t.log[|s.log|].clientId == order.clientId && order.idempotencyKey == Some(t.log[|s.log|].key)
                 && KeyOf(t.db, t.log[|s.log|].paymentId, order.clientId, t.log[|s.log|].key)
  {
    hide PaymentsInv, KeysUnique, ReceiptsInv, LogInv, OutboxInv, After, InsertPayment;
    ReachableInv(schedule);
    var s := After(EMPTY, schedule);
    if a.Move? && a.h in s.procs && s.procs[a.h].CreateCommit? && InsertPayment(s.db, s.procs[a.h].draft).Some? {
      assert ProcOk(s.db.payments, s.db.receipts, s.db.nextId, s.procs[a.h]);
      InsertKeeps(s.db, s.procs[a.h].draft);
    }
  }

  // ---------------------------------------------------------------- callbacks

  /**
   For each provider event at most one handler ever commits, its two outbox events stand
   together and appear at most once, every stored receipt is processed, and no handler
   reaches the branch that marks an existing receipt processed.
   */
  lemma CallbackCommitsOnce(schedule: seq<Action>)
    ensures var s := After(EMPTY, schedule);
            && CommitsOnce(s.log) && PairedOnce(s.db.outbox)
            && (forall r | r in s.db.receipts :: s.db.receipts[r].processedAt.Some?)
            && (forall q, r | q in s.db.receipts && r in s.db.receipts ::
                  s.db.receipts[q].origin == s.db.receipts[r].origin ==> q == r)
            && (forall h | h in s.procs && s.procs[h].CallbackCommit? :: s.procs[h].existing == None)
  {
    hide PaymentsInv, KeysUnique, EntryOk, After, CopyOk;
    ReachableInv(schedule);
  }

  // ---------------------------------------------------------------- rows

  /** Every stored payment row is well shaped, whatever was lost or overwritten on the way. */
  lemma RowsAlwaysConsistent(schedule: seq<Action>, id: Id)
    requires id in After(EMPTY, schedule).db.payments
    ensures var p := After(EMPTY, schedule).db.payments[id];
            && (p.providerPaymentId.Some? <==> p.submittedAt.Some?)
            && (p.submittedAt.Some? <==> p.status in {SUBMITTED, ACCEPTED, SETTLED, FAILED, REJECTED})
            && (p.settledAt.Some? <==> p.status == SETTLED) && (p.cancelledAt.Some? <==> p.status == CANCELLED)
            && p.status != CREATED && 2 <= p.version <= 6 && VersionFits(p.status, p.version)
  {
    hide KeysUnique, ReceiptsInv, ProcsInv, LogInv, OutboxInv, After;
    ReachableInv(schedule);
  }

  // ---------------------------------------------------------------- when every commit is current

  /** The row about to be overwritten is still the one the handler read. */
  ghost predicate Current(s: Sys, a: Action) {
    a.Move? && a.commits && a.h in s.procs ==>
      match s.procs[a.h]
      case ChangeCommit(read, next, _) => next.id in s.db.payments && s.db.payments[next.id] == read
      case CallbackCommit(_, _, _, read, next, changed) =>
        changed ==> next.id in s.db.payments && s.db.payments[next.id] == read
      case _ => true
  }

  ghost predicate AllCurrent(s: Sys, schedule: seq<Action>)
    decreases |schedule|
  {
    schedule == [] || (AllCurrent(s, schedule[..|schedule| - 1])
                       && Current(After(s, schedule[..|schedule| - 1]), schedule[|schedule| - 1]))
  }

  /** A handler that commits right after its read commits on the row it read: serial runs are current. */
  lemma SerialHandlerIsCurrent(schedule: seq<Action>, read: Action, commit: Action)
    requires read.Move? && commit.Move? && read.h == commit.h && read.h in After(EMPTY, schedule).procs
    requires var proc := After(EMPTY, schedule).procs[read.h]; proc.ChangeRead? || proc.CallbackRead?
    ensures Current(Step(After(EMPTY, schedule), read), commit)
            || Step(After(EMPTY, schedule), read) == After(EMPTY, schedule)
  {
    hide KeysUnique, ReceiptsInv, ProcsInv, LogInv, OutboxInv, After, PaymentShape;
    ReachableInv(schedule);
  }

  // ---------------------------------------------------------------- serial schedules

  /** One handler at a time: the actions of each stand together. Nothing is said of what they do. */
  ghost predicate Serial(schedule: seq<Action>) {
    forall i, j, k | 0 <= i < j < k < |schedule| :: schedule[i].h == schedule[k].h ==> schedule[j].h == schedule[k].h
  }

  /** Only a handler that acted is at work. */
  lemma {:induction false} AtWorkActed(schedule: seq<Action>, h: nat)
    requires h in After(EMPTY, schedule).procs
    ensures exists i :: 0 <= i < |schedule| && schedule[i].h == h
    decreases |schedule|
  {
    hide Step;
    if schedule != [] {
      var first, a := schedule[..|schedule| - 1], schedule[|schedule| - 1];
      if a.h != h {
        StepMovesOne(After(EMPTY, first), a, h);
        AtWorkActed(first, h);
        var i :| 0 <= i < |first| && first[i].h == h;
        assert schedule[i].h == h;
      }
    }
  }

  lemma StepMovesOne(s: Sys, a: Action, h: nat)
    requires a.h != h
    ensures h in Step(s, a).procs <==> h in s.procs
    ensures h in s.procs ==> Step(s, a).procs[h] == s.procs[h]
  {
    hide InsertPayment, ApplyCallback, SaveChange, FindByIdempotencyKey, FindByProviderEvent, ChangeOf, Requested, WithProviderStatus;
  }

  /** The copy a handler is about to commit was computed from the row that is stored. */
  ghost predicate HoldsCurrent(s: Sys, h: nat) {
    h in s.procs ==>
      match s.procs[h]
      case ChangeCommit(read, next, _) => next.id in s.db.payments && s.db.payments[next.id] == read
      case CallbackCommit(_, _, _, read, next, changed) =>
        changed ==> next.id in s.db.payments && s.db.payments[next.id] == read
      case _ => true
  }

  /** A handler that moves on its own reads the row it will commit over. */
  lemma OwnMoveHoldsCurrent(s: Sys, a: Action)
    requires SysInv(s) && HoldsCurrent(s, a.h)
    ensures HoldsCurrent(Step(s, a), a.h)
  {
    hide KeysUnique, ReceiptsInv, ProcsInv, LogInv, OutboxInv, PaymentShape, InsertPayment, ApplyCallback, SaveChange,
         FindByIdempotencyKey, FindByProviderEvent;
  }

  lemma {:induction false} SerialHoldsCurrent(schedule: seq<Action>)
    requires Serial(schedule) && schedule != []
    ensures HoldsCurrent(After(EMPTY, schedule), schedule[|schedule| - 1].h)
    ensures HoldsCurrent(After(EMPTY, schedule[..|schedule| - 1]), schedule[|schedule| - 1].h)
    decreases |schedule|
  {
    hide SysInv, Step, HoldsCurrent;
    var first, a := schedule[..|schedule| - 1], schedule[|schedule| - 1];
    var s := After(EMPTY, first);
    ReachableInv(first);
    if first != [] && first[|first| - 1].h == a.h {
      SerialHoldsCurrent(first);
    } else {
      NewHandler(schedule);
      NotAtWork(s, a.h);
    }
    OwnMoveHoldsCurrent(s, a);
  }

  /** Where a handler's actions begin it is not at work yet. */
  lemma NewHandler(schedule: seq<Action>)
    requires Serial(schedule) && schedule != []
    requires |schedule| == 1 || schedule[|schedule| - 2].h != schedule[|schedule| - 1].h
    ensures schedule[|schedule| - 1].h !in After(EMPTY, schedule[..|schedule| - 1]).procs
  {
    hide After;
    var first, h := schedule[..|schedule| - 1], schedule[|schedule| - 1].h;
    forall i | 0 <= i < |first| ensures first[i].h != h { assert schedule[i].h == first[i].h; }
    if h in After(EMPTY, first).procs {
      AtWorkActed(first, h);
      assert false;
    }
  }

  lemma NotAtWork(s: Sys, h: nat)
    requires h !in s.procs
    ensures HoldsCurrent(s, h)
  {
  }

  lemma HoldsIsCurrent(s: Sys, a: Action)
    requires HoldsCurrent(s, a.h)
    ensures Current(s, a)
  {
  }

  /** In every serial schedule every commit is over the row that was read. */
  lemma {:induction false} SerialIsCurrent(schedule: seq<Action>)
    requires Serial(schedule)
    ensures AllCurrent(EMPTY, schedule)
    decreases |schedule|
  {
    hide After, Current, HoldsCurrent;
    if schedule != [] {
      SerialIsCurrent(schedule[..|schedule| - 1]);
      SerialHoldsCurrent(schedule);
      HoldsIsCurrent(After(EMPTY, schedule[..|schedule| - 1]), schedule[|schedule| - 1]);
    }
  }

  function Versions(outbox: seq<Event>, id: Id): set<int> {
    if outbox == [] then {} else
      var e := outbox[|outbox| - 1];
      Versions(outbox[..|outbox| - 1], id) + (if e.paymentId == id then {e.version} else {})
  }

  lemma VersionsAppend(outbox: seq<Event>, e: Event, id: Id)
    ensures Versions(outbox + [e], id) == Versions(outbox, id) + (if e.paymentId == id then {e.version} else {})
  {
    assert (outbox + [e])[..|outbox|] == outbox;
  }

  ghost predicate GapFree(outbox: seq<Event>, payments: Payments) {
    forall id: Id, v: int :: v in Versions(outbox, id) <==> id in payments && 2 <= v <= payments[id].version
  }

  ghost predicate NoGap(s: Sys) {
    GapFree(s.db.outbox, s.db.payments)
  }

  /** The row moves one version on, or is new at version 2, with an event of that version. */
  lemma EventClosesGap(outbox: seq<Event>, payments: Payments, q: PaymentProps, e: Event)
    requires GapFree(outbox, payments)
    requires e.paymentId == q.id && e.version == q.version && q.version >= 2
    requires q.id in payments ==> payments[q.id].version >= 1 && payments[q.id].version <= q.version <= payments[q.id].version + 1
    requires q.id !in payments ==> q.version == 2
    ensures GapFree(outbox + [e], payments[q.id := q])
  {
    forall id: Id, v: int
      ensures v in Versions(outbox + [e], id) <==> id in payments[q.id := q] && 2 <= v <= payments[q.id := q][id].version
    {
      VersionsAppend(outbox, e, id);
    }
  }

  lemma CreationKeepsNoGap(db: Db, procs: Procs, log: seq<Entry>, p: PaymentProps)
    requires PaymentsInv(db.payments, db.nextId) && KeysUnique(db.payments) && NoGap(Sys(db, procs, log))
    requires p.id < db.nextId && p.id !in db.payments && PaymentShape(p) && p.version == 2 && InsertPayment(db, p).Some?
    ensures NoGap(Sys(InsertPayment(db, p).value, procs, log))
  {
    hide KeysUnique, InsertPayment, PaymentShape;
    InsertKeeps(db, p);
    InsertFrame(db, p);
    EventClosesGap(db.outbox, db.payments, p, Event(p.id, PaymentCreated, p.version, None));
  }

  lemma ChangeKeepsNoGap(db: Db, procs: Procs, log: seq<Entry>, q: PaymentProps, eventType: EventType)
    requires PaymentsInv(db.payments, db.nextId) && KeysUnique(db.payments) && NoGap(Sys(db, procs, log))
    requires CopyOk(db.payments, q) && q.version == db.payments[q.id].version + 1
    ensures NoGap(Sys(SaveChange(db, q, eventType), procs, log))
  {
    hide KeysUnique, Save;
    SaveCopy(db.payments, db.nextId, q);
    EventClosesGap(db.outbox, db.payments, q, Event(q.id, eventType, q.version, None));
  }

  lemma CallbackKeepsNoGap(outbox: seq<Event>, payments: Payments, q: PaymentProps, origin: Origin)
    requires GapFree(outbox, payments)
    requires q.id in payments && payments[q.id].version >= 1 && q.version == payments[q.id].version + 1
    ensures var events := [Event(q.id, ProviderCallbackReceived, q.version, Some(origin)),
                           Event(q.id, PaymentStatusChanged, q.version, Some(origin))];
            GapFree(outbox + events, payments[q.id := q])
  {
    var e := Event(q.id, ProviderCallbackReceived, q.version, Some(origin));
    var f := Event(q.id, PaymentStatusChanged, q.version, Some(origin));
    EventClosesGap(outbox, payments, q, e);
    EventClosesGap(outbox + [e], payments[q.id := q], q, f);
    assert payments[q.id := q][q.id := q] == payments[q.id := q];
    assert outbox + [e, f] == outbox + [e] + [f];
  }

  lemma CurrentStepKeepsNoGap(s: Sys, a: Action)
    requires SysInv(s) && NoGap(s) && Current(s, a)
    ensures NoGap(Step(s, a))
  {
    hide KeysUnique, ReceiptsInv, LogInv, OutboxInv, InsertPayment, Save, FindByProviderEvent, Versions, SaveChange;
    if a.Move? && a.h in s.procs && a.commits {
      assert ProcOk(s.db.payments, s.db.receipts, s.db.nextId, s.procs[a.h]);
      match s.procs[a.h] {
        case CreateCommit(p) =>
          if InsertPayment(s.db, p).Some? { CreationKeepsNoGap(s.db, s.procs, s.log, p); }
        case ChangeCommit(read, q, eventType) =>
          ChangeKeepsNoGap(s.db, s.procs, s.log, q, eventType);
        case CallbackCommit(c, existing, r, read, q, changed) =>
          if changed {
            SaveCopy(s.db.payments, s.db.nextId, q);
            CallbackKeepsNoGap(s.db.outbox, s.db.payments, q, c.origin);
          }
        case _ =>
      }
    }
  }

  lemma CurrentStepKeepsTerminal(s: Sys, a: Action, id: Id)
    requires SysInv(s) && Current(s, a) && id in s.db.payments && IsTerminalPayment(s.db.payments[id].status)
    ensures id in Step(s, a).db.payments && Step(s, a).db.payments[id] == s.db.payments[id]
  {
    hide KeysUnique, ReceiptsInv, LogInv, OutboxInv, InsertPayment, FindByProviderEvent;
    if a.Move? && a.h in s.procs {
      assert ProcOk(s.db.payments, s.db.receipts, s.db.nextId, s.procs[a.h]);
      if s.procs[a.h].CreateCommit? && InsertPayment(s.db, s.procs[a.h].draft).Some? {
        InsertKeeps(s.db, s.procs[a.h].draft);
      }
    }
  }

  /**
   When every commit is current, as in every serial run, the outbox holds for each payment
   exactly versions 2 to the current one.
   */
  lemma {:induction false} CurrentRunHasNoGap(schedule: seq<Action>)
    requires AllCurrent(EMPTY, schedule)
    ensures NoGap(After(EMPTY, schedule))
    decreases |schedule|
  {
    hide SysInv, Step, Current;
    if schedule != [] {
      hide NoGap;
      CurrentRunHasNoGap(schedule[..|schedule| - 1]);
      ReachableInv(schedule[..|schedule| - 1]);
      CurrentStepKeepsNoGap(After(EMPTY, schedule[..|schedule| - 1]), schedule[|schedule| - 1]);
    }
  }

  /** And a terminal payment never changes again. */
  lemma {:induction false} CurrentRunAbsorbsTerminal(schedule: seq<Action>, n: nat, id: Id)
    requires AllCurrent(EMPTY, schedule) && n <= |schedule| && id in After(EMPTY, schedule[..n]).db.payments
    requires IsTerminalPayment(After(EMPTY, schedule[..n]).db.payments[id].status)
    ensures id in After(EMPTY, schedule).db.payments
    ensures After(EMPTY, schedule).db.payments[id] == After(EMPTY, schedule[..n]).db.payments[id]
    decreases |schedule|
  {
    hide SysInv, Step, Current;
    if n == |schedule| {
      assert schedule[..n] == schedule;
    } else {
      var shorter := schedule[..|schedule| - 1];
      assert shorter[..n] == schedule[..n];
      CurrentRunAbsorbsTerminal(shorter, n, id);
      ReachableInv(shorter);
      CurrentStepKeepsTerminal(After(EMPTY, shorter), schedule[|schedule| - 1], id);
    }
  }

  /** In every serial schedule the outbox holds for each payment exactly versions 2 to the current one. */
  lemma SerialRunHasNoGap(schedule: seq<Action>)
    requires Serial(schedule)
    ensures NoGap(After(EMPTY, schedule))
  {
    hide Serial, AllCurrent, NoGap, After;
    SerialIsCurrent(schedule);
    CurrentRunHasNoGap(schedule);
  }

  /** And a terminal payment never changes again. */
  lemma SerialRunAbsorbsTerminal(schedule: seq<Action>, n: nat, id: Id)
    requires Serial(schedule) && n <= |schedule| && id in After(EMPTY, schedule[..n]).db.payments
    requires IsTerminalPayment(After(EMPTY, schedule[..n]).db.payments[id].status)
    ensures id in After(EMPTY, schedule).db.payments
    ensures After(EMPTY, schedule).db.payments[id] == After(EMPTY, schedule[..n]).db.payments[id]
  {
    hide Serial, AllCurrent, After;
    SerialIsCurrent(schedule);
    CurrentRunAbsorbsTerminal(schedule, n, id);
  }

  // ---------------------------------------------------------------- when a commit is stale

  /** The copy that a step commits over a stored payment. */
  ghost function Saved(s: Sys, a: Action): Option<PaymentProps> {
    if !a.Move? || !a.commits || a.h !in s.procs then None
    else match s.procs[a.h]
      case ChangeCommit(_, next, _) => Some(next)
      case CallbackCommit(c, _, _, _, next, changed) =>
        if changed && FindByProviderEvent(s.db, c.origin).None? then Some(next) else None
      case _ => None
  }

  /** What a step does to the stored payments: its copy replaces the row, and at most a new row is added. */
  lemma StepSaves(s: Sys, a: Action, id: Id)
    requires SysInv(s)
    ensures Saved(s, a).Some? ==> Saved(s, a).value.id in s.db.payments
    ensures id in s.db.payments ==>
              && id in Step(s, a).db.payments
              && Step(s, a).db.payments[id] == if Saved(s, a).Some? && Saved(s, a).value.id == id then Saved(s, a).value
                                               else s.db.payments[id]
  {
    hide PaymentsInv, KeysUnique, ReceiptsInv, LogInv, OutboxInv, OwnIds, InsertPayment, FindByProviderEvent, FindByIdempotencyKey,
         PaymentShape, PaymentMoves, Save, ChangeOf, WithProviderStatus, ProviderStatus, Requested, Matches;
    if a.Move? && a.h in s.procs {
      assert ProcOk(s.db.payments, s.db.receipts, s.db.nextId, s.procs[a.h]);
      match s.procs[a.h] {
        case CreateCommit(p) => if InsertPayment(s.db, p).Some? { InsertKeeps(s.db, p); }
        case ChangeCommit(_, q, _) => SaveCopy(s.db.payments, s.db.nextId, q);
        case CallbackCommit(_, _, _, _, q, _) => SaveCopy(s.db.payments, s.db.nextId, q);
        case _ =>
      }
    }
  }

  /** Over every schedule: a stored row changes exactly when a differing copy is committed over it. */
  lemma RowChangesExactly(schedule: seq<Action>, a: Action, id: Id)
    requires id in After(EMPTY, schedule).db.payments
    ensures var s := After(EMPTY, schedule); var t := Step(s, a);
            && id in t.db.payments
            && (t.db.payments[id] != s.db.payments[id]
                <==> Saved(s, a).Some? && Saved(s, a).value.id == id && Saved(s, a).value != s.db.payments[id])
  {
    hide SysInv, After, Step, Saved;
    ReachableInv(schedule);
    StepSaves(After(EMPTY, schedule), a, id);
  }

  ghost predicate TerminalKept(s: Payments, t: Payments) {
    forall id | id in s && IsTerminalPayment(s[id].status) :: id in t && t[id] == s[id]
  }

  /**
   Over every schedule: a step leaves terminal payments as they are, exactly when the row it
   commits over is not terminal by then, or is stored already as it is about to be saved.
   */
  lemma TerminalPaymentsKeptExactly(schedule: seq<Action>, a: Action)
    ensures var s := After(EMPTY, schedule); var saved := Saved(s, a);
            && (saved.Some? ==> saved.value.id in s.db.payments)
            && (TerminalKept(s.db.payments, Step(s, a).db.payments)
                <==> (saved.Some? ==> !IsTerminalPayment(s.db.payments[saved.value.id].status)
                                      || s.db.payments[saved.value.id] == saved.value))
  {
    hide SysInv, After, Step, Saved;
    ReachableInv(schedule);
    var s := After(EMPTY, schedule);
    forall id | id in s.db.payments
      ensures id in Step(s, a).db.payments
      ensures Step(s, a).db.payments[id] == if Saved(s, a).Some? && Saved(s, a).value.id == id then Saved(s, a).value
                                            else s.db.payments[id]
    {
      StepSaves(s, a, id);
    }
    if Saved(s, a).Some? { StepSaves(s, a, Saved(s, a).value.id); }
  }

  /** The outbox gets one event more, the row the version of it: gaps appear unless the version fits. */
  lemma EventFitsExactly(outbox: seq<Event>, payments: Payments, q: PaymentProps, e: Event)
    requires GapFree(outbox, payments)
    requires e.paymentId == q.id && e.version == q.version && q.id in payments && payments[q.id].version >= 2 && q.version >= 2
    ensures GapFree(outbox + [e], payments[q.id := q])
            <==> payments[q.id].version <= q.version <= payments[q.id].version + 1
  {
    var w := payments[q.id].version;
    VersionsAppend(outbox, e, q.id);
    if w <= q.version <= w + 1 {
      EventClosesGap(outbox, payments, q, e);
    } else {
      var v := if q.version < w then w else w + 1;
      assert v in Versions(outbox + [e], q.id) <==> v == w;
      assert !(v in Versions(outbox + [e], q.id) <==> 2 <= v <= payments[q.id := q][q.id].version);
    }
  }

  lemma SaveKeepsNoGapExactly(s: Sys, a: Action)
    requires SysInv(s) && NoGap(s) && Saved(s, a).Some?
    ensures Saved(s, a).value.id in s.db.payments
    ensures var q := Saved(s, a).value;
            NoGap(Step(s, a)) <==> s.db.payments[q.id].version <= q.version <= s.db.payments[q.id].version + 1
  {
    hide KeysUnique, ReceiptsInv, LogInv, OutboxInv, Save, FindByProviderEvent, GapFree, PaymentShape, PaymentMoves, PaymentsInv;
    var q := Saved(s, a).value;
    var db := s.db;
    assert ProcOk(db.payments, db.receipts, db.nextId, s.procs[a.h]);
    CopyVersions(db.payments, db.nextId, q);
    SaveCopy(db.payments, db.nextId, q);
    if s.procs[a.h].ChangeCommit? {
      EventFitsExactly(db.outbox, db.payments, q, Event(q.id, s.procs[a.h].eventType, q.version, None));
    } else {
      CallbackFitsExactly(db.outbox, db.payments, q, s.procs[a.h].callback.origin);
    }
  }

  lemma OtherStepKeepsNoGap(s: Sys, a: Action)
    requires SysInv(s) && NoGap(s) && Saved(s, a).None?
    ensures NoGap(Step(s, a))
  {
    hide KeysUnique, ReceiptsInv, LogInv, OutboxInv, InsertPayment, Save, FindByProviderEvent, Versions, SaveChange, GapFree;
    if a.Move? && a.h in s.procs && a.commits {
      assert ProcOk(s.db.payments, s.db.receipts, s.db.nextId, s.procs[a.h]);
      match s.procs[a.h] {
        case CreateCommit(p) => if InsertPayment(s.db, p).Some? { CreationKeepsNoGap(s.db, s.procs, s.log, p); }
        case _ =>
      }
    }
  }

  /**
   Over every schedule: a step keeps the outbox without gaps, exactly when the stored version of
   the payment it commits over is the one of its copy or the one before.
   */
  lemma CommitKeepsNoGapExactly(schedule: seq<Action>, a: Action)
    requires NoGap(After(EMPTY, schedule))
    ensures var s := After(EMPTY, schedule); var saved := Saved(s, a);
            && (saved.Some? ==> saved.value.id in s.db.payments)
            && (NoGap(Step(s, a))
                <==> (saved.Some? ==> s.db.payments[saved.value.id].version <= saved.value.version
                                      <= s.db.payments[saved.value.id].version + 1))
  {
    hide SysInv, After, Step, Saved, NoGap;
    ReachableInv(schedule);
    var s := After(EMPTY, schedule);
    if Saved(s, a).Some? { SaveKeepsNoGapExactly(s, a); } else { OtherStepKeepsNoGap(s, a); }
  }

  lemma CopyVersions(payments: Payments, next: Id, q: PaymentProps)
    requires PaymentsInv(payments, next) && CopyOk(payments, q)
    ensures payments[q.id].version >= 2 && q.version >= 2
  {
  }

  lemma CallbackFitsExactly(outbox: seq<Event>, payments: Payments, q: PaymentProps, origin: Origin)
    requires GapFree(outbox, payments)
    requires q.id in payments && payments[q.id].version >= 2 && q.version >= 2
    ensures var events := [Event(q.id, ProviderCallbackReceived, q.version, Some(origin)),
                           Event(q.id, PaymentStatusChanged, q.version, Some(origin))];
            GapFree(outbox + events, payments[q.id := q])
            <==> payments[q.id].version <= q.version <= payments[q.id].version + 1
  {
    var e := Event(q.id, ProviderCallbackReceived, q.version, Some(origin));
    var f := Event(q.id, PaymentStatusChanged, q.version, Some(origin));
    EventFitsExactly(outbox, payments, q, e);
    assert outbox + [e, f] == outbox + [e] + [f];
    SameVersionAgain(outbox + [e], payments[q.id := q], e, f);
  }

  /** A second event of the version just written changes nothing. */
  lemma SameVersionAgain(outbox: seq<Event>, payments: Payments, e: Event, f: Event)
    requires outbox != [] && outbox[|outbox| - 1] == e && f.paymentId == e.paymentId && f.version == e.version
    ensures GapFree(outbox + [f], payments) <==> GapFree(outbox, payments)
  {
    forall id: Id ensures Versions(outbox + [f], id) == Versions(outbox, id) { VersionsAppend(outbox, f, id); }
  }

  lemma Extend(schedule: seq<Action>, a: Action)
    ensures After(EMPTY, schedule + [a]) == Step(After(EMPTY, schedule), a)
  {
    assert (schedule + [a])[..|schedule|] == schedule;
  }

  const ORDER := Order("consent", "client", "institution", "user", "account", 100, "EUR", "creditor", "ref", "text", "bank", None)

  /** One handler taken from its start through its next two accesses. */
  function Whole(h: nat, proc: Proc, now: int): seq<Action> {
    [Start(h, proc), Move(h, true, None, now), Move(h, true, None, now)]
  }

  const CREATION := Whole(0, CreateLookup(ORDER), 0)
  const UNTIL_SUBMITTED := CREATION + Whole(0, ChangeRead(0, Authorize("user")), 1) + Whole(0, ChangeRead(0, Submit("x")), 2)
  const SLOW_READ := [Start(1, ChangeRead(0, Reconcile("accepted", None))), Move(1, true, None, 3)]
  const UNTIL_SETTLED := UNTIL_SUBMITTED + SLOW_READ + Whole(2, ChangeRead(0, Reconcile("settled", None)), 4)
  const STALE_COMMIT := Move(1, true, None, 5)

  /** A change run from read to commit without interruption saves the change of the row it found. */
  lemma WholeChange(schedule: seq<Action>, h: nat, id: Id, change: Change, now: int)
    requires var s := After(EMPTY, schedule); h !in s.procs && id in s.db.payments && ChangeOf(s.db.payments[id], change, now).Some?
    ensures var s := After(EMPTY, schedule);
            After(EMPTY, schedule + Whole(h, ChangeRead(id, change), now))
            == s.(db := SaveChange(s.db, ChangeOf(s.db.payments[id], change, now).value, EventOf(change)))
  {
    hide After, ChangeOf, SaveChange;
    var s := After(EMPTY, schedule);
    var w := Whole(h, ChangeRead(id, change), now);
    Extend(schedule, w[0]);
    Extend(schedule + [w[0]], w[1]);
    Extend(schedule + [w[0]] + [w[1]], w[2]);
    assert schedule + [w[0]] + [w[1]] + [w[2]] == schedule + w;
    assert s.procs[h := ChangeRead(id, change)] - {h} == s.procs;
    var q := ChangeOf(s.db.payments[id], change, now).value;
    var commit := ChangeCommit(s.db.payments[id], q, EventOf(change));
    assert s.procs[h := ChangeRead(id, change)][h := commit] - {h} == s.procs;
  }

  lemma AfterCreation()
    ensures var s := After(EMPTY, CREATION); s.procs == map[] && s.db.payments == map[0 := Requested(Created(0, ORDER, 0), 0).value]
  {
    Extend([], CREATION[0]);
    Extend([CREATION[0]], CREATION[1]);
    Extend([CREATION[0], CREATION[1]], CREATION[2]);
    assert [] + [CREATION[0]] == [CREATION[0]];
    assert [CREATION[0]] + [CREATION[1]] == [CREATION[0], CREATION[1]];
    assert [CREATION[0], CREATION[1]] + [CREATION[2]] == CREATION;
  }

  /**
   No version is checked on save: a reconciliation that read the payment before another one
   settled it commits afterwards and takes SETTLED back to ACCEPTED.
   */
  lemma StaleCommitUndoesSettlement()
    ensures 0 in After(EMPTY, UNTIL_SETTLED).db.payments
    ensures After(EMPTY, UNTIL_SETTLED).db.payments[0].status == SETTLED
    ensures 0 in After(EMPTY, UNTIL_SETTLED + [STALE_COMMIT]).db.payments
    ensures After(EMPTY, UNTIL_SETTLED + [STALE_COMMIT]).db.payments[0].status == ACCEPTED
  {
    hide After;
    AfterCreation();
    WholeChange(CREATION, 0, 0, Authorize("user"), 1);
    WholeChange(CREATION + Whole(0, ChangeRead(0, Authorize("user")), 1), 0, 0, Submit("x"), 2);
    Extend(UNTIL_SUBMITTED, SLOW_READ[0]);
    Extend(UNTIL_SUBMITTED + [SLOW_READ[0]], SLOW_READ[1]);
    assert UNTIL_SUBMITTED + [SLOW_READ[0]] + [SLOW_READ[1]] == UNTIL_SUBMITTED + SLOW_READ;
    WholeChange(UNTIL_SUBMITTED + SLOW_READ, 2, 0, Reconcile("settled", None), 4);
    Extend(UNTIL_SETTLED, STALE_COMMIT);
  }

  const LATE_CANCEL := [Start(1, ChangeRead(0, Cancel)), Move(1, true, None, 1)]
  const UNTIL_LATE := CREATION + LATE_CANCEL + Whole(2, ChangeRead(0, Authorize("user")), 2) + Whole(3, ChangeRead(0, Submit("x")), 3)

  /**
   A cancellation that read the payment before it was authorized and submitted commits after
   both: the row goes back to version 3 while the outbox holds version 4.
   */
  lemma StaleCommitLeavesGap()
    ensures NoGap(After(EMPTY, UNTIL_LATE)) && !NoGap(After(EMPTY, UNTIL_LATE + [Move(1, true, None, 4)]))
  {
    hide After, NoGap, SysInv;
    SerialRunHasNoGap(UNTIL_LATE);
    AfterCreation();
    Extend(CREATION, LATE_CANCEL[0]);
    Extend(CREATION + [LATE_CANCEL[0]], LATE_CANCEL[1]);
    assert CREATION + [LATE_CANCEL[0]] + [LATE_CANCEL[1]] == CREATION + LATE_CANCEL;
    WholeChange(CREATION + LATE_CANCEL, 2, 0, Authorize("user"), 2);
    WholeChange(CREATION + LATE_CANCEL + Whole(2, ChangeRead(0, Authorize("user")), 2), 3, 0, Submit("x"), 3);
    Extend(UNTIL_LATE, Move(1, true, None, 4));
    CommitKeepsNoGapExactly(UNTIL_LATE, Move(1, true, None, 4));
  }
}
