/** Sending a stored result again: the operation is registered first, so a repeated one never sends. */
module Redelivery {
  import opened RequestModel
  import opened RequestSpec
  import opened RequestInvariant
  import opened RequestIndex
  import opened RequestRuns
  import opened RequestDelivery
  import opened RequestMeaning
  import opened RequestAttempts
  import opened RequestStore

  lemma AfterFresh(s: Store, owner: string, id: Id, operation: string, intact: set<Id>, now: int, s': Store,
                   out: RequestSpec.Redelivery)
    requires Inv(s, now) && operation != "" && RedeliverStep(s, owner, id, operation, now, intact, s', out)
    ensures Inv(s', now)
    ensures out == Fresh ==>
      !Registered(s.db, id, operation, now) && Registered(s'.db, id, operation, now) && id in s'.db.rows.tasks
  {
    hide Inv, RedeliverStep, Registered;
    var e := Event.BeginRedelivery(owner, id, operation, intact, out);
    StoreStepPreserves(s, e, now, s');
    if out == Fresh {
      FreshRegisters(Up(s), e, now, Up(s'), id, operation);
      FreshTask(s, owner, id, operation, intact, now, s');
    }
  }

  lemma FreshTask(s: Store, owner: string, id: Id, operation: string, intact: set<Id>, now: int, s': Store)
    requires Inv(s, now) && RedeliverStep(s, owner, id, operation, now, intact, s', Fresh)
    ensures id in s'.db.rows.tasks
  {
    hide DbInv, LoadedInv, ValidRows, Loadable;
  }

  lemma AfterReceipt(s: Store, owner: string, id: Id, receipt: Receipt, now: int, s': Store, ok: bool,
                     operation: string)
    requires Inv(s, now) && RecordStep(s, owner, id, receipt, false, now, s', ok)
    requires Registered(s.db, id, operation, now) && id in s.db.rows.tasks
    ensures Inv(s', now) && Registered(s'.db, id, operation, now)
  {
    hide Inv, RecordStep, Registered, RowsStep, ResultsStep;
    var e := Event.RecordDelivery(owner, id, receipt, false, ok);
    StoreStepPreserves(s, e, now, s');
    StoreRows(s, e, now, s');
    StoreResults(s, e, now, s');
    RegisteredStep(s.db, s'.db, id, operation, now);
  }

  lemma RefusedReceipt(s: Store, owner: string, id: Id, receipt: Receipt, now: int, s': Store, ok: bool)
    requires RecordStep(s, owner, id, receipt, false, now, s', ok)
    ensures !ok ==> s' == s
  {
    hide CanRecord;
  }

  /** The attempt on file for an operation has this outcome. */
  ghost predicate Shows(db: Db, id: Id, operation: string, outcome: Outcome) {
    exists a :: OnFileAs(db, id, a) && a.operation == operation && a.outcome == outcome
  }

  /** A report that makes a well-formed receipt: a send failed for a reason, or it did not. */
  predicate Reportable(report: Receipt) {
    && report.outcome != Pending && 0 <= report.mediaSent <= MAX_ARTIFACTS + MAX_URLS + 16
    && (report.outcome == Sent ==> report.failure == "")
    && (report.outcome == ExplicitFailure || report.outcome == Ambiguous ==> report.failure != "")
  }

  /** One redelivery request; `report` is what the send would come to. It sends only after registering its operation as
      new, and the operation stays registered whatever becomes of the send and of its receipt. A repeated operation is
      answered by its attempt on file, without a send. */
  method Redeliver(requests: RequestStore, owner: string, id: Id, operation: string, intact: set<Id>, report: Receipt,
                   now: int)
    returns (ok: bool, sent: bool)
    requires requests.Valid() && Inv(requests.View(), now) && operation != ""
    modifies requests
    ensures requests.Valid() && Inv(requests.View(), now)
    ensures sent ==>
      && CanRedeliver(old(requests.View()), owner, id, now, intact)
      && operation !in Operations(old(requests.db).results[id].attempts)
      && !Registered(old(requests.View()).db, id, operation, now) && Registered(requests.View().db, id, operation, now)
    ensures (requests.reliable && CanRedeliver(old(requests.View()), owner, id, now, intact)
             && operation !in Operations(old(requests.db).results[id].attempts)
             && |old(requests.db).results[id].attempts| < MAX_ATTEMPTS) ==> sent
    ensures !sent ==> requests.View() == old(requests.View())
    ensures !sent ==>
      (ok <==>
         && CanRedeliver(old(requests.View()), owner, id, now, intact)
         && SentOnFile(old(requests.db), id, operation))
    ensures sent && ok ==> report.outcome == Sent && SentOnFile(requests.db, id, operation)
    ensures sent ==>
      Shows(requests.db, id, operation, report.outcome) || Shows(requests.db, id, operation, Ambiguous)
    ensures requests.reliable && sent && Reportable(report) ==>
      (ok <==> report.outcome == Sent) && Shows(requests.db, id, operation, report.outcome)
  {
    hide Represents, Placed, Inv, RedeliverStep, RecordStep, Registered, CanRedeliver, CanRecord, SentOnFile, Shows,
      TakesReceipt;
    sent := false;
    ghost var s := requests.View();
    if CanRedeliver(s, owner, id, now, intact) { CanRedeliverHas(s, owner, id, now, intact); }
    var out := requests.BeginRedelivery(owner, id, operation, intact, now);
    AfterFresh(s, owner, id, operation, intact, now, requests.View(), out);
    if out != Fresh {
      Unchanged(s, owner, id, operation, intact, now, requests.View(), out);
      ok := false;
      if out == Duplicate {
        var attempts := requests.db.results[id].attempts;
        var place := AttemptIndex(attempts, operation);
        ok := place.Some? && attempts[place.value].outcome == Sent;
        KnownAnswers(s, owner, id, operation, intact, now);
      } else {
        UnknownAnswers(s, id, operation);
      }
      return;
    }
    FreshNeeds(s, owner, id, operation, intact, now, requests.View());
    sent := true;
    var at := if now < requests.db.results[id].frozenAt then requests.db.results[id].frozenAt else now;
    var receipt := report.(operation := operation, attemptedAt := at);
    ghost var registered := requests.View();
    FreshOnFile(s, owner, id, operation, intact, now, registered);
    if Reportable(report) { ReportFits(s, owner, id, receipt, intact, now, registered); }
    ok := requests.RecordDelivery(owner, id, receipt, false, now);
    AfterReceipt(registered, owner, id, receipt, now, requests.View(), ok, operation);
    RefusedReceipt(registered, owner, id, receipt, now, requests.View(), ok);
    if ok { TakenOnFile(registered.db.results[id], receipt, requests.db.results[id], requests.db, id); }
    ok := ok && receipt.outcome == Sent;
  }

  lemma FreshNeeds(s: Store, owner: string, id: Id, operation: string, intact: set<Id>, now: int, s': Store)
    requires RedeliverStep(s, owner, id, operation, now, intact, s', Fresh)
    ensures CanRedeliver(s, owner, id, now, intact) && id in s.db.results
    ensures operation !in Operations(s.db.results[id].attempts)
  {
    hide ValidResult;
  }

  lemma CanRedeliverHas(s: Store, owner: string, id: Id, now: int, intact: set<Id>)
    requires CanRedeliver(s, owner, id, now, intact)
    ensures id in s.db.results
  {
  }

  /** A known operation is sent on file exactly when the attempt that is found says so. */
  lemma KnownAnswers(s: Store, owner: string, id: Id, operation: string, intact: set<Id>, now: int)
    requires Inv(s, now) && CanRedeliver(s, owner, id, now, intact) && id in s.db.results
    requires operation in Operations(s.db.results[id].attempts)
    ensures var place := AttemptIndex(s.db.results[id].attempts, operation);
      place.Some? && (s.db.results[id].attempts[place.value].outcome == Sent <==> SentOnFile(s.db, id, operation))
  {
    var attempts := s.db.results[id].attempts;
    var place := AttemptIndex(attempts, operation);
    AttemptsDistinct(s, owner, id, now, intact);
    hide Inv, CanRedeliver;
    OneAttempt(attempts, attempts[place.value]);
  }

  lemma AttemptsDistinct(s: Store, owner: string, id: Id, now: int, intact: set<Id>)
    requires CanRedeliver(s, owner, id, now, intact)
    ensures forall i, j | 0 <= i < j < |s.db.results[id].attempts| ::
      s.db.results[id].attempts[i].operation != s.db.results[id].attempts[j].operation
  {
  }

  lemma UnknownAnswers(s: Store, id: Id, operation: string)
    ensures SentOnFile(s.db, id, operation) ==> id in s.db.results && operation in Operations(s.db.results[id].attempts)
  {
    if SentOnFile(s.db, id, operation) {
      var a :| a in s.db.results[id].attempts && a.operation == operation && a.outcome == Sent;
      var i :| 0 <= i < |s.db.results[id].attempts| && s.db.results[id].attempts[i] == a;
      assert s.db.results[id].attempts[i].operation in Operations(s.db.results[id].attempts);
    }
  }

  lemma TakenOnFile(r: Result, receipt: Receipt, r': Result, db: Db, id: Id)
    requires TakesReceipt(r, receipt, r') && receipt.operation != "" && id in db.results && db.results[id] == r'
    ensures Shows(db, id, receipt.operation, receipt.outcome)
    ensures receipt.outcome == Sent ==> SentOnFile(db, id, receipt.operation)
  {
    var i :| 0 <= i < |r.attempts| && r.attempts[i].operation == receipt.operation
      && OthersKept(r.attempts, r'.attempts, i) && r'.attempts[i] == receipt;
    assert OnFileAs(db, id, r'.attempts[i]);
  }

  /** Until its receipt is stored a new operation is on file as ambiguous. */
  lemma FreshOnFile(s: Store, owner: string, id: Id, operation: string, intact: set<Id>, now: int, s': Store)
    requires RedeliverStep(s, owner, id, operation, now, intact, s', Fresh)
    ensures Shows(s'.db, id, operation, Ambiguous)
  {
    hide RedeliverStep;
    RedeliveryMeans(s, owner, id, operation, now, intact, s');
    assert OnFileAs(s'.db, id, s'.db.results[id].attempts[|s.db.results[id].attempts|]);
  }

  /** What a well-formed report says of the operation just registered is never refused. */
  lemma ReportFits(s: Store, owner: string, id: Id, receipt: Receipt, intact: set<Id>, now: int, s': Store)
    requires Inv(s', now) && RedeliverStep(s, owner, id, receipt.operation, now, intact, s', Fresh)
    requires Reportable(receipt) && receipt.operation != "" && id in s'.db.results
    requires receipt.attemptedAt == if now < s'.db.results[id].frozenAt then s'.db.results[id].frozenAt else now
    ensures CanRecord(s', owner, id, receipt, false, now)
  {
    hide RedeliverStep, Inv, ValidResult, CanRecord;
    FreshRegistered(s, owner, id, receipt.operation, intact, now, s');
    RedeliverableTask(s, owner, id, receipt.operation, intact, now, s');
    StoredValid(s', id, now);
    ArchivedStamps(s', id, now);
    FitsRecord(s', owner, id, receipt, now);
  }

  lemma FreshRegistered(s: Store, owner: string, id: Id, operation: string, intact: set<Id>, now: int, s': Store)
    requires RedeliverStep(s, owner, id, operation, now, intact, s', Fresh)
    ensures id in s'.db.results && operation in Operations(s'.db.results[id].attempts)
  {
    hide RedeliverStep;
    RedeliveryMeans(s, owner, id, operation, now, intact, s');
    var r := s'.db.results[id];
    assert r.attempts[|s.db.results[id].attempts|].operation in Operations(r.attempts);
  }

  lemma FitsRecord(s: Store, owner: string, id: Id, receipt: Receipt, now: int)
    requires Has(s.mem, owner, id) && id in s.db.results && Reportable(receipt) && receipt.operation != ""
    requires ValidResult(s.db.results[id], s.mem.tasks[id].startedAt)
    requires s.mem.tasks[id].completedAt != 0 && s.mem.tasks[id].resultExpiresAt > now
    requires receipt.attemptedAt >= s.db.results[id].frozenAt > 0
    requires receipt.operation in Operations(s.db.results[id].attempts)
    ensures CanRecord(s, owner, id, receipt, false, now)
  {
    hide ValidResult, RequestSpec.Recorded;
    RecordedValid(s.db.results[id], receipt, s.mem.tasks[id].startedAt);
  }

  lemma RedeliverableTask(s: Store, owner: string, id: Id, operation: string, intact: set<Id>, now: int, s': Store)
    requires RedeliverStep(s, owner, id, operation, now, intact, s', Fresh)
    ensures Has(s'.mem, owner, id) && s'.mem.tasks[id].state == Succeeded && s'.mem.tasks[id].resultExpiresAt > now
  {
    hide ValidResult;
  }

  lemma ArchivedStamps(s: Store, id: Id, now: int)
    requires Inv(s, now) && id in s.mem.tasks && id in s.db.results && s.mem.tasks[id].state == Succeeded
    ensures s.mem.tasks[id].completedAt != 0 && s.mem.tasks[id].startedAt > 0
    ensures s.db.results[id].frozenAt >= s.mem.tasks[id].startedAt
  {
    hide DbInv, ValidRows, OrdersInv, Ahead, Agrees, InputInv, CompletionInv;
    assert EntryInv(EntryOf(s.mem.tasks, s.db, id), now);
  }

  lemma RecordedValid(r: Result, receipt: Receipt, startedAt: int)
    requires ValidResult(r, startedAt) && receipt.operation != "" && receipt.operation in Operations(r.attempts)
    requires receipt.outcome != Pending && ValidReceipt(receipt, r.frozenAt)
    ensures RequestSpec.Recorded(r, receipt).Some?
    ensures ValidResult(RequestSpec.Recorded(r, receipt).value, startedAt)
  {
    RecordedMeans(r, receipt);
    hide ValidReceipt;
  }

  lemma Unchanged(s: Store, owner: string, id: Id, operation: string, intact: set<Id>, now: int, s': Store,
                  out: RequestSpec.Redelivery)
    requires RedeliverStep(s, owner, id, operation, now, intact, s', out) && out != Fresh
    ensures s' == s && (out == Duplicate ==> id in s.db.results && operation in Operations(s.db.results[id].attempts))
  {
    hide ValidResult;
  }
}
