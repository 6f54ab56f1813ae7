/** `service/`: what clients and the saga loop call, over one memory store. */
module Services {
  import opened Domain
  import opened Ledger
  import opened Saga
  import opened System
  import opened Text
  import opened MemoryStores
  import opened Progress

  function ShiftLeft(n: int, places: int): int
    decreases places
  {
    if places <= 0 then n else ShiftLeft(2 * n, places - 1)
  }

  // ---- how a saga call ends: the store calls that are left after the last answer of the compliance checker

  /** After a failed step the rest of the call asks nobody anything. */
  ghost predicate EndsAs(s: Store, pc: Pc, now: int, s': Store) {
    forall answer :: Finished(s, pc, answer, now) == (s', false)
  }

  // ---- transfers

  datatype TransferCommand = TransferCommand(source: Id, destination: Id, key: string, amount: Money)

  /** What is stored for a sound command is a record that the runs of System may create, and only then is it one. */
  lemma AdmittedIsNew(c: TransferCommand, id: Id, fee: Money, now: int)
    requires 0 <= fee && c.amount + fee <= MAX_INT64
    ensures NewRecord(Domain.Transfer(id, c.source, c.destination, TrimSpace(c.key), c.amount, fee, Pending, Created,
                                      None, None, 0, now, now, 0, 0))
            <==> 100 <= c.amount && c.source != c.destination
                 && TrimSpace(c.key) != "" && Utf8Length(TrimSpace(c.key)) <= 128
  {
  }

  class TransferService {
    const store: MemoryStore

    /** The completion events handed to the event bus, as transfer ids. */
    var published: seq<Id>

    constructor (store: MemoryStore)
      ensures this.store == store && published == []
    {
      this.store := store;
      published := [];
    }

    /** Creating only records the request; the saga loop does the rest. */
    method Transfer(c: TransferCommand, id: Id, fee: Money, open: bool, now: int) returns (result: Result<Transfer>)
      requires store.Valid()
      modifies store`transfers
      ensures store.Valid()
      ensures var s, s', key := old(store.State()), store.State(), TrimSpace(c.key);
              if c.amount < 100 || c.source == c.destination then s' == s && result == Err(InvalidAmount)
              else if key == "" || Utf8Length(key) > 128 then s' == s && result == Err(IdempotencyKeyRequired)
              else if !open then s' == s && result == Err(Unavailable)
              else if fee < 0 || c.amount + fee > MAX_INT64 then s' == s && result == Err(InvalidAmount)
              else if exists t :: t in s.transfers && s.transfers[t].source == c.source && s.transfers[t].key == key
              then
                && s' == s
                && (exists t ::
                      && t in s.transfers && s.transfers[t].source == c.source && s.transfers[t].key == key
                      && result == if s.transfers[t].amount == c.amount && s.transfers[t].destination == c.destination
                                   then Ok(s.transfers[t]) else Err(IdempotencyConflict))
              else
                && result.Ok? && s' == s.(transfers := s.transfers[id := result.value])
                && var r := result.value;
                   && r.id == id && r.source == c.source && r.destination == c.destination && r.key == key
                   && r.amount == c.amount && r.fee == fee
                   && r.status == Pending && r.step == Created && r.attempts == 0
                   && r.createdAt == now && r.nextAttemptAt == now
                   && r.failure == None && r.compliance == None && r.initialBalance == 0 && r.finalBalance == 0
    {
      if c.amount < 100 || c.source == c.destination {
        return Err(InvalidAmount);
      }
      var key := TrimSpace(c.key);
      if key == "" || Utf8Length(key) > 128 {
        return Err(IdempotencyKeyRequired);
      }
      if !open {
        return Err(Unavailable);
      }
      if fee < 0 || c.amount > MAX_INT64 - fee {
        return Err(InvalidAmount);
      }
      var record := Domain.Transfer(id, c.source, c.destination, key, c.amount, fee, Pending, Created, None, None,
                                    0, now, now, 0, 0);
      var answered := store.CreateTransfer(record);
      if answered.Err? {
        return Err(answered.error);
      }
      return Ok(answered.value.0);
    }

    method Advance(r: Transfer, u: SagaUpdate, now: int)
      requires store.Valid()
      modifies store`transfers
      ensures store.Valid() && EndsAs(old(store.State()), Update(r, u, false), now, store.State())
    {
      ghost var before := store.State();
      var _ := store.UpdateTransferSaga(r.id, u);
      forall answer ensures Finished(before, Update(r, u, false), answer, now) == (store.State(), false) {
        UpdateEnds(before, r, u, false, answer, now);
      }
    }

    method ReleaseAndFail(r: Transfer, u: SagaUpdate, now: int)
      requires store.Valid()
      modifies store`transfers, store`streams, store`reservations
      ensures store.Valid() && EndsAs(old(store.State()), ReleaseThenFail(r, u), now, store.State())
    {
      ghost var before := store.State();
      var _ := store.ReleaseTransferReservation(r);
      Advance(r, u, now);
      forall answer ensures Finished(before, ReleaseThenFail(r, u), answer, now) == (store.State(), false) {
        FinishedStep(before, ReleaseThenFail(r, u), answer, now);
      }
    }

    method Retry(r: Transfer, afterLedger: bool, now: int)
      requires store.Valid()
      modifies store`transfers, store`streams, store`reservations
      ensures store.Valid() && EndsAs(old(store.State()), Saga.Retry(r, afterLedger, now), now, store.State())
    {
      var attempt := r.attempts + 1;
      if !afterLedger && attempt >= 5 {
        var u := SagaUpdate(r.step, r.step, Failed, Some(RetryExhausted), None, attempt, now, 0, 0);
        if r.step != Created {
          ReleaseAndFail(r, u, now);
        } else {
          Advance(r, u, now);
        }
        return;
      }
      var delay := ShiftLeft(1, if attempt - 1 <= 4 then attempt - 1 else 4);
      if afterLedger && delay > 30 {
        delay := 30;
      }
      Advance(r, SagaUpdate(r.step, r.step, Pending, None, None, attempt, now + delay, 0, 0), now);
    }

    method HandleStepError(r: Transfer, e: Error, reserved: bool, now: int)
      requires store.Valid()
      modifies store`transfers, store`streams, store`reservations
      ensures store.Valid()
      ensures EndsAs(old(store.State()), Saga.HandleStepError(r, e, reserved, now), now, store.State())
    {
      var permanent := e == AccountNotFound || e == InsufficientFunds;
      if !permanent {
        Retry(r, false, now);
        return;
      }
      var code := AccountMissing;
      if e == InsufficientFunds {
        code := FundsMissing;
      }
      var u := SagaUpdate(r.step, r.step, Failed, Some(code), None, 0, now, 0, 0);
      if reserved {
        ReleaseAndFail(r, u, now);
      } else {
        Advance(r, u, now);
      }
    }

    /** One call of `Process`; `answer` is what the compliance checker would say if it is asked. */
    method Process(r: Transfer, answer: Answer, now: int)
      requires store.Valid()
      modifies store, this`published
      ensures store.Valid()
      ensures store.State() == Finished(old(store.State()), Begin(r), answer, now).0
      ensures published
              == old(published) + (if Finished(old(store.State()), Begin(r), answer, now).1 then [r.id] else [])
    {
      ghost var before := store.State();
      FinishedStep(before, Begin(r), answer, now);
      match r.step {
        case Created =>
          var balance := store.ReserveTransferFunds(r);
          if balance.Err? {
            HandleStepError(r, balance.error, false, now);
            return;
          }
          Advance(r, SagaUpdate(r.step, FundsHeld, Pending, None, None, 0, now, balance.value, 0), now);
        case FundsHeld =>
          Screen(r, answer, now);
        case ComplianceApproved =>
          var final := store.PostTransferLedger(r);
          if final.Err? {
            HandleStepError(r, final.error, true, now);
            return;
          }
          Advance(r, SagaUpdate(r.step, LedgerPosted, Pending, None, None, 0, now, 0, final.value), now);
        case LedgerPosted =>
          var captured := store.CaptureTransferReservation(r);
          if captured.Err? {
            Retry(r, true, now);
            return;
          }
          Advance(r, SagaUpdate(r.step, Captured, Pending, None, None, 0, now, 0, 0), now);
        case Captured =>
          var u := SagaUpdate(r.step, r.step, Completed, None, None, 0, now, 0, 0);
          UpdateEnds(before, r, u, true, answer, now);
          var done := store.UpdateTransferSaga(r.id, u);
          if done == Ok(true) {
            published := published + [r.id];
          }
      }
    }

    /** The compliance step of `Process`. */
    method Screen(r: Transfer, answer: Answer, now: int)
      requires store.Valid() && r.step == FundsHeld
      modifies store`transfers, store`streams, store`reservations, store`complianceDecisions
      ensures store.Valid()
      ensures (store.State(), false) == Finished(old(store.State()), Begin(r), answer, now)
    {
      ghost var before := store.State();
      FinishedStep(before, Begin(r), answer, now);
      if answer.Broken? {
        HandleStepError(r, answer.error, true, now);
        return;
      }
      var approved := answer == Approve;
      var decision := Rejected;
      if approved {
        decision := Approved;
      }
      FinishedStep(before, Record(r, approved), answer, now);
      var recorded := store.RecordComplianceDecision(r.id, decision);
      if recorded.Err? {
        HandleStepError(r, recorded.error, true, now);
        return;
      }
      ghost var decided := store.State();
      if !approved {
        FinishedStep(decided, ReleaseRejected(r), answer, now);
        var released := store.ReleaseTransferReservation(r);
        if released.Err? {
          HandleStepError(r, released.error, true, now);
          return;
        }
        Advance(r, SagaUpdate(r.step, r.step, Failed, Some(ComplianceRejected), Some(decision), 0, now, 0, 0), now);
        return;
      }
      Advance(r, SagaUpdate(r.step, ComplianceApproved, Pending, None, Some(decision), 0, now, 0, 0), now);
    }

    /** One pass of the worker. `stopAt` items are served before the context is cancelled. */
    method ProcessDue(answers: Id -> Answer, now: int, stopAt: nat) returns (items: seq<Transfer>)
      requires store.Valid()
      modifies store, this`published
      ensures store.Valid() && Listed(old(store.State()), items)
      ensures forall i :: 0 <= i < |items| ==> items[i].status == Pending && items[i].nextAttemptAt <= now
      ensures |items| < 100 ==>
                forall t :: t in old(store.transfers) ==>
                  var r := old(store.transfers)[t];
                  r.status == Pending && r.nextAttemptAt <= now ==> r in items
      ensures var served := if stopAt < |items| then items[..stopAt] else items;
              && store.State() == ServeBatch(old(store.State()), served, answers, now)
              && published == old(published) + Completions(old(store.State()), served, answers, now)
    {
      items := store.ListDueTransfers(now, BATCH_LIMIT);
      ServeItems(if stopAt < |items| then items[..stopAt] else items, answers, now);
    }

    /** The loop of `ProcessDue`. */
    method ServeItems(items: seq<Transfer>, answers: Id -> Answer, now: int)
      requires store.Valid()
      modifies store, this`published
      ensures store.Valid()
      ensures store.State() == ServeBatch(old(store.State()), items, answers, now)
      ensures published == old(published) + Completions(old(store.State()), items, answers, now)
    {
      ghost var before, told := store.State(), published;
      var i := 0;
      while i < |items|
        invariant 0 <= i <= |items| && store.Valid()
        invariant ServeBatch(store.State(), items[i..], answers, now) == ServeBatch(before, items, answers, now)
        invariant published + Completions(store.State(), items[i..], answers, now)
                  == told + Completions(before, items, answers, now)
      {
        ghost var s, so := store.State(), published;
        ServeTail(s, items, i, answers, now);
        Process(items[i], answers(items[i].id), now);
        ghost var more := if Finished(s, Begin(items[i]), answers(items[i].id), now).1 then [items[i].id] else [];
        assert so + (more + Completions(store.State(), items[i + 1..], answers, now))
               == so + more + Completions(store.State(), items[i + 1..], answers, now);
        i := i + 1;
      }
      assert items[i..] == [];
    }
  }

  lemma ServeTail(s: Store, batch: seq<Transfer>, i: nat, answers: Id -> Answer, now: int)
    requires i < |batch|
    ensures var (s', published) := Finished(s, Begin(batch[i]), answers(batch[i].id), now);
            && ServeBatch(s, batch[i..], answers, now) == ServeBatch(s', batch[i + 1..], answers, now)
            && Completions(s, batch[i..], answers, now)
               == (if published then [batch[i].id] else []) + Completions(s', batch[i + 1..], answers, now)
  {
    assert batch[i..][0] == batch[i] && batch[i..][1..] == batch[i + 1..];
  }

  /** The completions that serving a batch publishes, in order. */
  ghost function Completions(s: Store, batch: seq<Transfer>, answers: Id -> Answer, now: int): seq<Id>
    decreases |batch|
  {
    if batch == [] then []
    else
      var (s', published) := Finished(s, Begin(batch[0]), answers(batch[0].id), now);
      (if published then [batch[0].id] else []) + Completions(s', batch[1..], answers, now)
  }
}
