/**
  The transfer saga of `service/transfer_service.go`, cut at its store calls.

  A worker inside `Process` is a program counter that names the next store call and carries the record it was
  started with. `Work` makes that one call. Nothing else in the process runs inside the call, and anything may run
  between two of them.
 */
module Saga {
  import opened Domain
  import opened Ledger

  /** What the compliance checker says; it may also fail with any error at all. */
  datatype Answer = Approve | Refuse | Broken(error: Error)

  datatype Pc =
    | Done
    | Begin(r: Transfer)
    | Record(r: Transfer, approved: bool)
    | ReleaseRejected(r: Transfer)
    | ReleaseThenFail(r: Transfer, u: SagaUpdate)
    | Update(r: Transfer, u: SagaUpdate, publish: bool)

  const MAX_ATTEMPTS := 5

  function Permanent(e: Error): bool { e == AccountNotFound || e == InsufficientFunds }

  /** Seconds until the next attempt: `1 << min(attempt - 1, 4)`, capped at 30 after the ledger is posted. */
  function Backoff(attempt: int, afterLedger: bool): int {
    var delay := if attempt <= 1 then 1 else if attempt == 2 then 2 else if attempt == 3 then 4
                 else if attempt == 4 then 8 else 16;
    if afterLedger && delay > 30 then 30 else delay
  }

  function Advance(r: Transfer, step: SagaStep, now: int): SagaUpdate {
    SagaUpdate(r.step, step, Pending, None, None, 0, now, 0, 0)
  }

  function FailWith(r: Transfer, code: FailureCode, attempts: int, now: int): SagaUpdate {
    SagaUpdate(r.step, r.step, Failed, Some(code), None, attempts, now, 0, 0)
  }

  function Retry(r: Transfer, afterLedger: bool, now: int): Pc {
    var attempt := r.attempts + 1;
    if !afterLedger && attempt >= MAX_ATTEMPTS then
      var u := FailWith(r, RetryExhausted, attempt, now);
      if r.step != Created then ReleaseThenFail(r, u) else Update(r, u, false)
    else
      var next := now + Backoff(attempt, afterLedger);
      Update(r, SagaUpdate(r.step, r.step, Pending, None, None, attempt, next, 0, 0), false)
  }

  function HandleStepError(r: Transfer, e: Error, reserved: bool, now: int): Pc {
    if Permanent(e) then
      var u := FailWith(r, if e == InsufficientFunds then FundsMissing else AccountMissing, 0, now);
      if reserved then ReleaseThenFail(r, u) else Update(r, u, false)
    else Retry(r, false, now)
  }

  /** One store call: the store after it, where the worker is then, and whether the completion is published. */
  function Work(s: Store, pc: Pc, answer: Answer, now: int): (Store, Pc, bool) {
    match pc
    case Done => (s, Done, false)
    case Begin(r) =>
      (match r.step
       case Created =>
         var (s', result) := Reserve(s, r);
         (s', if result.Err? then HandleStepError(r, result.error, false, now)
              else Update(r, Advance(r, FundsHeld, now).(initialBalance := result.value), false), false)
       case FundsHeld =>
         (match answer
          case Broken(e) => (s, HandleStepError(r, e, true, now), false)
          case _ => (s, Record(r, answer == Approve), false))
       case ComplianceApproved =>
         var (s', result) := Post(s, r);
         (s', if result.Err? then HandleStepError(r, result.error, true, now)
              else Update(r, Advance(r, LedgerPosted, now).(finalBalance := result.value), false), false)
       case LedgerPosted =>
         var (s', result) := Finish(s, r.id, Taken);
         (s', if result.Err? then Retry(r, true, now) else Update(r, Advance(r, Captured, now), false), false)
       case Captured =>
         (s, Update(r, Advance(r, Captured, now).(status := Completed), true), false))
    case Record(r, approved) =>
      var d := if approved then Approved else Rejected;
      var (s', result) := Decide(s, r.id, d);
      (s', if result.Err? then HandleStepError(r, result.error, true, now)
           else if approved then Update(r, Advance(r, ComplianceApproved, now).(compliance := Some(d)), false)
           else ReleaseRejected(r), false)
    case ReleaseRejected(r) =>
      var (s', result) := Finish(s, r.id, GivenBack);
      (s', if result.Err? then HandleStepError(r, result.error, true, now)
           else Update(r, FailWith(r, ComplianceRejected, 0, now).(compliance := Some(Rejected)), false), false)
    case ReleaseThenFail(r, u) =>
      (Finish(s, r.id, GivenBack).0, Update(r, u, false), false)
    case Update(r, u, publish) =>
      var (s', result) := UpdateTransferSaga(s, r.id, u);
      (s', Done, publish && result == Ok(true))
  }

  /**
    Where the worker is after its next call has failed with `e` and done nothing. Only the release on the way to a
    failed record does not care.
   */
  function Failing(pc: Pc, e: Error, now: int): Pc {
    match pc
    case Done => Done
    case Begin(r) =>
      if r.step == LedgerPosted then Retry(r, true, now)
      else if r.step == Captured then Done
      else HandleStepError(r, e, r.step != Created, now)
    case Record(r, _) => HandleStepError(r, e, true, now)
    case ReleaseRejected(r) => HandleStepError(r, e, true, now)
    case ReleaseThenFail(r, u) => Update(r, u, false)
    case Update(_, _, _) => Done
  }

  /** The store half of `Work`: neither the verdict nor the clock reaches the store directly. */
  function Called(s: Store, pc: Pc): Store {
    match pc
    case Done => s
    case Begin(r) =>
      if r.step == Created then Reserve(s, r).0
      else if r.step == ComplianceApproved then Post(s, r).0
      else if r.step == LedgerPosted then Finish(s, r.id, Taken).0
      else s
    case Record(r, approved) => Decide(s, r.id, if approved then Approved else Rejected).0
    case ReleaseRejected(r) => Finish(s, r.id, GivenBack).0
    case ReleaseThenFail(r, _) => Finish(s, r.id, GivenBack).0
    case Update(r, u, _) => UpdateTransferSaga(s, r.id, u).0
  }

  lemma WorkCalls(s: Store, pc: Pc, answer: Answer, now: int)
    ensures Work(s, pc, answer, now).0 == Called(s, pc)
  {
  }

  /** Store calls left before the worker is done, at most. */
  function Distance(pc: Pc): nat {
    match pc
    case Done => 0
    case Update(_, _, _) => 1
    case ReleaseThenFail(_, _) => 2
    case ReleaseRejected(_) => 3
    case Record(_, _) => 4
    case Begin(_) => 5
  }

  lemma WorkComesCloser(s: Store, pc: Pc, answer: Answer, now: int)
    requires pc != Done
    ensures Distance(Work(s, pc, answer, now).1) < Distance(pc)
  {
  }

  /** Runs a worker to the end of its call with nothing in between. */
  function Finished(s: Store, pc: Pc, answer: Answer, now: int): (Store, bool)
    decreases Distance(pc)
  {
    if pc == Done then (s, false)
    else
      WorkComesCloser(s, pc, answer, now);
      var (s', pc', published) := Work(s, pc, answer, now);
      var rest := Finished(s', pc', answer, now);
      (rest.0, published || rest.1)
  }

  lemma FinishedStep(s: Store, pc: Pc, answer: Answer, now: int)
    requires pc != Done
    ensures var (s', pc', published) := Work(s, pc, answer, now);
            var rest := Finished(s', pc', answer, now);
            Finished(s, pc, answer, now) == (rest.0, published || rest.1)
  {
  }

  lemma UpdateEnds(s: Store, r: Transfer, u: SagaUpdate, publish: bool, answer: Answer, now: int)
    ensures Finished(s, Update(r, u, publish), answer, now)
            == (UpdateTransferSaga(s, r.id, u).0, publish && UpdateTransferSaga(s, r.id, u).1 == Ok(true))
  {
  }

  // ---- a call, its result, and what the worker makes of it

  /** What the store answers: a balance where there is one. */
  function Answered(s: Store, pc: Pc): Result<Money>
    requires pc != Done
  {
    match pc
    case Begin(r) =>
      if r.step == Created then Reserve(s, r).1
      else if r.step == ComplianceApproved then Post(s, r).1
      else if r.step == LedgerPosted then NoBalance(Finish(s, r.id, Taken).1)
      else Ok(0)
    case Record(r, approved) => NoBalance(Decide(s, r.id, if approved then Approved else Rejected).1)
    case ReleaseRejected(r) => NoBalance(Finish(s, r.id, GivenBack).1)
    case ReleaseThenFail(r, _) => NoBalance(Finish(s, r.id, GivenBack).1)
    case Update(_, _, _) => Ok(0)
  }

  function NoBalance(result: Result<()>): Result<Money> {
    if result.Err? then Err(result.error) else Ok(0)
  }

  function Succeeding(pc: Pc, balance: Money, answer: Answer, now: int): Pc {
    match pc
    case Done => Done
    case Begin(r) =>
      (match r.step
       case Created => Update(r, Advance(r, FundsHeld, now).(initialBalance := balance), false)
       case FundsHeld =>
         if answer.Broken? then HandleStepError(r, answer.error, true, now) else Record(r, answer == Approve)
       case ComplianceApproved => Update(r, Advance(r, LedgerPosted, now).(finalBalance := balance), false)
       case LedgerPosted => Update(r, Advance(r, Captured, now), false)
       case Captured => Update(r, Advance(r, Captured, now).(status := Completed), true))
    case Record(r, approved) =>
      if approved then Update(r, Advance(r, ComplianceApproved, now).(compliance := Some(Approved)), false)
      else ReleaseRejected(r)
    case ReleaseRejected(r) => Update(r, FailWith(r, ComplianceRejected, 0, now).(compliance := Some(Rejected)), false)
    case ReleaseThenFail(r, u) => Update(r, u, false)
    case Update(_, _, _) => Done
  }

  /** A worker goes on as after a success or as after a failure, whatever store gave the answer. */
  lemma WorkGoesOn(s: Store, pc: Pc, answer: Answer, now: int)
    requires pc != Done
    ensures var result := Answered(s, pc);
            Work(s, pc, answer, now).1
            == if result.Ok? then Succeeding(pc, result.value, answer, now) else Failing(pc, result.error, now)
  {
  }
}
