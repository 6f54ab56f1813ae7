/** What one uninterrupted call of `Process` does to record, hold and balances, step by step and for every answer. */
module ProcessLaws {
  import opened Domain
  import opened Ledger
  import opened Saga
  import opened Bookkeeping
  import opened OneWorker
  import opened Progress
  import opened StoreLaws

  /** A stored pending record at the step. */
  ghost predicate Awaits(s: Store, t: Id, step: SagaStep) {
    t in s.transfers && s.transfers[t].id == t && s.transfers[t].status == Pending && s.transfers[t].step == step
  }

  /** The record of `t` becomes `r`, and nothing else changes but what `s'` says of streams and the other tables. */
  ghost predicate Becomes(s: Store, s': Store, t: Id, r: Transfer) {
    s'.transfers == s.transfers[t := r] && s'.adjustments == s.adjustments && s'.snapshots == s.snapshots
  }

  /** A store call, then the update of the record. */
  lemma CallThenUpdate(s: Store, t: Id, answer: Answer, now: int, mid: Store, u: SagaUpdate, publish: bool)
    requires t in s.transfers && s.transfers[t].status == Pending && s.transfers[t].id == t
    requires Work(s, Begin(s.transfers[t]), answer, now) == (mid, Update(s.transfers[t], u, publish), false)
    requires mid.transfers == s.transfers && u.expected == s.transfers[t].step
    ensures Serve(s, t, answer, now) == mid.(transfers := s.transfers[t := ApplyUpdate(s.transfers[t], u)])
    ensures Finished(s, Begin(s.transfers[t]), answer, now).1 == publish
  {
    FinishedStep(s, Begin(s.transfers[t]), answer, now);
    UpdateEnds(mid, s.transfers[t], u, publish, answer, now);
  }

  /** Seconds to wait after the `n`th failed attempt. */
  function Wait(n: int): int
    requires 1 <= n
  {
    if n == 1 then 1 else if n == 2 then 2 else if n == 3 then 4 else if n == 4 then 8 else 16
  }

  // ---- created

  /** If the source can pay, its funds go on hold and the record moves on, due at once. */
  lemma CreatedIsHeld(s: Store, t: Id, answer: Answer, now: int)
    requires Awaits(s, t, Created) && t !in s.reservations
    requires var r := s.transfers[t];
             && Stream(s, r.source) != [] && Stream(s, r.destination) != []
             && r.amount + r.fee <= Balance(s, r.source) - OnHoldOf(s, r.source)
    ensures var r, s' := s.transfers[t], Serve(s, t, answer, now);
            && Becomes(s, s', t, r.(step := FundsHeld, failure := None, attempts := 0, nextAttemptAt := now,
                                    initialBalance := if Balance(s, r.source) == 0 then r.initialBalance
                                                      else Balance(s, r.source)))
            && s'.reservations == s.reservations[t := Hold(r.source, r.amount + r.fee, OnHold)]
            && s'.postings == s.postings && s'.decisions == s.decisions
            && OnlyStream(s, s', r.source) && Balance(s', r.source) == Balance(s, r.source)
            && OnHoldOf(s', r.source) == OnHoldOf(s, r.source) + r.amount + r.fee
  {
    var r := s.transfers[t];
    ReservesIff(s, r);
    ReservedIsHeld(s, r);
    CallThenUpdate(s, t, answer, now, Reserve(s, r).0, Work(s, Begin(r), answer, now).1.u, false);
    SameMoneyOf(Reserve(s, r).0, Serve(s, t, answer, now), r.source);
  }

  lemma SameMoneyOf(s: Store, s': Store, a: Id)
    requires s'.streams == s.streams
    ensures Balance(s', a) == Balance(s, a) && OnHoldOf(s', a) == OnHoldOf(s, a)
    ensures forall b :: Stream(s', b) == Stream(s, b)
  {
  }

  /** Otherwise the record fails with the reason, and nothing else happens. */
  lemma CreatedFails(s: Store, t: Id, answer: Answer, now: int)
    requires Awaits(s, t, Created) && t !in s.reservations
    requires var r := s.transfers[t];
             || Stream(s, r.source) == [] || Stream(s, r.destination) == []
             || Balance(s, r.source) - OnHoldOf(s, r.source) < r.amount + r.fee
    ensures var r := s.transfers[t];
            var missing := Stream(s, r.source) == [] || Stream(s, r.destination) == [];
            Serve(s, t, answer, now)
            == s.(transfers := s.transfers[t := r.(status := Failed, attempts := 0, nextAttemptAt := now,
                                                  failure := Some(if missing then AccountMissing else FundsMissing))])
  {
    var r := s.transfers[t];
    ReservesIff(s, r);
    CallThenUpdate(s, t, answer, now, s, Work(s, Begin(r), answer, now).1.u, false);
  }

  /** Where a hold is there already, from a call that did not get as far as its update, only the record moves on. */
  lemma CreatedIsHeldAlready(s: Store, t: Id, answer: Answer, now: int)
    requires Awaits(s, t, Created) && t in s.reservations
    ensures var r := s.transfers[t];
            var balance := Balance(s, r.source);
            Serve(s, t, answer, now)
            == s.(transfers := s.transfers[t := r.(step := FundsHeld, failure := None, attempts := 0,
                                                  nextAttemptAt := now,
                                                  initialBalance := if balance == 0 then r.initialBalance
                                                                    else balance)])
  {
    var r := s.transfers[t];
    ReservedAgain(s, r);
    CallThenUpdate(s, t, answer, now, s, Work(s, Begin(r), answer, now).1.u, false);
  }

  // ---- on hold

  /** Approved: the decision goes on record and the transfer moves on; no money moves. */
  lemma HeldIsApproved(s: Store, t: Id, now: int)
    requires Awaits(s, t, FundsHeld) && (t in s.decisions ==> s.decisions[t] == Approved)
    ensures var r := s.transfers[t];
            Serve(s, t, Approve, now)
            == s.(decisions := s.decisions[t := Approved],
                  transfers := s.transfers[t := r.(step := ComplianceApproved, failure := None, attempts := 0,
                                                  nextAttemptAt := now, compliance := Some(Approved))])
  {
    var r := s.transfers[t];
    var decided := s.(decisions := s.decisions[t := Approved]);
    DecidesIff(s, t, Approved);
    assert Decide(s, t, Approved) == (decided, Ok(()));
    FinishedStep(s, Begin(r), Approve, now);
    FinishedStep(s, Record(r, true), Approve, now);
    UpdateEnds(decided, r, Work(s, Record(r, true), Approve, now).1.u, false, Approve, now);
  }

  /** The hold of `t` is given back: what was reserved for it is free again, and the balance is what it was. */
  ghost predicate GivesBack(s: Store, s': Store, t: Id)
    requires t in s.reservations
  {
    var h := s.reservations[t];
    && s'.reservations == s.reservations[t := Hold(h.account, h.amount, GivenBack)]
    && s'.postings == s.postings
    && OnlyStream(s, s', h.account) && Balance(s', h.account) == Balance(s, h.account)
    && OnHoldOf(s', h.account) == OnHoldOf(s, h.account) - h.amount
  }

  lemma FinishGivesBack(s: Store, t: Id, s': Store)
    requires t in s.reservations && s.reservations[t].state == OnHold
    requires var f := Finish(s, t, GivenBack).0;
             s'.streams == f.streams && s'.reservations == f.reservations && s'.postings == f.postings
    ensures GivesBack(s, s', t)
  {
    FinishedIsFree(s, t, GivenBack);
    SameMoneyOf(Finish(s, t, GivenBack).0, s', s.reservations[t].account);
  }

  /** A release whose error nobody looks at, then the update that fails the record. */
  lemma ReleaseThenUpdate(s: Store, r: Transfer, u: SagaUpdate, answer: Answer, now: int)
    requires Current(s, r) && u.expected == r.step && StateOf(s.reservations, r.id) == Some(OnHold)
    ensures var s' := Finished(s, ReleaseThenFail(r, u), answer, now).0;
            && GivesBack(s, s', r.id) && s'.decisions == s.decisions && Becomes(s, s', r.id, ApplyUpdate(r, u))
  {
    var released := Finish(s, r.id, GivenBack).0;
    FinishedIsFree(s, r.id, GivenBack);
    FinishedStep(s, ReleaseThenFail(r, u), answer, now);
    UpdateEnds(released, r, u, false, answer, now);
    FinishGivesBack(s, r.id, Finished(s, ReleaseThenFail(r, u), answer, now).0);
  }

  /** Refused: the decision goes on record, the hold is given back and the record fails. */
  lemma HeldIsRefused(s: Store, t: Id, now: int)
    requires Awaits(s, t, FundsHeld) && (t in s.decisions ==> s.decisions[t] == Rejected)
    requires StateOf(s.reservations, t) == Some(OnHold)
    ensures var r, s' := s.transfers[t], Serve(s, t, Refuse, now);
            && GivesBack(s, s', t) && s'.decisions == s.decisions[t := Rejected]
            && Becomes(s, s', t, r.(status := Failed, failure := Some(ComplianceRejected), attempts := 0,
                                    nextAttemptAt := now, compliance := Some(Rejected)))
  {
    var r := s.transfers[t];
    var decided := s.(decisions := s.decisions[t := Rejected]);
    DecidesIff(s, t, Rejected);
    assert Decide(s, t, Rejected) == (decided, Ok(()));
    FinishedStep(s, Begin(r), Refuse, now);
    FinishedStep(s, Record(r, false), Refuse, now);
    RejectedIsReleased(decided, r, now);
    FinishGivesBack(s, t, Serve(s, t, Refuse, now));
  }

  lemma RejectedIsReleased(s: Store, r: Transfer, now: int)
    requires Current(s, r) && r.step == FundsHeld && StateOf(s.reservations, r.id) == Some(OnHold)
    ensures var q := r.(status := Failed, failure := Some(ComplianceRejected), attempts := 0,
                        nextAttemptAt := now, compliance := Some(Rejected));
            Finished(s, ReleaseRejected(r), Refuse, now).0
            == Finish(s, r.id, GivenBack).0.(transfers := s.transfers[r.id := q])
  {
    var released := Finish(s, r.id, GivenBack).0;
    FinishedIsFree(s, r.id, GivenBack);
    FinishedStep(s, ReleaseRejected(r), Refuse, now);
    UpdateEnds(released, r, Work(s, ReleaseRejected(r), Refuse, now).1.u, false, Refuse, now);
  }

  /** The compliance check fails for good: the hold is given back and the record fails with the reason. */
  lemma HeldFailsForGood(s: Store, t: Id, e: Error, now: int)
    requires Awaits(s, t, FundsHeld) && StateOf(s.reservations, t) == Some(OnHold)
    requires e == AccountNotFound || e == InsufficientFunds
    ensures var r, s' := s.transfers[t], Serve(s, t, Broken(e), now);
            && GivesBack(s, s', t) && s'.decisions == s.decisions
            && Becomes(s, s', t, r.(status := Failed, attempts := 0, nextAttemptAt := now,
                                    failure := Some(if e == AccountNotFound then AccountMissing else FundsMissing)))
  {
    var r := s.transfers[t];
    FinishedStep(s, Begin(r), Broken(e), now);
    ReleaseThenUpdate(s, r, Work(s, Begin(r), Broken(e), now).1.u, Broken(e), now);
  }

  /** Any other error puts the record back, for 1, 2, 4 and 8 seconds; nothing else happens. */
  lemma HeldIsPutBack(s: Store, t: Id, e: Error, now: int)
    requires Awaits(s, t, FundsHeld) && e != AccountNotFound && e != InsufficientFunds
    requires 0 <= s.transfers[t].attempts < 4
    ensures var r := s.transfers[t];
            var n := r.attempts + 1;
            Serve(s, t, Broken(e), now)
            == s.(transfers := s.transfers[t := r.(failure := None, attempts := n, nextAttemptAt := now + Wait(n))])
  {
    var r := s.transfers[t];
    CallThenUpdate(s, t, Broken(e), now, s, Work(s, Begin(r), Broken(e), now).1.u, false);
  }

  /** The fifth time the hold is given back and the record fails. */
  lemma HeldIsGivenUp(s: Store, t: Id, e: Error, now: int)
    requires Awaits(s, t, FundsHeld) && e != AccountNotFound && e != InsufficientFunds
    requires 4 <= s.transfers[t].attempts && StateOf(s.reservations, t) == Some(OnHold)
    ensures var r, s' := s.transfers[t], Serve(s, t, Broken(e), now);
            && GivesBack(s, s', t) && s'.decisions == s.decisions
            && Becomes(s, s', t, r.(status := Failed, failure := Some(RetryExhausted), attempts := r.attempts + 1,
                                    nextAttemptAt := now))
  {
    var r := s.transfers[t];
    FinishedStep(s, Begin(r), Broken(e), now);
    ReleaseThenUpdate(s, r, Work(s, Begin(r), Broken(e), now).1.u, Broken(e), now);
  }

  /** A verdict against the one on record is not recorded: the record is put back, and nothing else happens. */
  lemma HeldIsContradicted(s: Store, t: Id, answer: Answer, now: int)
    requires Awaits(s, t, FundsHeld) && t in s.decisions
    requires answer == if s.decisions[t] == Approved then Refuse else Approve
    requires 0 <= s.transfers[t].attempts < 4
    ensures var r := s.transfers[t];
            var n := r.attempts + 1;
            Serve(s, t, answer, now)
            == s.(transfers := s.transfers[t := r.(failure := None, attempts := n, nextAttemptAt := now + Wait(n))])
  {
    var r := s.transfers[t];
    DecidesIff(s, t, if answer == Approve then Approved else Rejected);
    FinishedStep(s, Begin(r), answer, now);
    FinishedStep(s, Record(r, answer == Approve), answer, now);
    UpdateEnds(s, r, Work(s, Record(r, answer == Approve), answer, now).1.u, false, answer, now);
  }

  // ---- approved, posted, captured

  /** The money moves: amount and fee leave the source, the amount arrives, and the record says what is left. */
  lemma ApprovedIsPosted(s: Store, t: Id, answer: Answer, now: int)
    requires Awaits(s, t, ComplianceApproved) && t !in s.postings
    requires var r := s.transfers[t];
             r.source != r.destination && 0 <= r.fee && Stream(s, r.source) != [] && Stream(s, r.destination) != []
    ensures var r, s' := s.transfers[t], Serve(s, t, answer, now);
            var left := Balance(s, r.source) - r.amount - r.fee;
            && Becomes(s, s', t, r.(step := LedgerPosted, failure := None, attempts := 0, nextAttemptAt := now,
                                    finalBalance := if left == 0 then r.finalBalance else left))
            && s'.postings == s.postings + {t} && s'.reservations == s.reservations && s'.decisions == s.decisions
            && Balance(s', r.source) == left && Balance(s', r.destination) == Balance(s, r.destination) + r.amount
            && (forall b :: b != r.source && b != r.destination ==> Stream(s', b) == Stream(s, b))
  {
    var r := s.transfers[t];
    PostsIff(s, r);
    PostedIsMoved(s, r);
    var posted := Post(s, r).0;
    CallThenUpdate(s, t, answer, now, posted, Work(s, Begin(r), answer, now).1.u, false);
    SameMoneyOf(posted, Serve(s, t, answer, now), r.source);
    SameMoneyOf(posted, Serve(s, t, answer, now), r.destination);
  }

  /** Where the money has moved already, only the record moves on, and says what the source has now. */
  lemma ApprovedIsPostedAlready(s: Store, t: Id, answer: Answer, now: int)
    requires Awaits(s, t, ComplianceApproved) && t in s.postings
    ensures var r := s.transfers[t];
            var left := Balance(s, r.source);
            Serve(s, t, answer, now)
            == s.(transfers := s.transfers[t := r.(step := LedgerPosted, failure := None, attempts := 0,
                                                  nextAttemptAt := now,
                                                  finalBalance := if left == 0 then r.finalBalance else left)])
  {
    var r := s.transfers[t];
    PostedAgain(s, r);
    CallThenUpdate(s, t, answer, now, s, Work(s, Begin(r), answer, now).1.u, false);
  }

  /** The hold is used up: what was reserved is free again, and the balance has already been charged. */
  lemma PostedIsCaptured(s: Store, t: Id, answer: Answer, now: int)
    requires Awaits(s, t, LedgerPosted) && StateOf(s.reservations, t) == Some(OnHold)
    ensures var r, h, s' := s.transfers[t], s.reservations[t], Serve(s, t, answer, now);
            && Becomes(s, s', t, r.(step := Captured, failure := None, attempts := 0, nextAttemptAt := now))
            && s'.reservations == s.reservations[t := Hold(h.account, h.amount, Taken)]
            && s'.postings == s.postings && s'.decisions == s.decisions
            && OnlyStream(s, s', h.account) && Balance(s', h.account) == Balance(s, h.account)
            && OnHoldOf(s', h.account) == OnHoldOf(s, h.account) - h.amount
  {
    var r := s.transfers[t];
    FinishesIff(s, t, Taken);
    FinishedIsFree(s, t, Taken);
    var captured := Finish(s, t, Taken).0;
    CallThenUpdate(s, t, answer, now, captured, Work(s, Begin(r), answer, now).1.u, false);
    SameMoneyOf(captured, Serve(s, t, answer, now), s.reservations[t].account);
  }

  /** Where the hold is used up already, or there is none, only the record moves on. */
  lemma PostedIsCapturedAlready(s: Store, t: Id, answer: Answer, now: int)
    requires Awaits(s, t, LedgerPosted) && (StateOf(s.reservations, t) == Some(Taken) || t !in s.reservations)
    ensures var r := s.transfers[t];
            Serve(s, t, answer, now)
            == s.(transfers := s.transfers[t := r.(step := Captured, failure := None, attempts := 0,
                                                  nextAttemptAt := now)])
  {
    var r := s.transfers[t];
    FinishesIff(s, t, Taken);
    CallThenUpdate(s, t, answer, now, s, Work(s, Begin(r), answer, now).1.u, false);
  }

  /** A capture that meets a conflict is put back for 1, 2, 4, 8 and then always 16 seconds, and never given up. */
  lemma PostedIsPutBack(s: Store, t: Id, answer: Answer, now: int)
    requires Awaits(s, t, LedgerPosted) && StateOf(s.reservations, t) == Some(GivenBack)
    requires 0 <= s.transfers[t].attempts
    ensures var r := s.transfers[t];
            var n := r.attempts + 1;
            Serve(s, t, answer, now)
            == s.(transfers := s.transfers[t := r.(failure := None, attempts := n, nextAttemptAt := now + Wait(n))])
  {
    var r := s.transfers[t];
    FinishesIff(s, t, Taken);
    CallThenUpdate(s, t, answer, now, s, Work(s, Begin(r), answer, now).1.u, false);
  }

  /** The record completes, and this call publishes it. */
  lemma CapturedCompletes(s: Store, t: Id, answer: Answer, now: int)
    requires Awaits(s, t, Captured)
    ensures var r := s.transfers[t];
            && Serve(s, t, answer, now)
               == s.(transfers := s.transfers[t := r.(status := Completed, failure := None, attempts := 0,
                                                     nextAttemptAt := now)])
            && Finished(s, Begin(r), answer, now).1
  {
    var r := s.transfers[t];
    CallThenUpdate(s, t, answer, now, s, Work(s, Begin(r), answer, now).1.u, true);
  }

  // ---- when it is due again

  /** Wherever a call fails that may be tried again, the record is put back at its step, due when the wait is over. */
  lemma PutBackWaits(s: Store, r: Transfer, afterLedger: bool, now: int)
    requires Current(s, r) && 0 <= r.attempts && (afterLedger || r.attempts < 4)
    ensures var n := r.attempts + 1;
            Saga.Retry(r, afterLedger, now).Update?
            && Called(s, Saga.Retry(r, afterLedger, now))
               == s.(transfers :=
                       s.transfers[r.id := r.(failure := None, attempts := n, nextAttemptAt := now + Wait(n))])
  {
  }

  /**
    A store call that fails by itself, with any error but a missing account or missing funds, puts the record back, also
    where the memory store never fails; the fifth time on the way to the posting it gives up.
   */
  lemma FailedCallPutsBack(s: Store, pc: Pc, e: Error, now: int)
    requires (pc.Begin? && pc.r.step != Captured) || ((pc.Record? || pc.ReleaseRejected?) && pc.r.step == FundsHeld)
    requires Current(s, pc.r) && e != AccountNotFound && e != InsufficientFunds && 0 <= pc.r.attempts
    ensures var r, n, after := pc.r, pc.r.attempts + 1, Failing(pc, e, now);
            if n < 5 || r.step == LedgerPosted then
              && after.Update?
              && Called(s, after)
                 == s.(transfers :=
                         s.transfers[r.id := r.(failure := None, attempts := n, nextAttemptAt := now + Wait(n))])
            else
              var u := SagaUpdate(r.step, r.step, Failed, Some(RetryExhausted), None, n, now, 0, 0);
              after == if r.step == Created then Update(r, u, false) else ReleaseThenFail(r, u)
  {
    if pc.r.step == LedgerPosted || pc.r.attempts < 4 { PutBackWaits(s, pc.r, pc.r.step == LedgerPosted, now); }
  }

  /** With a missing account or missing funds it fails the record, and first gives back what may be on hold. */
  lemma FailedCallFails(s: Store, pc: Pc, e: Error, now: int)
    requires || (pc.Begin? && pc.r.step != LedgerPosted && pc.r.step != Captured)
             || ((pc.Record? || pc.ReleaseRejected?) && pc.r.step == FundsHeld)
    requires e == AccountNotFound || e == InsufficientFunds
    ensures var code := if e == AccountNotFound then AccountMissing else FundsMissing;
            var u := SagaUpdate(pc.r.step, pc.r.step, Failed, Some(code), None, 0, now, 0, 0);
            Failing(pc, e, now) == if pc.r.step == Created then Update(pc.r, u, false) else ReleaseThenFail(pc.r, u)
  {
  }

  /** What a pass at `now` lists of `s` if its limit does not cut it short, as `ListDueTransfers` promises. */
  ghost predicate Lists(s: Store, now: int, out: seq<Transfer>) {
    && (forall r :: r in out ==>
          r.id in s.transfers && s.transfers[r.id] == r && r.status == Pending && r.nextAttemptAt <= now)
    && (forall t :: t in s.transfers && s.transfers[t].status == Pending && s.transfers[t].nextAttemptAt <= now ==>
          s.transfers[t] in out)
  }

  /** What a pass serves of a transfer: its record if it is due, and nothing otherwise. */
  lemma ListedIff(s: Store, t: Id, later: int, out: seq<Transfer>)
    requires t in s.transfers && s.transfers[t].id == t && Lists(s, later, out)
    ensures (exists i :: 0 <= i < |out| && out[i].id == t)
            <==> s.transfers[t].status == Pending && s.transfers[t].nextAttemptAt <= later
  {
    if s.transfers[t].status == Pending && s.transfers[t].nextAttemptAt <= later {
      assert s.transfers[t] in out;
    }
  }

  /** A record that is due from `now` on, as a new one is, is listed by every pass until a call has changed it. */
  lemma StoredIsListed(s: Store, r: Transfer, now: int, later: int, out: seq<Transfer>)
    requires r.status == Pending && r.nextAttemptAt == now <= later && Lists(s, later, out)
    requires r.id in s.transfers && s.transfers[r.id] == r
    ensures exists i :: 0 <= i < |out| && out[i].id == r.id
  {
    ListedIff(s, r.id, later, out);
  }

  /** A record that a call moves on is listed by the very next pass. */
  lemma AdvancedIsListed(s: Store, r: Transfer, step: SagaStep, balances: (Money, Money), verdict: Option<Decision>,
                         now: int, later: int, out: seq<Transfer>)
    requires Current(s, r) && now <= later
    requires var u := Saga.Advance(r, step, now).(initialBalance := balances.0, finalBalance := balances.1,
                                                  compliance := verdict);
             Lists(Called(s, Update(r, u, false)), later, out)
    ensures exists i :: 0 <= i < |out| && out[i].id == r.id
  {
    var u := Saga.Advance(r, step, now).(initialBalance := balances.0, finalBalance := balances.1,
                                         compliance := verdict);
    StoredIsListed(Called(s, Update(r, u, false)), ApplyUpdate(r, u), now, later, out);
  }

  /** A record that has been put back is listed by no pass before its wait is over, and by every one after that. */
  lemma PutBackIsListedLater(s: Store, r: Transfer, afterLedger: bool, now: int, later: int, out: seq<Transfer>)
    requires Current(s, r) && 0 <= r.attempts && (afterLedger || r.attempts < 4)
    requires Lists(Called(s, Saga.Retry(r, afterLedger, now)), later, out)
    ensures (exists i :: 0 <= i < |out| && out[i].id == r.id) <==> now + Wait(r.attempts + 1) <= later
  {
    PutBackWaits(s, r, afterLedger, now);
    ListedIff(Called(s, Saga.Retry(r, afterLedger, now)), r.id, later, out);
  }
}
