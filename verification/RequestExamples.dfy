/**
  Requests that stand side by side, in states that runs reach: two reversals of one transfer, and two requests that name
  the same event, of which the Postgres store takes only one.
 */
module RequestExamples {
  import opened Domain
  import opened Replay
  import opened Ledger
  import opened Saga
  import opened System
  import opened Bookkeeping
  import opened Adjustments
  import opened AnyWorkers
  import opened Progress
  import opened Recovery
  import opened ServedRuns
  import opened CrashExample
  import opened PostgresTransactions
  import opened StoreLaws

  // ---- a completed transfer

  const APPROVAL: (Answer, int) := (Approve, 0)
  const NINE: seq<(Answer, int)> :=
    [APPROVAL, APPROVAL, APPROVAL, APPROVAL, APPROVAL, APPROVAL, APPROVAL, APPROVAL, APPROVAL]

  lemma CallKeepsRequests(s: Store, pc: Pc)
    ensures Called(s, pc).adjustments == s.adjustments
  {
  }

  lemma {:induction false} FinishedKeepsRequests(s: Store, pc: Pc, answer: Answer, now: int)
    ensures Finished(s, pc, answer, now).0.adjustments == s.adjustments
    decreases Distance(pc)
  {
    if pc != Done {
      var (s', pc', _) := Work(s, pc, answer, now);
      WorkCalls(s, pc, answer, now);
      CallKeepsRequests(s, pc);
      WorkComesCloser(s, pc, answer, now);
      FinishedStep(s, pc, answer, now);
      FinishedKeepsRequests(s', pc', answer, now);
    }
  }

  lemma {:induction false} ServeAllKeepsRequests(s: Store, t: Id, calls: seq<(Answer, int)>)
    ensures ServeAll(s, t, calls).adjustments == s.adjustments
    decreases |calls|
  {
    if calls != [] {
      if t in s.transfers { FinishedKeepsRequests(s, Begin(s.transfers[t]), calls[0].0, calls[0].1); }
      ServeAllKeepsRequests(Serve(s, t, calls[0].0, calls[0].1), t, calls[1..]);
    }
  }

  lemma FreshIsRecoverable(s: Store)
    requires s == BankOf(OPENED, FRESH, map[], map[]) && Ledgered(s)
    ensures Recoverable(s, TRANSFER, Approve) && Reserve(s, FRESH).1.Ok?
  {
    OpeningBalances();
  }

  /** A bank with one completed transfer and no request. */
  lemma CompletedIsReached() returns (sys: Sys)
    ensures Initial(START) && Reaches(START, sys) && Healthy(sys) && Idle(sys)
    ensures TRANSFER in sys.store.transfers && sys.store.transfers[TRANSFER].status == Completed
    ensures sys.store.adjustments == map[] && PAYER in sys.store.streams
  {
    Opening(ANY_WAY);
    var s := BankOf(OPENED, FRESH, map[], map[]);
    var start := With(s, Done, FLOWS);
    var acts :| Possible(START, acts) && After(START, acts) == start && AllGo(acts, ANY_WAY);
    HealthyStart(START);
    HealthyRun(START, acts);
    FreshIsRecoverable(s);
    var more := ServeAllIsARun(start, TRANSFER, NINE);
    OneAfterTheOther(START, acts, more);
    HealthyRun(start, more);
    ServeAllKeepsRequests(s, TRANSFER, NINE);
    ApprovedCompletes(s);
    sys := After(start, more);
  }

  lemma ApprovedCompletes(s: Store)
    requires Recoverable(s, TRANSFER, Approve) && PAYER in s.streams && s.transfers[TRANSFER].status == Pending
    requires Reserve(s, s.transfers[TRANSFER]).1.Ok? && s.transfers[TRANSFER].id == TRANSFER
    ensures var s' := ServeAll(s, TRANSFER, NINE);
            && TRANSFER in s'.transfers && s'.transfers[TRANSFER].status == Completed && PAYER in s'.streams
  {
    NineCallsRecover(s, TRANSFER, PAYER, NINE, Approve);
    if TRANSFER !in s.reservations { ReservesIff(s, s.transfers[TRANSFER]); }
    ServeAllIsInterrupted(s, TRANSFER, NINE, Approve);
    SeriesLeaves(s, TRANSFER, PAYER, CutsOf(NINE), Approve);
  }

  // ---- two reversals of one transfer

  const REQUEST: Id := 3
  const AUTHOR: Id := 4
  const OTHER: Id := 5

  function Reversing(j: Id, kind: AdjustmentKind): Adjustment {
    Adjustment(j, kind, Waiting, PAYER, Credit, 1, 0, PAYEE, Some(TRANSFER), NO_ID, None, AUTHOR, None)
  }

  /** In a state that a run reaches, a reversal and a manual request of one transfer stand side by side. */
  lemma ManualReversesAgain() returns (sys: Sys)
    ensures Initial(START) && Reaches(START, sys)
    ensures var (s, first) := CreateAdjustment(sys.store, Reversing(REQUEST, Reversal));
            var (s', second) := CreateAdjustment(s, Reversing(REQUEST + 1, Manual));
            first.Ok? && second.Ok? && ReversedOnce(s.adjustments) && !ReversedOnce(s'.adjustments)
  {
    sys := CompletedIsReached();
    var s := CreateAdjustment(sys.store, Reversing(REQUEST, Reversal)).0;
    assert StreamOk(s.transfers.Keys, sys.store.adjustments.Keys, PAYER, s.streams[PAYER]);
    assert ActiveTransferReversal(s.adjustments[REQUEST], Some(TRANSFER));
    assert NamesReversedTransfer(s, Reversing(REQUEST + 1, Manual));
    RequestKeepsReversedOnceIff(s, Reversing(REQUEST + 1, Manual));
  }

  // ---- two requests that name one event

  const A: Id := 1
  const BALANCE: Money := 5000
  const FUNDED: seq<Event> := [AccountOpened(A, 0, BALANCE)]
  const DEPOSITED: seq<Event> := FUNDED + [DepositEvent(A, 1, MINIMUM_MOVEMENT)]

  const UNDO: Adjustment :=
    Adjustment(REQUEST, Reversal, Waiting, NO_ID, Both, 0, 0, NO_ID, None, A, Some(1), AUTHOR, None)
  const UNDONE: Adjustment := UNDO.(account := A, amount := MINIMUM_MOVEMENT, direction := Debit)
  const AMEND: Adjustment :=
    Adjustment(REQUEST + 1, Manual, Waiting, A, Credit, 1, 0, NO_ID, None, A, Some(1), AUTHOR, None)

  function Requested(adjustments: map<Id, Adjustment>): Store {
    EMPTY.(streams := map[A := DEPOSITED], adjustments := adjustments)
  }

  function Asked(adjustments: map<Id, Adjustment>): Sys {
    Sys(Requested(adjustments), [Worker(Done, [])], {(A, FUNDED)}, [], Flows(BALANCE, MINIMUM_MOVEMENT, 0))
  }

  lemma DepositIsReached()
    ensures Reaches(START, Asked(map[]))
  {
    assert Possible(START, []) && After(START, []) == START;
    Then(START, START, OpenAccount(A, BALANCE));
    var one := Step(START, OpenAccount(A, BALANCE));
    assert Stream(one.store, A) == FUNDED;
    Then(START, one, LoadStream(A));
    var two := Step(one, LoadStream(A));
    Then(START, two, DepositAt(A, FUNDED, MINIMUM_MOVEMENT));
    var three := Step(two, DepositAt(A, FUNDED, MINIMUM_MOVEMENT));
    assert three.store.streams[A] == DEPOSITED;
    assert three == Asked(map[]);
  }

  lemma ReversalIsReached()
    ensures Reaches(START, Asked(map[REQUEST := UNDONE]))
  {
    DepositIsReached();
    Then(START, Asked(map[]), RequestAdjustment(UNDO));
    assert Normalise(Requested(map[]), UNDO) == Ok(UNDONE);
    assert Step(Asked(map[]), RequestAdjustment(UNDO)) == Asked(map[REQUEST := UNDONE]);
  }

  lemma BothAreReached()
    ensures Reaches(START, Asked(map[REQUEST := UNDONE, REQUEST + 1 := AMEND]))
  {
    ReversalIsReached();
    var sys := Asked(map[REQUEST := UNDONE]);
    Then(START, sys, RequestAdjustment(AMEND));
    assert Normalise(sys.store, AMEND) == Ok(AMEND);
    assert Step(sys, RequestAdjustment(AMEND)) == Asked(map[REQUEST := UNDONE, REQUEST + 1 := AMEND]);
  }

  /** A run of the memory store in which a reversal of an event and a manual request that names it both stand. */
  lemma EventIsNamedTwice()
    ensures Initial(START) && Reaches(START, Asked(map[REQUEST := UNDONE, REQUEST + 1 := AMEND]))
    ensures EventsNamedOnce(map[REQUEST := UNDONE])
    ensures !EventsNamedOnce(map[REQUEST := UNDONE, REQUEST + 1 := AMEND])
  {
    BothAreReached();
    var both := map[REQUEST := UNDONE, REQUEST + 1 := AMEND];
    assert SameEvent(both[REQUEST], both[REQUEST + 1]);
  }

  /** The Postgres store does not take the second of them. */
  lemma PostgresTakesOne(pg: Pg)
    requires Simulates(pg, Requested(map[REQUEST := UNDONE]))
    ensures CreateAdjustment(Requested(map[REQUEST := UNDONE]), AMEND).1.Ok?
    ensures InsertRequest(pg, AMEND, DEPOSITED) == (pg, Refused(AlreadyReversed))
  {
    assert SameIndex(pg.rest.adjustments[REQUEST], AMEND);
  }

  const AMENDED: Adjustment := AMEND.(status := Accepted, reviewedBy := Some(OTHER))
  const CREDITED: seq<Event> := DEPOSITED + [AdjustmentCredit(AMEND, A, 2, 1, NO_ID)]

  function Amended(): Sys {
    var sys := Asked(map[REQUEST := UNDONE, REQUEST + 1 := AMENDED]);
    sys.(store := sys.store.(streams := map[A := CREDITED]))
  }

  lemma AmendmentIsReached()
    ensures Reaches(START, Amended())
  {
    BothAreReached();
    var sys := Asked(map[REQUEST := UNDONE, REQUEST + 1 := AMEND]);
    Then(START, sys, AcceptAdjustment(REQUEST + 1, OTHER));
    assert Step(sys, AcceptAdjustment(REQUEST + 1, OTHER)) == Amended();
  }

  lemma AmendedCovers()
    ensures !Poor(UNDONE, CREDITED)
  {
    assert FUNDED[..0] == [];
    ReplayAppend(FUNDED, DepositEvent(A, 1, MINIMUM_MOVEMENT));
    ReplayAppend(DEPOSITED, AdjustmentCredit(AMEND, A, 2, 1, NO_ID));
  }

  lemma ReversalIsApproved(s: Store)
    requires Reviewable(s, REQUEST, OTHER) == Ok(UNDONE) && PayerStream(s, UNDONE) == CREDITED
    requires !Poor(UNDONE, PayerStream(s, UNDONE))
    ensures ApproveAdjustment(s, REQUEST, OTHER).1.Ok?
  {
    ApprovalIs(s, REQUEST, OTHER, UNDONE);
  }

  lemma RepeatedCheckFinds(pg: Pg)
    requires pg.rest.adjustments == map[REQUEST := UNDONE, REQUEST + 1 := AMENDED]
    ensures Approval(pg, REQUEST, OTHER, CREDITED, []) == (pg, Refused(AlreadyReversed))
  {
    assert pg.rest.adjustments[REQUEST + 1].status == Accepted;
    RepeatedCheckRefuses(pg, REQUEST, OTHER, CREDITED, [], UNDONE);
  }

  /**
    Where the manual one has been approved, which a run of the memory store reaches, that store approves the reversal
    too, and the repeated check would refuse it.
   */
  lemma ApprovalsDiffer(pg: Pg)
    requires Simulates(pg, Amended().store)
    ensures Reaches(START, Amended())
    ensures ApproveAdjustment(Amended().store, REQUEST, OTHER).1.Ok?
    ensures Approval(pg, REQUEST, OTHER, CREDITED, []) == (pg, Refused(AlreadyReversed))
  {
    AmendmentIsReached();
    AmendedCovers();
    ReversalIsApproved(Amended().store);
    RepeatedCheckFinds(pg);
  }
}
