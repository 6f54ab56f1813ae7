/**
  Why the rules are needed: three runs, on the store and on the Postgres tables.

  The worker gives the funds back and crashes before it has marked the transfer failed (transfer_service.go:163-169 and
  177-179 are two store calls each). The funds are then withdrawn, the worker restarts, the compliance checker approves,
  and the posting takes money that is not there. The compliance checker may have changed its mind in between, or it may
  approve all the time and only the recording of its decision has failed five times.

  And a deposit between the reading and the writing of the release is enough for a failed transfer to keep its hold.
 */
module CrashExample {
  import opened Domain
  import opened Replay
  import opened Ledger
  import opened Saga
  import opened System
  import opened Text

  const PAYER: Id := 1
  const PAYEE: Id := 2
  const TRANSFER: Id := 7
  const AMOUNT: Money := 1000

  const FRESH: Transfer :=
    Transfer(TRANSFER, PAYER, PAYEE, "key", AMOUNT, 0, Pending, Created, None, None, 0, 0, 0, 0, 0)
  const HELD: Transfer := FRESH.(step := FundsHeld, initialBalance := AMOUNT)
  const CLEARED: Transfer := HELD.(step := ComplianceApproved, compliance := Some(Approved))

  const OPENED: seq<Event> := [AccountOpened(PAYER, 0, AMOUNT)]
  const RESERVED: seq<Event> := OPENED + [FundsReserved(PAYER, 1, AMOUNT, Some(TRANSFER))]
  const RELEASED: seq<Event> := RESERVED + [ReservationReleased(PAYER, 2, AMOUNT, Some(TRANSFER))]
  const WITHDRAWN: seq<Event> := RELEASED + [Withdrawal(PAYER, 3, AMOUNT)]
  const OVERDRAWN: seq<Event> := WITHDRAWN + [DebitEvent(FRESH, 4)]

  const PAYEE_STREAM: seq<Event> := [AccountOpened(PAYEE, 0, 0)]

  lemma OpeningBalances()
    ensures ReplayOf(OPENED) == Tally(AMOUNT, 0)
    ensures ReplayOf(RESERVED) == Tally(AMOUNT, AMOUNT)
    ensures ReplayOf(RELEASED) == Tally(AMOUNT, 0)
  {
    assert OPENED[..0] == [];
    ReplayAppend(OPENED, FundsReserved(PAYER, 1, AMOUNT, Some(TRANSFER)));
    ReplayAppend(RESERVED, ReservationReleased(PAYER, 2, AMOUNT, Some(TRANSFER)));
  }

  lemma Balances()
    ensures ReplayOf(RELEASED) == Tally(AMOUNT, 0)
    ensures ReplayOf(WITHDRAWN) == Tally(0, 0)
    ensures ReplayOf(OVERDRAWN) == Tally(-AMOUNT, 0)
  {
    OpeningBalances();
    var paid, debit := Withdrawal(PAYER, 3, AMOUNT), DebitEvent(FRESH, 4);
    ReplayAppend(RELEASED, paid);
    ReplayAppend(WITHDRAWN, debit);
  }

  /** The bank with the two accounts and the transfer, everything else empty. */
  ghost function BankOf(es: seq<Event>, r: Transfer, holds: map<Id, Hold>, decisions: map<Id, Decision>): Store {
    EMPTY.(streams := map[PAYER := es, PAYEE := PAYEE_STREAM], transfers := map[TRANSFER := r],
           reservations := holds, decisions := decisions)
  }

  ghost function With(s: Store, pc: Pc, flows: Flows): Sys {
    Sys(s, [Worker(pc, [])], {}, [], flows)
  }

  const START: Sys := Sys(EMPTY, [Worker(Done, [])], {}, [], Flows(0, 0, 0))

  const FLOWS: Flows := Flows(AMOUNT, 0, 0)

  ghost predicate Shown(sys: Sys, way: Way) { ReachesBy(START, sys, way) }

  /** Listing the one pending record and starting on it. */
  lemma PickUp(s: Store, r: Transfer, flows: Flows, way: Way)
    requires Shown(With(s, Done, flows), way)
    requires r.id in s.transfers && s.transfers[r.id] == r && r.status == Pending
    ensures Shown(With(s, Begin(r), flows), way)
  {
    var sys := With(s, Done, flows);
    ThenBy(START, sys, Fetch(0, [r]), way);
    var listed := Step(sys, Fetch(0, [r]));
    ThenBy(START, listed, Pick(0), way);
    assert [r][1..] == [];
    assert Step(listed, Pick(0)).workers == [Worker(Begin(r), [])];
  }

  /** One store call of the worker. */
  lemma Calling(s: Store, pc: Pc, flows: Flows, answer: Answer, way: Way)
    requires Shown(With(s, pc, flows), way) && pc != Done && !Work(s, pc, answer, 0).2
    requires way.only.Some? ==> answer == way.only.value
    ensures var (s', pc', _) := Work(s, pc, answer, 0); Shown(With(s', pc', flows), way)
  {
    var sys := With(s, pc, flows);
    ThenBy(START, sys, CallStore(0, answer, 0), way);
    assert Step(sys, CallStore(0, answer, 0)).workers == [Worker(Work(s, pc, answer, 0).1, [])];
  }

  lemma Losing(s: Store, pc: Pc, flows: Flows, way: Way)
    requires Shown(With(s, pc, flows), way) && pc != Done && !way.calm
    ensures Shown(With(s, Failing(pc, Unavailable, 0), flows), way)
  {
    var sys := With(s, pc, flows);
    ThenBy(START, sys, StoreFails(0, Unavailable, 0), way);
    assert Step(sys, StoreFails(0, Unavailable, 0)) == With(s, Failing(pc, Unavailable, 0), flows);
  }

  const HOLD: Hold := Hold(PAYER, AMOUNT, OnHold)
  const NO_HOLD: Hold := Hold(PAYER, AMOUNT, GivenBack)

  lemma Opening(way: Way)
    ensures Shown(With(BankOf(OPENED, FRESH, map[], map[]), Done, FLOWS), way)
  {
    assert Possible(START, []) && After(START, []) == START;
    assert AllGo([], way);
    Utf8LengthOf(FRESH.key);
    ThenBy(START, START, OpenAccount(PAYER, AMOUNT), way);
    var one := Step(START, OpenAccount(PAYER, AMOUNT));
    ThenBy(START, one, OpenAccount(PAYEE, 0), way);
    var two := Step(one, OpenAccount(PAYEE, 0));
    ThenBy(START, two, NewTransfer(FRESH), way);
    var three := Step(two, NewTransfer(FRESH));
    assert three.store == BankOf(OPENED, FRESH, map[], map[]);
  }

  lemma Holding(way: Way)
    ensures Shown(With(BankOf(RESERVED, HELD, map[TRANSFER := HOLD], map[]), Done, FLOWS), way)
  {
    Opening(way);
    OpeningBalances();
    var answer := if way.only.Some? then way.only.value else Approve;
    var s := BankOf(OPENED, FRESH, map[], map[]);
    PickUp(s, FRESH, FLOWS, way);
    Calling(s, Begin(FRESH), FLOWS, answer, way);
    var (s', pc', _) := Work(s, Begin(FRESH), answer, 0);
    assert s' == BankOf(RESERVED, FRESH, map[TRANSFER := HOLD], map[]);
    Calling(s', pc', FLOWS, answer, way);
    assert Work(s', pc', answer, 0).0 == BankOf(RESERVED, HELD, map[TRANSFER := HOLD], map[]);
  }

  lemma Released(r: Transfer)
    requires r.id == TRANSFER
    ensures Finish(BankOf(RESERVED, r, map[TRANSFER := HOLD], map[]), TRANSFER, GivenBack).0
            == BankOf(RELEASED, r, map[TRANSFER := NO_HOLD], map[])
  {
  }

  /** The worker on its way to a failed record has given the funds back, and dies. */
  lemma Stranding(r: Transfer, u: SagaUpdate, answer: Answer, way: Way)
    requires Shown(With(BankOf(RESERVED, r, map[TRANSFER := HOLD], map[]), ReleaseThenFail(r, u), FLOWS), way)
    requires r.id == TRANSFER && !way.calm && (way.only.Some? ==> answer == way.only.value)
    ensures Shown(With(BankOf(RELEASED, r, map[TRANSFER := NO_HOLD], map[]), Done, FLOWS), way)
  {
    var s := BankOf(RESERVED, r, map[TRANSFER := HOLD], map[]);
    var s' := BankOf(RELEASED, r, map[TRANSFER := NO_HOLD], map[]);
    Released(r);
    Calling(s, ReleaseThenFail(r, u), FLOWS, answer, way);
    var sys := With(s', Update(r, u, false), FLOWS);
    ThenBy(START, sys, Crash(0), way);
    assert Step(sys, Crash(0)) == With(s', Done, FLOWS);
  }

  const DRAINED: Flows := Flows(AMOUNT, 0, AMOUNT)

  lemma Withdrawing(r: Transfer, way: Way)
    requires Shown(With(BankOf(RELEASED, r, map[TRANSFER := NO_HOLD], map[]), Done, FLOWS), way)
    ensures Shown(With(BankOf(WITHDRAWN, r, map[TRANSFER := NO_HOLD], map[]), Done, DRAINED), way)
  {
    OpeningBalances();
    var sys := With(BankOf(RELEASED, r, map[TRANSFER := NO_HOLD], map[]), Done, FLOWS);
    ThenBy(START, sys, WithdrawNow(PAYER, AMOUNT), way);
    assert Step(sys, WithdrawNow(PAYER, AMOUNT)).store == BankOf(WITHDRAWN, r, map[TRANSFER := NO_HOLD], map[]);
  }

  function Cleared(r: Transfer): Transfer {
    ApplyUpdate(r, Saga.Advance(r, ComplianceApproved, 0).(compliance := Some(Approved)))
  }

  ghost function ClearedBank(r: Transfer): Store {
    BankOf(WITHDRAWN, Cleared(r), map[TRANSFER := NO_HOLD], map[TRANSFER := Approved])
  }

  /** After the restart the compliance checker approves. */
  lemma Approving(r: Transfer, way: Way)
    requires Shown(With(BankOf(WITHDRAWN, r, map[TRANSFER := NO_HOLD], map[]), Done, DRAINED), way)
    requires r.id == TRANSFER && r.status == Pending && r.step == FundsHeld
    requires way.only.Some? ==> way.only.value == Approve
    ensures Shown(With(ClearedBank(r), Done, DRAINED), way)
  {
    var gone := map[TRANSFER := NO_HOLD];
    var s := BankOf(WITHDRAWN, r, gone, map[]);
    PickUp(s, r, DRAINED, way);
    Calling(s, Begin(r), DRAINED, Approve, way);
    Calling(s, Record(r, true), DRAINED, Approve, way);
    var (s1, pc1, _) := Work(s, Record(r, true), Approve, 0);
    Calling(s1, pc1, DRAINED, Approve, way);
    assert Work(s1, pc1, Approve, 0).0 == ClearedBank(r);
  }

  /** An account is overdrawn, and its transfer posted without a hold. */
  ghost predicate Overdrawn(s: Store) {
    && PAYER in s.streams && ReplayOf(s.streams[PAYER]).balance == -AMOUNT
    && TRANSFER in s.postings
    && TRANSFER in s.reservations && s.reservations[TRANSFER].state == GivenBack
  }

  lemma PostingOverdraws(r: Transfer, way: Way)
    requires Shown(With(ClearedBank(r), Done, DRAINED), way)
    requires r.id == TRANSFER && r.status == Pending && r.source == PAYER && r.destination == PAYEE
    requires r.amount == AMOUNT && r.fee == 0 && (way.only.Some? ==> way.only.value == Approve)
    ensures exists sys :: Shown(sys, way) && Overdrawn(sys.store)
  {
    Balances();
    var s := ClearedBank(r);
    PickUp(s, Cleared(r), DRAINED, way);
    Calling(s, Begin(Cleared(r)), DRAINED, Approve, way);
    var (s', pc', _) := Work(s, Begin(Cleared(r)), Approve, 0);
    assert s'.streams[PAYER] == OVERDRAWN;
    assert Shown(With(s', pc', DRAINED), way) && Overdrawn(s');
  }

  // ---- a verdict that changes

  const ANY_WAY: Way := Way(None, false)

  /** A reachable state with one worker, in which the verdict has changed over a crash. */
  lemma ChangedVerdictOverdraws()
    ensures Initial(START)
    ensures exists sys :: Shown(sys, ANY_WAY) && Overdrawn(sys.store)
  {
    Holding(ANY_WAY);
    var s := BankOf(RESERVED, HELD, map[TRANSFER := HOLD], map[]);
    PickUp(s, HELD, FLOWS, ANY_WAY);
    Calling(s, Begin(HELD), FLOWS, Broken(AccountNotFound), ANY_WAY);
    var u := FailWith(HELD, AccountMissing, 0, 0);
    assert Work(s, Begin(HELD), Broken(AccountNotFound), 0) == (s, ReleaseThenFail(HELD, u), false);
    Stranding(HELD, u, Approve, ANY_WAY);
    Withdrawing(HELD, ANY_WAY);
    Approving(HELD, ANY_WAY);
    PostingOverdraws(HELD, ANY_WAY);
  }

  // ---- a verdict that does not

  const APPROVED_WAY: Way := Way(Some(Approve), false)

  /** The transfer on hold after `n` failed attempts to record the decision. */
  function Tried(n: nat): Transfer {
    HELD.(attempts := n, nextAttemptAt := if n == 0 then 0 else Backoff(n, false))
  }

  lemma Attempting(n: nat)
    requires n <= 4
    requires Shown(With(BankOf(RESERVED, Tried(n), map[TRANSFER := HOLD], map[]), Done, FLOWS), APPROVED_WAY)
    ensures Shown(With(BankOf(RESERVED, Tried(n), map[TRANSFER := HOLD], map[]), Saga.Retry(Tried(n), false, 0), FLOWS),
                  APPROVED_WAY)
  {
    var s := BankOf(RESERVED, Tried(n), map[TRANSFER := HOLD], map[]);
    PickUp(s, Tried(n), FLOWS, APPROVED_WAY);
    Calling(s, Begin(Tried(n)), FLOWS, Approve, APPROVED_WAY);
    Losing(s, Record(Tried(n), true), FLOWS, APPROVED_WAY);
  }

  lemma {:induction false} Trying(n: nat)
    requires n <= 4
    ensures Shown(With(BankOf(RESERVED, Tried(n), map[TRANSFER := HOLD], map[]), Done, FLOWS), APPROVED_WAY)
  {
    if n == 0 {
      Holding(APPROVED_WAY);
    } else {
      Trying(n - 1);
      Attempting(n - 1);
      var s := BankOf(RESERVED, Tried(n - 1), map[TRANSFER := HOLD], map[]);
      var pc := Saga.Retry(Tried(n - 1), false, 0);
      Calling(s, pc, FLOWS, Approve, APPROVED_WAY);
      assert Work(s, pc, Approve, 0).0 == BankOf(RESERVED, Tried(n), map[TRANSFER := HOLD], map[]);
    }
  }

  /**
    The same with one verdict all the time: five times the decision could not be recorded, the funds are given back, and
    the update that fails the record is lost.
   */
  lemma LostUpdateOverdraws()
    ensures Initial(START)
    ensures exists sys :: Shown(sys, APPROVED_WAY) && Overdrawn(sys.store)
  {
    Trying(4);
    Attempting(4);
    Stranding(Tried(4), FailWith(Tried(4), RetryExhausted, MAX_ATTEMPTS, 0), Approve, APPROVED_WAY);
    Withdrawing(Tried(4), APPROVED_WAY);
    Approving(Tried(4), APPROVED_WAY);
    PostingOverdraws(Tried(4), APPROVED_WAY);
  }

  // ---- nothing fails, nobody dies

  const REFUSED_WAY: Way := Way(Some(Broken(AccountNotFound)), true)
  const FAILING: Pc := ReleaseThenFail(HELD, FailWith(HELD, AccountMissing, 0, 0))

  /** The compliance checker has failed for good, and the release on the way to the failed record comes next. */
  lemma AboutToRelease()
    ensures Shown(With(BankOf(RESERVED, HELD, map[TRANSFER := HOLD], map[]), FAILING, FLOWS), REFUSED_WAY)
  {
    Holding(REFUSED_WAY);
    var s := BankOf(RESERVED, HELD, map[TRANSFER := HOLD], map[]);
    PickUp(s, HELD, FLOWS, REFUSED_WAY);
    Calling(s, Begin(HELD), FLOWS, Broken(AccountNotFound), REFUSED_WAY);
  }
}
