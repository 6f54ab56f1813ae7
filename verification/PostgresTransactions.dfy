/**
  The transactions of `eventstore/postgres_store.go`, against the atomic steps of the memory store.

  A transaction's reads may be out of date when it inserts; the primary key of the events table decides. Account locks
  are not used here at all: they only save transactions from colliding (module Locks).
 */
module PostgresTransactions {
  import opened Domain
  import opened Replay
  import opened Ledger
  import opened Adjustments
  import opened Postgres

  /** `rest` holds the tables other than the events; its own streams are not used. */
  datatype Pg = Pg(events: Table, rest: Store)

  datatype Outcome = Committed | NothingToDo | Refused(error: Error) | Collided

  function InsertRows(pg: Pg, a: Id, from: nat, es: seq<Event>, rest: Store): (Pg, Outcome) {
    var inserted := InsertAll(pg.events, a, from, es);
    if inserted.None? then (pg, Collided) else (pg.(events := inserted.value, rest := rest), Committed)
  }

  function Withdraw(pg: Pg, a: Id, amount: Money, loaded: seq<Event>): (Pg, Outcome) {
    if loaded == [] then (pg, Refused(AccountNotFound))
    else if ReplayOf(loaded).Available() < amount then (pg, Refused(InsufficientFunds))
    else InsertRows(pg, a, |loaded|, [Withdrawal(a, |loaded|, amount)], pg.rest)
  }

  function ReserveFunds(pg: Pg, r: Transfer, src: seq<Event>, dst: seq<Event>): (Pg, Outcome) {
    if r.id in pg.rest.reservations then (pg, NothingToDo)
    else if src == [] || dst == [] then (pg, Refused(AccountNotFound))
    else if ReplayOf(src).Available() < Due(r) then (pg, Refused(InsufficientFunds))
    else
      InsertRows(pg, r.source, |src|, [HoldEvent(r, |src|)],
                 pg.rest.(reservations := pg.rest.reservations[r.id := Hold(r.source, Due(r), OnHold)]))
  }

  /** Without a check that the accounts exist, which the memory store has: the hold proves that they do. */
  function PostLedger(pg: Pg, r: Transfer, src: seq<Event>, dst: seq<Event>): (Pg, Outcome) {
    if r.id in pg.rest.postings then (pg, NothingToDo)
    else
      var (pg', paid) := InsertRows(pg, r.source, |src|, SourceLegs(r, |src|), pg.rest);
      if paid != Committed then (pg, paid)
      else
        var (pg'', received) := InsertRows(pg', r.destination, |dst|, [CreditEvent(r, |dst|)],
                                           pg.rest.(postings := pg.rest.postings + {r.id}));
        if received != Committed then (pg, received) else (pg'', received)
  }

  function FinishHold(pg: Pg, t: Id, target: HoldState, loaded: seq<Event>): (Pg, Outcome) {
    if t !in pg.rest.reservations || pg.rest.reservations[t].state == target then (pg, NothingToDo)
    else
      var h := pg.rest.reservations[t];
      if h.state != OnHold then (pg, Refused(IdempotencyConflict))
      else
        InsertRows(pg, h.account, |loaded|, [EndEvent(h, t, |loaded|, target)],
                   pg.rest.(reservations := pg.rest.reservations[t := h.(state := target)]))
  }

  /** The record that the unique index on source and key points to. */
  ghost function Existing(transfers: map<Id, Transfer>, r: Transfer): Option<Transfer> {
    if t :| t in transfers && SameRequest(transfers[t], r) then Some(transfers[t]) else None
  }

  ghost function InsertTransfer(pg: Pg, r: Transfer): (Pg, Outcome) {
    var existing := Existing(pg.rest.transfers, r);
    if existing.None? then (pg.(rest := pg.rest.(transfers := pg.rest.transfers[r.id := r])), Committed)
    else if existing.value.amount != r.amount || existing.value.destination != r.destination
    then (pg, Refused(IdempotencyConflict))
    else (pg, NothingToDo)
  }

  /** The check that only the Postgres store repeats at an approval. */
  ghost predicate AlreadyApproved(adjustments: map<Id, Adjustment>, j: Id, r: Adjustment) {
    r.kind == Reversal &&
    exists i :: i in adjustments && i != j && adjustments[i].status == Accepted &&
                if r.originalTransfer.Some? then adjustments[i].originalTransfer == r.originalTransfer
                else adjustments[i].originalAccount == r.originalAccount
                     && adjustments[i].originalSequence == r.originalSequence
  }

  /** The payer's stream does not cover the amount. */
  predicate Poor(r: Adjustment, payer: seq<Event>) {
    Payer(r).Some? && ReplayOf(payer).Available() < r.amount
  }

  function CreditRow(pg: Pg, r: Adjustment, a: Id, amount: Money, other: Id, loaded: seq<Event>, rest: Store)
    : (Pg, Outcome)
  {
    InsertRows(pg, a, |loaded|, [AdjustmentCredit(r, a, |loaded|, amount, other)], rest)
  }

  function DebitRow(pg: Pg, r: Adjustment, a: Id, amount: Money, other: Id, loaded: seq<Event>, rest: Store)
    : (Pg, Outcome)
  {
    InsertRows(pg, a, |loaded|, [AdjustmentDebit(r, a, |loaded|, amount, other)], rest)
  }

  /** Debit and credit of a transfer reversal, both or none. */
  function ReverseRows(pg: Pg, r: Adjustment, first: seq<Event>, second: seq<Event>, rest: Store): (Pg, Outcome) {
    var (pg', paid) := DebitRow(pg, r, r.counterparty, r.amount, r.account, first, pg.rest);
    if paid != Committed then (pg, paid)
    else
      var (pg'', received) := CreditRow(pg', r, r.account, r.amount + r.fee, r.counterparty, second, rest);
      if received != Committed then (pg, received) else (pg'', received)
  }

  function BookRows(pg: Pg, r: Adjustment, first: seq<Event>, second: seq<Event>, rest: Store): (Pg, Outcome) {
    if r.originalTransfer.Some? then ReverseRows(pg, r, first, second, rest)
    else if r.direction == Credit then CreditRow(pg, r, r.account, r.amount, NO_ID, first, rest)
    else DebitRow(pg, r, r.account, r.amount, NO_ID, first, rest)
  }

  /** `first` is the stream that is booked on first, the payer's if there is one. */
  ghost function Approval(pg: Pg, j: Id, admin: Id, first: seq<Event>, second: seq<Event>): (Pg, Outcome) {
    var waiting := Reviewable(pg.rest, j, admin);
    if waiting.Err? then (pg, Refused(waiting.error))
    else
      var r := waiting.value;
      if AlreadyApproved(pg.rest.adjustments, j, r) then (pg, Refused(AlreadyReversed))
      else if Poor(r, first) then (pg, Refused(InsufficientFunds))
      else BookRows(pg, r, first, second, Reviewed(pg.rest, j, r, Accepted, admin))
  }

  /** `UPDATE … WHERE id, step and status`: a row that is not there is a row that was not affected. */
  function UpdateRow(pg: Pg, t: Id, u: SagaUpdate): (Pg, Result<bool>) {
    var rows := pg.rest.transfers;
    if t in rows && rows[t].step == u.expected && rows[t].status == Pending
    then (pg.(rest := pg.rest.(transfers := rows[t := ApplyUpdate(rows[t], u)])), Ok(true))
    else (pg, Ok(false))
  }

  function Deciding(pg: Pg, t: Id, d: Decision): (Pg, Outcome) {
    var (rest, result) := Decide(pg.rest, t, d);
    if result.Err? then (pg, Refused(result.error)) else (pg.(rest := rest), Committed)
  }

  function Rejection(pg: Pg, j: Id, admin: Id): (Pg, Outcome) {
    var (rest, result) := RejectAdjustment(pg.rest, j, admin);
    if result.Err? then (pg, Refused(result.error)) else (pg.(rest := rest), Committed)
  }

  ghost function Conflict(s: Store, r: Transfer): Option<Error> {
    var x := Existing(s.transfers, r);
    if x.Some? && (x.value.amount != r.amount || x.value.destination != r.destination) then Some(IdempotencyConflict)
    else None
  }

  function Why<T>(result: Result<T>): Option<Error> {
    if result.Err? then Some(result.error) else None
  }

  /** The tables stand for the store. */
  ghost predicate Simulates(pg: Pg, s: Store) {
    Represents(pg.events, s.streams) && s == pg.rest.(streams := s.streams)
  }

  lemma InsertRowsSimulates(pg: Pg, s: Store, a: Id, loaded: seq<Event>, es: seq<Event>, rest: Store)
    requires Simulates(pg, s) && loaded <= Stream(s, a) && es != []
    ensures var (pg', outcome) := InsertRows(pg, a, |loaded|, es, rest);
            && (outcome == Committed <==> loaded == Stream(s, a))
            && (outcome != Committed ==> pg' == pg && outcome == Collided)
            && (outcome == Committed ==> Simulates(pg', rest.(streams := s.streams[a := loaded + es])))
  {
    assert Rows(s.streams, a) == Stream(s, a);
    if |loaded| < |Stream(s, a)| {
      InsertAllBeforeTheEnd(pg.events, s.streams, a, |loaded|, es);
    } else {
      InsertAllAtTheEnd(pg.events, s.streams, a, es);
    }
  }

  /**
    A query that commits does to the tables what the atomic call does to the store, and is not refused there; any other
    outcome leaves the tables as they were; and a query that decided on the current streams never collides and is
    refused exactly when the atomic call is, with the same error.
   */
  ghost predicate Alike(pg: Pg, after: (Pg, Outcome), s: Store, s': Store, refusal: Option<Error>, current: bool) {
    var (pg', outcome) := after;
    && (outcome == Committed ==> Simulates(pg', s') && refusal == None)
    && (outcome != Committed ==> pg' == pg)
    && (outcome == NothingToDo ==> s' == s && refusal == None)
    && (current ==> outcome != Collided && refusal == (if outcome.Refused? then Some(outcome.error) else None))
  }

  lemma ReserveSimulates(pg: Pg, s: Store, r: Transfer, src: seq<Event>, dst: seq<Event>)
    requires Simulates(pg, s) && src <= Stream(s, r.source) && dst <= Stream(s, r.destination)
    ensures Alike(pg, ReserveFunds(pg, r, src, dst), s, Reserve(s, r).0, Why(Reserve(s, r).1),
                  src == Stream(s, r.source) && dst == Stream(s, r.destination))
  {
    var rest := pg.rest.(reservations := pg.rest.reservations[r.id := Hold(r.source, Due(r), OnHold)]);
    InsertRowsSimulates(pg, s, r.source, src, [HoldEvent(r, |src|)], rest);
  }

  lemma PostSimulates(pg: Pg, s: Store, r: Transfer, src: seq<Event>, dst: seq<Event>)
    requires Simulates(pg, s) && r.source != r.destination
    requires src <= Stream(s, r.source) && dst <= Stream(s, r.destination)
    requires r.id in s.postings || (src != [] && dst != [])
    ensures Alike(pg, PostLedger(pg, r, src, dst), s, Post(s, r).0, Why(Post(s, r).1),
                  src == Stream(s, r.source) && dst == Stream(s, r.destination))
  {
    InsertRowsSimulates(pg, s, r.source, src, SourceLegs(r, |src|), pg.rest);
    var (pg', paid) := InsertRows(pg, r.source, |src|, SourceLegs(r, |src|), pg.rest);
    if paid == Committed {
      var s' := s.(streams := s.streams[r.source := src + SourceLegs(r, |src|)]);
      assert Stream(s', r.destination) == Stream(s, r.destination);
      InsertRowsSimulates(pg', s', r.destination, dst, [CreditEvent(r, |dst|)],
                          pg.rest.(postings := pg.rest.postings + {r.id}));
    }
  }

  /**
    The Postgres store posts without looking whether the accounts exist, the memory store looks. On the current streams
    the two agree if and only if both accounts exist or the transfer is posted already; that the saga only posts where
    they exist is shown in PostgresBank.
   */
  lemma PostsAgreeIff(pg: Pg, s: Store, r: Transfer)
    requires Simulates(pg, s) && r.source != r.destination
    ensures Alike(pg, PostLedger(pg, r, Stream(s, r.source), Stream(s, r.destination)), s, Post(s, r).0,
                  Why(Post(s, r).1), true)
            <==> r.id in s.postings || (Stream(s, r.source) != [] && Stream(s, r.destination) != [])
  {
    var src, dst := Stream(s, r.source), Stream(s, r.destination);
    if r.id in s.postings || (src != [] && dst != []) {
      PostSimulates(pg, s, r, src, dst);
    } else {
      InsertRowsSimulates(pg, s, r.source, src, SourceLegs(r, |src|), pg.rest);
      var (pg', paid) := InsertRows(pg, r.source, |src|, SourceLegs(r, |src|), pg.rest);
      var s' := s.(streams := s.streams[r.source := src + SourceLegs(r, |src|)]);
      assert Stream(s', r.destination) == dst;
      InsertRowsSimulates(pg', s', r.destination, dst, [CreditEvent(r, |dst|)],
                          pg.rest.(postings := pg.rest.postings + {r.id}));
      assert PostLedger(pg, r, src, dst).1 == Committed && Why(Post(s, r).1) == Some(AccountNotFound);
    }
  }

  lemma FinishSimulates(pg: Pg, s: Store, t: Id, target: HoldState, loaded: seq<Event>)
    requires Simulates(pg, s)
    requires t in pg.rest.reservations ==> loaded <= Stream(s, pg.rest.reservations[t].account)
    ensures Alike(pg, FinishHold(pg, t, target, loaded), s, Finish(s, t, target).0, Why(Finish(s, t, target).1),
                  t in s.reservations ==> loaded == Stream(s, s.reservations[t].account))
  {
    if t in pg.rest.reservations {
      var h := pg.rest.reservations[t];
      InsertRowsSimulates(pg, s, h.account, loaded, [EndEvent(h, t, |loaded|, target)],
                          pg.rest.(reservations := pg.rest.reservations[t := h.(state := target)]));
    }
  }

  ghost predicate ApprovalIsCurrent(s: Store, j: Id, first: seq<Event>, second: seq<Event>) {
    j in s.adjustments ==>
      !AlreadyApproved(s.adjustments, j, s.adjustments[j]) && BookingCurrent(s, s.adjustments[j], first, second)
  }

  lemma WithdrawSimulates(pg: Pg, s: Store, a: Id, amount: Money, loaded: seq<Event>)
    requires Simulates(pg, s) && loaded <= Stream(s, a)
    ensures Alike(pg, Withdraw(pg, a, amount, loaded), s, WithdrawAvailable(s, a, amount).0,
                  Why(WithdrawAvailable(s, a, amount).1), loaded == Stream(s, a))
  {
    InsertRowsSimulates(pg, s, a, loaded, [Withdrawal(a, |loaded|, amount)], pg.rest);
  }

  lemma OpenSimulates(pg: Pg, s: Store, a: Id, balance: Money)
    requires Simulates(pg, s) && Stream(s, a) == []
    ensures Alike(pg, InsertRows(pg, a, 0, [AccountOpened(a, 0, balance)], pg.rest), s, Open(s, a, balance), None, true)
  {
    InsertRowsSimulates(pg, s, a, [], [AccountOpened(a, 0, balance)], pg.rest);
  }

  lemma AppendSimulates(pg: Pg, s: Store, e: Event, loaded: seq<Event>)
    requires Simulates(pg, s) && loaded <= Stream(s, e.aggregate)
    ensures var (events, result) := PostgresAppend(pg.events, e, |loaded|);
            Alike(pg, (pg.(events := events), if result.Ok? then Committed else Collided), s,
                  Append(s, e, |loaded|).0, Why(Append(s, e, |loaded|).1), loaded == Stream(s, e.aggregate))
  {
    AppendsAgreeIff(pg.events, s, e, |loaded|);
  }

  lemma TransferSimulates(pg: Pg, s: Store, r: Transfer)
    requires Simulates(pg, s)
    ensures Alike(pg, InsertTransfer(pg, r), s, AddTransfer(s, r), Conflict(s, r), true)
  {
  }

  /** Rows that go in exactly when they were decided on the current streams. */
  ghost predicate Inserts(pg: Pg, after: (Pg, Outcome), s': Store, current: bool) {
    && (after.1 == Committed <==> current)
    && (after.1 == Committed ==> Simulates(after.0, s'))
    && (after.1 != Committed ==> after == (pg, Collided))
  }

  lemma CreditRowSimulates(pg: Pg, s: Store, r: Adjustment, a: Id, amount: Money, other: Id, loaded: seq<Event>,
                           rest: Store)
    requires Simulates(pg, s) && loaded <= Stream(s, a)
    ensures Inserts(pg, CreditRow(pg, r, a, amount, other, loaded, rest),
                    rest.(streams := CreditBy(s, r, a, amount, other).streams), loaded == Stream(s, a))
  {
    InsertRowsSimulates(pg, s, a, loaded, [AdjustmentCredit(r, a, |loaded|, amount, other)], rest);
  }

  lemma DebitRowSimulates(pg: Pg, s: Store, r: Adjustment, a: Id, amount: Money, other: Id, loaded: seq<Event>,
                          rest: Store)
    requires Simulates(pg, s) && loaded <= Stream(s, a)
    ensures Inserts(pg, DebitRow(pg, r, a, amount, other, loaded, rest),
                    rest.(streams := DebitBy(s, r, a, amount, other).streams), loaded == Stream(s, a))
  {
    InsertRowsSimulates(pg, s, a, loaded, [AdjustmentDebit(r, a, |loaded|, amount, other)], rest);
  }

  ghost predicate BookingCurrent(s: Store, r: Adjustment, first: seq<Event>, second: seq<Event>) {
    if r.originalTransfer.Some? then first == Stream(s, r.counterparty) && second == Stream(s, r.account)
    else first == Stream(s, r.account)
  }

  ghost predicate BookingLoaded(s: Store, r: Adjustment, first: seq<Event>, second: seq<Event>) {
    if r.originalTransfer.Some?
    then first <= Stream(s, r.counterparty) && second <= Stream(s, r.account) && r.account != r.counterparty
    else first <= Stream(s, r.account)
  }

  lemma ReverseRowsSimulate(pg: Pg, s: Store, r: Adjustment, first: seq<Event>, second: seq<Event>, rest: Store)
    requires Simulates(pg, s) && r.originalTransfer.Some? && BookingLoaded(s, r, first, second)
    ensures Inserts(pg, ReverseRows(pg, r, first, second, rest), rest.(streams := Booked(s, r).streams),
                    BookingCurrent(s, r, first, second))
  {
    DebitRowSimulates(pg, s, r, r.counterparty, r.amount, r.account, first, pg.rest);
    var (pg', paid) := DebitRow(pg, r, r.counterparty, r.amount, r.account, first, pg.rest);
    if paid == Committed {
      var s' := DebitBy(s, r, r.counterparty, r.amount, r.account);
      assert s' == pg.rest.(streams := s'.streams) && Stream(s', r.account) == Stream(s, r.account);
      CreditRowSimulates(pg', s', r, r.account, r.amount + r.fee, r.counterparty, second, rest);
    }
  }

  lemma BookRowsSimulate(pg: Pg, s: Store, r: Adjustment, first: seq<Event>, second: seq<Event>, rest: Store)
    requires Simulates(pg, s) && BookingLoaded(s, r, first, second)
    ensures Inserts(pg, BookRows(pg, r, first, second, rest), rest.(streams := Booked(s, r).streams),
                    BookingCurrent(s, r, first, second))
  {
    if r.originalTransfer.Some? {
      ReverseRowsSimulate(pg, s, r, first, second, rest);
    } else if r.direction == Credit {
      CreditRowSimulates(pg, s, r, r.account, r.amount, NO_ID, first, rest);
    } else {
      DebitRowSimulates(pg, s, r, r.account, r.amount, NO_ID, first, rest);
    }
  }

  function PayerStream(s: Store, r: Adjustment): seq<Event> {
    if Payer(r).Some? then Stream(s, Payer(r).value) else []
  }

  lemma ApprovalIs(s: Store, j: Id, admin: Id, r: Adjustment)
    requires Reviewable(s, j, admin) == Ok(r)
    ensures ApproveAdjustment(s, j, admin)
            == if Poor(r, PayerStream(s, r)) then (s, Err(InsufficientFunds))
               else (Reviewed(Booked(s, r), j, r, Accepted, admin), Ok(()))
  {
  }

  lemma RefusedAlike(pg: Pg, e: Error, s: Store, s': Store, refusal: Option<Error>, current: bool)
    requires current ==> refusal == Some(e)
    ensures Alike(pg, (pg, Refused(e)), s, s', refusal, current)
  {
  }

  lemma InsertsAlike(pg: Pg, after: (Pg, Outcome), s: Store, s': Store, refusal: Option<Error>, current: bool)
    requires Inserts(pg, after, s', current) && (current ==> refusal == None)
    ensures Alike(pg, after, s, s', refusal, current)
  {
  }

  /** Whoever is booked on first pays, if anybody does. */
  lemma FirstPays(s: Store, r: Adjustment, first: seq<Event>, second: seq<Event>)
    requires BookingCurrent(s, r, first, second) && Payer(r).Some?
    ensures first == PayerStream(s, r)
  {
  }

  lemma SamePayer(r: Adjustment, x: seq<Event>, y: seq<Event>)
    requires x == y
    ensures Poor(r, x) == Poor(r, y)
  {
  }

  lemma NobodyPays(r: Adjustment, events: seq<Event>)
    requires Payer(r).None?
    ensures !Poor(r, events)
  {
  }

  lemma ApprovalSimulates(pg: Pg, s: Store, j: Id, admin: Id, first: seq<Event>, second: seq<Event>)
    requires Simulates(pg, s)
    requires j in s.adjustments ==> BookingLoaded(s, s.adjustments[j], first, second)
    ensures Alike(pg, Approval(pg, j, admin, first, second), s, ApproveAdjustment(s, j, admin).0,
                  Why(ApproveAdjustment(s, j, admin).1), ApprovalIsCurrent(s, j, first, second))
  {
    var waiting := Reviewable(s, j, admin);
    assert Reviewable(pg.rest, j, admin) == waiting;
    var atomic := ApproveAdjustment(s, j, admin);
    var current := ApprovalIsCurrent(s, j, first, second);
    if waiting.Err? {
      NotReviewable(s, j, admin);
      RefusedAlike(pg, waiting.error, s, atomic.0, Why(atomic.1), current);
    } else if AlreadyApproved(s.adjustments, j, waiting.value) {
      RefusedAlike(pg, AlreadyReversed, s, atomic.0, Why(atomic.1), current);
    } else {
      ReviewAlike(pg, s, j, admin, waiting.value, first, second);
    }
  }

  lemma ReviewAlike(pg: Pg, s: Store, j: Id, admin: Id, r: Adjustment, first: seq<Event>, second: seq<Event>)
    requires Simulates(pg, s) && Reviewable(s, j, admin) == Ok(r) && BookingLoaded(s, r, first, second)
    requires !AlreadyApproved(s.adjustments, j, r)
    ensures Alike(pg, Approval(pg, j, admin, first, second), s, ApproveAdjustment(s, j, admin).0,
                  Why(ApproveAdjustment(s, j, admin).1), BookingCurrent(s, r, first, second))
  {
    var poorThen, poorNow := ReviewCases(pg, s, j, admin, r, first, second);
    ReviewAlikeOnce(pg, s, j, admin, r, first, second, poorThen, poorNow);
  }

  lemma ReviewCases(pg: Pg, s: Store, j: Id, admin: Id, r: Adjustment, first: seq<Event>, second: seq<Event>)
    returns (poorThen: bool, poorNow: bool)
    requires Reviewable(s, j, admin) == Ok(r) == Reviewable(pg.rest, j, admin)
    requires !AlreadyApproved(pg.rest.adjustments, j, r)
    ensures BookingCurrent(s, r, first, second) ==> poorThen == poorNow
    ensures Approval(pg, j, admin, first, second)
            == if poorThen then (pg, Refused(InsufficientFunds))
               else BookRows(pg, r, first, second, Reviewed(pg.rest, j, r, Accepted, admin))
    ensures ApproveAdjustment(s, j, admin)
            == if poorNow then (s, Err(InsufficientFunds)) else (Reviewed(Booked(s, r), j, r, Accepted, admin), Ok(()))
  {
    poorThen, poorNow := Poor(r, first), Poor(r, PayerStream(s, r));
    SamePoor(s, r, first, second);
    ApprovalIs(s, j, admin, r);
    ApprovalUnfolds(pg, j, admin, r, first, second);
  }

  lemma ReviewAlikeOnce(pg: Pg, s: Store, j: Id, admin: Id, r: Adjustment, first: seq<Event>, second: seq<Event>,
                        poorThen: bool, poorNow: bool)
    requires Simulates(pg, s) && BookingLoaded(s, r, first, second)
    requires BookingCurrent(s, r, first, second) ==> poorThen == poorNow
    requires Approval(pg, j, admin, first, second)
             == if poorThen then (pg, Refused(InsufficientFunds))
                else BookRows(pg, r, first, second, Reviewed(pg.rest, j, r, Accepted, admin))
    requires ApproveAdjustment(s, j, admin)
             == if poorNow then (s, Err(InsufficientFunds)) else (Reviewed(Booked(s, r), j, r, Accepted, admin), Ok(()))
    ensures Alike(pg, Approval(pg, j, admin, first, second), s, ApproveAdjustment(s, j, admin).0,
                  Why(ApproveAdjustment(s, j, admin).1), BookingCurrent(s, r, first, second))
  {
    var rest := Reviewed(pg.rest, j, r, Accepted, admin);
    ReviewedBooked(pg, s, j, admin, r);
    PaidAlike(pg, s, r, first, second, rest, ApproveAdjustment(s, j, admin), poorThen, poorNow);
  }

  lemma ReviewedBooked(pg: Pg, s: Store, j: Id, admin: Id, r: Adjustment)
    requires s == pg.rest.(streams := s.streams)
    ensures Reviewed(Booked(s, r), j, r, Accepted, admin)
            == Reviewed(pg.rest, j, r, Accepted, admin).(streams := Booked(s, r).streams)
  {
  }

  lemma ApprovalUnfolds(pg: Pg, j: Id, admin: Id, r: Adjustment, first: seq<Event>, second: seq<Event>)
    requires Reviewable(pg.rest, j, admin) == Ok(r) && !AlreadyApproved(pg.rest.adjustments, j, r)
    ensures Approval(pg, j, admin, first, second)
            == if Poor(r, first) then (pg, Refused(InsufficientFunds))
               else BookRows(pg, r, first, second, Reviewed(pg.rest, j, r, Accepted, admin))
  {
  }

  lemma SamePoor(s: Store, r: Adjustment, first: seq<Event>, second: seq<Event>)
    ensures BookingCurrent(s, r, first, second) ==> Poor(r, first) == Poor(r, PayerStream(s, r))
  {
    if BookingCurrent(s, r, first, second) {
      if Payer(r).Some? {
        FirstPays(s, r, first, second);
        SamePayer(r, first, PayerStream(s, r));
      } else {
        NobodyPays(r, first);
        NobodyPays(r, PayerStream(s, r));
      }
    }
  }

  lemma PaidAlike(pg: Pg, s: Store, r: Adjustment, first: seq<Event>, second: seq<Event>, rest: Store,
                  atomic: (Store, Result<()>), poorThen: bool, poorNow: bool)
    requires Simulates(pg, s) && BookingLoaded(s, r, first, second)
    requires BookingCurrent(s, r, first, second) ==> poorThen == poorNow
    requires atomic == if poorNow then (s, Err(InsufficientFunds)) else (rest.(streams := Booked(s, r).streams), Ok(()))
    ensures Alike(pg, if poorThen then (pg, Refused(InsufficientFunds)) else BookRows(pg, r, first, second, rest), s,
                  atomic.0, Why(atomic.1), BookingCurrent(s, r, first, second))
  {
    var current := BookingCurrent(s, r, first, second);
    if poorThen {
      RefusedAlike(pg, InsufficientFunds, s, atomic.0, Why(atomic.1), current);
    } else {
      BookRowsSimulate(pg, s, r, first, second, rest);
      InsertsAlike(pg, BookRows(pg, r, first, second, rest), s, atomic.0, Why(atomic.1), current);
    }
  }

  /** With one standing reversal at most, the repeated check never refuses a reversal of a transfer. */
  lemma RepeatedCheckIsIdle(s: Store, j: Id)
    requires ReversedOnce(s.adjustments) && j in s.adjustments
    requires s.adjustments[j].status == Waiting && s.adjustments[j].originalTransfer.Some?
    ensures !AlreadyApproved(s.adjustments, j, s.adjustments[j])
  {
    forall i | i in s.adjustments && s.adjustments[i].status == Accepted
               && s.adjustments[i].originalTransfer == s.adjustments[j].originalTransfer
      ensures i == j
    {
      assert SameOriginal(s.adjustments[i], s.adjustments[j]);
    }
  }

  /** Both stores update alike, and answer alike if and only if the record exists. */
  lemma UpdatesAgreeIff(pg: Pg, s: Store, t: Id, u: SagaUpdate)
    requires Simulates(pg, s)
    ensures Simulates(UpdateRow(pg, t, u).0, UpdateTransferSaga(s, t, u).0)
    ensures UpdateRow(pg, t, u).1 == UpdateTransferSaga(s, t, u).1 <==> t in s.transfers
  {
  }

  lemma DecideSimulates(pg: Pg, s: Store, t: Id, d: Decision)
    requires Simulates(pg, s)
    ensures Alike(pg, Deciding(pg, t, d), s, Decide(s, t, d).0, Why(Decide(s, t, d).1), true)
  {
  }

  lemma RejectSimulates(pg: Pg, s: Store, j: Id, admin: Id)
    requires Simulates(pg, s)
    ensures Alike(pg, Rejection(pg, j, admin), s, RejectAdjustment(s, j, admin).0,
                  Why(RejectAdjustment(s, j, admin).1), true)
  {
  }

  // ---- requests

  /** The two partial unique indexes on the requests that are not rejected; they do not ask for the kind. */
  ghost predicate Indexed(adjustments: map<Id, Adjustment>, n: Adjustment) {
    exists i :: i in adjustments && adjustments[i].status != Declined && SameIndex(adjustments[i], n)
  }

  ghost predicate SameIndex(q: Adjustment, n: Adjustment) {
    || (n.originalTransfer.Some? && q.originalTransfer == n.originalTransfer)
    || (n.originalAccount != NO_ID && n.originalSequence.Some?
        && q.originalAccount == n.originalAccount && q.originalSequence == n.originalSequence)
  }

  /** The account whose events a request is checked against. */
  function Checked(r: Adjustment): Id {
    if r.kind == Manual then r.account else r.originalAccount
  }

  /** The request as it will be stored, going by the events that were loaded. */
  function Prepared(rest: Store, r: Adjustment, loaded: seq<Event>): Result<Adjustment> {
    if r.kind == Manual then
      if loaded == [] then Err(AccountNotFound) else Ok(r)
    else if r.originalTransfer.Some? then
      var t := r.originalTransfer.value;
      if t !in rest.transfers || rest.transfers[t].status != Completed then Err(TransferNotFound)
      else
        var x := rest.transfers[t];
        Ok(r.(account := x.source, counterparty := x.destination, amount := x.amount, fee := x.fee, direction := Both))
    else if r.originalSequence.None? || !(0 <= r.originalSequence.value < |loaded|) then Err(InvalidAdjustment)
    else
      var e := loaded[r.originalSequence.value];
      if !Reversible(e) then Err(InvalidAdjustment)
      else Ok(r.(account := r.originalAccount, amount := e.amount,
                 direction := if e.MoneyCredited? then Debit else Credit))
  }

  /** The reviewer column is not part of the insert. */
  function Unreviewed(r: Adjustment): Adjustment {
    r.(reviewedBy := None)
  }

  ghost function InsertRequest(pg: Pg, r: Adjustment, loaded: seq<Event>): (Pg, Outcome) {
    var n := Prepared(pg.rest, r, loaded);
    if n.Err? then (pg, Refused(n.error))
    else if Indexed(pg.rest.adjustments, n.value) then (pg, Refused(AlreadyReversed))
    else
      (pg.(rest := pg.rest.(adjustments := pg.rest.adjustments[r.id := Unreviewed(n.value)])), Committed)
  }

  /** A request that is inserted is one that the memory store accepts and stores alike. */
  lemma RequestSimulates(pg: Pg, s: Store, r: Adjustment, loaded: seq<Event>)
    requires Simulates(pg, s) && loaded <= Stream(s, Checked(r))
    requires r.kind == Reversal && r.originalTransfer.None? ==> r.originalAccount != NO_ID
    ensures var (pg', outcome) := InsertRequest(pg, r, loaded);
            && (outcome == Committed ==>
                  Simulates(pg', CreateAdjustment(s, Unreviewed(r)).0) && CreateAdjustment(s, Unreviewed(r)).1.Ok?)
            && (outcome != Committed ==> pg' == pg)
  {
    var n := Prepared(pg.rest, r, loaded);
    if n.Ok? && !Indexed(pg.rest.adjustments, n.value) {
      forall j | j in s.adjustments
        ensures r.kind == Reversal && r.originalTransfer.Some? ==>
                  !ActiveTransferReversal(s.adjustments[j], r.originalTransfer)
        ensures r.kind == Reversal && r.originalTransfer.None? ==>
                  !ActiveEventReversal(s.adjustments[j], r.originalAccount, r.originalSequence)
      {
        assert s.adjustments[j].status != Declined ==> !SameIndex(s.adjustments[j], n.value);
      }
      assert Normalise(s, Unreviewed(r)) == Ok(Unreviewed(n.value));
    }
  }

  lemma PreparedIsNormalised(pg: Pg, s: Store, r: Adjustment)
    requires Simulates(pg, s) && Normalise(s, r).Ok?
    ensures Prepared(pg.rest, r, Stream(s, Checked(r))) == Normalise(s, r)
  {
  }

  lemma NormalisedUnreviewed(s: Store, r: Adjustment)
    ensures Normalise(s, Unreviewed(r)).Ok? <==> Normalise(s, r).Ok?
  {
  }

  /**
    On the current events, the Postgres store takes the requests that the memory store takes, except exactly for those
    that one of its indexes, which do not ask for the kind, finds taken.
   */
  lemma RequestsAgreeIff(pg: Pg, s: Store, r: Adjustment)
    requires Simulates(pg, s)
    requires r.kind == Reversal && r.originalTransfer.None? ==> r.originalAccount != NO_ID
    ensures (InsertRequest(pg, r, Stream(s, Checked(r))).1 == Committed <==> CreateAdjustment(s, r).1.Ok?)
            <==> !(CreateAdjustment(s, r).1.Ok?
                   && exists i ::
                        && i in s.adjustments && s.adjustments[i].status != Declined
                        && (|| (r.originalTransfer.Some? && s.adjustments[i].originalTransfer == r.originalTransfer)
                            || (r.originalAccount != NO_ID && r.originalSequence.Some?
                                && s.adjustments[i].originalAccount == r.originalAccount
                                && s.adjustments[i].originalSequence == r.originalSequence)))
  {
    RequestSimulates(pg, s, r, Stream(s, Checked(r)));
    NormalisedUnreviewed(s, r);
    if Normalise(s, r).Ok? {
      PreparedIsNormalised(pg, s, r);
      assert Normalise(s, r).value.originalTransfer == r.originalTransfer;
    }
  }

  /** On the current events, the two stores agree on an approval exactly where the repeated check does not refuse it. */
  lemma ApprovalsAgreeIff(pg: Pg, s: Store, j: Id, admin: Id, first: seq<Event>, second: seq<Event>)
    requires Simulates(pg, s)
    requires j in s.adjustments ==>
               BookingLoaded(s, s.adjustments[j], first, second) && BookingCurrent(s, s.adjustments[j], first, second)
    ensures (Approval(pg, j, admin, first, second).1 == Committed <==> ApproveAdjustment(s, j, admin).1.Ok?)
            <==> !(ApproveAdjustment(s, j, admin).1.Ok? && s.adjustments[j].kind == Reversal
                   && var r := s.adjustments[j];
                      exists i ::
                        && i in s.adjustments && i != j && s.adjustments[i].status == Accepted
                        && (if r.originalTransfer.Some? then s.adjustments[i].originalTransfer == r.originalTransfer
                            else s.adjustments[i].originalAccount == r.originalAccount
                                 && s.adjustments[i].originalSequence == r.originalSequence))
  {
    ApprovalSimulates(pg, s, j, admin, first, second);
    var waiting := Reviewable(s, j, admin);
    if waiting.Err? {
      NotReviewable(s, j, admin);
    } else if AlreadyApproved(s.adjustments, j, waiting.value) {
      RepeatedCheckRefuses(pg, j, admin, first, second, waiting.value);
    } else {
      assert ApprovalIsCurrent(s, j, first, second);
    }
  }

  lemma RepeatedCheckRefuses(pg: Pg, j: Id, admin: Id, first: seq<Event>, second: seq<Event>, r: Adjustment)
    requires Reviewable(pg.rest, j, admin) == Ok(r) && AlreadyApproved(pg.rest.adjustments, j, r)
    ensures Approval(pg, j, admin, first, second) == (pg, Refused(AlreadyReversed))
  {
  }
}
