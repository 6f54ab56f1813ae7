/** `MemoryStore` as a value, and each of its methods as one atomic step on that value. */
module Ledger {
  import opened Domain
  import opened Replay

  datatype Store = Store(
    streams: map<Id, seq<Event>>,
    transfers: map<Id, Transfer>,
    reservations: map<Id, Hold>,
    postings: set<Id>,
    decisions: map<Id, Decision>,
    adjustments: map<Id, Adjustment>,
    snapshots: map<Id, Snapshot>)

  const EMPTY: Store := Store(map[], map[], map[], {}, map[], map[], map[])

  function Stream(s: Store, a: Id): seq<Event> {
    if a in s.streams then s.streams[a] else []
  }

  function TallyOf(s: Store, a: Id): Tally {
    ReplayOf(Stream(s, a))
  }

  function Push(s: Store, a: Id, e: Event): Store {
    s.(streams := s.streams[a := Stream(s, a) + [e]])
  }

  // ---- streams

  function Append(s: Store, e: Event, expected: int): (Store, Result<()>) {
    if |Stream(s, e.aggregate)| != expected then (s, Err(ConcurrencyConflict))
    else (Push(s, e.aggregate, e), Ok(()))
  }

  /** The stream half of `ApproveApplication`. */
  function Open(s: Store, a: Id, balance: Money): Store {
    s.(streams := s.streams[a := [AccountOpened(a, 0, balance)]])
  }

  function Withdrawal(a: Id, version: int, amount: Money): Event {
    MoneyDebited(a, version, amount, None, Customer, NO_ID, None, NoReference)
  }

  function DepositEvent(a: Id, version: int, amount: Money): Event {
    MoneyCredited(a, version, amount, None, Customer, NO_ID, None, NoReference)
  }

  function WithdrawAvailable(s: Store, a: Id, amount: Money): (Store, Result<(Tally, Tally)>) {
    var events := Stream(s, a);
    if events == [] then (s, Err(AccountNotFound))
    else
      var initial := ReplayOf(events);
      if initial.Available() < amount then (s, Err(InsufficientFunds))
      else
        var e := Withdrawal(a, |events|, amount);
        (Push(s, a, e), Ok((initial, ReplayOf(events + [e]))))
  }

  // ---- the saga's store calls

  function Due(r: Transfer): int { r.amount + r.fee }

  ghost predicate SameRequest(existing: Transfer, r: Transfer) {
    existing.source == r.source && existing.key == r.key
  }

  /** What one call may do, whichever order the scan visits the records in. */
  ghost predicate CreateTransferMay(s: Store, r: Transfer, s': Store, result: Result<(Transfer, bool)>) {
    if exists t :: t in s.transfers && SameRequest(s.transfers[t], r) then
      && s' == s
      && (exists t ::
            && t in s.transfers
            && SameRequest(s.transfers[t], r)
            && result == (if s.transfers[t].amount != r.amount || s.transfers[t].destination != r.destination
                          then Err(IdempotencyConflict) else Ok((s.transfers[t], false))))
    else
      s' == s.(transfers := s.transfers[r.id := r]) && result == Ok((r, true))
  }

  ghost function AddTransfer(s: Store, r: Transfer): Store {
    if exists t :: t in s.transfers && SameRequest(s.transfers[t], r) then s
    else s.(transfers := s.transfers[r.id := r])
  }

  function ApplyUpdate(r: Transfer, u: SagaUpdate): Transfer {
    r.(step := u.step, status := u.status, failure := u.failure,
       compliance := if u.compliance.Some? then u.compliance else r.compliance,
       attempts := u.attempts, nextAttemptAt := u.nextAttemptAt,
       initialBalance := if u.initialBalance != 0 then u.initialBalance else r.initialBalance,
       finalBalance := if u.finalBalance != 0 then u.finalBalance else r.finalBalance)
  }

  function UpdateTransferSaga(s: Store, id: Id, u: SagaUpdate): (Store, Result<bool>) {
    if id !in s.transfers then (s, Err(TransferNotFound))
    else
      var r := s.transfers[id];
      if r.status != Pending || r.step != u.expected then (s, Ok(false))
      else (s.(transfers := s.transfers[id := ApplyUpdate(r, u)]), Ok(true))
  }

  function HoldEvent(r: Transfer, version: int): Event {
    FundsReserved(r.source, version, Due(r), Some(r.id))
  }

  function Reserve(s: Store, r: Transfer): (Store, Result<Money>) {
    var src := Stream(s, r.source);
    if r.id in s.reservations then (s, Ok(ReplayOf(src).balance))
    else if src == [] || Stream(s, r.destination) == [] then (s, Err(AccountNotFound))
    else if ReplayOf(src).Available() < Due(r) then (s, Err(InsufficientFunds))
    else
      (Push(s, r.source, HoldEvent(r, |src|))
         .(reservations := s.reservations[r.id := Hold(r.source, Due(r), OnHold)]),
       Ok(ReplayOf(src).balance))
  }

  function Decide(s: Store, id: Id, d: Decision): (Store, Result<()>) {
    if id in s.decisions && s.decisions[id] != d then (s, Err(IdempotencyConflict))
    else (s.(decisions := s.decisions[id := d]), Ok(()))
  }

  function FeeEvent(r: Transfer, version: int): Event {
    MoneyDebited(r.source, version, r.fee, Some(r.id), FeeCharge, r.destination, None, NoReference)
  }

  function DebitEvent(r: Transfer, version: int): Event {
    MoneyDebited(r.source, version, r.amount, Some(r.id), TransferLeg, r.destination, None, NoReference)
  }

  function CreditEvent(r: Transfer, version: int): Event {
    MoneyCredited(r.destination, version, r.amount, Some(r.id), TransferLeg, r.source, None, NoReference)
  }

  function SourceLegs(r: Transfer, n: int): seq<Event> {
    if r.fee > 0 then [FeeEvent(r, n), DebitEvent(r, n + 1)] else [DebitEvent(r, n)]
  }

  function Post(s: Store, r: Transfer): (Store, Result<Money>) {
    var src, dst := Stream(s, r.source), Stream(s, r.destination);
    if r.id in s.postings then (s, Ok(ReplayOf(src).balance))
    else if src == [] || dst == [] then (s, Err(AccountNotFound))
    else
      var src' := src + SourceLegs(r, |src|);
      (s.(streams := s.streams[r.source := src'][r.destination := dst + [CreditEvent(r, |dst|)]],
          postings := s.postings + {r.id}),
       Ok(ReplayOf(src').balance))
  }

  function EndEvent(h: Hold, t: Id, version: int, target: HoldState): Event {
    if target == Taken then ReservationCaptured(h.account, version, h.amount, Some(t))
    else ReservationReleased(h.account, version, h.amount, Some(t))
  }

  /** `finishReservation`: `target` is `Taken` for a capture and `GivenBack` for a release. */
  function Finish(s: Store, t: Id, target: HoldState): (Store, Result<()>) {
    if t !in s.reservations || s.reservations[t].state == target then (s, Ok(()))
    else if s.reservations[t].state != OnHold then (s, Err(IdempotencyConflict))
    else
      var h := s.reservations[t];
      (Push(s, h.account, EndEvent(h, t, |Stream(s, h.account)|, target))
         .(reservations := s.reservations[t := h.(state := target)]),
       Ok(()))
  }

  // ---- adjustments

  predicate ActiveTransferReversal(a: Adjustment, t: Option<Id>) {
    a.originalTransfer == t && a.status != Declined
  }

  predicate ActiveEventReversal(a: Adjustment, account: Id, sequence: Option<int>) {
    a.originalAccount == account && a.originalSequence.Some? && a.originalSequence == sequence && a.status != Declined
  }

  /** A customer's own deposit or withdrawal: not a transfer leg, a fee or an earlier adjustment. */
  predicate Reversible(e: Event) {
    (e.MoneyCredited? || e.MoneyDebited?) && e.transferId.None? && e.purpose != FeeCharge && e.adjustmentId.None?
  }

  /** The stored form of a request, or why it is refused. */
  function Normalise(s: Store, r: Adjustment): Result<Adjustment> {
    if r.kind == Manual then
      if Stream(s, r.account) == [] then Err(AccountNotFound) else Ok(r)
    else if r.originalTransfer.Some? then
      var t := r.originalTransfer.value;
      if t !in s.transfers || s.transfers[t].status != Completed then Err(TransferNotFound)
      else if exists j :: j in s.adjustments && ActiveTransferReversal(s.adjustments[j], r.originalTransfer)
      then Err(AlreadyReversed)
      else
        var x := s.transfers[t];
        Ok(r.(account := x.source, counterparty := x.destination, amount := x.amount, fee := x.fee, direction := Both))
    else
      var events := Stream(s, r.originalAccount);
      if r.originalSequence.None? || !(0 <= r.originalSequence.value < |events|) then Err(InvalidAdjustment)
      else if exists j :: j in s.adjustments
                          && ActiveEventReversal(s.adjustments[j], r.originalAccount, r.originalSequence)
      then Err(AlreadyReversed)
      else
        var e := events[r.originalSequence.value];
        if !Reversible(e) then Err(InvalidAdjustment)
        else Ok(r.(account := r.originalAccount, amount := e.amount,
                   direction := if e.MoneyCredited? then Debit else Credit))
  }

  function CreateAdjustment(s: Store, r: Adjustment): (Store, Result<Adjustment>) {
    var n := Normalise(s, r);
    if n.Err? then (s, n) else (s.(adjustments := s.adjustments[r.id := n.value]), n)
  }

  function ReferenceOf(r: Adjustment): Reference {
    if r.originalTransfer.Some? then OfTransfer(r.originalTransfer.value)
    else if r.originalSequence.Some? then OfEvent(r.originalAccount, r.originalSequence.value)
    else NoReference
  }

  function AdjustmentPurpose(r: Adjustment): Purpose {
    if r.kind == Reversal then ReversalEntry else Correction
  }

  function AdjustmentCredit(r: Adjustment, a: Id, version: int, amount: Money, other: Id): Event {
    MoneyCredited(a, version, amount, None, AdjustmentPurpose(r), other, Some(r.id), ReferenceOf(r))
  }

  function AdjustmentDebit(r: Adjustment, a: Id, version: int, amount: Money, other: Id): Event {
    MoneyDebited(a, version, amount, None, AdjustmentPurpose(r), other, Some(r.id), ReferenceOf(r))
  }

  function CreditBy(s: Store, r: Adjustment, a: Id, amount: Money, other: Id): Store {
    Push(s, a, AdjustmentCredit(r, a, |Stream(s, a)|, amount, other))
  }

  function DebitBy(s: Store, r: Adjustment, a: Id, amount: Money, other: Id): Store {
    Push(s, a, AdjustmentDebit(r, a, |Stream(s, a)|, amount, other))
  }

  function Reviewed(s: Store, id: Id, r: Adjustment, status: AdjustmentStatus, admin: Id): Store {
    s.(adjustments := s.adjustments[id := r.(status := status, reviewedBy := Some(admin))])
  }

  /** The account whose money an approval takes, if any. */
  function Payer(r: Adjustment): Option<Id> {
    if r.originalTransfer.Some? then Some(r.counterparty)
    else if r.direction == Credit then None
    else Some(r.account)
  }

  predicate CannotPay(s: Store, r: Adjustment) {
    Payer(r).Some? && TallyOf(s, Payer(r).value).Available() < r.amount
  }

  function Booked(s: Store, r: Adjustment): (s': Store)
    ensures s' == s.(streams := s'.streams)
  {
    if r.originalTransfer.Some? then
      CreditBy(DebitBy(s, r, r.counterparty, r.amount, r.account), r, r.account, r.amount + r.fee, r.counterparty)
    else if r.direction == Credit then CreditBy(s, r, r.account, r.amount, NO_ID)
    else DebitBy(s, r, r.account, r.amount, NO_ID)
  }

  function Reviewable(s: Store, id: Id, admin: Id): Result<Adjustment> {
    if id !in s.adjustments then Err(AdjustmentNotFound)
    else if s.adjustments[id].status != Waiting then Err(AdjustmentReviewed)
    else if s.adjustments[id].createdBy == admin then Err(SelfApproval)
    else Ok(s.adjustments[id])
  }

  function ApproveAdjustment(s: Store, id: Id, admin: Id): (after: (Store, Result<()>))
    ensures after.0 == s.(streams := after.0.streams, adjustments := after.0.adjustments)
    ensures after.1.Err? ==> after.0 == s
  {
    var open := Reviewable(s, id, admin);
    if open.Err? then (s, Err(open.error))
    else
      var r := open.value;
      if CannotPay(s, r) then (s, Err(InsufficientFunds))
      else (Reviewed(Booked(s, r), id, r, Accepted, admin), Ok(()))
  }

  lemma ApprovalOutcome(s: Store, id: Id, admin: Id, r: Adjustment)
    requires Reviewable(s, id, admin) == Ok(r)
    ensures ApproveAdjustment(s, id, admin)
            == if CannotPay(s, r) then (s, Err(InsufficientFunds))
               else (Reviewed(Booked(s, r), id, r, Accepted, admin), Ok(()))
  {
  }

  lemma NotReviewable(s: Store, id: Id, admin: Id)
    requires Reviewable(s, id, admin).Err?
    ensures ApproveAdjustment(s, id, admin) == (s, Err(Reviewable(s, id, admin).error))
  {
  }

  lemma ApprovalBooks(s: Store, id: Id, admin: Id)
    requires ApproveAdjustment(s, id, admin).1.Ok?
    ensures id in s.adjustments
    ensures ApproveAdjustment(s, id, admin).0.streams == Booked(s, s.adjustments[id]).streams
  {
  }

  function RejectAdjustment(s: Store, id: Id, admin: Id): (Store, Result<()>) {
    var open := Reviewable(s, id, admin);
    if open.Err? then (s, Err(open.error)) else (Reviewed(s, id, open.value, Declined, admin), Ok(()))
  }

  // ---- snapshots

  function SaveSnapshot(s: Store, snap: Snapshot): Store {
    if snap.aggregate in s.snapshots && s.snapshots[snap.aggregate].asOf >= snap.asOf then s
    else s.(snapshots := s.snapshots[snap.aggregate := snap])
  }
}
