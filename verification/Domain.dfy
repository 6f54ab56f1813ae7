/** The entities of the bank as values: account events, transfers, holds, adjustments, snapshots. */
module Domain {

  /** Ids are only ever compared, so a number stands for each; `NO_ID` is the empty string. */
  type Id = int

  const NO_ID: Id := 0

  /** Minor units. The source uses int64; module Overflow shows when the width does not matter. */
  type Money = int

  const MAX_INT64: int := 0x7fff_ffff_ffff_ffff
  const TWO_63: int := MAX_INT64 + 1

  predicate Int64(x: int) { -TWO_63 <= x < TWO_63 }

  /** What int64 arithmetic leaves of an integer: its value modulo 2^64, in two's complement. */
  function Wrap(x: int): (r: int)
    ensures Int64(r) && (Int64(x) ==> r == x)
  {
    (x + TWO_63) % (2 * TWO_63) - TWO_63
  }

  datatype Option<+T> = None | Some(value: T)

  datatype Result<+T> = Ok(value: T) | Err(error: Error)

  datatype Error =
    | AccountNotFound
    | InsufficientFunds
    | InvalidAmount
    | IdempotencyKeyRequired
    | IdempotencyConflict
    | TransferNotFound
    | ConcurrencyConflict
    | NoSnapshot
    | InvalidAdjustment
    | AdjustmentNotFound
    | AdjustmentReviewed
    | SelfApproval
    | AlreadyReversed
    | ApplicationNotFound
    | ApplicationReviewed
    | Unavailable

  // ---- account events

  datatype Purpose = Customer | FeeCharge | TransferLeg | Correction | ReversalEntry

  datatype Reference =
    | NoReference
    | OfTransfer(transfer: Id)
    | OfEvent(account: Id, sequence: int)

  datatype Event =
    | AccountOpened(aggregate: Id, version: int, initialBalance: Money)
    | MoneyDebited(aggregate: Id, version: int, amount: Money, transferId: Option<Id>, purpose: Purpose,
                   counterparty: Id, adjustmentId: Option<Id>, reference: Reference)
    | MoneyCredited(aggregate: Id, version: int, amount: Money, transferId: Option<Id>, purpose: Purpose,
                    counterparty: Id, adjustmentId: Option<Id>, reference: Reference)
    | FundsReserved(aggregate: Id, version: int, amount: Money, transferId: Option<Id>)
    | ReservationCaptured(aggregate: Id, version: int, amount: Money, transferId: Option<Id>)
    | ReservationReleased(aggregate: Id, version: int, amount: Money, transferId: Option<Id>)

  // ---- transfers

  datatype SagaStep = Created | FundsHeld | ComplianceApproved | LedgerPosted | Captured

  datatype TransferStatus = Pending | Completed | Failed

  datatype Decision = Approved | Rejected

  datatype FailureCode = AccountMissing | FundsMissing | ComplianceRejected | RetryExhausted

  datatype Transfer = Transfer(
    id: Id, source: Id, destination: Id, key: string, amount: Money, fee: Money,
    status: TransferStatus, step: SagaStep, failure: Option<FailureCode>, compliance: Option<Decision>,
    attempts: int, nextAttemptAt: int, createdAt: int, initialBalance: Money, finalBalance: Money)

  datatype SagaUpdate = SagaUpdate(
    expected: SagaStep, step: SagaStep, status: TransferStatus, failure: Option<FailureCode>,
    compliance: Option<Decision>, attempts: int, nextAttemptAt: int, initialBalance: Money, finalBalance: Money)

  datatype HoldState = OnHold | Taken | GivenBack

  datatype Hold = Hold(account: Id, amount: Money, state: HoldState)

  // ---- adjustments

  datatype AdjustmentKind = Manual | Reversal

  datatype AdjustmentStatus = Waiting | Accepted | Declined

  datatype Direction = Credit | Debit | Both

  datatype Adjustment = Adjustment(
    id: Id, kind: AdjustmentKind, status: AdjustmentStatus, account: Id, direction: Direction,
    amount: Money, fee: Money, counterparty: Id, originalTransfer: Option<Id>,
    originalAccount: Id, originalSequence: Option<int>, createdBy: Id, reviewedBy: Option<Id>)

  // ---- snapshots

  datatype Snapshot = Snapshot(aggregate: Id, balance: Money, reserved: Money, available: Money, asOf: int)
}
