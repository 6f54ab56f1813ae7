/**
  Requests that name an original transfer without being bound to it.

  `AdjustmentService.Create` lets a manual request carry `original_transfer_id`, and with it a counterparty and a fee of
  the author's choice; `CreateAdjustment` does not look the transfer up, and `ApproveAdjustment` books it like a
  reversal. The documented manual request names no transfer, and the runs of System make no other. Here is what such a
  request does, and exactly when it does no harm.
 */
module ManualReversals {
  import opened Domain
  import opened Replay
  import opened Sums
  import opened Ledger
  import opened System
  import opened Text
  import opened Bookkeeping
  import opened Conservation
  import opened Solvency
  import opened ClientServices

  /** A waiting request that names a transfer, of either kind, on an account that exists. */
  ghost predicate Naming(s: Store, j: Id, t: Id) {
    && j in s.adjustments
    && var r := s.adjustments[j];
       r.id == j && r.status == Waiting && r.originalTransfer == Some(t) && r.account in s.streams && 1 <= r.amount
  }

  lemma PayerExists(s: Store, j: Id, t: Id, admin: Id)
    requires Naming(s, j, t) && ApproveAdjustment(s, j, admin).1.Ok?
    ensures var r := s.adjustments[j];
            && Payer(r) == Some(r.counterparty) && !CannotPay(s, r)
            && r.counterparty in s.streams && r.amount <= TallyOf(s, r.counterparty).Available()
            && ApproveAdjustment(s, j, admin).0 == Reviewed(Booked(s, r), j, r, Accepted, admin)
  {
    ApprovalOutcome(s, j, admin, s.adjustments[j]);
    PayerCovers(s, s.adjustments[j], s.adjustments[j].counterparty);
  }

  lemma PayerCovers(s: Store, r: Adjustment, payer: Id)
    requires Payer(r) == Some(payer) && !CannotPay(s, r) && 1 <= r.amount
    ensures payer in s.streams && r.amount <= TallyOf(s, payer).Available()
  {
    assert ReplayOf([]).Available() == 0;
  }

  /**
    Its approval adds its own fee to the total of all balances. The books of the bank still balance if and only if that
    is the fee kept for the transfer it names: nothing for an id that is no transfer, is not posted or is reversed.
   */
  lemma ApprovalConservesIff(s: Store, flows: Flows, j: Id, t: Id, admin: Id)
    requires Naming(s, j, t) && Conserved(s, flows) && ApproveAdjustment(s, j, admin).1.Ok?
    ensures var s', r := ApproveAdjustment(s, j, admin).0, s.adjustments[j];
            && Total(Balances(s'.streams)) == Total(Balances(s.streams)) + r.fee
            && (Conserved(s', flows) <==> r.fee == KeptFee(s, t))
  {
    PayerExists(s, j, t, admin);
    var s', r := ApproveAdjustment(s, j, admin).0, s.adjustments[j];
    var r' := s'.adjustments[j];
    BookedTotals(s, r);
    NamedFees(s, j, r', t);
    SameFees(s.(adjustments := s'.adjustments), s');
    assert Gains(s'.adjustments) == Gains(s.adjustments)[j := 0];
    TotalUpdate(Gains(s.adjustments), j, 0);
  }

  /** What the account of the request gains. */
  function AccountGain(r: Adjustment): Money {
    if r.account == r.counterparty then r.fee else r.amount + r.fee
  }

  /** The bank stays solvent if and only if what the account ends with covers what it has promised. */
  lemma ApprovalSolventIff(s: Store, j: Id, t: Id, admin: Id)
    requires Ledgered(s) && Solvent(s) && Naming(s, j, t) && ApproveAdjustment(s, j, admin).1.Ok?
    ensures var r := s.adjustments[j];
            Solvent(ApproveAdjustment(s, j, admin).0)
            <==> Promised(s, r.account) <= TallyOf(s, r.account).balance + AccountGain(r)
  {
    PayerExists(s, j, t, admin);
    var r := s.adjustments[j];
    var d := AdjustmentDebit(r, r.counterparty, |s.streams[r.counterparty]|, r.amount, r.account);
    var mid := Push(s, r.counterparty, d);
    DebitSolvent(s, r.counterparty, d);
    MoneyPushKeeps(s, r.counterparty, d);
    ReplayAppend(s.streams[r.counterparty], d);
    assert Promised(mid, r.account) == Promised(s, r.account);
    PushSolventIff(mid, r.account,
                   AdjustmentCredit(r, r.account, |mid.streams[r.account]|, r.amount + r.fee, r.counterparty));
    ReviewedSolvent(Booked(s, r), j, r, admin);
  }

  lemma ReviewedSolvent(s: Store, j: Id, r: Adjustment, admin: Id)
    ensures Solvent(Reviewed(s, j, r, Accepted, admin)) <==> Solvent(s)
  {
    var s' := Reviewed(s, j, r, Accepted, admin);
    if Solvent(s) { SameMoney(s, s'); }
    if Solvent(s') { SameMoney(s', s); }
  }

  // ---- at an input

  const A: Id := 1
  const B: Id := 2
  const REQUEST: Id := 3
  const AUTHOR: Id := 4
  const OTHER: Id := 5
  const NO_TRANSFER: Id := 6

  /** One unit of money in the bank, on account `B`. */
  function TwoAccounts(): Store {
    Open(Open(EMPTY, A, 0), B, 1)
  }

  function FeeDraft(fee: Money, reason: string): Draft {
    Draft("manual", "credit", reason, reason, A, 1, fee, B, Some(NO_TRANSFER), NO_ID, None, None)
  }

  function FeeRequest(fee: Money): Adjustment {
    Adjustment(REQUEST, Manual, Waiting, A, Credit, 1, fee, B, Some(NO_TRANSFER), NO_ID, None, AUTHOR, None)
  }

  /** An ASCII text without space around it, fit for a reason and for a case reference. */
  ghost predicate PlainReason(s: string) {
    Bare(s) && (forall i :: 0 <= i < |s| ==> s[i] < '\U{80}') && MIN_REASON <= |s| <= MAX_CASE
  }

  lemma FeeIsSubmitted(fee: Money, reason: string)
    requires PlainReason(reason)
    ensures Submitted(FeeDraft(fee, reason), REQUEST, AUTHOR) == Ok(FeeRequest(fee))
  {
    TrimSpaceBare("manual");
    TrimSpaceBare("credit");
    TrimSpaceBare(reason);
    Utf8LengthOf(reason);
  }

  lemma TwoAccountsTally()
    ensures Ledgered(TwoAccounts()) && Solvent(TwoAccounts()) && Conserved(TwoAccounts(), Flows(1, 0, 0))
    ensures TallyOf(TwoAccounts(), A) == Tally(0, 0) && TallyOf(TwoAccounts(), B) == Tally(1, 0)
  {
    OpenKeeps(EMPTY, A, 0);
    OpenKeeps(Open(EMPTY, A, 0), B, 1);
    OpenSolvent(EMPTY, A, 0);
    OpenSolvent(Open(EMPTY, A, 0), B, 1);
    assert Balances(EMPTY.streams) == map[] && Gains(EMPTY.adjustments) == map[] && FeesKept(EMPTY) == map[];
    OpenConserves(EMPTY, Flows(0, 0, 0), A, 0);
    OpenConserves(Open(EMPTY, A, 0), Flows(0, 0, 0), B, 1);
    ReplayAppend([], AccountOpened(A, 0, 0));
    ReplayAppend([], AccountOpened(B, 0, 1));
    assert [] + [AccountOpened(A, 0, 0)] == TwoAccounts().streams[A];
    assert [] + [AccountOpened(B, 0, 1)] == TwoAccounts().streams[B];
  }

  function Stored(fee: Money): Store {
    CreateAdjustment(TwoAccounts(), FeeRequest(fee)).0
  }

  lemma FeeIsTaken(fee: Money)
    ensures CreateAdjustment(TwoAccounts(), FeeRequest(fee)).1.Ok?
    ensures var s := Stored(fee);
            && s == TwoAccounts().(adjustments := TwoAccounts().adjustments[REQUEST := FeeRequest(fee)])
            && Naming(s, REQUEST, NO_TRANSFER)
  {
  }

  lemma FeeIsStored(fee: Money)
    ensures CreateAdjustment(TwoAccounts(), FeeRequest(fee)).1.Ok?
    ensures var s := Stored(fee);
            && Naming(s, REQUEST, NO_TRANSFER) && s.adjustments[REQUEST] == FeeRequest(fee)
            && s == TwoAccounts().(adjustments := s.adjustments)
            && Ledgered(s) && Solvent(s) && Conserved(s, Flows(1, 0, 0))
  {
    TwoAccountsTally();
    FeeIsTaken(fee);
    RequestKeepsMoney(TwoAccounts(), FeeRequest(fee), Stored(fee));
  }

  lemma RequestKeepsMoney(s: Store, r: Adjustment, s': Store)
    requires Ledgered(s) && Solvent(s) && Conserved(s, Flows(1, 0, 0)) && r.id !in s.adjustments && r.status == Waiting
    requires s' == s.(adjustments := s.adjustments[r.id := r])
    ensures Ledgered(s') && Solvent(s') && Conserved(s', Flows(1, 0, 0))
  {
    AdjustmentTableKeeps(s, r.id, r);
    SameMoney(s, s');
    TableConserves(s, Flows(1, 0, 0), r.id, r);
  }

  lemma FeeIsApproved(fee: Money)
    ensures ApproveAdjustment(Stored(fee), REQUEST, OTHER).1.Ok?
    ensures TallyOf(Stored(fee), A).balance == 0 && Promised(Stored(fee), A) == 0
  {
    var s := Stored(fee);
    FeeIsStored(fee);
    TwoAccountsTally();
    SameTally(TwoAccounts(), s, A);
    SameTally(TwoAccounts(), s, B);
    assert OpenHolds(s.reservations, s.postings, A) == map[];
    CanPay(s, FeeRequest(fee), B, Tally(1, 0));
    ApprovalOutcome(s, REQUEST, OTHER, FeeRequest(fee));
  }

  lemma SameTally(s: Store, s': Store, a: Id)
    requires s'.streams == s.streams
    ensures TallyOf(s', a) == TallyOf(s, a)
  {
  }

  lemma CanPay(s: Store, r: Adjustment, payer: Id, tally: Tally)
    requires Payer(r) == Some(payer) && TallyOf(s, payer) == tally && r.amount <= tally.Available()
    ensures !CannotPay(s, r)
  {
  }

  /**
    For every fee such a request is accepted, stored and approved. With any fee but zero the books do not balance any
    more, and with a fee below -1 the account is overdrawn.
   */
  lemma AnyFeeIsBooked(fee: Money, reason: string)
    requires PlainReason(reason)
    ensures Submitted(FeeDraft(fee, reason), REQUEST, AUTHOR) == Ok(FeeRequest(fee))
    ensures CreateAdjustment(TwoAccounts(), FeeRequest(fee)).1.Ok?
    ensures var (s', approved) := ApproveAdjustment(Stored(fee), REQUEST, OTHER);
            && approved.Ok?
            && Total(Balances(s'.streams)) == Total(Balances(Stored(fee).streams)) + fee
            && (Conserved(s', Flows(1, 0, 0)) <==> fee == 0)
            && (Solvent(s') <==> -1 <= fee)
  {
    FeeIsSubmitted(fee, reason);
    FeeIsStored(fee);
    FeeIsApproved(fee);
    ApprovalConservesIff(Stored(fee), Flows(1, 0, 0), REQUEST, NO_TRANSFER, OTHER);
    ApprovalSolventIff(Stored(fee), REQUEST, NO_TRANSFER, OTHER);
  }
}
