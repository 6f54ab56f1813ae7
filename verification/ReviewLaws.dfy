/** Requests and their reviews: what is taken, what a rejection and an approval leave, and that they are final. */
module ReviewLaws {
  import opened Domain
  import opened Replay
  import opened Ledger
  import opened System
  import opened AnyWorkers
  import opened StoreLaws

  // ---- requests

  lemma ManualIsTaken(s: Store, r: Adjustment)
    requires r.kind == Manual
    ensures CreateAdjustment(s, r) == if Stream(s, r.account) == [] then (s, Err(AccountNotFound))
                                      else (s.(adjustments := s.adjustments[r.id := r]), Ok(r))
  {
  }

  /** Some request other than `except` that has not been rejected names the transfer. */
  ghost predicate TransferIsNamed(s: Store, t: Id, except: Option<Id>) {
    exists j :: j in s.adjustments && except != Some(j) && s.adjustments[j].status != Declined
                && s.adjustments[j].originalTransfer == Some(t)
  }

  ghost predicate EventIsNamed(s: Store, a: Id, i: int, except: Option<Id>) {
    exists j :: j in s.adjustments && except != Some(j) && s.adjustments[j].status != Declined
                && s.adjustments[j].originalAccount == a && s.adjustments[j].originalSequence == Some(i)
  }

  lemma NamedTransfers(s: Store, t: Id)
    ensures TransferIsNamed(s, t, None)
            <==> exists j :: j in s.adjustments && ActiveTransferReversal(s.adjustments[j], Some(t))
  {
    if TransferIsNamed(s, t, None) {
      var j :| j in s.adjustments && s.adjustments[j].status != Declined
               && s.adjustments[j].originalTransfer == Some(t);
      assert ActiveTransferReversal(s.adjustments[j], Some(t));
    }
  }

  lemma NamedEvents(s: Store, a: Id, i: int)
    ensures EventIsNamed(s, a, i, None)
            <==> exists j :: j in s.adjustments && ActiveEventReversal(s.adjustments[j], a, Some(i))
  {
    if EventIsNamed(s, a, i, None) {
      var j :| j in s.adjustments && s.adjustments[j].status != Declined
               && s.adjustments[j].originalAccount == a && s.adjustments[j].originalSequence == Some(i);
      assert ActiveEventReversal(s.adjustments[j], a, Some(i));
    }
  }

  /**
    A completed transfer that no standing request names can be reversed; the request takes accounts, amount and fee from
    the transfer, and keeps the rest of what it says.
   */
  lemma TransferReversalIsTakenIff(s: Store, r: Adjustment, t: Id)
    requires r.kind == Reversal && r.originalTransfer == Some(t)
    ensures var (s', result) := CreateAdjustment(s, r);
            if t !in s.transfers || s.transfers[t].status != Completed then s' == s && result == Err(TransferNotFound)
            else if TransferIsNamed(s, t, None) then s' == s && result == Err(AlreadyReversed)
            else
              && result.Ok? && s' == s.(adjustments := s.adjustments[r.id := result.value])
              && var x, q := s.transfers[t], result.value;
                 && q.account == x.source && q.counterparty == x.destination && q.amount == x.amount && q.fee == x.fee
                 && q == r.(account := q.account, counterparty := q.counterparty, amount := q.amount, fee := q.fee,
                            direction := Both)
  {
    NamedTransfers(s, t);
  }

  /** A customer's own movement, by what the event says: no transfer, no fee, no adjustment. */
  predicate OwnMovement(e: Event) {
    || (e.MoneyCredited? && e.transferId == None && e.adjustmentId == None && e.purpose != FeeCharge)
    || (e.MoneyDebited? && e.transferId == None && e.adjustmentId == None && e.purpose != FeeCharge)
  }

  /** A customer's own movement that no standing request names can be reversed, by the opposite movement. */
  lemma EventReversalIsTakenIff(s: Store, r: Adjustment)
    requires r.kind == Reversal && r.originalTransfer == None
    ensures var (s', result) := CreateAdjustment(s, r);
            var events := Stream(s, r.originalAccount);
            if r.originalSequence.None? || !(0 <= r.originalSequence.value < |events|)
            then s' == s && result == Err(InvalidAdjustment)
            else
              var i := r.originalSequence.value;
              if EventIsNamed(s, r.originalAccount, i, None) then s' == s && result == Err(AlreadyReversed)
              else if !OwnMovement(events[i]) then s' == s && result == Err(InvalidAdjustment)
              else
                && result.Ok? && s' == s.(adjustments := s.adjustments[r.id := result.value])
                && var q := result.value;
                   && q.account == r.originalAccount && q.amount == events[i].amount
                   && (events[i].MoneyCredited? ==> q.direction == Debit)
                   && (events[i].MoneyDebited? ==> q.direction == Credit)
                   && q == r.(account := q.account, amount := q.amount, direction := q.direction)
  {
    if r.originalSequence.Some? { NamedEvents(s, r.originalAccount, r.originalSequence.value); }
  }

  // ---- rejections

  /** Why a review of `j` by `admin` is turned down, if it is: first the request, then its state, then its author. */
  function TurnedDown(s: Store, j: Id, admin: Id): Option<Error> {
    if j !in s.adjustments then Some(AdjustmentNotFound)
    else if s.adjustments[j].status != Waiting then Some(AdjustmentReviewed)
    else if s.adjustments[j].createdBy == admin then Some(SelfApproval)
    else None
  }

  /** A waiting request of somebody else is rejected, and nothing else changes. */
  lemma RejectsIff(s: Store, j: Id, admin: Id)
    ensures var (s', result) := RejectAdjustment(s, j, admin);
            match TurnedDown(s, j, admin)
            case Some(e) => s' == s && result == Err(e)
            case None =>
              && result == Ok(())
              && s' == s.(adjustments := s.adjustments[j := s'.adjustments[j]]) && j in s'.adjustments
              && s'.adjustments[j] == s.adjustments[j].(status := Declined, reviewedBy := Some(admin))
  {
  }

  /** A reviewed request is not reviewed again. */
  lemma ReviewedStays(s: Store, j: Id, admin: Id)
    requires j in s.adjustments && s.adjustments[j].status != Waiting
    ensures ApproveAdjustment(s, j, admin) == (s, Err(AdjustmentReviewed))
    ensures RejectAdjustment(s, j, admin) == (s, Err(AdjustmentReviewed))
  {
  }

  /** Whatever happens afterwards: a reviewed request keeps its verdict and its reviewer, and is not reviewed again. */
  lemma ReviewStands(sys: Sys, acts: seq<Action>, more: seq<Action>, j: Id, admin: Id)
    requires Initial(sys) && Possible(sys, acts) && Possible(After(sys, acts), more)
    requires j in After(sys, acts).store.adjustments && After(sys, acts).store.adjustments[j].status != Waiting
    ensures var s, s' := After(sys, acts).store, After(After(sys, acts), more).store;
            && j in s'.adjustments && s'.adjustments[j] == s.adjustments[j]
            && ApproveAdjustment(s', j, admin) == (s', Err(AdjustmentReviewed))
            && RejectAdjustment(s', j, admin) == (s', Err(AdjustmentReviewed))
  {
    HealthyStart(sys);
    HealthyRun(sys, acts);
    GrowsRun(After(sys, acts), more);
    var s' := After(After(sys, acts), more).store;
    assert j in s'.adjustments;
    ReviewedStays(s', j, admin);
  }

  /** Once rejected, a request does not block another reversal of its transfer any more. */
  lemma RejectionFreesTransfer(s: Store, j: Id, admin: Id, t: Id, r: Adjustment)
    requires RejectAdjustment(s, j, admin).1.Ok? && s.adjustments[j].originalTransfer == Some(t)
    requires r.kind == Reversal && r.originalTransfer == Some(t)
    requires t in s.transfers && s.transfers[t].status == Completed
    ensures CreateAdjustment(s, r).1 == Err(AlreadyReversed)
    ensures CreateAdjustment(RejectAdjustment(s, j, admin).0, r).1.Ok? <==> !TransferIsNamed(s, t, Some(j))
  {
    var s' := RejectAdjustment(s, j, admin).0;
    RejectsIff(s, j, admin);
    TransferReversalIsTakenIff(s, r, t);
    TransferReversalIsTakenIff(s', r, t);
    assert s.adjustments[j].status != Declined && s.adjustments[j].originalTransfer == Some(t);
    forall i | i != j
      ensures i in s'.adjustments <==> i in s.adjustments
      ensures i in s.adjustments ==> s'.adjustments[i] == s.adjustments[i]
    {
    }
    if TransferIsNamed(s, t, Some(j)) {
      var i :| i in s.adjustments && i != j && s.adjustments[i].status != Declined
               && s.adjustments[i].originalTransfer == Some(t);
      assert i in s'.adjustments && s'.adjustments[i] == s.adjustments[i];
    }
  }

  /** Nor of its event. */
  lemma RejectionFreesEvent(s: Store, j: Id, admin: Id, a: Id, i: int, r: Adjustment)
    requires RejectAdjustment(s, j, admin).1.Ok?
    requires s.adjustments[j].originalAccount == a && s.adjustments[j].originalSequence == Some(i)
    requires r.kind == Reversal && r.originalTransfer == None
    requires r.originalAccount == a && r.originalSequence == Some(i)
    requires 0 <= i < |Stream(s, a)| && OwnMovement(Stream(s, a)[i])
    ensures CreateAdjustment(s, r).1 == Err(AlreadyReversed)
    ensures CreateAdjustment(RejectAdjustment(s, j, admin).0, r).1.Ok? <==> !EventIsNamed(s, a, i, Some(j))
  {
    var s' := RejectAdjustment(s, j, admin).0;
    RejectsIff(s, j, admin);
    EventReversalIsTakenIff(s, r);
    EventReversalIsTakenIff(s', r);
    assert s.adjustments[j].status != Declined && s.adjustments[j].originalAccount == a
           && s.adjustments[j].originalSequence == Some(i);
    forall k | k != j
      ensures k in s'.adjustments <==> k in s.adjustments
      ensures k in s.adjustments ==> s'.adjustments[k] == s.adjustments[k]
    {
    }
    if EventIsNamed(s, a, i, Some(j)) {
      var k :| k in s.adjustments && k != j && s.adjustments[k].status != Declined
               && s.adjustments[k].originalAccount == a && s.adjustments[k].originalSequence == Some(i);
      assert k in s'.adjustments && s'.adjustments[k] == s.adjustments[k];
    }
  }

  // ---- approvals

  /** What an approval would take from whom. */
  predicate CoveredBy(s: Store, r: Adjustment) {
    if r.originalTransfer.Some? then r.amount <= Balance(s, r.counterparty) - OnHoldOf(s, r.counterparty)
    else r.direction == Credit || r.amount <= Balance(s, r.account) - OnHoldOf(s, r.account)
  }

  lemma PayerPays(s: Store, r: Adjustment, payer: Id, t: Tally)
    requires Payer(r) == Some(payer) && TallyOf(s, payer) == t
    ensures CannotPay(s, r) == (t.balance - t.reserved < r.amount)
  {
  }

  lemma NobodyPays(s: Store, r: Adjustment)
    requires Payer(r) == None
    ensures !CannotPay(s, r)
  {
  }

  lemma CoveredIs(s: Store, r: Adjustment, payer: Id, t: Tally)
    requires Payer(r) == Some(payer) && TallyOf(s, payer) == t
    ensures CoveredBy(s, r) == (r.amount <= t.balance - t.reserved)
  {
  }

  lemma CoveredIsPaid(s: Store, r: Adjustment)
    ensures CoveredBy(s, r) == !CannotPay(s, r)
  {
    if Payer(r).Some? {
      PayerPays(s, r, Payer(r).value, TallyOf(s, Payer(r).value));
      CoveredIs(s, r, Payer(r).value, TallyOf(s, Payer(r).value));
    } else {
      NobodyPays(s, r);
    }
  }

  lemma ReviewableIff(s: Store, j: Id, admin: Id)
    ensures match TurnedDown(s, j, admin)
            case Some(e) => Reviewable(s, j, admin) == Err(e)
            case None => Reviewable(s, j, admin) == Ok(s.adjustments[j])
  {
  }

  /** The same request is approved if and only if whoever pays has the amount beyond what is on hold. */
  lemma ApprovesIff(s: Store, j: Id, admin: Id)
    ensures match TurnedDown(s, j, admin)
            case Some(e) => ApproveAdjustment(s, j, admin) == (s, Err(e))
            case None =>
              if !CoveredBy(s, s.adjustments[j]) then ApproveAdjustment(s, j, admin) == (s, Err(InsufficientFunds))
              else
                && ApproveAdjustment(s, j, admin).1 == Ok(())
                && ApproveAdjustment(s, j, admin).0.adjustments
                   == s.adjustments[j := s.adjustments[j].(status := Accepted, reviewedBy := Some(admin))]
  {
    ReviewableIff(s, j, admin);
    match TurnedDown(s, j, admin) {
      case Some(e) => NotReviewable(s, j, admin);
      case None =>
        var r := s.adjustments[j];
        CoveredIsPaid(s, r);
        GrantedIff(s, j, admin, r, CannotPay(s, r));
    }
  }

  lemma GrantedIff(s: Store, j: Id, admin: Id, r: Adjustment, poor: bool)
    requires Reviewable(s, j, admin) == Ok(r) && poor == CannotPay(s, r)
    ensures poor ==> ApproveAdjustment(s, j, admin) == (s, Err(InsufficientFunds))
    ensures !poor ==> ApproveAdjustment(s, j, admin) == (Reviewed(Booked(s, r), j, r, Accepted, admin), Ok(()))
  {
    ApprovalOutcome(s, j, admin, r);
  }

  // ---- what an approval moves

  lemma CreditMoves(s: Store, r: Adjustment, a: Id, amount: Money, other: Id)
    ensures var s' := CreditBy(s, r, a, amount, other);
            && OnlyStream(s, s', a) && TallyOf(s', a) == Tally(TallyOf(s, a).balance + amount, TallyOf(s, a).reserved)
  {
    ReplayAppend(Stream(s, a), AdjustmentCredit(r, a, |Stream(s, a)|, amount, other));
  }

  lemma DebitMoves(s: Store, r: Adjustment, a: Id, amount: Money, other: Id)
    ensures var s' := DebitBy(s, r, a, amount, other);
            && OnlyStream(s, s', a) && TallyOf(s', a) == Tally(TallyOf(s, a).balance - amount, TallyOf(s, a).reserved)
  {
    ReplayAppend(Stream(s, a), AdjustmentDebit(r, a, |Stream(s, a)|, amount, other));
  }

  /** An approved request without a transfer moves its amount on its account, in or out as its direction says. */
  lemma OneAccountMoves(s: Store, j: Id, admin: Id)
    requires ApproveAdjustment(s, j, admin).1.Ok? && j in s.adjustments && s.adjustments[j].originalTransfer == None
    ensures var s', r := ApproveAdjustment(s, j, admin).0, s.adjustments[j];
            && OnlyStream(s, s', r.account) && OnHoldOf(s', r.account) == OnHoldOf(s, r.account)
            && Balance(s', r.account) == Balance(s, r.account) + (if r.direction == Credit then r.amount else -r.amount)
  {
    var s', r := ApproveAdjustment(s, j, admin).0, s.adjustments[j];
    ApprovalBooks(s, j, admin);
    CreditMoves(s, r, r.account, r.amount, NO_ID);
    DebitMoves(s, r, r.account, r.amount, NO_ID);
    SameStreams(s, s', Booked(s, r), r);
  }

  lemma SameStreams(s: Store, s': Store, booked: Store, r: Adjustment)
    requires s'.streams == booked.streams && booked == Booked(s, r) && r.originalTransfer == None
    ensures OnlyStream(s, booked, r.account) ==> OnlyStream(s, s', r.account)
    ensures TallyOf(s', r.account) == TallyOf(booked, r.account)
    ensures booked == if r.direction == Credit then CreditBy(s, r, r.account, r.amount, NO_ID)
                      else DebitBy(s, r, r.account, r.amount, NO_ID)
  {
  }

  /** The bookings of a transfer reversal, account by account. */
  lemma ReversalBooks(s: Store, r: Adjustment)
    requires r.originalTransfer.Some? && r.account != r.counterparty
    ensures var s' := Booked(s, r);
            && (forall b :: b != r.account && b != r.counterparty ==> Stream(s', b) == Stream(s, b))
            && TallyOf(s', r.counterparty)
               == Tally(TallyOf(s, r.counterparty).balance - r.amount, TallyOf(s, r.counterparty).reserved)
            && TallyOf(s', r.account)
               == Tally(TallyOf(s, r.account).balance + r.amount + r.fee, TallyOf(s, r.account).reserved)
  {
    var paid := DebitBy(s, r, r.counterparty, r.amount, r.account);
    DebitMoves(s, r, r.counterparty, r.amount, r.account);
    CreditMoves(paid, r, r.account, r.amount + r.fee, r.counterparty);
    assert Stream(paid, r.account) == Stream(s, r.account);
    assert Stream(Booked(s, r), r.counterparty) == Stream(paid, r.counterparty);
  }

  lemma SameStore(s: Store, s': Store, a: Id)
    requires s'.streams == s.streams
    ensures Stream(s', a) == Stream(s, a) && TallyOf(s', a) == TallyOf(s, a)
  {
  }

  /** An approved reversal of a transfer takes the amount from the counterparty and gives it back with the fee. */
  lemma TwoAccountsMove(s: Store, j: Id, admin: Id, a: Id, r: Adjustment)
    requires ApproveAdjustment(s, j, admin).1.Ok? && j in s.adjustments && s.adjustments[j] == r
    requires r.originalTransfer.Some? && r.account != r.counterparty
    ensures var s' := ApproveAdjustment(s, j, admin).0;
            && TallyOf(s', a).reserved == TallyOf(s, a).reserved
            && TallyOf(s', a).balance
               == TallyOf(s, a).balance
                  + (if a == r.account then r.amount + r.fee else if a == r.counterparty then -r.amount else 0)
  {
    ApprovalBooks(s, j, admin);
    ReversalBooks(s, r);
    SameStore(Booked(s, r), ApproveAdjustment(s, j, admin).0, a);
    if a != r.account && a != r.counterparty { assert Stream(Booked(s, r), a) == Stream(s, a); }
  }
}
