/** In every reachable state, with any workers, each event says rightly what it was for and where it came from. */
module Origins {
  import opened Domain
  import opened Ledger
  import opened Saga
  import opened System
  import opened Bookkeeping
  import opened Adjustments
  import opened AnyWorkers
  import opened ReviewLaws
  import opened Trails

  // ---- what an event has to say

  /** Held, captured or released on the source of the transfer it names, by amount and fee. */
  ghost predicate OfHold(s: Store, a: Id, tag: Option<Id>, amount: Money) {
    match tag
    case None => false
    case Some(t) =>
      t in s.transfers && a == s.transfers[t].source && amount == s.transfers[t].amount + s.transfers[t].fee
  }

  /** What a credit or a debit says beside its amount. */
  datatype Story = Story(transfer: Option<Id>, purpose: Purpose, other: Id, request: Option<Id>, reference: Reference)

  /** A leg of the transfer `x`: fee and amount leave the source, the amount arrives, each naming the other account. */
  ghost predicate OfLeg(x: Transfer, a: Id, credit: bool, amount: Money, told: Story) {
    && told.request == None && told.reference == NoReference
    && if credit then
         a == x.destination && told.other == x.source && told.purpose == TransferLeg && amount == x.amount
       else
         && a == x.source && told.other == x.destination
         && ((told.purpose == TransferLeg && amount == x.amount) || (told.purpose == FeeCharge && amount == x.fee))
  }

  /** A booking of the accepted request `r`, which says what kind of request it was and what it refers to. */
  ghost predicate OfRequest(r: Adjustment, a: Id, credit: bool, amount: Money, told: Story) {
    && r.status == Accepted
    && (r.kind == Reversal ==> told.purpose == ReversalEntry) && (r.kind == Manual ==> told.purpose == Correction)
    && match r.originalTransfer
       case Some(t) =>
         && told.reference == OfTransfer(t)
         && (if credit then a == r.account && told.other == r.counterparty && amount == r.amount + r.fee
             else a == r.counterparty && told.other == r.account && amount == r.amount)
       case None =>
         && told.reference == (if r.originalSequence == None then NoReference
                               else OfEvent(r.originalAccount, r.originalSequence.value))
         && a == r.account && told.other == NO_ID && amount == r.amount
         && (credit <==> r.direction == Credit)
  }

  ghost predicate OfMoney(s: Store, a: Id, credit: bool, amount: Money, told: Story) {
    match told.transfer
    case Some(t) => t in s.transfers && OfLeg(s.transfers[t], a, credit, amount, told)
    case None =>
      match told.request
      case Some(j) => j in s.adjustments && OfRequest(s.adjustments[j], a, credit, amount, told)
      case None => told.purpose == Customer && told.other == NO_ID && told.reference == NoReference
  }

  ghost predicate Origin(s: Store, a: Id, i: int, e: Event) {
    match e
    case AccountOpened(_, _, _) => i == 0
    case MoneyCredited(_, _, amount, t, purpose, other, j, reference) =>
      OfMoney(s, a, true, amount, Story(t, purpose, other, j, reference))
    case MoneyDebited(_, _, amount, t, purpose, other, j, reference) =>
      OfMoney(s, a, false, amount, Story(t, purpose, other, j, reference))
    case FundsReserved(_, _, amount, t) => OfHold(s, a, t, amount)
    case ReservationCaptured(_, _, amount, t) => OfHold(s, a, t, amount)
    case ReservationReleased(_, _, amount, t) => OfHold(s, a, t, amount)
  }

  ghost predicate Traced(s: Store) {
    forall a, i {:trigger s.streams[a][i]} ::
      a in s.streams && 0 <= i < |s.streams[a]| ==> Origin(s, a, i, s.streams[a][i])
  }

  // ---- what is true of an event stays true of it

  lemma MoneyStays(s: Store, s': Store, a: Id, credit: bool, amount: Money, told: Story)
    requires Grows(s, s') && OfMoney(s, a, credit, amount, told)
    ensures OfMoney(s', a, credit, amount, told)
  {
    if told.transfer.Some? {
      assert told.transfer.value in s'.transfers;
    } else if told.request.Some? {
      assert told.request.value in s'.adjustments;
    }
  }

  lemma HoldStays(s: Store, s': Store, a: Id, t: Option<Id>, amount: Money)
    requires Grows(s, s') && OfHold(s, a, t, amount)
    ensures OfHold(s', a, t, amount)
  {
    match t {
      case Some(x) => assert x in s'.transfers;
    }
  }

  lemma OriginStays(s: Store, s': Store, a: Id, i: int, e: Event)
    requires Grows(s, s') && Origin(s, a, i, e)
    ensures Origin(s', a, i, e)
  {
    match e {
      case AccountOpened(_, _, _) =>
      case MoneyCredited(_, _, amount, t, purpose, other, j, reference) =>
        MoneyStays(s, s', a, true, amount, Story(t, purpose, other, j, reference));
      case MoneyDebited(_, _, amount, t, purpose, other, j, reference) =>
        MoneyStays(s, s', a, false, amount, Story(t, purpose, other, j, reference));
      case FundsReserved(_, _, amount, t) => HoldStays(s, s', a, t, amount);
      case ReservationCaptured(_, _, amount, t) => HoldStays(s, s', a, t, amount);
      case ReservationReleased(_, _, amount, t) => HoldStays(s, s', a, t, amount);
    }
  }

  /** What `s'` has more on account `a`. */
  ghost predicate NewTraced(s: Store, s': Store, a: Id)
    requires a in s'.streams
  {
    forall i {:trigger s'.streams[a][i]} ::
      |Stream(s, a)| <= i < |s'.streams[a]| ==> Origin(s', a, i, s'.streams[a][i])
  }

  lemma TracedStays(s: Store, s': Store)
    requires Traced(s) && Grows(s, s') && forall a :: a in s'.streams ==> NewTraced(s, s', a)
    ensures Traced(s')
  {
    forall a, i | a in s'.streams && 0 <= i < |s'.streams[a]|
      ensures Origin(s', a, i, s'.streams[a][i])
    {
      if i < |Stream(s, a)| {
        OriginStays(s, s', a, i, s.streams[a][i]);
        assert s.streams[a] <= s'.streams[a];
      } else {
        assert NewTraced(s, s', a);
      }
    }
  }

  lemma PushTraced(s: Store, s': Store, a: Id, e: Event)
    requires Traced(s) && Grows(s, s') && s'.streams == s.streams[a := Stream(s, a) + [e]]
    requires Origin(s', a, |Stream(s, a)|, e)
    ensures Traced(s')
  {
    TracedStays(s, s');
  }

  lemma SameStreamsTraced(s: Store, s': Store)
    requires Traced(s) && Grows(s, s') && s'.streams == s.streams
    ensures Traced(s')
  {
    TracedStays(s, s');
  }

  // ---- each step keeps it

  lemma ReserveTraced(s: Store, r: Transfer)
    requires Traced(s) && Known(s, r)
    ensures Traced(Reserve(s, r).0)
  {
    var s' := Reserve(s, r).0;
    ReserveGrows(s, r);
    if s' != s { PushTraced(s, s', r.source, HoldEvent(r, |Stream(s, r.source)|)); }
  }

  lemma FinishTraced(s: Store, t: Id, target: HoldState)
    requires Traced(s) && Ledgered(s) && target != OnHold
    ensures Traced(Finish(s, t, target).0)
  {
    var s' := Finish(s, t, target).0;
    FinishGrows(s, t, target);
    if s' != s {
      var h := s.reservations[t];
      assert HoldOk(s, t, h);
      PushTraced(s, s', h.account, EndEvent(h, t, |Stream(s, h.account)|, target));
    }
  }

  lemma PostTraced(s: Store, r: Transfer)
    requires Traced(s) && Known(s, r) && r.source != r.destination
    ensures Traced(Post(s, r).0)
  {
    var s' := Post(s, r).0;
    PostGrows(s, r);
    if s' != s {
      forall a | a in s'.streams
        ensures NewTraced(s, s', a)
      {
        LegsTraced(s, s', r, a);
      }
      TracedStays(s, s');
    }
  }

  lemma LegsTraced(s: Store, s': Store, r: Transfer, a: Id)
    requires Known(s, r) && s'.transfers == s.transfers && r.source != r.destination
    requires s'.streams == s.streams[r.source := Stream(s, r.source) + SourceLegs(r, |Stream(s, r.source)|)]
                                    [r.destination := Stream(s, r.destination)
                                                      + [CreditEvent(r, |Stream(s, r.destination)|)]]
    requires a in s'.streams
    ensures NewTraced(s, s', a)
  {
  }

  lemma BookedTraced(s: Store, s': Store, j: Id, r: Adjustment)
    requires Traced(s) && Grows(s, s') && s'.streams.Keys == s.streams.Keys && r.id == j
    requires j in s'.adjustments
    requires s'.adjustments[j] == r.(status := Accepted, reviewedBy := s'.adjustments[j].reviewedBy)
    requires r.originalTransfer.Some? ==> r.account != r.counterparty
    requires r.originalTransfer.None? ==> r.direction != Both
    requires forall a :: a in s.streams ==> s'.streams[a] == s.streams[a] + Bookings(s, r, a)
    ensures Traced(s')
  {
    forall a | a in s'.streams
      ensures NewTraced(s, s', a)
    {
      assert s'.streams[a] == s.streams[a] + Bookings(s, r, a);
    }
    TracedStays(s, s');
  }

  lemma ApproveTraced(s: Store, j: Id, admin: Id)
    requires Traced(s) && Ledgered(s) && Adjusted(s)
    ensures Traced(ApproveAdjustment(s, j, admin).0)
  {
    var (s', result) := ApproveAdjustment(s, j, admin);
    if result.Ok? {
      var r := s.adjustments[j];
      assert AdjustmentOk(s, j, r);
      if r.originalTransfer.Some? {
        assert TransferOk(s, r.originalTransfer.value, s.transfers[r.originalTransfer.value]);
      }
      ApproveGrows(s, j, admin);
      ApproveChanges(s, j, admin);
      BookedStreams(s, j);
      BookedTraced(s, s', j, r);
    }
  }

  lemma CallTraced(s: Store, pc: Pc)
    requires Traced(s) && Ledgered(s) && PcOk(s, pc)
    ensures Traced(Called(s, pc))
  {
    CallGrows(s, pc);
    match pc {
      case Begin(r) =>
        if r.step == Created {
          ReserveTraced(s, r);
        } else if r.step == ComplianceApproved {
          assert TransferOk(s, r.id, s.transfers[r.id]);
          PostTraced(s, r);
        } else if r.step == LedgerPosted {
          FinishTraced(s, r.id, Taken);
        }
      case ReleaseRejected(r) => FinishTraced(s, r.id, GivenBack);
      case ReleaseThenFail(r, _) => FinishTraced(s, r.id, GivenBack);
      case _ => SameStreamsTraced(s, Called(s, pc));
    }
  }

  /** The money that customers bring in and take out. */
  lemma MovementTraced(sys: Sys, act: Action)
    requires Traced(sys.store) && Enabled(sys, act) && Grows(sys.store, Step(sys, act).store)
    requires act.OpenAccount? || act.DepositAt? || act.WithdrawNow? || act.WithdrawAt?
    ensures Traced(Step(sys, act).store)
  {
    var s, s' := sys.store, Step(sys, act).store;
    if s' != s {
      match act {
        case OpenAccount(a, balance) =>
          assert [] + [AccountOpened(a, 0, balance)] == s'.streams[a];
          PushTraced(s, s', a, AccountOpened(a, 0, balance));
        case DepositAt(a, loaded, amount) => PushTraced(s, s', a, DepositEvent(a, |loaded|, amount));
        case WithdrawNow(a, amount) => PushTraced(s, s', a, Withdrawal(a, |Stream(s, a)|, amount));
        case WithdrawAt(a, loaded, amount) => PushTraced(s, s', a, Withdrawal(a, |loaded|, amount));
      }
    }
  }

  lemma QuietTraced(sys: Sys, act: Action)
    requires Traced(sys.store) && Enabled(sys, act) && Grows(sys.store, Step(sys, act).store)
    requires !act.OpenAccount? && !act.DepositAt? && !act.WithdrawNow? && !act.WithdrawAt?
    requires !act.AcceptAdjustment? && !act.CallStore?
    ensures Traced(Step(sys, act).store)
  {
    SameStreamsTraced(sys.store, Step(sys, act).store);
  }

  lemma TracedStep(sys: Sys, act: Action)
    requires Healthy(sys) && Traced(sys.store) && Enabled(sys, act)
    ensures Traced(Step(sys, act).store)
  {
    HealthyStep(sys, act);
    if act.AcceptAdjustment? {
      ApproveTraced(sys.store, act.j, act.admin);
    } else if act.CallStore? {
      assert WorkerOk(sys.store, sys.workers[act.w]);
      WorkCalls(sys.store, sys.workers[act.w].pc, act.answer, act.now);
      CallTraced(sys.store, sys.workers[act.w].pc);
    } else if act.OpenAccount? || act.DepositAt? || act.WithdrawNow? || act.WithdrawAt? {
      MovementTraced(sys, act);
    } else {
      QuietTraced(sys, act);
    }
  }

  lemma {:induction false} TracedRun(sys: Sys, acts: seq<Action>)
    requires Healthy(sys) && Traced(sys.store) && Possible(sys, acts)
    ensures Traced(After(sys, acts).store)
    decreases |acts|
  {
    if acts != [] {
      HealthyStep(sys, acts[0]);
      TracedStep(sys, acts[0]);
      TracedRun(Step(sys, acts[0]), acts[1..]);
    }
  }

  /**
    However the run went, every event that moves or holds money is a customer's own, or it names the transfer or the
    accepted request behind it, with its amount, its other account, its purpose and what it refers to.
   */
  lemma EventsTellTheirOrigin(sys: Sys, acts: seq<Action>, a: Id, i: int)
    requires Initial(sys) && Possible(sys, acts)
    requires 0 <= i < |Stream(After(sys, acts).store, a)|
    ensures Origin(After(sys, acts).store, a, i, Stream(After(sys, acts).store, a)[i])
  {
    HealthyStart(sys);
    TracedRun(sys, acts);
  }

  /** And so the test for a reversible event finds the deposits and withdrawals of customers, and nothing else. */
  lemma ReversibleIff(sys: Sys, acts: seq<Action>, a: Id, i: int)
    requires Initial(sys) && Possible(sys, acts)
    requires 0 <= i < |Stream(After(sys, acts).store, a)|
    ensures var e := Stream(After(sys, acts).store, a)[i];
            Reversible(e) <==>
              && (e.MoneyCredited? || e.MoneyDebited?)
              && e.purpose == Customer && e.transferId == None && e.adjustmentId == None
              && e.counterparty == NO_ID && e.reference == NoReference
  {
    EventsTellTheirOrigin(sys, acts, a, i);
  }

  /** No event ever books a request that has been rejected. */
  lemma RejectedNeverBooks(sys: Sys, acts: seq<Action>, more: seq<Action>, j: Id, a: Id, i: int)
    requires Initial(sys) && Possible(sys, acts) && Possible(After(sys, acts), more)
    requires j in After(sys, acts).store.adjustments && After(sys, acts).store.adjustments[j].status == Declined
    requires 0 <= i < |Stream(After(After(sys, acts), more).store, a)|
    ensures AdjustmentTag(Stream(After(After(sys, acts), more).store, a)[i]) != Some(j)
  {
    ReviewStands(sys, acts, more, j, NO_ID);
    OneAfterTheOther(sys, acts, more);
    EventsTellTheirOrigin(sys, acts + more, a, i);
    NotAcceptedNotBooked(After(After(sys, acts), more).store, a, i, j);
  }

  lemma NotAcceptedNotBooked(s: Store, a: Id, i: int, j: Id)
    requires 0 <= i < |Stream(s, a)| && Origin(s, a, i, Stream(s, a)[i])
    requires j in s.adjustments && s.adjustments[j].status != Accepted
    ensures AdjustmentTag(Stream(s, a)[i]) != Some(j)
  {
  }
}
