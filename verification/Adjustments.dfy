/** Manual corrections and reversals: who may review, what is reversed how often, and what an approval books. */
module Adjustments {
  import opened Domain
  import opened Replay
  import opened Ledger
  import opened Saga
  import opened Trails
  import opened Bookkeeping

  // ---- the invariant

  /** The request reverses the event it names, by the opposite movement. */
  ghost predicate ReversesEvent(r: Adjustment, es: seq<Event>) {
    && r.originalAccount == r.account
    && r.originalSequence.Some? && 0 <= r.originalSequence.value < |es|
    && var e := es[r.originalSequence.value];
       Reversible(e) && r.amount == e.amount && r.direction == if e.MoneyCredited? then Debit else Credit
  }

  ghost predicate ReversesTransfer(r: Adjustment, x: Transfer) {
    && x.status == Completed && r.kind == Reversal && r.direction == Both
    && r.account == x.source && r.counterparty == x.destination && r.amount == x.amount && r.fee == x.fee
  }

  /** Reviewed by somebody else; what a request says about its reviewer before that is what its author wrote. */
  ghost predicate ReviewOk(r: Adjustment) {
    r.status != Waiting ==> r.reviewedBy.Some? && r.reviewedBy.value != r.createdBy
  }

  ghost predicate AdjustmentOk(s: Store, j: Id, r: Adjustment) {
    && r.id == j && ReviewOk(r) && r.account in s.streams && 0 <= r.amount
    && match r.originalTransfer
       case Some(t) => t in s.transfers && ReversesTransfer(r, s.transfers[t]) && r.counterparty in s.streams
       case None =>
         && r.direction != Both
         && (r.kind == Reversal ==> ReversesEvent(r, s.streams[r.account]))
         && (r.kind == Manual ==> r.amount >= 1)
  }

  /** What an adjustment has booked on account `a` so far. */
  function EntriesDue(r: Adjustment, a: Id): seq<Mark> {
    if r.status != Accepted then []
    else if r.originalTransfer.Some? then
      if a == r.account then [Received(r.amount + r.fee)]
      else if a == r.counterparty then [Paid(r.amount)]
      else []
    else if a != r.account then []
    else if r.direction == Credit then [Received(r.amount)]
    else [Paid(r.amount)]
  }

  ghost predicate EntriesAt(s: Store, j: Id, a: Id)
    requires j in s.adjustments && a in s.streams
  {
    Entries(s.streams[a], j) == EntriesDue(s.adjustments[j], a)
  }

  ghost predicate SameOriginal(r: Adjustment, q: Adjustment) {
    && r.status != Declined && q.status != Declined && r.originalTransfer == q.originalTransfer
    && (r.originalTransfer.Some? ||
        (r.kind == Reversal && q.kind == Reversal
         && r.originalAccount == q.originalAccount && r.originalSequence == q.originalSequence))
  }

  /** No transfer and no single event has two reversals that are not declined. */
  ghost predicate ReversedOnce(adjustments: map<Id, Adjustment>) {
    forall i, j {:trigger SameOriginal(adjustments[i], adjustments[j])} ::
      i in adjustments && j in adjustments && SameOriginal(adjustments[i], adjustments[j]) ==> i == j
  }

  ghost predicate Adjusted(s: Store) {
    && (forall j {:trigger AdjustmentOk(s, j, s.adjustments[j])} :: j in s.adjustments ==>
          AdjustmentOk(s, j, s.adjustments[j]))
    && (forall j, a {:trigger EntriesAt(s, j, a)} :: j in s.adjustments && a in s.streams ==> EntriesAt(s, j, a))
    && ReversedOnce(s.adjustments)
  }

  // ---- store calls that book no adjustment

  /** Streams grow, nothing new carries an adjustment's tag, and completed transfers stay as they are. */
  ghost predicate Quiet(s: Store, s': Store) {
    && s'.adjustments == s.adjustments
    && (forall a :: a in s.streams ==> a in s'.streams && s.streams[a] <= s'.streams[a])
    && (forall a, j :: a in s'.streams ==> Entries(s'.streams[a], j) == Entries(Stream(s, a), j))
    && (forall t :: t in s.transfers && s.transfers[t].status == Completed ==>
          t in s'.transfers && s'.transfers[t] == s.transfers[t])
  }

  lemma QuietKeeps(s: Store, s': Store)
    requires Adjusted(s) && Quiet(s, s')
    ensures Adjusted(s')
  {
    forall j | j in s'.adjustments
      ensures AdjustmentOk(s', j, s'.adjustments[j])
    {
      assert AdjustmentOk(s, j, s.adjustments[j]);
    }
    forall j, a | j in s'.adjustments && a in s'.streams
      ensures EntriesAt(s', j, a)
    {
      assert AdjustmentOk(s, j, s.adjustments[j]);
      if a in s.streams { assert EntriesAt(s, j, a); }
    }
  }

  lemma QuietPush(s: Store, a: Id, e: Event)
    requires a in s.streams && AdjustmentTag(e) == None
    ensures Quiet(s, Push(s, a, e))
  {
    forall b, j | b in Push(s, a, e).streams
      ensures Entries(Push(s, a, e).streams[b], j) == Entries(Stream(s, b), j)
    {
      EntriesAppend(s.streams[a], e, j);
    }
  }

  lemma QuietPost(s: Store, r: Transfer)
    requires r.source != r.destination
    ensures Quiet(s, Post(s, r).0)
  {
    var s' := Post(s, r).0;
    if s' == s { return; }
    var src, dst := s.streams[r.source], s.streams[r.destination];
    forall b, j | b in s'.streams
      ensures Entries(s'.streams[b], j) == Entries(Stream(s, b), j)
    {
      LegsHaveNoEntries(src, r, j);
      EntriesAppend(dst, CreditEvent(r, |dst|), j);
    }
  }

  lemma QuietOpen(s: Store, a: Id, balance: Money)
    requires a !in s.streams
    ensures Quiet(s, Open(s, a, balance))
  {
    forall b, j | b in Open(s, a, balance).streams
      ensures Entries(Open(s, a, balance).streams[b], j) == Entries(Stream(s, b), j)
    {
      if b == a { NoEntries([AccountOpened(a, 0, balance)], j); }
    }
  }

  /** Every store call of a saga worker is quiet. */
  lemma QuietCall(s: Store, pc: Pc)
    requires Ledgered(s)
    requires pc != Done ==> Known(s, pc.r)
    ensures Quiet(s, Called(s, pc))
  {
    match pc {
      case Done =>
      case Begin(r) =>
        if r.step == Created {
          QuietReserve(s, r);
        } else if r.step == ComplianceApproved {
          assert TransferOk(s, r.id, s.transfers[r.id]);
          QuietPost(s, r);
        } else if r.step == LedgerPosted {
          QuietFinish(s, r.id, Taken);
        }
      case Record(_, _) =>
      case ReleaseRejected(r) => QuietFinish(s, r.id, GivenBack);
      case ReleaseThenFail(r, _) => QuietFinish(s, r.id, GivenBack);
      case Update(_, _, _) =>
    }
  }

  lemma QuietReserve(s: Store, r: Transfer)
    ensures Quiet(s, Reserve(s, r).0)
  {
    if Reserve(s, r).0 != s {
      QuietPush(s, r.source, HoldEvent(r, |s.streams[r.source]|));
    }
  }

  lemma QuietFinish(s: Store, t: Id, target: HoldState)
    requires Ledgered(s)
    ensures Quiet(s, Finish(s, t, target).0)
  {
    if Finish(s, t, target).0 != s {
      var h := s.reservations[t];
      assert HoldOk(s, t, h);
      QuietPush(s, h.account, EndEvent(h, t, |s.streams[h.account]|, target));
    }
  }

  // ---- requests

  lemma RequestStored(s: Store, r: Adjustment)
    requires Ledgered(s) && Adjusted(s) && Normalise(s, r).Ok?
    requires r.status == Waiting && r.id !in s.adjustments
    requires r.kind == Manual ==> r.originalTransfer == None && r.direction != Both && r.amount >= 1
    ensures AdjustmentOk(s, r.id, Normalise(s, r).value)
    ensures forall j :: j in s.adjustments ==> !SameOriginal(s.adjustments[j], Normalise(s, r).value)
  {
    var n := Normalise(s, r).value;
    if r.originalTransfer.Some? {
      var t := r.originalTransfer.value;
      assert TransferOk(s, t, s.transfers[t]) && Touched(s, t);
      forall j | j in s.adjustments
        ensures !SameOriginal(s.adjustments[j], n)
      {
        assert !ActiveTransferReversal(s.adjustments[j], r.originalTransfer);
      }
    } else if r.kind == Reversal {
      var a := r.originalAccount;
      var i := r.originalSequence.value;
      assert StreamOk(s.transfers.Keys, s.adjustments.Keys, a, s.streams[a]);
      assert EventOk(s.transfers.Keys, s.adjustments.Keys, a, i, s.streams[a][i]);
      forall j | j in s.adjustments
        ensures !SameOriginal(s.adjustments[j], n)
      {
        assert !ActiveEventReversal(s.adjustments[j], a, r.originalSequence);
      }
    }
  }

  lemma RequestKeeps(s: Store, r: Adjustment)
    requires Ledgered(s) && Adjusted(s)
    requires r.status == Waiting && r.id !in s.adjustments
    requires r.kind == Manual ==> r.originalTransfer == None && r.direction != Both && r.amount >= 1
    ensures Ledgered(CreateAdjustment(s, r).0) && Adjusted(CreateAdjustment(s, r).0)
  {
    var s' := CreateAdjustment(s, r).0;
    if s' == s { return; }
    RequestStored(s, r);
    AdjustmentTableKeeps(s, r.id, Normalise(s, r).value);
    forall j | j in s'.adjustments
      ensures AdjustmentOk(s', j, s'.adjustments[j])
    {
      assert j != r.id ==> AdjustmentOk(s, j, s.adjustments[j]);
    }
    forall j, a | j in s'.adjustments && a in s'.streams
      ensures EntriesAt(s', j, a)
    {
      if j == r.id {
        assert StreamOk(s.transfers.Keys, s.adjustments.Keys, a, s.streams[a]);
        forall i | 0 <= i < |s.streams[a]|
          ensures AdjustmentTag(s.streams[a][i]) != Some(j)
        {
          assert EventOk(s.transfers.Keys, s.adjustments.Keys, a, i, s.streams[a][i]);
        }
        NoEntries(s.streams[a], j);
      } else {
        assert EntriesAt(s, j, a);
      }
    }
  }

  /**
    The invariant survives a request if and only if it is not a manual one that names an original transfer and is
    stored. Such a request is bound to nothing; see ManualReversals.
   */
  lemma RequestKeepsIff(s: Store, r: Adjustment)
    requires Ledgered(s) && Adjusted(s) && r.status == Waiting && r.id !in s.adjustments
    requires r.kind == Manual ==> r.direction != Both && r.amount >= 1
    ensures Ledgered(CreateAdjustment(s, r).0) && Adjusted(CreateAdjustment(s, r).0)
            <==> !(r.kind == Manual && r.originalTransfer.Some? && Stream(s, r.account) != [])
  {
    if r.kind == Manual && r.originalTransfer.Some? {
      if Stream(s, r.account) != [] {
        var s' := CreateAdjustment(s, r).0;
        assert s'.adjustments[r.id] == r && !AdjustmentOk(s', r.id, r);
      }
    } else {
      RequestKeeps(s, r);
    }
  }

  // ---- reviews

  lemma ReviewKeepsUnique(adjustments: map<Id, Adjustment>, j: Id, r: Adjustment)
    requires ReversedOnce(adjustments) && j in adjustments && adjustments[j].status == Waiting
    requires r == adjustments[j].(status := r.status, reviewedBy := r.reviewedBy)
    ensures ReversedOnce(adjustments[j := r])
  {
    var after := adjustments[j := r];
    forall i, k | i in after && k in after && SameOriginal(after[i], after[k])
      ensures i == k
    {
      assert SameOriginal(adjustments[i], adjustments[k]);
    }
  }

  lemma DeclineKeeps(s: Store, j: Id, admin: Id)
    requires Ledgered(s) && Adjusted(s)
    ensures Ledgered(RejectAdjustment(s, j, admin).0) && Adjusted(RejectAdjustment(s, j, admin).0)
  {
    var s' := RejectAdjustment(s, j, admin).0;
    if s' == s { return; }
    var r := s'.adjustments[j];
    assert AdjustmentOk(s, j, s.adjustments[j]);
    AdjustmentTableKeeps(s, j, r);
    ReviewKeepsUnique(s.adjustments, j, r);
    forall i | i in s'.adjustments
      ensures AdjustmentOk(s', i, s'.adjustments[i])
    {
      assert AdjustmentOk(s, i, s.adjustments[i]);
    }
    forall i, a | i in s'.adjustments && a in s'.streams
      ensures EntriesAt(s', i, a)
    {
      assert EntriesAt(s, i, a);
    }
  }

  /** The adjustment events that an approval of `r` appends to account `a`. */
  function Bookings(s: Store, r: Adjustment, a: Id): seq<Event> {
    var n := |Stream(s, a)|;
    if r.originalTransfer.Some? then
      if a == r.counterparty then [AdjustmentDebit(r, a, n, r.amount, r.account)]
      else if a == r.account then [AdjustmentCredit(r, a, n, r.amount + r.fee, r.counterparty)]
      else []
    else if a != r.account then []
    else if r.direction == Credit then [AdjustmentCredit(r, a, n, r.amount, NO_ID)]
    else [AdjustmentDebit(r, a, n, r.amount, NO_ID)]
  }

  lemma BookedStreams(s: Store, j: Id)
    requires Ledgered(s) && Adjusted(s) && j in s.adjustments
    ensures var r := s.adjustments[j];
            var s' := Booked(s, r);
            && s' == s.(streams := s'.streams)
            && s'.streams.Keys == s.streams.Keys
            && (forall a :: a in s.streams ==> s'.streams[a] == s.streams[a] + Bookings(s, r, a))
  {
    var r := s.adjustments[j];
    assert AdjustmentOk(s, j, r);
    if r.originalTransfer.Some? {
      assert TransferOk(s, r.originalTransfer.value, s.transfers[r.originalTransfer.value]);
    }
  }

  lemma CreditByKeeps(s: Store, r: Adjustment, a: Id, amount: Money, other: Id)
    requires Ledgered(s) && a in s.streams && r.id in s.adjustments && 0 <= amount
    ensures Ledgered(CreditBy(s, r, a, amount, other))
  {
    assert StreamOk(s.transfers.Keys, s.adjustments.Keys, a, s.streams[a]);
    MoneyPushKeeps(s, a, AdjustmentCredit(r, a, |s.streams[a]|, amount, other));
  }

  lemma DebitByKeeps(s: Store, r: Adjustment, a: Id, amount: Money, other: Id)
    requires Ledgered(s) && a in s.streams && r.id in s.adjustments && 0 <= amount
    ensures Ledgered(DebitBy(s, r, a, amount, other))
  {
    assert StreamOk(s.transfers.Keys, s.adjustments.Keys, a, s.streams[a]);
    MoneyPushKeeps(s, a, AdjustmentDebit(r, a, |s.streams[a]|, amount, other));
  }

  lemma BookedKeepsLedger(s: Store, r: Adjustment)
    requires Ledgered(s) && r.id in s.adjustments && r.account in s.streams && 0 <= r.amount
    requires r.originalTransfer.Some? ==> 0 <= r.fee && r.counterparty in s.streams
    ensures Ledgered(Booked(s, r))
  {
    if r.originalTransfer.Some? {
      DebitByKeeps(s, r, r.counterparty, r.amount, r.account);
      CreditByKeeps(DebitBy(s, r, r.counterparty, r.amount, r.account), r, r.account, r.amount + r.fee, r.counterparty);
    } else if r.direction == Credit {
      CreditByKeeps(s, r, r.account, r.amount, NO_ID);
    } else {
      DebitByKeeps(s, r, r.account, r.amount, NO_ID);
    }
  }

  lemma BookingMarks(s: Store, r: Adjustment, a: Id)
    requires r.originalTransfer.Some? ==> r.account != r.counterparty
    ensures var more := Bookings(s, r, a);
            var due := EntriesDue(r.(status := Accepted), a);
            && |more| == |due| <= 1
            && (more != [] ==> AdjustmentTag(more[0]) == Some(r.id) && MarkOf(more[0]) == due[0])
  {
  }

  lemma BookedEntries(es: seq<Event>, more: seq<Event>, due: seq<Mark>, j: Id, i: Id)
    requires |more| == |due| <= 1
    requires more != [] ==> AdjustmentTag(more[0]) == Some(j) && MarkOf(more[0]) == due[0]
    ensures Entries(es + more, i) == Entries(es, i) + (if i == j then due else [])
  {
    if more == [] {
      assert es + more == es;
    } else {
      assert more == [more[0]] && due == [due[0]];
      EntriesAppend(es, more[0], i);
    }
  }

  lemma ApprovedRecords(s: Store, j: Id, admin: Id, i: Id)
    requires Ledgered(s) && Adjusted(s) && ApproveAdjustment(s, j, admin).1.Ok? && i in s.adjustments
    ensures var s' := ApproveAdjustment(s, j, admin).0;
            i in s'.adjustments && AdjustmentOk(s', i, s'.adjustments[i])
  {
    BookedStreams(s, j);
    assert AdjustmentOk(s, i, s.adjustments[i]);
  }

  lemma ApprovedEntries(s: Store, j: Id, admin: Id, i: Id, a: Id)
    requires Ledgered(s) && Adjusted(s) && ApproveAdjustment(s, j, admin).1.Ok?
    requires i in s.adjustments && a in s.streams
    ensures var s' := ApproveAdjustment(s, j, admin).0;
            i in s'.adjustments && a in s'.streams && EntriesAt(s', i, a)
  {
    var r := s.adjustments[j];
    BookedStreams(s, j);
    assert EntriesAt(s, i, a) && AdjustmentOk(s, j, r);
    assert r.originalTransfer.Some? ==> TransferOk(s, r.originalTransfer.value, s.transfers[r.originalTransfer.value]);
    BookingMarks(s, r, a);
    BookedEntries(s.streams[a], Bookings(s, r, a), EntriesDue(r.(status := Accepted), a), j, i);
  }

  /** An approval stores the reviewed request over the booked streams. */
  lemma ApprovedAdjusted(s: Store, j: Id, admin: Id)
    requires Ledgered(s) && Adjusted(s) && ApproveAdjustment(s, j, admin).1.Ok?
    ensures Adjusted(ApproveAdjustment(s, j, admin).0)
  {
    var s' := ApproveAdjustment(s, j, admin).0;
    BookedStreams(s, j);
    assert s'.adjustments.Keys == s.adjustments.Keys;
    ReviewKeepsUnique(s.adjustments, j, s'.adjustments[j]);
    forall i | i in s'.adjustments
      ensures AdjustmentOk(s', i, s'.adjustments[i])
    {
      ApprovedRecords(s, j, admin, i);
    }
    forall i, a | i in s'.adjustments && a in s'.streams
      ensures EntriesAt(s', i, a)
    {
      ApprovedEntries(s, j, admin, i, a);
    }
  }

  lemma ApproveKeeps(s: Store, j: Id, admin: Id)
    requires Ledgered(s) && Adjusted(s)
    ensures Ledgered(ApproveAdjustment(s, j, admin).0) && Adjusted(ApproveAdjustment(s, j, admin).0)
  {
    if ApproveAdjustment(s, j, admin).1.Ok? {
      ApprovedLedger(s, j, admin);
      ApprovedAdjusted(s, j, admin);
    }
  }

  lemma ApprovedLedger(s: Store, j: Id, admin: Id)
    requires Ledgered(s) && Adjusted(s) && ApproveAdjustment(s, j, admin).1.Ok?
    ensures Ledgered(ApproveAdjustment(s, j, admin).0)
  {
    var r := s.adjustments[j];
    assert AdjustmentOk(s, j, r);
    if r.originalTransfer.Some? {
      assert TransferOk(s, r.originalTransfer.value, s.transfers[r.originalTransfer.value]);
    }
    BookedKeepsLedger(s, r);
    AdjustmentTableKeeps(Booked(s, r), j, ApproveAdjustment(s, j, admin).0.adjustments[j]);
  }

  // ---- what it means

  function Net(marks: seq<Mark>): Money {
    if marks == [] then 0
    else
      Net(marks[..|marks| - 1]) +
      match marks[|marks| - 1]
      case Received(m) => m
      case Paid(m) => -m
      case FeePaid(m) => -m
      case _ => 0
  }

  lemma {:induction false} NetConcat(x: seq<Mark>, y: seq<Mark>)
    ensures Net(x + y) == Net(x) + Net(y)
  {
    if y == [] {
      assert x + y == x;
    } else {
      NetConcat(x, y[..|y| - 1]);
      assert (x + y)[..|x + y| - 1] == x + y[..|y| - 1];
    }
  }

  lemma NetOfWeave(r: Transfer, hold: Option<HoldState>, at: nat)
    requires at <= |HoldMarks(r, hold)| && 0 <= r.fee
    ensures Net(Weave(HoldMarks(r, hold), LegMarks(r), at)) == -Due(r)
  {
    var holds, legs := HoldMarks(r, hold), LegMarks(r);
    NetConcat(holds[..at] + legs, holds[at..]);
    NetConcat(holds[..at], legs);
    HoldKinds(r, hold);
    NetOfHolds(holds[..at]);
    NetOfHolds(holds[at..]);
    NetOfLegs(r);
  }

  lemma HoldKinds(r: Transfer, hold: Option<HoldState>)
    ensures forall i :: 0 <= i < |HoldMarks(r, hold)| ==>
              var m := HoldMarks(r, hold)[i]; m.Held? || m.Charged? || m.Freed?
  {
  }

  lemma NetOfLegs(r: Transfer)
    requires 0 <= r.fee
    ensures Net(LegMarks(r)) == -Due(r)
  {
    var fee := if r.fee > 0 then [FeePaid(r.fee)] else [];
    NetConcat(fee, [Paid(r.amount)]);
    assert [Paid(r.amount)][..0] == [];
    if r.fee > 0 { assert fee[..0] == []; }
  }

  lemma {:induction false} NetOfHolds(marks: seq<Mark>)
    requires forall i :: 0 <= i < |marks| ==> marks[i].Held? || marks[i].Charged? || marks[i].Freed?
    ensures Net(marks) == 0
  {
    if marks != [] {
      NetOfHolds(marks[..|marks| - 1]);
    }
  }

  /** An approved transfer reversal takes the transfer back on every account, the fee included. */
  lemma ReversalCancels(s: Store, j: Id, a: Id)
    requires Ledgered(s) && Adjusted(s)
    requires j in s.adjustments && s.adjustments[j].status == Accepted && s.adjustments[j].originalTransfer.Some?
    requires a in s.streams
    ensures Net(Marks(s.streams[a], s.adjustments[j].originalTransfer.value)) + Net(Entries(s.streams[a], j)) == 0
  {
    var q := s.adjustments[j];
    var t := q.originalTransfer.value;
    assert AdjustmentOk(s, j, q) && EntriesAt(s, j, a);
    var r := s.transfers[t];
    assert TransferOk(s, t, r) && TrailAt(s, t, a);
    if a == r.source {
      var holds := HoldMarks(r, StateOf(s.reservations, t));
      var at: nat :| at <= |holds| && Marks(s.streams[a], t) == Weave(holds, LegMarks(r), at);
      NetOfWeave(r, StateOf(s.reservations, t), at);
    }
  }

  /** An approved event reversal books the opposite of the event, on its account and nowhere else. */
  lemma EventReversalCancels(s: Store, j: Id, a: Id)
    requires Ledgered(s) && Adjusted(s)
    requires j in s.adjustments && a in s.streams
    requires var r := s.adjustments[j]; r.status == Accepted && r.kind == Reversal && r.originalTransfer == None
    ensures var r := s.adjustments[j];
            && r.originalAccount in s.streams
            && r.originalSequence.Some? && 0 <= r.originalSequence.value < |s.streams[r.originalAccount]|
            && var e := s.streams[r.originalAccount][r.originalSequence.value];
               Net(Entries(s.streams[a], j))
               == if a == r.originalAccount then -Apply(Tally(0, 0), e).balance else 0
  {
    assert AdjustmentOk(s, j, s.adjustments[j]) && EntriesAt(s, j, a);
  }

  // ---- requests that carry a reference to an event without being its reversal

  ghost predicate SameEvent(r: Adjustment, q: Adjustment) {
    && r.status != Declined && q.status != Declined && r.originalSequence.Some?
    && r.originalAccount == q.originalAccount && r.originalSequence == q.originalSequence
  }

  /** No event is named by two standing requests, of whatever kind. */
  ghost predicate EventsNamedOnce(adjustments: map<Id, Adjustment>) {
    forall i, j {:trigger SameEvent(adjustments[i], adjustments[j])} ::
      i in adjustments && j in adjustments && SameEvent(adjustments[i], adjustments[j]) ==> i == j
  }

  /** The guard that `CreateAdjustment` applies to reversals of events only. */
  ghost predicate NamesNamedEvent(s: Store, r: Adjustment) {
    exists j :: j in s.adjustments && ActiveEventReversal(s.adjustments[j], r.originalAccount, r.originalSequence)
  }

  /**
    Any request may carry a reference to an event, but only for a reversal of the event is it looked up. Uniqueness of
    these references survives a request if and only if it is not another one that repeats a standing reference.
   */
  lemma RequestKeepsEventsNamedOnceIff(s: Store, r: Adjustment)
    requires EventsNamedOnce(s.adjustments) && r.id !in s.adjustments && r.status != Declined
    requires CreateAdjustment(s, r).1.Ok?
    ensures EventsNamedOnce(CreateAdjustment(s, r).0.adjustments)
            <==> !((r.kind == Manual || r.originalTransfer.Some?) && NamesNamedEvent(s, r))
  {
    var after := CreateAdjustment(s, r).0.adjustments;
    var n := after[r.id];
    if NamesNamedEvent(s, r) {
      var j :| j in s.adjustments && ActiveEventReversal(s.adjustments[j], r.originalAccount, r.originalSequence);
      assert SameEvent(after[j], after[r.id]);
    } else {
      forall j | j in s.adjustments
        ensures !SameEvent(s.adjustments[j], n) && !SameEvent(n, s.adjustments[j])
      {
        assert !ActiveEventReversal(s.adjustments[j], r.originalAccount, r.originalSequence);
      }
      forall i, j | i in after && j in after && SameEvent(after[i], after[j])
        ensures i == j
      {
        if i != r.id && j != r.id { assert SameEvent(s.adjustments[i], s.adjustments[j]); }
      }
    }
  }

  // ---- manual requests that name an original

  /** The guard that `CreateAdjustment` applies to reversals only. */
  ghost predicate NamesReversedTransfer(s: Store, r: Adjustment) {
    r.originalTransfer.Some? &&
    exists j :: j in s.adjustments && ActiveTransferReversal(s.adjustments[j], r.originalTransfer)
  }

  /**
    A manual request is stored without a look at the transfer it may name, so uniqueness survives a request if and
    only if it is not a manual one that names a transfer already being reversed. The runs of System make no such
    request.
   */
  lemma RequestKeepsReversedOnceIff(s: Store, r: Adjustment)
    requires ReversedOnce(s.adjustments) && r.id !in s.adjustments && r.status != Declined
    requires CreateAdjustment(s, r).1.Ok?
    ensures ReversedOnce(CreateAdjustment(s, r).0.adjustments) <==> !(r.kind == Manual && NamesReversedTransfer(s, r))
  {
    var after := CreateAdjustment(s, r).0.adjustments;
    var n := after[r.id];
    if r.kind == Manual && NamesReversedTransfer(s, r) {
      var j :| j in s.adjustments && ActiveTransferReversal(s.adjustments[j], r.originalTransfer);
      assert SameOriginal(after[j], after[r.id]);
    } else {
      forall j | j in s.adjustments
        ensures !SameOriginal(s.adjustments[j], n) && !SameOriginal(n, s.adjustments[j])
      {
        assert !ActiveTransferReversal(s.adjustments[j], r.originalTransfer) || r.originalTransfer.None?;
        assert !ActiveEventReversal(s.adjustments[j], r.originalAccount, r.originalSequence)
               || r.kind == Manual || r.originalTransfer.Some?;
      }
      forall i, j | i in after && j in after && SameOriginal(after[i], after[j])
        ensures i == j
      {
        if i != r.id && j != r.id { assert SameOriginal(s.adjustments[i], s.adjustments[j]); }
      }
    }
  }
}
