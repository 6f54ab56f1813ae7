/** `eventstore/memory_store.go`: the maps that the methods update in place, each method one step of Ledger. */
module MemoryStores {
  import opened Domain
  import opened Replay
  import opened Ledger

  datatype KycStatus = KycWaiting | KycApproved | KycRejected

  datatype Customer = Customer(id: Id, kyc: KycStatus, deposit: Money, account: Id, reviewedBy: Id)

  ghost predicate SortedByCreation(out: seq<Transfer>) {
    forall i, j :: 0 <= i < j < |out| ==> out[i].createdAt <= out[j].createdAt
  }

  ghost predicate DistinctIds(out: seq<Transfer>) {
    forall i, j :: 0 <= i < j < |out| ==> out[i].id != out[j].id
  }

  method InsertByCreation(out: seq<Transfer>, r: Transfer) returns (sorted: seq<Transfer>)
    requires SortedByCreation(out)
    ensures SortedByCreation(sorted)
    ensures exists i :: 0 <= i <= |out| && sorted == out[..i] + [r] + out[i..]
  {
    var i := |out|;
    while i > 0 && r.createdAt < out[i - 1].createdAt
      invariant 0 <= i <= |out|
      invariant forall j :: i <= j < |out| ==> r.createdAt < out[j].createdAt
    {
      i := i - 1;
    }
    sorted := out[..i] + [r] + out[i..];
  }

  lemma InsertKeepsDistinct(out: seq<Transfer>, i: nat, r: Transfer, sorted: seq<Transfer>)
    requires DistinctIds(out) && i <= |out| && sorted == out[..i] + [r] + out[i..]
    requires forall j :: 0 <= j < |out| ==> out[j].id != r.id
    ensures DistinctIds(sorted)
    ensures forall x :: x in sorted <==> x == r || x in out
  {
    assert out == out[..i] + out[i..];
    assert sorted[i] == r;
  }

  /** Stands for `sort.Slice`, which promises an order and a permutation and nothing about ties. */
  method SortByCreation(items: seq<Transfer>) returns (sorted: seq<Transfer>)
    requires DistinctIds(items)
    ensures SortedByCreation(sorted) && DistinctIds(sorted) && |sorted| == |items|
    ensures forall r :: r in sorted <==> r in items
  {
    sorted := [];
    for n := 0 to |items|
      invariant SortedByCreation(sorted) && DistinctIds(sorted) && |sorted| == n
      invariant forall r :: r in sorted <==> r in items[..n]
    {
      assert items[..n + 1] == items[..n] + [items[n]];
      ghost var before := sorted;
      sorted := InsertByCreation(sorted, items[n]);
      ghost var i: nat :| i <= |before| && sorted == before[..i] + [items[n]] + before[i..];
      forall j | 0 <= j < |before| ensures before[j].id != items[n].id {
        assert before[j] in items[..n];
      }
      InsertKeepsDistinct(before, i, items[n], sorted);
    }
    assert items[..|items|] == items;
  }

  ghost function Posted(postings: map<Id, bool>): set<Id> {
    set t | t in postings && postings[t]
  }

  lemma PostedAdds(postings: map<Id, bool>, t: Id)
    ensures Posted(postings[t := true]) == Posted(postings) + {t}
  {
  }

  lemma Inhabited(ids: set<Id>)
    ensures ids == {} || exists t :: t in ids
  {
    if forall t :: t !in ids {
      assert ids == {};
    }
  }

  lemma BookedReversal(s: Store, r: Adjustment, paid: Store, s': Store)
    requires r.originalTransfer.Some? && paid == DebitBy(s, r, r.counterparty, r.amount, r.account)
    requires s' == CreditBy(paid, r, r.account, r.amount + r.fee, r.counterparty)
    ensures s' == Booked(s, r)
  {
  }

  class MemoryStore {
    var streams: map<Id, seq<Event>>
    var snapshots: map<Id, Snapshot>
    var customers: map<Id, Customer>
    var transfers: map<Id, Transfer>
    var adjustments: map<Id, Adjustment>
    var reservations: map<Id, Hold>
    var ledgerPostings: map<Id, bool>
    var complianceDecisions: map<Id, Decision>

    ghost function State(): Store
      reads this
    {
      Store(streams, transfers, reservations, Posted(ledgerPostings), complianceDecisions, adjustments, snapshots)
    }

    /** Records are stored under their own ids. */
    ghost predicate Valid()
      reads this
    {
      forall t :: t in transfers ==> transfers[t].id == t
    }

    constructor ()
      ensures Valid() && State() == EMPTY && customers == map[]
    {
      streams, snapshots, customers, transfers, adjustments := map[], map[], map[], map[], map[];
      reservations, ledgerPostings, complianceDecisions := map[], map[], map[];
    }

    // ---- streams and snapshots

    method Append(e: Event, expectedVersion: int) returns (result: Result<()>)
      modifies this`streams
      ensures (State(), result) == Ledger.Append(old(State()), e, expectedVersion)
    {
      var id := e.aggregate;
      var stream := if id in streams then streams[id] else [];
      if |stream| != expectedVersion {
        return Err(ConcurrencyConflict);
      }
      streams := streams[id := stream + [e]];
      return Ok(());
    }

    method Load(id: Id) returns (events: seq<Event>)
      ensures events == Stream(State(), id)
    {
      events := if id in streams then streams[id] else [];
    }

    method SaveSnapshot(snap: Snapshot)
      modifies this`snapshots
      ensures State() == Ledger.SaveSnapshot(old(State()), snap)
    {
      if snap.aggregate in snapshots && snapshots[snap.aggregate].asOf >= snap.asOf {
        return;
      }
      snapshots := snapshots[snap.aggregate := snap];
    }

    method LoadSnapshot(id: Id) returns (result: Result<Snapshot>)
      ensures result == if id in State().snapshots then Ok(State().snapshots[id]) else Err(NoSnapshot)
    {
      if id !in snapshots {
        return Err(NoSnapshot);
      }
      return Ok(snapshots[id]);
    }

    /** The customer's account is opened by the one approval that finds the application waiting. */
    method ApproveApplication(id: Id, admin: Id, account: Id) returns (result: Result<()>)
      modifies this`customers, this`streams
      ensures result == (if id !in old(customers) then Err(ApplicationNotFound)
                         else if old(customers)[id].kyc != KycWaiting then Err(ApplicationReviewed)
                         else Ok(()))
      ensures result.Err? ==> customers == old(customers) && State() == old(State())
      ensures result.Ok? ==>
                var c := old(customers)[id];
                && customers == old(customers)[id := c.(kyc := KycApproved, account := account, reviewedBy := admin)]
                && State() == Open(old(State()), account, c.deposit)
    {
      if id !in customers {
        return Err(ApplicationNotFound);
      }
      var c := customers[id];
      if c.kyc != KycWaiting {
        return Err(ApplicationReviewed);
      }
      customers := customers[id := c.(kyc := KycApproved, account := account, reviewedBy := admin)];
      streams := streams[account := [AccountOpened(account, 0, c.deposit)]];
      return Ok(());
    }

    method WithdrawAvailable(id: Id, amount: Money) returns (result: Result<(Tally, Tally)>)
      modifies this`streams
      ensures (State(), result) == Ledger.WithdrawAvailable(old(State()), id, amount)
    {
      var events := if id in streams then streams[id] else [];
      if |events| == 0 {
        return Err(AccountNotFound);
      }
      var initial := ReplayAccount(id, events);
      if initial.availableBalance < amount {
        return Err(InsufficientFunds);
      }
      var e := Withdrawal(id, |events|, amount);
      streams := streams[id := events + [e]];
      var final := ReplayAccount(id, events + [e]);
      return Ok((Tally(initial.balance, initial.reservedBalance), Tally(final.balance, final.reservedBalance)));
    }

    // ---- transfers

    method CreateTransfer(r: Transfer) returns (result: Result<(Transfer, bool)>)
      requires Valid()
      modifies this`transfers
      ensures Valid() && CreateTransferMay(old(State()), r, State(), result)
    {
      ghost var before := State();
      var rest: set<Id> := transfers.Keys;
      while rest != {}
        invariant transfers == before.transfers && rest <= transfers.Keys
        invariant forall t :: t in before.transfers && t !in rest ==> !SameRequest(before.transfers[t], r)
        decreases rest
      {
        Inhabited(rest);
        var t :| t in rest;
        var existing := transfers[t];
        if existing.source == r.source && existing.key == r.key {
          assert t in before.transfers && SameRequest(before.transfers[t], r);
          if existing.amount != r.amount || existing.destination != r.destination {
            return Err(IdempotencyConflict);
          }
          return Ok((existing, false));
        }
        rest := rest - {t};
      }
      transfers := transfers[r.id := r];
      return Ok((r, true));
    }

    /**
      Pending records that are due, oldest first: no more than the limit, and all of them if they are fewer. The limit
      is looked at after a record is taken, so one is taken even if the limit is zero.
     */
    method ListDueTransfers(now: int, limit: int) returns (out: seq<Transfer>)
      requires Valid()
      ensures |out| <= limit || |out| <= 1
      ensures forall i, j :: 0 <= i < j < |out| ==> out[i].createdAt <= out[j].createdAt && out[i].id != out[j].id
      ensures forall r :: r in out ==>
                r.id in transfers && transfers[r.id] == r && r.status == Pending && r.nextAttemptAt <= now
      ensures |out| < limit || |out| < 1 ==>
                forall t :: t in transfers && transfers[t].status == Pending && transfers[t].nextAttemptAt <= now ==>
                  transfers[t] in out
    {
      out := [];
      var rest: set<Id> := transfers.Keys;
      while rest != {}
        invariant rest <= transfers.Keys
        invariant (|out| < limit || |out| < 1) && DistinctIds(out)
        invariant forall r :: r in out ==> r.id in transfers.Keys - rest && transfers[r.id] == r
                                           && r.status == Pending && r.nextAttemptAt <= now
        invariant forall t :: t in transfers.Keys - rest ==>
                    (transfers[t].status == Pending && transfers[t].nextAttemptAt <= now ==> transfers[t] in out)
        decreases rest
      {
        Inhabited(rest);
        var t :| t in rest;
        var r := transfers[t];
        rest := rest - {t};
        if r.status == Pending && r.nextAttemptAt <= now {
          out := out + [r];
          if |out| >= limit {
            break;
          }
        }
      }
      out := SortByCreation(out);
    }

    method UpdateTransferSaga(id: Id, u: SagaUpdate) returns (result: Result<bool>)
      requires Valid()
      modifies this`transfers
      ensures Valid() && (State(), result) == Ledger.UpdateTransferSaga(old(State()), id, u)
    {
      if id !in transfers {
        return Err(TransferNotFound);
      }
      var r := transfers[id];
      if r.status != Pending || r.step != u.expected {
        return Ok(false);
      }
      r := r.(step := u.step, status := u.status, failure := u.failure);
      if u.compliance.Some? {
        r := r.(compliance := u.compliance);
      }
      r := r.(attempts := u.attempts, nextAttemptAt := u.nextAttemptAt);
      if u.initialBalance != 0 {
        r := r.(initialBalance := u.initialBalance);
      }
      if u.finalBalance != 0 {
        r := r.(finalBalance := u.finalBalance);
      }
      transfers := transfers[id := r];
      return Ok(true);
    }

    method ReserveTransferFunds(r: Transfer) returns (result: Result<Money>)
      modifies this`streams, this`reservations
      ensures (State(), result) == Reserve(old(State()), r)
    {
      var src := if r.source in streams then streams[r.source] else [];
      var dst := if r.destination in streams then streams[r.destination] else [];
      if r.id in reservations {
        var held := ReplayAccount(r.source, src);
        return Ok(held.balance);
      }
      if |src| == 0 || |dst| == 0 {
        return Err(AccountNotFound);
      }
      var a := ReplayAccount(r.source, src);
      var amount := r.amount + r.fee;
      if a.availableBalance < amount {
        return Err(InsufficientFunds);
      }
      reservations := reservations[r.id := Hold(r.source, amount, OnHold)];
      streams := streams[r.source := src + [FundsReserved(r.source, |src|, amount, Some(r.id))]];
      return Ok(a.balance);
    }

    method RecordComplianceDecision(id: Id, decision: Decision) returns (result: Result<()>)
      modifies this`complianceDecisions
      ensures (State(), result) == Decide(old(State()), id, decision)
    {
      if id in complianceDecisions && complianceDecisions[id] != decision {
        return Err(IdempotencyConflict);
      }
      complianceDecisions := complianceDecisions[id := decision];
      return Ok(());
    }

    method PostTransferLedger(r: Transfer) returns (result: Result<Money>)
      modifies this`streams, this`ledgerPostings
      ensures (State(), result) == Post(old(State()), r)
    {
      var src := if r.source in streams then streams[r.source] else [];
      var dst := if r.destination in streams then streams[r.destination] else [];
      if r.id in ledgerPostings && ledgerPostings[r.id] {
        var posted := ReplayAccount(r.source, src);
        return Ok(posted.balance);
      }
      if |src| == 0 || |dst| == 0 {
        return Err(AccountNotFound);
      }
      ghost var loaded := src;
      if r.fee > 0 {
        src := src + [MoneyDebited(r.source, |src|, r.fee, Some(r.id), FeeCharge, r.destination, None, NoReference)];
      }
      src := src + [MoneyDebited(r.source, |src|, r.amount, Some(r.id), TransferLeg, r.destination, None, NoReference)];
      dst :=
        dst + [MoneyCredited(r.destination, |dst|, r.amount, Some(r.id), TransferLeg, r.source, None, NoReference)];
      assert src == loaded + SourceLegs(r, |loaded|);
      streams := streams[r.source := src];
      streams := streams[r.destination := dst];
      PostedAdds(ledgerPostings, r.id);
      ledgerPostings := ledgerPostings[r.id := true];
      var a := ReplayAccount(r.source, src);
      return Ok(a.balance);
    }

    method CaptureTransferReservation(r: Transfer) returns (result: Result<()>)
      modifies this`streams, this`reservations
      ensures (State(), result) == Finish(old(State()), r.id, Taken)
    {
      result := FinishReservation(r, Taken);
    }

    method ReleaseTransferReservation(r: Transfer) returns (result: Result<()>)
      modifies this`streams, this`reservations
      ensures (State(), result) == Finish(old(State()), r.id, GivenBack)
    {
      result := FinishReservation(r, GivenBack);
    }

    method FinishReservation(r: Transfer, target: HoldState) returns (result: Result<()>)
      modifies this`streams, this`reservations
      ensures (State(), result) == Finish(old(State()), r.id, target)
    {
      if r.id !in reservations {
        return Ok(());
      }
      var hold := reservations[r.id];
      if hold.state == target {
        return Ok(());
      }
      if hold.state != OnHold {
        return Err(IdempotencyConflict);
      }
      var events := if hold.account in streams then streams[hold.account] else [];
      if target == Taken {
        events := events + [ReservationCaptured(hold.account, |events|, hold.amount, Some(r.id))];
      } else {
        events := events + [ReservationReleased(hold.account, |events|, hold.amount, Some(r.id))];
      }
      hold := hold.(state := target);
      reservations := reservations[r.id := hold];
      streams := streams[hold.account := events];
      return Ok(());
    }

    // ---- adjustments

    method FindTransferReversal(t: Id) returns (found: bool)
      ensures found <==> exists j :: j in adjustments && ActiveTransferReversal(adjustments[j], Some(t))
    {
      var rest: set<Id> := adjustments.Keys;
      while rest != {}
        invariant rest <= adjustments.Keys
        invariant forall j :: j in adjustments.Keys - rest ==> !ActiveTransferReversal(adjustments[j], Some(t))
        decreases rest
      {
        Inhabited(rest);
        var j :| j in rest;
        if adjustments[j].originalTransfer == Some(t) && adjustments[j].status != Declined {
          assert ActiveTransferReversal(adjustments[j], Some(t));
          return true;
        }
        rest := rest - {j};
      }
      return false;
    }

    method FindEventReversal(account: Id, sequence: int) returns (found: bool)
      ensures found <==> exists j :: j in adjustments && ActiveEventReversal(adjustments[j], account, Some(sequence))
    {
      var rest: set<Id> := adjustments.Keys;
      while rest != {}
        invariant rest <= adjustments.Keys
        invariant forall j :: j in adjustments.Keys - rest ==>
                    !ActiveEventReversal(adjustments[j], account, Some(sequence))
        decreases rest
      {
        Inhabited(rest);
        var j :| j in rest;
        var a := adjustments[j];
        if a.originalAccount == account && a.originalSequence == Some(sequence) && a.status != Declined {
          assert ActiveEventReversal(adjustments[j], account, Some(sequence));
          return true;
        }
        rest := rest - {j};
      }
      return false;
    }

    method CreateAdjustment(request: Adjustment) returns (result: Result<Adjustment>)
      modifies this`adjustments
      ensures (State(), result) == Ledger.CreateAdjustment(old(State()), request)
    {
      var r := request;
      if r.kind == Manual {
        if r.account !in streams || |streams[r.account]| == 0 {
          return Err(AccountNotFound);
        }
      } else if r.originalTransfer.Some? {
        var id := r.originalTransfer.value;
        if id !in transfers || transfers[id].status != Completed {
          return Err(TransferNotFound);
        }
        var t := transfers[id];
        var taken := FindTransferReversal(id);
        if taken {
          return Err(AlreadyReversed);
        }
        r := r.(account := t.source, counterparty := t.destination, amount := t.amount, fee := t.fee,
                direction := Both);
      } else {
        var events := if r.originalAccount in streams then streams[r.originalAccount] else [];
        if r.originalSequence.None? || r.originalSequence.value < 0 || r.originalSequence.value >= |events| {
          return Err(InvalidAdjustment);
        }
        var taken := FindEventReversal(r.originalAccount, r.originalSequence.value);
        if taken {
          return Err(AlreadyReversed);
        }
        var e := events[r.originalSequence.value];
        if !(e.MoneyCredited? || e.MoneyDebited?) || e.transferId.Some? || e.purpose == FeeCharge
           || e.adjustmentId.Some? {
          return Err(InvalidAdjustment);
        }
        r := r.(account := r.originalAccount, amount := e.amount,
                direction := if e.MoneyCredited? then Debit else Credit);
      }
      assert Normalise(old(State()), request) == Ok(r);
      adjustments := adjustments[r.id := r];
      return Ok(r);
    }

    method AppendCredit(r: Adjustment, a: Id, amount: Money, other: Id)
      modifies this`streams
      ensures State() == CreditBy(old(State()), r, a, amount, other)
    {
      var events := if a in streams then streams[a] else [];
      streams := streams[a := events + [AdjustmentCredit(r, a, |events|, amount, other)]];
    }

    method AppendDebit(r: Adjustment, a: Id, amount: Money, other: Id) returns (result: Result<()>)
      modifies this`streams
      ensures TallyOf(old(State()), a).Available() < amount ==>
                result == Err(InsufficientFunds) && State() == old(State())
      ensures TallyOf(old(State()), a).Available() >= amount ==>
                result == Ok(()) && State() == DebitBy(old(State()), r, a, amount, other)
    {
      ghost var before := State();
      var events := Load(a);
      var payer := ReplayAccount(a, events);
      var available := payer.availableBalance;
      assert available == TallyOf(before, a).Available();
      result := Err(InsufficientFunds);
      if available >= amount {
        streams := streams[a := events + [AdjustmentDebit(r, a, |events|, amount, other)]];
        assert State() == DebitBy(before, r, a, amount, other);
        result := Ok(());
      }
    }

    method ApproveAdjustment(id: Id, admin: Id) returns (result: Result<()>)
      modifies this`streams, this`adjustments
      ensures (State(), result) == Ledger.ApproveAdjustment(old(State()), id, admin)
    {
      if id !in adjustments {
        return Err(AdjustmentNotFound);
      }
      var r := adjustments[id];
      if r.status != Waiting {
        return Err(AdjustmentReviewed);
      }
      if r.createdBy == admin {
        return Err(SelfApproval);
      }
      result := Book(r);
      if result.Ok? {
        r := r.(status := Accepted, reviewedBy := Some(admin));
        adjustments := adjustments[id := r];
      }
    }

    /** The bookings of an approval, all or none. */
    method Book(r: Adjustment) returns (result: Result<()>)
      modifies this`streams
      ensures CannotPay(old(State()), r) ==> result == Err(InsufficientFunds) && State() == old(State())
      ensures !CannotPay(old(State()), r) ==> result == Ok(()) && State() == Booked(old(State()), r)
    {
      ghost var before := State();
      if r.originalTransfer.Some? {
        result := AppendDebit(r, r.counterparty, r.amount, r.account);
        if result.Err? {
          return;
        }
        ghost var paid := State();
        AppendCredit(r, r.account, r.amount + r.fee, r.counterparty);
        BookedReversal(before, r, paid, State());
      } else if r.direction == Credit {
        AppendCredit(r, r.account, r.amount, NO_ID);
        result := Ok(());
      } else {
        result := AppendDebit(r, r.account, r.amount, NO_ID);
      }
    }

    method RejectAdjustment(id: Id, admin: Id) returns (result: Result<()>)
      modifies this`adjustments
      ensures (State(), result) == Ledger.RejectAdjustment(old(State()), id, admin)
    {
      if id !in adjustments {
        return Err(AdjustmentNotFound);
      }
      var r := adjustments[id];
      if r.status != Waiting {
        return Err(AdjustmentReviewed);
      }
      if r.createdBy == admin {
        return Err(SelfApproval);
      }
      r := r.(status := Declined, reviewedBy := Some(admin));
      adjustments := adjustments[id := r];
      return Ok(());
    }
  }
}
