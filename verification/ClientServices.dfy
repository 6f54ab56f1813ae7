/** `service/`: deposits, withdrawals and adjustments over one memory store. */
module ClientServices {
  import opened Domain
  import opened Replay
  import opened Ledger
  import opened System
  import opened Text
  import opened AnyWorkers
  import opened MemoryStores
  import opened StoreLaws
  import opened ReviewLaws
  import Solvency

  class DepositService {
    const eventStore: MemoryStore

    constructor (store: MemoryStore)
      ensures eventStore == store
    {
      eventStore := store;
    }

    method Deposit(amount: Money, id: Id) returns (receipt: Result<(Tally, Tally)>)
      modifies eventStore`streams
      ensures var events := Stream(old(eventStore.State()), id);
              if amount < 1000
              then receipt == Err(InvalidAmount) && eventStore.State() == old(eventStore.State())
              else if events == [] then receipt == Err(AccountNotFound) && eventStore.State() == old(eventStore.State())
              else
                && eventStore.State() == Push(old(eventStore.State()), id, DepositEvent(id, |events|, amount))
                && receipt.Ok? && receipt.value.0 == ReplayOf(events)
                && receipt.value.1 == TallyOf(eventStore.State(), id)
                && receipt.value.1 == Tally(receipt.value.0.balance + amount, receipt.value.0.reserved)
    {
      if amount < 1000 {
        return Err(InvalidAmount);
      }
      var events := eventStore.Load(id);
      if |events| == 0 {
        return Err(AccountNotFound);
      }
      var initial := ReplayAccount(id, events);
      var credit := MoneyCredited(id, |events|, amount, None, Purpose.Customer, NO_ID, None, NoReference);
      var appended := eventStore.Append(credit, credit.version);
      if appended.Err? {
        return Err(ConcurrencyConflict);
      }
      ReplayAppend(events, credit);
      var final := ReplayAccount(id, events + [credit]);
      return Ok((Tally(initial.balance, initial.reservedBalance), Tally(final.balance, final.reservedBalance)));
    }
  }

  class WithdrawService {
    const eventStore: MemoryStore

    /** Whether the store offers the atomic withdrawal. */
    const atomic: bool

    constructor (store: MemoryStore, atomic: bool)
      ensures eventStore == store && this.atomic == atomic
    {
      eventStore := store;
      this.atomic := atomic;
    }

    /** Whichever path it takes: with nobody in between, load, check and append do what the atomic call does. */
    method Withdraw(amount: Money, id: Id) returns (receipt: Result<(Tally, Tally)>)
      modifies eventStore`streams
      ensures if amount < 1000 then receipt == Err(InvalidAmount) && eventStore.State() == old(eventStore.State())
              else (eventStore.State(), receipt) == Ledger.WithdrawAvailable(old(eventStore.State()), id, amount)
    {
      if amount < 1000 {
        return Err(InvalidAmount);
      }
      if atomic {
        receipt := eventStore.WithdrawAvailable(id, amount);
        return;
      }
      var events := eventStore.Load(id);
      if |events| == 0 {
        return Err(AccountNotFound);
      }
      var initial := ReplayAccount(id, events);
      if initial.availableBalance < amount {
        return Err(InsufficientFunds);
      }
      var debit := MoneyDebited(id, |events|, amount, None, Purpose.Customer, NO_ID, None, NoReference);
      var appended := eventStore.Append(debit, debit.version);
      if appended.Err? {
        return Err(ConcurrencyConflict);
      }
      var final := ReplayAccount(id, events + [debit]);
      return Ok((Tally(initial.balance, initial.reservedBalance), Tally(final.balance, final.reservedBalance)));
    }
  }

  /**
    With anybody in between: in every run, a withdrawal that checked a stream it loaded some time ago either meets the
    conflict and changes nothing, or does exactly what the atomic withdrawal does at the moment of its append.
   */
  lemma LoadCheckAppendIsAtomic(sys: Sys, acts: seq<Action>, a: Id, loaded: seq<Event>, amount: Money)
    requires Initial(sys) && Possible(sys, acts)
    requires Enabled(After(sys, acts), WithdrawAt(a, loaded, amount))
    ensures var s := After(sys, acts).store;
            var e := Withdrawal(a, |loaded|, amount);
            || Append(s, e, |loaded|) == (s, Err(ConcurrencyConflict))
            || (Append(s, e, |loaded|) == (Ledger.WithdrawAvailable(s, a, amount).0, Ok(()))
                && Ledger.WithdrawAvailable(s, a, amount).1.Ok? && Stream(s, a) == loaded)
  {
    HealthyStart(sys);
    HealthyRun(sys, acts);
    if |Stream(After(sys, acts).store, a)| == |loaded| {
      Solvency.FreshTicket(After(sys, acts), a, loaded);
    }
  }

  // ---- adjustments

  /** A request as an administrator sends it; the service overwrites id, status and author only. */
  datatype Draft = Draft(
    kind: string, direction: string, reason: string, caseReference: string, account: Id, amount: Money, fee: Money,
    counterparty: Id, originalTransfer: Option<Id>, originalAccount: Id, originalSequence: Option<int>,
    reviewedBy: Option<Id>)

  const MIN_REASON := 10
  const MAX_REASON := 500
  const MAX_CASE := 100

  function Submitted(d: Draft, id: Id, admin: Id): Result<Adjustment> {
    var kind, direction := TrimSpace(d.kind), TrimSpace(d.direction);
    if kind != "manual" && kind != "reversal" then Err(InvalidAdjustment)
    else if !(MIN_REASON <= Utf8Length(TrimSpace(d.reason)) <= MAX_REASON) then Err(InvalidAdjustment)
    else if !(1 <= Utf8Length(TrimSpace(d.caseReference)) <= MAX_CASE) then Err(InvalidAdjustment)
    else if kind == "manual" && (d.account == NO_ID || (direction != "credit" && direction != "debit") || d.amount < 1)
    then Err(InvalidAdjustment)
    else if kind == "reversal" && d.originalTransfer.None? && (d.originalAccount == NO_ID || d.originalSequence.None?)
    then Err(InvalidAdjustment)
    else Ok(Adjustment(id, if kind == "manual" then Manual else Reversal, Waiting, d.account,
                       if direction == "credit" then Credit else if direction == "debit" then Debit else Both,
                       d.amount, d.fee, d.counterparty, d.originalTransfer, d.originalAccount, d.originalSequence,
                       admin, d.reviewedBy))
  }

  /**
    What the service submits is a request of System's runs, unless it is a manual one that names an original transfer;
    what its approval then does is the subject of ManualReversals.
   */
  lemma SubmittedIsNew(d: Draft, id: Id, admin: Id)
    requires Submitted(d, id, admin).Ok?
    ensures NewRequest(Submitted(d, id, admin).value)
            <==> !(TrimSpace(d.kind) == "manual" && d.originalTransfer.Some?)
  {
  }

  lemma ManualDraft(d: Draft, id: Id, admin: Id)
    requires Submitted(d, id, admin).Ok? && TrimSpace(d.kind) == "manual"
    ensures var r := Submitted(d, id, admin).value;
            && r.id == id && r.kind == Manual && r.status == Waiting && r.createdBy == admin
            && r.account == d.account && r.amount == d.amount && r.originalTransfer == d.originalTransfer
            && r.direction == if TrimSpace(d.direction) == "debit" then Debit else Credit
  {
  }

  /**
    From the draft to the balance: a manual draft that passes is stored if its account exists, approved by anybody else
    if a debit is covered, and then the balance of that account has changed by exactly its amount, in its direction.
   */
  lemma DraftMovesMoney(s: Store, d: Draft, id: Id, admin: Id, other: Id)
    requires Submitted(d, id, admin).Ok? && TrimSpace(d.kind) == "manual" && d.originalTransfer == None
    ensures var (stored, result) := Ledger.CreateAdjustment(s, Submitted(d, id, admin).value);
            var (s', approved) := Ledger.ApproveAdjustment(stored, id, other);
            var debit := TrimSpace(d.direction) == "debit";
            var covered := d.amount <= Balance(s, d.account) - OnHoldOf(s, d.account);
            && (result.Ok? <==> Stream(s, d.account) != [])
            && (result.Ok? ==>
                  && (approved.Ok? <==> other != admin && (debit ==> covered))
                  && (approved.Ok? ==>
                        && OnlyStream(s, s', d.account)
                        && Balance(s', d.account) == Balance(s, d.account) + (if debit then -d.amount else d.amount)))
  {
    var r := Submitted(d, id, admin).value;
    ManualDraft(d, id, admin);
    ManualIsTaken(s, r);
    var stored := Ledger.CreateAdjustment(s, r).0;
    if Ledger.CreateAdjustment(s, r).1.Ok? {
      StoredDraftMoves(s, stored, r, other);
    }
  }

  lemma StoredDraftMoves(s: Store, stored: Store, r: Adjustment, other: Id)
    requires stored == s.(adjustments := s.adjustments[r.id := r])
    requires r.status == Waiting && r.kind == Manual && r.originalTransfer == None && r.direction != Both
    ensures var (s', approved) := Ledger.ApproveAdjustment(stored, r.id, other);
            && approved.Ok? == (other != r.createdBy
                                && (r.direction == Debit ==>
                                      r.amount <= Balance(s, r.account) - OnHoldOf(s, r.account)))
            && (approved.Ok? ==>
                  && OnlyStream(s, s', r.account)
                  && Balance(s', r.account)
                     == Balance(s, r.account) + (if r.direction == Debit then -r.amount else r.amount))
  {
    SameStore(s, stored, r.account);
    StoredDraftIsCovered(s, stored, r, TallyOf(s, r.account));
    ApprovedOnlyIf(stored, r, other, CoveredBy(stored, r));
    if Ledger.ApproveAdjustment(stored, r.id, other).1.Ok? { OneAccountMoves(stored, r.id, other); }
  }

  lemma StoredDraftIsCovered(s: Store, stored: Store, r: Adjustment, t: Tally)
    requires stored.streams == s.streams && TallyOf(stored, r.account) == t
    requires r.originalTransfer == None && r.direction != Both
    ensures CoveredBy(stored, r) == (r.direction == Debit ==> r.amount <= t.balance - t.reserved)
  {
    if r.direction == Debit { CoveredIs(stored, r, r.account, t); }
  }

  lemma ApprovedOnlyIf(stored: Store, r: Adjustment, other: Id, covered: bool)
    requires r.id in stored.adjustments && stored.adjustments[r.id] == r && r.status == Waiting
    requires covered == CoveredBy(stored, r)
    ensures Ledger.ApproveAdjustment(stored, r.id, other).1.Ok? == (other != r.createdBy && covered)
  {
    ApprovesIff(stored, r.id, other);
  }

  /** A request that is stored keeps what the author says, but for the terms of what it reverses. */
  lemma StoredSays(s: Store, r: Adjustment)
    ensures var (s', result) := Ledger.CreateAdjustment(s, r);
            if result.Err? then s' == s
            else
              && s' == s.(adjustments := s.adjustments[r.id := result.value])
              && var q := result.value;
                 && q == r.(account := q.account, counterparty := q.counterparty, amount := q.amount, fee := q.fee,
                            direction := q.direction)
                 && (r.kind == Manual ==> q == r)
  {
  }

  class AdjustmentService {
    const store: MemoryStore

    constructor (store: MemoryStore)
      ensures this.store == store
    {
      this.store := store;
    }

    /** What is stored is what the draft says; a reversal takes its terms from what it reverses. */
    method Create(d: Draft, id: Id, admin: Id) returns (result: Result<Adjustment>)
      modifies store`adjustments
      ensures var s, s' := old(store.State()), store.State();
              var kind, direction := TrimSpace(d.kind), TrimSpace(d.direction);
              if || (kind != "manual" && kind != "reversal")
                 || !(10 <= Utf8Length(TrimSpace(d.reason)) <= 500)
                 || !(1 <= Utf8Length(TrimSpace(d.caseReference)) <= 100)
                 || (kind == "manual"
                     && (d.account == NO_ID || (direction != "credit" && direction != "debit") || d.amount < 1))
                 || (kind == "reversal" && d.originalTransfer.None?
                     && (d.originalAccount == NO_ID || d.originalSequence.None?))
              then s' == s && result == Err(InvalidAdjustment)
              else if result.Err? then s' == s
              else
                && s' == s.(adjustments := s.adjustments[id := result.value])
                && var q := result.value;
                   && q.id == id && q.status == Waiting && q.createdBy == admin && q.reviewedBy == d.reviewedBy
                   && q.originalTransfer == d.originalTransfer
                   && q.originalAccount == d.originalAccount && q.originalSequence == d.originalSequence
                   && (kind == "reversal" ==> q.kind == Reversal)
                   && (kind == "manual" ==>
                         && q.kind == Manual && q.account == d.account && q.amount == d.amount && q.fee == d.fee
                         && q.counterparty == d.counterparty
                         && q.direction == if direction == "debit" then Debit else Credit)
      ensures var r := Submitted(d, id, admin);
              (store.State(), result)
              == (if r.Ok? then Ledger.CreateAdjustment(old(store.State()), r.value) else (old(store.State()), r))
    {
      var kind := TrimSpace(d.kind);
      var direction := TrimSpace(d.direction);
      var reason := TrimSpace(d.reason);
      var caseReference := TrimSpace(d.caseReference);
      if (kind != "manual" && kind != "reversal") || Utf8Length(reason) < 10 || Utf8Length(reason) > 500
         || Utf8Length(caseReference) < 1 || Utf8Length(caseReference) > 100 {
        return Err(InvalidAdjustment);
      }
      if kind == "manual" && (d.account == NO_ID || (direction != "credit" && direction != "debit") || d.amount < 1) {
        return Err(InvalidAdjustment);
      }
      if kind == "reversal" && d.originalTransfer.None? && (d.originalAccount == NO_ID || d.originalSequence.None?) {
        return Err(InvalidAdjustment);
      }
      var r := Adjustment(id, if kind == "manual" then Manual else Reversal, Waiting, d.account,
                          if direction == "credit" then Credit else if direction == "debit" then Debit else Both,
                          d.amount, d.fee, d.counterparty, d.originalTransfer, d.originalAccount, d.originalSequence,
                          admin, d.reviewedBy);
      StoredSays(store.State(), r);
      result := store.CreateAdjustment(r);
    }

    method Approve(id: Id, admin: Id) returns (result: Result<()>)
      modifies store`streams, store`adjustments
      ensures (store.State(), result) == Ledger.ApproveAdjustment(old(store.State()), id, admin)
    {
      result := store.ApproveAdjustment(id, admin);
    }

    method Reject(id: Id, admin: Id, reason: string) returns (result: Result<()>)
      modifies store`adjustments
      ensures (store.State(), result)
              == (if 1 <= Utf8Length(TrimSpace(reason)) <= 500
                  then Ledger.RejectAdjustment(old(store.State()), id, admin)
                  else (old(store.State()), Err(InvalidAdjustment)))
    {
      var text := TrimSpace(reason);
      if Utf8Length(text) < 1 || Utf8Length(text) > 500 {
        return Err(InvalidAdjustment);
      }
      result := store.RejectAdjustment(id, admin);
    }
  }
}
