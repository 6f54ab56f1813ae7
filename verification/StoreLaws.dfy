/**
  What each store call promises a caller, in terms of balances and records: when it succeeds, what it answers, what it
  leaves, and which error it gives otherwise.
 */
module StoreLaws {
  import opened Domain
  import opened Replay
  import opened Ledger
  import opened Trails

  function Balance(s: Store, a: Id): Money { ReplayOf(Stream(s, a)).balance }

  function OnHoldOf(s: Store, a: Id): Money { ReplayOf(Stream(s, a)).reserved }

  ghost predicate OnlyStream(s: Store, s': Store, a: Id) {
    forall b :: b != a ==> Stream(s', b) == Stream(s, b)
  }

  // ---- holds

  /**
    A transfer without a hold gets one if and only if both accounts exist and amount and fee are at most what the source
    has beyond its open holds; the fee counts once.
   */
  lemma ReservesIff(s: Store, r: Transfer)
    requires r.id !in s.reservations
    ensures var exist := Stream(s, r.source) != [] && Stream(s, r.destination) != [];
            var covered := r.amount + r.fee <= Balance(s, r.source) - OnHoldOf(s, r.source);
            && Reserve(s, r).1 == (if !exist then Err(AccountNotFound)
                                   else if !covered then Err(InsufficientFunds)
                                   else Ok(Balance(s, r.source)))
            && (!(exist && covered) ==> Reserve(s, r).0 == s)
  {
  }

  /** The hold is for amount and fee; it raises what is reserved and leaves the balance. */
  lemma ReservedIsHeld(s: Store, r: Transfer)
    requires r.id !in s.reservations && Reserve(s, r).1.Ok?
    ensures var s' := Reserve(s, r).0;
            && s' == s.(streams := s'.streams,
                        reservations := s.reservations[r.id := Hold(r.source, r.amount + r.fee, OnHold)])
            && OnlyStream(s, s', r.source)
            && Balance(s', r.source) == Balance(s, r.source)
            && OnHoldOf(s', r.source) == OnHoldOf(s, r.source) + r.amount + r.fee
  {
    ReplayAppend(Stream(s, r.source), HoldEvent(r, |Stream(s, r.source)|));
  }

  /** A hold once made is answered with the balance, and nothing is done again. */
  lemma ReservedAgain(s: Store, r: Transfer)
    requires r.id in s.reservations
    ensures Reserve(s, r) == (s, Ok(Balance(s, r.source)))
  {
  }

  /** A hold ends once: asked for the same end again nothing happens, asked for the other one there is a conflict. */
  lemma FinishesIff(s: Store, t: Id, target: HoldState)
    requires target != OnHold
    ensures Finish(s, t, target).1
            == (if t in s.reservations && s.reservations[t].state != OnHold && s.reservations[t].state != target
                then Err(IdempotencyConflict) else Ok(()))
    ensures t !in s.reservations || s.reservations[t].state != OnHold ==> Finish(s, t, target).0 == s
  {
  }

  /** An end takes the amount of the hold out of what is reserved, and leaves the balance. */
  lemma FinishedIsFree(s: Store, t: Id, target: HoldState)
    requires target != OnHold && t in s.reservations && s.reservations[t].state == OnHold
    ensures var h, s' := s.reservations[t], Finish(s, t, target).0;
            && s' == s.(streams := s'.streams, reservations := s.reservations[t := Hold(h.account, h.amount, target)])
            && OnlyStream(s, s', h.account)
            && Balance(s', h.account) == Balance(s, h.account)
            && OnHoldOf(s', h.account) == OnHoldOf(s, h.account) - h.amount
  {
    var h := s.reservations[t];
    ReplayAppend(Stream(s, h.account), EndEvent(h, t, |Stream(s, h.account)|, target));
  }

  // ---- decisions, postings, records

  /** The first decision stands; repeating it is fine, and contradicting it is a conflict. */
  lemma DecidesIff(s: Store, t: Id, d: Decision)
    ensures Decide(s, t, d) == if t !in s.decisions then (s.(decisions := s.decisions[t := d]), Ok(()))
                               else (s, if s.decisions[t] == d then Ok(()) else Err(IdempotencyConflict))
  {
    if t in s.decisions && s.decisions[t] == d { assert s.decisions[t := d] == s.decisions; }
  }

  lemma PostsIff(s: Store, r: Transfer)
    requires r.id !in s.postings
    ensures Post(s, r).1.Ok? <==> Stream(s, r.source) != [] && Stream(s, r.destination) != []
    ensures Post(s, r).1.Err? ==> Post(s, r) == (s, Err(AccountNotFound))
  {
  }

  lemma LegsTake(es: seq<Event>, r: Transfer)
    requires 0 <= r.fee
    ensures ReplayOf(es + SourceLegs(r, |es|))
            == Tally(ReplayOf(es).balance - r.amount - r.fee, ReplayOf(es).reserved)
  {
    LegsRead(es, r, r.id);
  }

  /** Amount and fee leave the source, the amount arrives, and the answer is what the source has left. */
  lemma PostedIsMoved(s: Store, r: Transfer)
    requires r.id !in s.postings && Post(s, r).1.Ok? && r.source != r.destination && 0 <= r.fee
    ensures var s' := Post(s, r).0;
            && s' == s.(streams := s'.streams, postings := s.postings + {r.id})
            && (forall b :: b != r.source && b != r.destination ==> Stream(s', b) == Stream(s, b))
            && Balance(s', r.source) == Balance(s, r.source) - r.amount - r.fee
            && Balance(s', r.destination) == Balance(s, r.destination) + r.amount
            && OnHoldOf(s', r.source) == OnHoldOf(s, r.source)
            && OnHoldOf(s', r.destination) == OnHoldOf(s, r.destination)
            && Post(s, r).1 == Ok(Balance(s, r.source) - r.amount - r.fee)
  {
    LegsTake(Stream(s, r.source), r);
    ReplayAppend(Stream(s, r.destination), CreditEvent(r, |Stream(s, r.destination)|));
  }

  lemma PostedAgain(s: Store, r: Transfer)
    requires r.id in s.postings
    ensures Post(s, r) == (s, Ok(Balance(s, r.source)))
  {
  }

  /** The compare-and-set: it answers whether it has updated, and it updates a pending record at the expected step. */
  lemma UpdatesIff(s: Store, t: Id, u: SagaUpdate)
    ensures var (s', updated) := UpdateTransferSaga(s, t, u);
            && (updated == Ok(true) <==>
                  t in s.transfers && s.transfers[t].status == Pending && s.transfers[t].step == u.expected)
            && (updated.Err? <==> t !in s.transfers) && (updated.Err? ==> updated.error == TransferNotFound)
            && (updated != Ok(true) ==> s' == s)
  {
  }

  /** What is not said stays: compliance without a value, and balances of zero. */
  lemma UpdatedIs(s: Store, t: Id, u: SagaUpdate)
    requires UpdateTransferSaga(s, t, u).1 == Ok(true)
    ensures var (r, s') := (s.transfers[t], UpdateTransferSaga(s, t, u).0);
            && s'.transfers.Keys == s.transfers.Keys && s' == s.(transfers := s.transfers[t := s'.transfers[t]])
            && var q := s'.transfers[t];
               && q.id == r.id && q.source == r.source && q.destination == r.destination && q.key == r.key
               && q.amount == r.amount && q.fee == r.fee && q.createdAt == r.createdAt
               && q.step == u.step && q.status == u.status && q.failure == u.failure
               && q.attempts == u.attempts && q.nextAttemptAt == u.nextAttemptAt
               && q.compliance == (if u.compliance == None then r.compliance else u.compliance)
               && q.initialBalance == (if u.initialBalance == 0 then r.initialBalance else u.initialBalance)
               && q.finalBalance == (if u.finalBalance == 0 then r.finalBalance else u.finalBalance)
  {
  }

  // ---- streams

  /** An append goes in if and only if the stream has the length the caller expects. */
  lemma AppendsIff(s: Store, e: Event, expected: int)
    ensures if |Stream(s, e.aggregate)| == expected
            then var s' := Append(s, e, expected).0;
                 && Append(s, e, expected).1 == Ok(()) && s' == s.(streams := s'.streams)
                 && Stream(s', e.aggregate) == Stream(s, e.aggregate) + [e] && OnlyStream(s, s', e.aggregate)
            else Append(s, e, expected) == (s, Err(ConcurrencyConflict))
  {
  }

  /** A withdrawal of what is there and not on hold; both receipts say the balances, before and after. */
  lemma WithdrawsIff(s: Store, a: Id, amount: Money)
    ensures var (s', result) := WithdrawAvailable(s, a, amount);
            var before := Tally(Balance(s, a), OnHoldOf(s, a));
            if Stream(s, a) == [] then s' == s && result == Err(AccountNotFound)
            else if before.balance - before.reserved < amount then s' == s && result == Err(InsufficientFunds)
            else
              && result == Ok((before, Tally(before.balance - amount, before.reserved)))
              && s' == s.(streams := s'.streams) && OnlyStream(s, s', a)
              && Balance(s', a) == before.balance - amount && OnHoldOf(s', a) == before.reserved
  {
    ReplayAppend(Stream(s, a), Withdrawal(a, |Stream(s, a)|, amount));
  }

  /** The stored snapshot is the newest that was ever offered. */
  lemma NewestSnapshotStays(s: Store, snap: Snapshot)
    ensures var s' := SaveSnapshot(s, snap);
            && s' == s.(snapshots := s'.snapshots) && snap.aggregate in s'.snapshots
            && (forall a :: a != snap.aggregate ==>
                  (a in s'.snapshots <==> a in s.snapshots) && (a in s.snapshots ==> s'.snapshots[a] == s.snapshots[a]))
            && s'.snapshots[snap.aggregate]
               == (if snap.aggregate in s.snapshots && snap.asOf <= s.snapshots[snap.aggregate].asOf
                   then s.snapshots[snap.aggregate] else snap)
  {
  }
}
