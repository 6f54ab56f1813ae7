/** No account goes below zero: what is in the ledger covers every hold that is not in the ledger yet. */
module Solvency {
  import opened Domain
  import opened Replay
  import opened Sums
  import opened Ledger
  import opened Saga
  import opened System
  import opened Trails
  import opened Bookkeeping
  import opened Adjustments
  import opened AnyWorkers
  import opened OneWorker

  /** Open holds on `a` whose transfer is not posted yet. */
  ghost function Promised(s: Store, a: Id): int { Total(OpenHolds(s.reservations, s.postings, a)) }

  ghost predicate NeverBelowZero(es: seq<Event>) {
    forall k :: 0 <= k <= |es| ==> 0 <= ReplayOf(es[..k]).balance
  }

  ghost predicate SolventAt(s: Store, a: Id)
    requires a in s.streams
  {
    Promised(s, a) <= ReplayOf(s.streams[a]).balance && NeverBelowZero(s.streams[a])
  }

  ghost predicate Solvent(s: Store) {
    forall a {:trigger SolventAt(s, a)} :: a in s.streams ==> SolventAt(s, a)
  }

  lemma ZeroPush(es: seq<Event>, e: Event)
    requires NeverBelowZero(es) && 0 <= Apply(ReplayOf(es), e).balance
    ensures NeverBelowZero(es + [e])
  {
    ReplayAppend(es, e);
    forall k | 0 <= k <= |es + [e]|
      ensures 0 <= ReplayOf((es + [e])[..k]).balance
    {
      if k <= |es| {
        assert (es + [e])[..k] == es[..k];
      } else {
        assert (es + [e])[..k] == es + [e];
      }
    }
  }

  lemma ZeroLegs(es: seq<Event>, r: Transfer)
    requires NeverBelowZero(es) && Due(r) <= ReplayOf(es).balance && 0 <= r.fee && 0 <= r.amount
    ensures NeverBelowZero(es + SourceLegs(r, |es|))
  {
    if r.fee > 0 {
      var f, d := FeeEvent(r, |es|), DebitEvent(r, |es| + 1);
      ZeroPush(es, f);
      ReplayAppend(es, f);
      ZeroPush(es + [f], d);
      assert es + SourceLegs(r, |es|) == es + [f] + [d];
    } else {
      ZeroPush(es, DebitEvent(r, |es|));
    }
  }

  lemma HoldsPositive(s: Store)
    requires TablesOk(s)
    ensures forall t :: t in s.reservations ==> 0 <= s.reservations[t].amount
  {
    forall t | t in s.reservations
      ensures 0 <= s.reservations[t].amount
    {
      assert HoldOk(s, t, s.reservations[t]) && TransferOk(s, t, s.transfers[t]);
    }
  }

  lemma PromisedWithinReserved(s: Store, a: Id)
    requires Ledgered(s) && a in s.streams
    ensures 0 <= Promised(s, a) <= ReplayOf(s.streams[a]).reserved
  {
    HoldsPositive(s);
    TotalNonNegative(OpenHolds(s.reservations, s.postings, a));
    TotalMonotone(OpenHolds(s.reservations, s.postings, a), OpenHolds(s.reservations, {}, a));
  }

  /** One more event on `a`, and no table changed. */
  lemma PushSolventIff(s: Store, a: Id, e: Event)
    requires Ledgered(s) && Solvent(s) && a in s.streams
    ensures Solvent(Push(s, a, e)) <==> Promised(s, a) <= Apply(ReplayOf(s.streams[a]), e).balance
  {
    var s' := Push(s, a, e);
    PromisedWithinReserved(s, a);
    ReplayAppend(s.streams[a], e);
    assert Promised(s', a) == Promised(s, a);
    if Promised(s, a) <= Apply(ReplayOf(s.streams[a]), e).balance {
      forall b | b in s'.streams
        ensures SolventAt(s', b)
      {
        assert SolventAt(s, b) && Promised(s', b) == Promised(s, b);
        if b == a { ZeroPush(s.streams[a], e); }
      }
    } else {
      assert !SolventAt(s', a);
    }
  }

  /** What is available is not promised, so it may be taken. */
  lemma DebitSolvent(s: Store, a: Id, e: Event)
    requires Ledgered(s) && Solvent(s) && a in s.streams
    requires e.MoneyDebited? && e.amount <= ReplayOf(s.streams[a]).Available()
    ensures Solvent(Push(s, a, e))
  {
    PromisedWithinReserved(s, a);
    PushSolventIff(s, a, e);
  }

  lemma CreditSolvent(s: Store, a: Id, e: Event)
    requires Ledgered(s) && Solvent(s) && a in s.streams
    requires e.MoneyCredited? && 0 <= e.amount
    ensures Solvent(Push(s, a, e))
  {
    assert SolventAt(s, a);
    PushSolventIff(s, a, e);
  }

  lemma OpenSolvent(s: Store, a: Id, balance: Money)
    requires Ledgered(s) && Solvent(s) && a !in s.streams && 0 <= balance
    ensures Solvent(Open(s, a, balance))
  {
    var s' := Open(s, a, balance);
    forall t | t in s.reservations
      ensures Weight(s.reservations[t], t, s.postings, a) == 0
    {
      assert HoldOk(s, t, s.reservations[t]);
    }
    TotalZero(OpenHolds(s.reservations, s.postings, a));
    ZeroPush([], AccountOpened(a, 0, balance));
    ReplayAppend([], AccountOpened(a, 0, balance));
    assert [] + [AccountOpened(a, 0, balance)] == s'.streams[a];
    forall b | b in s'.streams
      ensures SolventAt(s', b)
    {
      assert b != a ==> SolventAt(s, b);
      assert Promised(s', b) == Promised(s, b);
    }
  }

  // ---- the saga's calls

  lemma ReserveSolvent(s: Store, r: Transfer)
    requires Ledgered(s) && Solvent(s)
    ensures Solvent(Reserve(s, r).0)
  {
    var s' := Reserve(s, r).0;
    if s' == s { return; }
    var e, h := HoldEvent(r, |s.streams[r.source]|), Hold(r.source, Due(r), OnHold);
    PromisedWithinReserved(s, r.source);
    ReplayAppend(s.streams[r.source], e);
    forall b | b in s'.streams
      ensures SolventAt(s', b)
    {
      assert SolventAt(s, b);
      HoldChanges(s.reservations, s.postings, b, r.id, h);
      if b == r.source { ZeroPush(s.streams[b], e); }
    }
  }

  lemma PostSolventAt(s: Store, r: Transfer, b: Id)
    requires Ledgered(s) && Known(s, r) && TermsOk(r) && Post(s, r).1.Ok? && r.id !in s.postings
    requires r.id in s.reservations && s.reservations[r.id] == Hold(r.source, Due(r), OnHold)
    requires b in s.streams && SolventAt(s, b)
    ensures b in Post(s, r).0.streams && SolventAt(Post(s, r).0, b)
  {
    var es := s.streams[b];
    SettledChanges(s.reservations, s.postings, b, r.id);
    PromisedWithinReserved(s, b);
    PromisedPart(s, b, r.id);
    if b == r.source {
      LegsRead(es, r, r.id);
      ZeroLegs(es, r);
    } else if b == r.destination {
      ReplayAppend(es, CreditEvent(r, |es|));
      ZeroPush(es, CreditEvent(r, |es|));
    }
  }

  /** Posting takes from the balance what the hold had promised. */
  lemma PostSolvent(s: Store, r: Transfer)
    requires Ledgered(s) && Solvent(s) && Known(s, r)
    requires r.id in s.reservations && s.reservations[r.id].state == OnHold
    ensures Solvent(Post(s, r).0)
  {
    var s' := Post(s, r).0;
    if s' == s { return; }
    assert HoldOk(s, r.id, s.reservations[r.id]) && TransferOk(s, r.id, s.transfers[r.id]);
    forall b | b in s'.streams
      ensures SolventAt(s', b)
    {
      assert SolventAt(s, b);
      PostSolventAt(s, r, b);
    }
  }

  lemma PostUnheldAt(s: Store, r: Transfer, b: Id)
    requires Ledgered(s) && Known(s, r) && TermsOk(r) && Post(s, r).1.Ok? && r.id !in s.postings
    requires StateOf(s.reservations, r.id) != Some(OnHold) && b in s.streams && SolventAt(s, b)
    ensures b in Post(s, r).0.streams
    ensures SolventAt(Post(s, r).0, b)
            <==> (b == r.source ==> Promised(s, b) + Due(r) <= ReplayOf(s.streams[b]).balance)
  {
    var es, s' := s.streams[b], Post(s, r).0;
    SettledChanges(s.reservations, s.postings, b, r.id);
    PromisedWithinReserved(s, b);
    assert Promised(s', b) == Promised(s, b);
    if b == r.source {
      LegsRead(es, r, r.id);
      if Promised(s, b) + Due(r) <= ReplayOf(es).balance { ZeroLegs(es, r); }
    } else if b == r.destination {
      ReplayAppend(es, CreditEvent(r, |es|));
      ZeroPush(es, CreditEvent(r, |es|));
    }
  }

  /**
    Posting keeps the bank solvent if and only if the transfer's funds are on hold, or the source happens to have that
    much beyond what it has promised.
   */
  lemma PostSolventIff(s: Store, r: Transfer)
    requires Ledgered(s) && Solvent(s) && Known(s, r) && r.id !in s.postings && Post(s, r).1.Ok?
    ensures Solvent(Post(s, r).0)
            <==> StateOf(s.reservations, r.id) == Some(OnHold)
                 || Promised(s, r.source) + Due(r) <= TallyOf(s, r.source).balance
  {
    var s' := Post(s, r).0;
    assert TransferOk(s, r.id, s.transfers[r.id]);
    if StateOf(s.reservations, r.id) == Some(OnHold) {
      PostSolvent(s, r);
    } else {
      forall b | b in s.streams
        ensures b in s'.streams
        ensures SolventAt(s', b) <==> (b == r.source ==> Promised(s, b) + Due(r) <= ReplayOf(s.streams[b]).balance)
      {
        assert SolventAt(s, b);
        PostUnheldAt(s, r, b);
      }
      assert s'.streams.Keys == s.streams.Keys;
    }
  }

  /** An unposted open hold is part of what its account has promised. */
  lemma PromisedPart(s: Store, a: Id, t: Id)
    requires TablesOk(s) && t in s.reservations
    ensures Weight(s.reservations[t], t, s.postings, a) <= Promised(s, a)
  {
    HoldsPositive(s);
    TotalNonNegative(OpenHolds(s.reservations, s.postings, a));
    assert OpenHolds(s.reservations, s.postings, a)[t] == Weight(s.reservations[t], t, s.postings, a);
  }

  lemma FinishSolvent(s: Store, t: Id, target: HoldState)
    requires Ledgered(s) && Solvent(s) && target != OnHold
    ensures Solvent(Finish(s, t, target).0)
  {
    var s' := Finish(s, t, target).0;
    if s' == s { return; }
    var h := s.reservations[t];
    assert HoldOk(s, t, h) && TransferOk(s, t, s.transfers[t]);
    var e := EndEvent(h, t, |s.streams[h.account]|, target);
    ReplayAppend(s.streams[h.account], e);
    forall b | b in s'.streams
      ensures SolventAt(s', b)
    {
      assert SolventAt(s, b);
      HoldChanges(s.reservations, s.postings, b, t, h.(state := target));
      if b == h.account {
        PromisedWithinReserved(s, b);
        ZeroPush(s.streams[b], e);
      }
    }
  }

  lemma SameMoney(s: Store, s': Store)
    requires Solvent(s) && s'.streams == s.streams
    requires s'.reservations == s.reservations && s'.postings == s.postings
    ensures Solvent(s')
  {
    forall b | b in s'.streams
      ensures SolventAt(s', b)
    {
      assert SolventAt(s, b);
    }
  }

  lemma CallSolvent(s: Store, pc: Pc)
    requires Ledgered(s) && Solvent(s) && PcAgrees(s, pc)
    requires pc != Done ==> Agree(pc.r, FactsOf(s, pc.r.id))
    ensures Solvent(Called(s, pc))
  {
    match pc {
      case Done =>
      case Begin(r) =>
        if r.step == Created {
          ReserveSolvent(s, r);
        } else if r.step == ComplianceApproved {
          PostSolvent(s, r);
        } else if r.step == LedgerPosted {
          FinishSolvent(s, r.id, Taken);
        }
      case ReleaseRejected(r) => FinishSolvent(s, r.id, GivenBack);
      case ReleaseThenFail(r, _) => FinishSolvent(s, r.id, GivenBack);
      case Record(_, _) => SameMoney(s, Called(s, pc));
      case Update(_, _, _) => SameMoney(s, Called(s, pc));
    }
  }

  // ---- clients

  lemma BookedSolvent(s: Store, r: Adjustment)
    requires Ledgered(s) && Solvent(s) && r.id in s.adjustments && r.account in s.streams && 0 <= r.amount
    requires r.originalTransfer.Some? ==> 0 <= r.fee && r.counterparty in s.streams
    requires Payer(r).Some? ==> r.amount <= TallyOf(s, Payer(r).value).Available()
    ensures Solvent(Booked(s, r))
  {
    if r.originalTransfer.Some? {
      var d := AdjustmentDebit(r, r.counterparty, |s.streams[r.counterparty]|, r.amount, r.account);
      DebitSolvent(s, r.counterparty, d);
      DebitByKeeps(s, r, r.counterparty, r.amount, r.account);
      var mid := Push(s, r.counterparty, d);
      CreditSolvent(mid, r.account,
                    AdjustmentCredit(r, r.account, |mid.streams[r.account]|, r.amount + r.fee, r.counterparty));
    } else if r.direction == Credit {
      CreditSolvent(s, r.account, AdjustmentCredit(r, r.account, |s.streams[r.account]|, r.amount, NO_ID));
    } else {
      DebitSolvent(s, r.account, AdjustmentDebit(r, r.account, |s.streams[r.account]|, r.amount, NO_ID));
    }
  }

  lemma ApproveSolvent(s: Store, j: Id, admin: Id)
    requires Ledgered(s) && Adjusted(s) && Solvent(s)
    ensures Solvent(ApproveAdjustment(s, j, admin).0)
  {
    var (s', result) := ApproveAdjustment(s, j, admin);
    if result.Ok? {
      var r := s.adjustments[j];
      assert AdjustmentOk(s, j, r);
      if r.originalTransfer.Some? {
        assert TransferOk(s, r.originalTransfer.value, s.transfers[r.originalTransfer.value]);
      }
      BookedSolvent(s, r);
      SameMoney(Booked(s, r), s');
    }
  }

  /** A loaded stream that still has its length is the stream itself. */
  lemma FreshTicket(sys: Sys, a: Id, loaded: seq<Event>)
    requires Healthy(sys) && (a, loaded) in sys.tickets && |Stream(sys.store, a)| == |loaded|
    ensures Stream(sys.store, a) == loaded
  {
    assert loaded <= Stream(sys.store, a);
  }

  lemma ClientsSolvent(sys: Sys, act: Action)
    requires Healthy(sys) && Solvent(sys.store) && Enabled(sys, act) && !act.CallStore?
    ensures Solvent(Step(sys, act).store)
  {
    var s := sys.store;
    match act {
      case OpenAccount(a, balance) => OpenSolvent(s, a, balance);
      case DepositAt(a, loaded, amount) =>
        if PlainAppend(s, DepositEvent(a, |loaded|, amount)).1 {
          CreditSolvent(s, a, DepositEvent(a, |loaded|, amount));
        }
      case WithdrawNow(a, amount) =>
        if WithdrawAvailable(s, a, amount).1.Ok? {
          DebitSolvent(s, a, Withdrawal(a, |Stream(s, a)|, amount));
        }
      case WithdrawAt(a, loaded, amount) =>
        if PlainAppend(s, Withdrawal(a, |loaded|, amount)).1 {
          FreshTicket(sys, a, loaded);
          DebitSolvent(s, a, Withdrawal(a, |loaded|, amount));
        }
      case AcceptAdjustment(j, admin) => ApproveSolvent(s, j, admin);
      case RequestAdjustment(r) => SameMoney(s, CreateAdjustment(s, r).0);
      case DeclineAdjustment(j, admin) => SameMoney(s, RejectAdjustment(s, j, admin).0);
      case NewTransfer(r) => SameMoney(s, AddTransfer(s, r));
      case _ =>
    }
  }

  /**
    The available balance is no invariant: posting takes the amount out while its hold still stands, so it dips by that
    amount, below zero if the account had no more, and comes back to where it was at the capture.
   */
  lemma AvailableDipsUntilCapture(s: Store, r: Transfer)
    requires Ledgered(s) && Known(s, r) && r.id !in s.postings
    requires StateOf(s.reservations, r.id) == Some(OnHold)
    ensures var posted := Post(s, r).0;
            var captured := Finish(posted, r.id, Taken).0;
            && TallyOf(posted, r.source).Available() == TallyOf(s, r.source).Available() - Due(r)
            && TallyOf(captured, r.source)
               == Tally(TallyOf(s, r.source).balance - Due(r), TallyOf(s, r.source).reserved - Due(r))
  {
    HeldCanBePosted(s, r);
    var posted := Post(s, r).0;
    CaptureSettles(posted, r.id, r.source, Due(r));
  }

  lemma HeldCanBePosted(s: Store, r: Transfer)
    requires Ledgered(s) && Known(s, r) && r.id !in s.postings && r.id in s.reservations
    ensures Post(s, r).1.Ok? && r.source in s.streams && r.source in Post(s, r).0.streams
    ensures TallyOf(Post(s, r).0, r.source)
            == Tally(TallyOf(s, r.source).balance - Due(r), TallyOf(s, r.source).reserved)
    ensures Post(s, r).0.reservations == s.reservations
    ensures s.reservations[r.id] == Hold(r.source, Due(r), s.reservations[r.id].state)
  {
    assert TransferOk(s, r.id, s.transfers[r.id]) && HoldOk(s, r.id, s.reservations[r.id]);
    var src := s.streams[r.source];
    assert StreamOk(s.transfers.Keys, s.adjustments.Keys, r.source, src);
    assert StreamOk(s.transfers.Keys, s.adjustments.Keys, r.destination, s.streams[r.destination]);
    LegsRead(src, r, r.id);
    assert Post(s, r).0.streams[r.source] == src + SourceLegs(r, |src|);
  }

  lemma CaptureSettles(s: Store, t: Id, a: Id, amount: Money)
    requires t in s.reservations && s.reservations[t] == Hold(a, amount, OnHold)
    ensures TallyOf(Finish(s, t, Taken).0, a) == Tally(TallyOf(s, a).balance, TallyOf(s, a).reserved - amount)
  {
    var es := Stream(s, a);
    var e := EndEvent(s.reservations[t], t, |es|, Taken);
    CaptureAppends(s, t);
    ReplayAppend(es, e);
    assert TallyOf(Finish(s, t, Taken).0, a) == Apply(ReplayOf(es), e);
  }

  lemma CaptureAppends(s: Store, t: Id)
    requires StateOf(s.reservations, t) == Some(OnHold)
    ensures var h := s.reservations[t];
            Stream(Finish(s, t, Taken).0, h.account)
            == Stream(s, h.account) + [EndEvent(h, t, |Stream(s, h.account)|, Taken)]
  {
  }
}
