/** Money is only ever moved: the balances add up to what came in, less what went out, less the fees that were kept. */
module Conservation {
  import opened Domain
  import opened Replay
  import opened Sums
  import opened Ledger
  import opened Saga
  import opened System
  import opened Trails
  import opened Bookkeeping
  import opened Adjustments
  import opened AnyWorkers

  ghost function Balances(streams: Streams): map<Id, int> {
    map a | a in streams :: ReplayOf(streams[a]).balance
  }

  /** What an approved correction or event reversal brings in; a transfer reversal only moves money and a fee. */
  function Gain(r: Adjustment): Money {
    if r.status != Accepted || r.originalTransfer.Some? then 0
    else if r.direction == Credit then r.amount
    else -r.amount
  }

  ghost function Gains(adjustments: map<Id, Adjustment>): map<Id, int> {
    map j | j in adjustments :: Gain(adjustments[j])
  }

  ghost predicate Reverses(r: Adjustment, t: Id) { r.status == Accepted && r.originalTransfer == Some(t) }

  ghost predicate Reversed(adjustments: map<Id, Adjustment>, t: Id) {
    exists j {:trigger Reverses(adjustments[j], t)} :: j in adjustments && Reverses(adjustments[j], t)
  }

  /** The fee of every posted transfer that is not reversed, and nothing for the others. */
  ghost function FeesKept(s: Store): map<Id, int> {
    map t | t in s.transfers :: FeeKept(s, t)
  }

  ghost function FeeKept(s: Store, t: Id): int
    requires t in s.transfers
  {
    if t in s.postings && !Reversed(s.adjustments, t) then s.transfers[t].fee else 0
  }

  ghost predicate Conserved(s: Store, flows: Flows) {
    Total(Balances(s.streams))
    == flows.openings + flows.deposits - flows.withdrawals + Total(Gains(s.adjustments)) - Total(FeesKept(s))
  }

  function Delta(e: Event): Money { Apply(Tally(0, 0), e).balance }

  lemma PushTotal(streams: Streams, a: Id, e: Event)
    requires a in streams && !e.AccountOpened?
    ensures Total(Balances(streams[a := streams[a] + [e]])) == Total(Balances(streams)) + Delta(e)
  {
    ReplayAppend(streams[a], e);
    var after := streams[a := streams[a] + [e]];
    assert Balances(after) == Balances(streams)[a := ReplayOf(streams[a]).balance + Delta(e)];
    TotalUpdate(Balances(streams), a, ReplayOf(streams[a]).balance + Delta(e));
  }

  lemma SameFees(s: Store, s': Store)
    requires s'.transfers.Keys == s.transfers.Keys && s'.postings == s.postings && s'.adjustments == s.adjustments
    requires forall t :: t in s.transfers ==> s'.transfers[t].fee == s.transfers[t].fee
    ensures FeesKept(s') == FeesKept(s)
  {
    forall t | t in s.transfers
      ensures FeeKept(s', t) == FeeKept(s, t)
    {
    }
  }

  lemma PushConserves(s: Store, flows: Flows, a: Id, e: Event, flows': Flows)
    requires Conserved(s, flows) && a in s.streams && !e.AccountOpened?
    requires flows'.openings + flows'.deposits - flows'.withdrawals
             == flows.openings + flows.deposits - flows.withdrawals + Delta(e)
    ensures Conserved(Push(s, a, e), flows')
  {
    PushTotal(s.streams, a, e);
    SameFees(s, Push(s, a, e));
  }

  lemma OpenConserves(s: Store, flows: Flows, a: Id, balance: Money)
    requires Conserved(s, flows) && a !in s.streams
    ensures Conserved(Open(s, a, balance), flows.(openings := flows.openings + balance))
  {
    var e := AccountOpened(a, 0, balance);
    ReplayAppend([], e);
    assert [] + [e] == [e];
    assert Balances(Open(s, a, balance).streams) == Balances(s.streams)[a := balance];
    TotalUpdate(Balances(s.streams), a, balance);
    SameFees(s, Open(s, a, balance));
  }

  // ---- the saga

  lemma NotReversedYet(s: Store, t: Id)
    requires Ledgered(s) && Adjusted(s) && t !in s.postings
    ensures !Reversed(s.adjustments, t)
  {
    if t in s.transfers { assert TransferOk(s, t, s.transfers[t]); }
    forall j | j in s.adjustments
      ensures !Reverses(s.adjustments[j], t)
    {
      assert AdjustmentOk(s, j, s.adjustments[j]);
    }
  }

  lemma PostTotals(s: Store, r: Transfer)
    requires Known(s, r) && TermsOk(r) && r.id !in s.postings && Post(s, r).1.Ok?
    ensures Total(Balances(Post(s, r).0.streams)) == Total(Balances(s.streams)) - r.fee
  {
    var src, dst := s.streams[r.source], s.streams[r.destination];
    var c := CreditEvent(r, |dst|);
    LegsRead(src, r, r.id);
    var mid := s.streams[r.source := src + SourceLegs(r, |src|)];
    var left := ReplayOf(src).balance - Due(r);
    assert Balances(mid) == Balances(s.streams)[r.source := left];
    TotalUpdate(Balances(s.streams), r.source, left);
    PushTotal(mid, r.destination, c);
  }

  lemma PostConserves(s: Store, flows: Flows, r: Transfer)
    requires Ledgered(s) && Adjusted(s) && Conserved(s, flows) && Known(s, r)
    ensures Conserved(Post(s, r).0, flows)
  {
    var s' := Post(s, r).0;
    if s' == s { return; }
    assert TransferOk(s, r.id, s.transfers[r.id]);
    PostTotals(s, r);
    NotReversedYet(s, r.id);
    forall t | t in s.transfers
      ensures FeesKept(s')[t] == FeesKept(s)[r.id := r.fee][t]
    {
      assert t != r.id ==> FeeKept(s', t) == FeeKept(s, t);
    }
    assert FeesKept(s') == FeesKept(s)[r.id := r.fee];
    TotalUpdate(FeesKept(s), r.id, r.fee);
  }

  lemma FinishConserves(s: Store, flows: Flows, t: Id, target: HoldState)
    requires Ledgered(s) && Conserved(s, flows)
    ensures Conserved(Finish(s, t, target).0, flows)
  {
    var s' := Finish(s, t, target).0;
    if s' == s { return; }
    var h := s.reservations[t];
    assert HoldOk(s, t, h);
    PushTotal(s.streams, h.account, EndEvent(h, t, |s.streams[h.account]|, target));
    SameFees(s, s');
  }

  lemma ReserveConserves(s: Store, flows: Flows, r: Transfer)
    requires Conserved(s, flows)
    ensures Conserved(Reserve(s, r).0, flows)
  {
    var s' := Reserve(s, r).0;
    if s' == s { return; }
    PushTotal(s.streams, r.source, HoldEvent(r, |s.streams[r.source]|));
    SameFees(s, s');
  }

  lemma CallConserves(s: Store, flows: Flows, pc: Pc)
    requires Ledgered(s) && Adjusted(s) && Conserved(s, flows) && PcOk(s, pc)
    ensures Conserved(Called(s, pc), flows)
  {
    match pc {
      case Done =>
      case Begin(r) =>
        if r.step == Created {
          ReserveConserves(s, flows, r);
        } else if r.step == ComplianceApproved {
          PostConserves(s, flows, r);
        } else if r.step == LedgerPosted {
          FinishConserves(s, flows, r.id, Taken);
        }
      case ReleaseRejected(r) => FinishConserves(s, flows, r.id, GivenBack);
      case ReleaseThenFail(r, _) => FinishConserves(s, flows, r.id, GivenBack);
      case Record(r, approved) => DecideConserves(s, flows, r.id, if approved then Approved else Rejected);
      case Update(r, u, _) => UpdateConserves(s, flows, r.id, u);
    }
  }

  lemma DecideConserves(s: Store, flows: Flows, t: Id, d: Decision)
    requires Conserved(s, flows)
    ensures Conserved(Decide(s, t, d).0, flows)
  {
    SameFees(s, Decide(s, t, d).0);
  }

  lemma UpdateConserves(s: Store, flows: Flows, t: Id, u: SagaUpdate)
    requires Conserved(s, flows)
    ensures Conserved(UpdateTransferSaga(s, t, u).0, flows)
  {
    if t in s.transfers { RecordConserves(s, flows, t, ApplyUpdate(s.transfers[t], u)); }
  }

  /** A record that keeps its fee counts for the same. */
  lemma RecordConserves(s: Store, flows: Flows, t: Id, r: Transfer)
    requires Conserved(s, flows) && t in s.transfers && r.fee == s.transfers[t].fee
    ensures Conserved(s.(transfers := s.transfers[t := r]), flows)
  {
    SameFees(s, s.(transfers := s.transfers[t := r]));
  }

  // ---- clients

  lemma AddTransferConserves(s: Store, flows: Flows, r: Transfer)
    requires TablesOk(s) && Conserved(s, flows) && r.id !in s.transfers
    ensures Conserved(AddTransfer(s, r), flows)
  {
    var s' := AddTransfer(s, r);
    if s' == s { return; }
    assert r.id in s.postings ==> Touched(s, r.id);
    forall t | t in s'.transfers
      ensures FeesKept(s')[t] == FeesKept(s)[r.id := 0][t]
    {
      assert t != r.id ==> FeeKept(s', t) == FeeKept(s, t);
    }
    assert FeesKept(s') == FeesKept(s)[r.id := 0];
    TotalUpdate(FeesKept(s), r.id, 0);
  }

  /** A record in the adjustment table that is not an approved one counts for nothing. */
  lemma TableConserves(s: Store, flows: Flows, j: Id, r: Adjustment)
    requires Conserved(s, flows) && r.status != Accepted
    requires j in s.adjustments ==> s.adjustments[j].status != Accepted
    ensures Conserved(s.(adjustments := s.adjustments[j := r]), flows)
  {
    var s' := s.(adjustments := s.adjustments[j := r]);
    assert Gains(s'.adjustments) == Gains(s.adjustments)[j := 0];
    TotalUpdate(Gains(s.adjustments), j, 0);
    forall t | t in s.transfers
      ensures FeeKept(s', t) == FeeKept(s, t)
    {
      ReversedSame(s.adjustments, j, r, t);
    }
    assert FeesKept(s') == FeesKept(s);
  }

  lemma ReversedSame(adjustments: map<Id, Adjustment>, j: Id, r: Adjustment, t: Id)
    requires !Reverses(r, t) && (j in adjustments ==> !Reverses(adjustments[j], t))
    ensures Reversed(adjustments[j := r], t) <==> Reversed(adjustments, t)
  {
    var after := adjustments[j := r];
    if Reversed(after, t) {
      var i :| i in after && Reverses(after[i], t);
      assert Reverses(adjustments[i], t);
    }
    if Reversed(adjustments, t) {
      var i :| i in adjustments && Reverses(adjustments[i], t);
      assert Reverses(after[i], t);
    }
  }

  lemma BookedTotals(s: Store, r: Adjustment)
    requires r.account in s.streams && (r.originalTransfer.Some? ==> r.counterparty in s.streams)
    ensures Total(Balances(Booked(s, r).streams))
            == Total(Balances(s.streams))
               + (if r.originalTransfer.Some? then r.fee else Gain(r.(status := Accepted)))
  {
    if r.originalTransfer.Some? {
      var d := AdjustmentDebit(r, r.counterparty, |s.streams[r.counterparty]|, r.amount, r.account);
      PushTotal(s.streams, r.counterparty, d);
      var mid := Push(s, r.counterparty, d);
      var c := AdjustmentCredit(r, r.account, |mid.streams[r.account]|, r.amount + r.fee, r.counterparty);
      PushTotal(mid.streams, r.account, c);
    } else if r.direction == Credit {
      PushTotal(s.streams, r.account, AdjustmentCredit(r, r.account, |s.streams[r.account]|, r.amount, NO_ID));
    } else {
      PushTotal(s.streams, r.account, AdjustmentDebit(r, r.account, |s.streams[r.account]|, r.amount, NO_ID));
    }
  }

  /** The fee that the bank still keeps for `t`; for an id that is no transfer, none. */
  ghost function KeptFee(s: Store, t: Id): int {
    if t in s.transfers then FeeKept(s, t) else 0
  }

  /** After an approval that names `t` nothing is kept for it any more. */
  lemma NamedFees(s: Store, j: Id, r': Adjustment, t: Id)
    requires j in s.adjustments && s.adjustments[j].status == Waiting && s.adjustments[j].originalTransfer == Some(t)
    requires r' == s.adjustments[j].(status := Accepted, reviewedBy := r'.reviewedBy)
    ensures Total(FeesKept(s.(adjustments := s.adjustments[j := r']))) == Total(FeesKept(s)) - KeptFee(s, t)
  {
    var s' := s.(adjustments := s.adjustments[j := r']);
    assert Reverses(s'.adjustments[j], t);
    forall x | x in s.transfers
      ensures FeesKept(s')[x] == if x == t then 0 else FeesKept(s)[x]
    {
      if x != t { ReversedSame(s.adjustments, j, r', x); assert FeeKept(s', x) == FeeKept(s, x); }
    }
    if t in s.transfers {
      assert FeesKept(s') == FeesKept(s)[t := 0];
      TotalUpdate(FeesKept(s), t, 0);
    } else {
      assert FeesKept(s') == FeesKept(s);
    }
  }

  /** Approving a transfer reversal gives back exactly one fee, because no other reversal has given it back before. */
  lemma ApprovedFees(s: Store, j: Id, r': Adjustment)
    requires Ledgered(s) && Adjusted(s) && j in s.adjustments && s.adjustments[j].status == Waiting
    requires r' == s.adjustments[j].(status := Accepted, reviewedBy := r'.reviewedBy)
    ensures var s' := s.(adjustments := s.adjustments[j := r']);
            Total(FeesKept(s')) == Total(FeesKept(s)) - (if r'.originalTransfer.Some? then r'.fee else 0)
  {
    var r := s.adjustments[j];
    var s' := s.(adjustments := s.adjustments[j := r']);
    assert AdjustmentOk(s, j, r);
    if r.originalTransfer.Some? {
      var t := r.originalTransfer.value;
      assert TransferOk(s, t, s.transfers[t]);
      forall i | i in s.adjustments
        ensures !Reverses(s.adjustments[i], t)
      {
        if Reverses(s.adjustments[i], t) { assert SameOriginal(s.adjustments[i], s.adjustments[j]); }
      }
      NamedFees(s, j, r', t);
      assert KeptFee(s, t) == r.fee;
    } else {
      forall x | x in s.transfers
        ensures FeeKept(s', x) == FeeKept(s, x)
      {
        ReversedSame(s.adjustments, j, r', x);
      }
      assert FeesKept(s') == FeesKept(s);
    }
  }

  lemma ApproveConserves(s: Store, flows: Flows, j: Id, admin: Id)
    requires Ledgered(s) && Adjusted(s) && Conserved(s, flows)
    ensures Conserved(ApproveAdjustment(s, j, admin).0, flows)
  {
    var (s', result) := ApproveAdjustment(s, j, admin);
    if result.Ok? {
      ApproveChanges(s, j, admin);
      var r, r' := s.adjustments[j], s'.adjustments[j];
      assert AdjustmentOk(s, j, r);
      BookedTotals(s, r);
      ApprovedFees(s, j, r');
      SameFees(s.(adjustments := s'.adjustments), s');
      assert Gains(s'.adjustments) == Gains(s.adjustments)[j := Gain(r')];
      TotalUpdate(Gains(s.adjustments), j, Gain(r'));
    }
  }

  lemma ConservedStep(sys: Sys, act: Action)
    requires Healthy(sys) && Enabled(sys, act) && Conserved(sys.store, sys.flows)
    ensures Conserved(Step(sys, act).store, Step(sys, act).flows)
  {
    var s, flows, flows' := sys.store, sys.flows, Step(sys, act).flows;
    match act {
      case OpenAccount(a, balance) => OpenConserves(s, flows, a, balance);
      case DepositAt(a, loaded, amount) =>
        if PlainAppend(s, DepositEvent(a, |loaded|, amount)).1 {
          PushConserves(s, flows, a, DepositEvent(a, |loaded|, amount), flows');
        }
      case WithdrawNow(a, amount) =>
        if WithdrawAvailable(s, a, amount).1.Ok? {
          PushConserves(s, flows, a, Withdrawal(a, |Stream(s, a)|, amount), flows');
        }
      case WithdrawAt(a, loaded, amount) =>
        if PlainAppend(s, Withdrawal(a, |loaded|, amount)).1 {
          PushConserves(s, flows, a, Withdrawal(a, |loaded|, amount), flows');
        }
      case NewTransfer(r) => AddTransferConserves(s, flows, r);
      case RequestAdjustment(r) =>
        if Normalise(s, r).Ok? { TableConserves(s, flows, r.id, Normalise(s, r).value); }
      case AcceptAdjustment(j, admin) => ApproveConserves(s, flows, j, admin);
      case DeclineAdjustment(j, admin) =>
        if RejectAdjustment(s, j, admin).1.Ok? {
          TableConserves(s, flows, j, RejectAdjustment(s, j, admin).0.adjustments[j]);
        }
      case CallStore(w, answer, now) =>
        assert WorkerOk(s, sys.workers[w]);
        WorkCalls(s, sys.workers[w].pc, answer, now);
        CallConserves(s, flows, sys.workers[w].pc);
      case _ =>
    }
  }

  lemma {:induction false} ConservedAfter(sys: Sys, acts: seq<Action>)
    requires Healthy(sys) && Possible(sys, acts) && Conserved(sys.store, sys.flows)
    ensures Conserved(After(sys, acts).store, After(sys, acts).flows)
    decreases |acts|
  {
    if acts != [] {
      HealthyStep(sys, acts[0]);
      ConservedStep(sys, acts[0]);
      ConservedAfter(Step(sys, acts[0]), acts[1..]);
    }
  }

  /** Conservation over whole runs, with any number of workers, stale or not, and crashes anywhere. */
  lemma MoneyIsConserved(sys: Sys, acts: seq<Action>)
    requires Initial(sys) && Possible(sys, acts)
    ensures Conserved(After(sys, acts).store, After(sys, acts).flows)
  {
    HealthyStart(sys);
    ConservedAfter(sys, acts);
  }
}
