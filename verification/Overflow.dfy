/**
  When int64 is wide enough. If all the money that ever came in fits, then so does every balance and every reserved
  amount that any fold of any stream ever computes, and the folds of the source are the folds of this model.
 */
module Overflow {
  import opened Domain
  import opened Replay
  import opened Sums
  import opened Ledger
  import opened Saga
  import opened System
  import opened Bookkeeping
  import opened Adjustments
  import opened AnyWorkers
  import opened OneWorker
  import opened Solvency
  import opened SafeRuns
  import opened Conservation

  // ---- what came in

  function CreditIn(r: Adjustment): Money {
    if r.status == Accepted && r.originalTransfer == None && r.direction == Credit then r.amount else 0
  }

  ghost function CreditsIn(adjustments: map<Id, Adjustment>): map<Id, int> {
    map j | j in adjustments :: CreditIn(adjustments[j])
  }

  /** Openings, deposits, and approved credits: manual ones and reversals of withdrawals. */
  ghost function Injected(sys: Sys): Money {
    sys.flows.openings + sys.flows.deposits + Total(CreditsIn(sys.store.adjustments))
  }

  lemma InjectedGrows(sys: Sys, act: Action)
    requires Healthy(sys) && Enabled(sys, act)
    ensures Injected(sys) <= Injected(Step(sys, act))
  {
    var m, m' := sys.store.adjustments, Step(sys, act).store.adjustments;
    HealthyStep(sys, act);
    CreditsGrow(sys.store, Step(sys, act).store);
  }

  /** The part of a larger table that lies in the smaller one is at least as much, and the rest is not negative. */
  lemma CreditsGrow(s: Store, s': Store)
    requires Adjusted(s') && Grows(s, s')
    ensures Total(CreditsIn(s.adjustments)) <= Total(CreditsIn(s'.adjustments))
  {
    forall j | j in s'.adjustments
      ensures 0 <= CreditIn(s'.adjustments[j])
      ensures j in s.adjustments ==> CreditIn(s.adjustments[j]) <= CreditIn(s'.adjustments[j])
    {
      assert AdjustmentOk(s', j, s'.adjustments[j]);
    }
    assert forall j :: j in s.adjustments ==> j in s'.adjustments;
    TotalWiden(CreditsIn(s.adjustments), CreditsIn(s'.adjustments));
  }

  // ---- every prefix stays within what came in

  ghost predicate Within(t: Tally, limit: Money) {
    0 <= t.balance <= limit && 0 <= t.reserved <= limit
  }

  ghost predicate PrefixesWithin(es: seq<Event>, limit: Money) {
    forall k :: 0 <= k <= |es| ==> Within(ReplayOf(es[..k]), limit)
  }

  ghost predicate AllWithin(s: Store, limit: Money) {
    forall a {:trigger PrefixesWithin(s.streams[a], limit)} :: a in s.streams ==> PrefixesWithin(s.streams[a], limit)
  }

  lemma PrefixPush(es: seq<Event>, e: Event, limit: Money)
    requires PrefixesWithin(es, limit) && Within(ReplayOf(es + [e]), limit)
    ensures PrefixesWithin(es + [e], limit)
  {
    forall k | 0 <= k <= |es + [e]|
      ensures Within(ReplayOf((es + [e])[..k]), limit)
    {
      if k <= |es| {
        assert (es + [e])[..k] == es[..k];
      } else {
        assert (es + [e])[..k] == es + [e];
      }
    }
  }

  lemma PrefixWiden(es: seq<Event>, limit: Money, limit': Money)
    requires PrefixesWithin(es, limit) && limit <= limit'
    ensures PrefixesWithin(es, limit')
  {
  }

  /** No balance is more than all balances together, and these are no more than what came in. */
  lemma BalanceWithin(sys: Sys, a: Id)
    requires Safe(sys) && Conserved(sys.store, sys.flows) && 0 <= sys.flows.withdrawals && a in sys.store.streams
    ensures 0 <= ReplayOf(sys.store.streams[a]).balance <= Injected(sys)
  {
    var s := sys.store;
    forall b | b in s.streams
      ensures 0 <= Balances(s.streams)[b]
    {
      assert SolventAt(s, b);
      assert s.streams[b][..|s.streams[b]|] == s.streams[b];
    }
    TotalNonNegative(Balances(s.streams));
    assert Balances(s.streams)[a] <= Total(Balances(s.streams));
    forall t | t in s.transfers
      ensures 0 <= FeeKept(s, t)
    {
      assert TransferOk(s, t, s.transfers[t]);
    }
    TotalNonNegative(FeesKept(s));
    forall j | j in s.adjustments
      ensures Gain(s.adjustments[j]) <= CreditIn(s.adjustments[j])
    {
      assert AdjustmentOk(s, j, s.adjustments[j]);
    }
    TotalMonotone(Gains(s.adjustments), CreditsIn(s.adjustments));
  }

  lemma ReservedNotNegative(s: Store, a: Id)
    requires Ledgered(s) && a in s.streams
    ensures 0 <= ReplayOf(s.streams[a]).reserved
  {
    PromisedWithinReserved(s, a);
  }

  /** How a stream may grow in one step: not at all, by one event, or by the legs of a posting. */
  ghost predicate OneStepOf(es: seq<Event>, es': seq<Event>) {
    || es' == es
    || (|es'| == |es| + 1 && es'[..|es|] == es && Modest(es, es'[|es|]))
    || (exists r: Transfer :: 0 <= r.fee && 0 <= r.amount && es' == es + SourceLegs(r, |es|))
  }

  /** A new hold is covered by the balance; no other event reserves anything. */
  ghost predicate Modest(es: seq<Event>, e: Event) {
    var t := Apply(ReplayOf(es), e);
    t.reserved <= ReplayOf(es).reserved || t.reserved <= t.balance
  }

  lemma StreamWithin(es: seq<Event>, es': seq<Event>, limit: Money)
    requires PrefixesWithin(es, limit) && OneStepOf(es, es')
    requires 0 <= ReplayOf(es').balance <= limit && 0 <= ReplayOf(es').reserved
    ensures PrefixesWithin(es', limit)
  {
    assert es[..|es|] == es;
    assert Within(ReplayOf(es), limit);
    if es' == es {
    } else if |es'| == |es| + 1 && es'[..|es|] == es && Modest(es, es'[|es|]) {
      assert es' == es + [es'[|es|]];
      ReplayAppend(es, es'[|es|]);
      PrefixPush(es, es'[|es|], limit);
    } else {
      var r: Transfer :| 0 <= r.fee && 0 <= r.amount && es' == es + SourceLegs(r, |es|);
      LegsWithin(es, r, limit);
    }
  }

  lemma LegsWithin(es: seq<Event>, r: Transfer, limit: Money)
    requires PrefixesWithin(es, limit) && Within(ReplayOf(es), limit) && 0 <= r.fee && 0 <= r.amount
    requires 0 <= ReplayOf(es + SourceLegs(r, |es|)).balance
    ensures PrefixesWithin(es + SourceLegs(r, |es|), limit)
  {
    if r.fee > 0 {
      var f, d := FeeEvent(r, |es|), DebitEvent(r, |es| + 1);
      assert es + SourceLegs(r, |es|) == es + [f] + [d];
      ReplayAppend(es, f);
      ReplayAppend(es + [f], d);
      PrefixPush(es, f, limit);
      PrefixPush(es + [f], d, limit);
    } else {
      ReplayAppend(es, DebitEvent(r, |es|));
      PrefixPush(es, DebitEvent(r, |es|), limit);
    }
  }

  // ---- every step grows every stream in that way

  lemma PushGrowth(s: Store, a: Id, e: Event, b: Id)
    requires a in s.streams && b in s.streams && Modest(s.streams[a], e)
    ensures b in Push(s, a, e).streams && OneStepOf(s.streams[b], Push(s, a, e).streams[b])
  {
    assert (s.streams[a] + [e])[..|s.streams[a]|] == s.streams[a];
  }

  lemma CallGrowth(s: Store, pc: Pc, b: Id)
    requires Ledgered(s) && PcOk(s, pc) && b in s.streams
    ensures b in Called(s, pc).streams && OneStepOf(s.streams[b], Called(s, pc).streams[b])
  {
    match pc {
      case Done =>
      case Begin(r) =>
        if r.step == Created {
          if Reserve(s, r).0 != s { PushGrowth(s, r.source, HoldEvent(r, |s.streams[r.source]|), b); }
        } else if r.step == ComplianceApproved {
          PostGrowth(s, r, b);
        } else if r.step == LedgerPosted {
          FinishGrowth(s, r.id, Taken, b);
        }
      case ReleaseRejected(r) => FinishGrowth(s, r.id, GivenBack, b);
      case ReleaseThenFail(r, _) => FinishGrowth(s, r.id, GivenBack, b);
      case Record(_, _) =>
      case Update(_, _, _) =>
    }
  }

  lemma PostGrowth(s: Store, r: Transfer, b: Id)
    requires Ledgered(s) && Known(s, r) && b in s.streams
    ensures b in Post(s, r).0.streams && OneStepOf(s.streams[b], Post(s, r).0.streams[b])
  {
    assert TransferOk(s, r.id, s.transfers[r.id]);
    if Post(s, r).0 != s && b == r.destination {
      var es := s.streams[b];
      assert (es + [CreditEvent(r, |es|)])[..|es|] == es;
    }
  }

  lemma FinishGrowth(s: Store, t: Id, target: HoldState, b: Id)
    requires Ledgered(s) && b in s.streams
    ensures b in Finish(s, t, target).0.streams && OneStepOf(s.streams[b], Finish(s, t, target).0.streams[b])
  {
    if Finish(s, t, target).0 != s {
      var h := s.reservations[t];
      assert HoldOk(s, t, h) && TransferOk(s, t, s.transfers[t]);
      PushGrowth(s, h.account, EndEvent(h, t, |s.streams[h.account]|, target), b);
    }
  }

  lemma MoneyGrowth(es: seq<Event>, more: seq<Event>)
    requires |more| <= 1 && (more != [] ==> more[0].MoneyCredited? || more[0].MoneyDebited?)
    ensures OneStepOf(es, es + more)
  {
    if more == [] {
      assert es + more == es;
    } else {
      assert (es + more)[..|es|] == es;
    }
  }

  lemma ApproveGrowth(s: Store, j: Id, admin: Id, b: Id)
    requires Ledgered(s) && Adjusted(s) && b in s.streams && ApproveAdjustment(s, j, admin).1.Ok?
    ensures var s' := ApproveAdjustment(s, j, admin).0;
            s'.streams.Keys == s.streams.Keys && OneStepOf(s.streams[b], s'.streams[b])
  {
    ApprovalBooks(s, j, admin);
    BookedStreams(s, j);
    BookingsGrow(s, s.adjustments[j], b);
  }

  lemma BookingsGrow(s: Store, r: Adjustment, b: Id)
    requires b in s.streams
    ensures OneStepOf(s.streams[b], s.streams[b] + Bookings(s, r, b))
  {
    MoneyGrowth(s.streams[b], Bookings(s, r, b));
  }

  lemma StepGrowth(sys: Sys, act: Action, b: Id)
    requires Healthy(sys) && Enabled(sys, act) && b in sys.store.streams
    ensures b in Step(sys, act).store.streams
    ensures OneStepOf(sys.store.streams[b], Step(sys, act).store.streams[b])
  {
    var s := sys.store;
    match act {
      case DepositAt(a, loaded, amount) =>
        if PlainAppend(s, DepositEvent(a, |loaded|, amount)).1 {
          PushGrowth(s, a, DepositEvent(a, |loaded|, amount), b);
        }
      case WithdrawNow(a, amount) =>
        if WithdrawAvailable(s, a, amount).1.Ok? {
          PushGrowth(s, a, Withdrawal(a, |Stream(s, a)|, amount), b);
        }
      case WithdrawAt(a, loaded, amount) =>
        if PlainAppend(s, Withdrawal(a, |loaded|, amount)).1 {
          PushGrowth(s, a, Withdrawal(a, |loaded|, amount), b);
        }
      case AcceptAdjustment(j, admin) =>
        if ApproveAdjustment(s, j, admin).1.Ok? { ApproveGrowth(s, j, admin, b); }
      case CallStore(w, answer, now) =>
        assert WorkerOk(s, sys.workers[w]);
        WorkCalls(s, sys.workers[w].pc, answer, now);
        CallGrowth(s, sys.workers[w].pc, b);
      case _ =>
    }
  }

  ghost predicate Bounded(sys: Sys) {
    && Safe(sys) && Conserved(sys.store, sys.flows)
    && 0 <= sys.flows.withdrawals
    && AllWithin(sys.store, Injected(sys))
  }

  lemma BoundedStep(sys: Sys, act: Action)
    requires Bounded(sys) && Enabled(sys, act) && Respects(sys, act)
    ensures Bounded(Step(sys, act))
  {
    var sys' := Step(sys, act);
    var s, s' := sys.store, sys'.store;
    SafeStep(sys, act);
    ConservedStep(sys, act);
    InjectedGrows(sys, act);
    forall a | a in s'.streams
      ensures PrefixesWithin(s'.streams[a], Injected(sys'))
    {
      BalanceWithin(sys', a);
      ReservedNotNegative(s', a);
      if a in s.streams { assert PrefixesWithin(s.streams[a], Injected(sys)); }
      StreamBounded(sys, act, a, Injected(sys), Injected(sys'));
    }
  }

  lemma StreamBounded(sys: Sys, act: Action, a: Id, limit: Money, limit': Money)
    requires Healthy(sys) && Enabled(sys, act) && a in Step(sys, act).store.streams && limit <= limit'
    requires a in sys.store.streams ==> PrefixesWithin(sys.store.streams[a], limit)
    requires var t := ReplayOf(Step(sys, act).store.streams[a]); 0 <= t.balance <= limit' && 0 <= t.reserved
    ensures PrefixesWithin(Step(sys, act).store.streams[a], limit')
  {
    var es' := Step(sys, act).store.streams[a];
    if a in sys.store.streams {
      var es := sys.store.streams[a];
      PrefixWiden(es, limit, limit');
      StepGrowth(sys, act, a);
      StreamWithin(es, es', limit');
    } else {
      NewStream(sys, act, a);
      assert es' == [] + [es'[0]];
      ReplayAppend([], es'[0]);
      PrefixPush([], es'[0], limit');
    }
  }

  lemma OnlyOpeningOpens(sys: Sys, act: Action)
    requires Healthy(sys) && Enabled(sys, act) && !act.OpenAccount?
    ensures Step(sys, act).store.streams.Keys == sys.store.streams.Keys
  {
    var s := sys.store;
    match act {
      case AcceptAdjustment(j, admin) =>
        if ApproveAdjustment(s, j, admin).1.Ok? { BookedStreams(s, j); }
      case CallStore(w, answer, now) =>
        assert WorkerOk(s, sys.workers[w]);
        WorkCalls(s, sys.workers[w].pc, answer, now);
        CallOpensNone(s, sys.workers[w].pc);
      case _ =>
    }
  }

  lemma CallOpensNone(s: Store, pc: Pc)
    requires Ledgered(s) && PcOk(s, pc)
    ensures Called(s, pc).streams.Keys == s.streams.Keys
  {
    if pc != Done && pc.r.id in s.reservations {
      assert HoldOk(s, pc.r.id, s.reservations[pc.r.id]);
    }
  }

  lemma NewStream(sys: Sys, act: Action, a: Id)
    requires Healthy(sys) && Enabled(sys, act)
    requires a in Step(sys, act).store.streams && a !in sys.store.streams
    ensures act.OpenAccount? && Step(sys, act).store.streams[a] == [AccountOpened(a, 0, act.balance)]
  {
    if !act.OpenAccount? { OnlyOpeningOpens(sys, act); }
  }

  lemma {:induction false} BoundedRun(sys: Sys, acts: seq<Action>)
    requires Bounded(sys) && Possible(sys, acts) && Respected(sys, acts)
    ensures Bounded(After(sys, acts))
    decreases |acts|
  {
    if acts != [] {
      BoundedStep(sys, acts[0]);
      BoundedRun(Step(sys, acts[0]), acts[1..]);
    }
  }

  // ---- the folds of the source

  /** The fold in int64 arithmetic. */
  function ReplayWrapped(es: seq<Event>): Tally {
    if es == [] then Tally(0, 0)
    else
      var t := Apply(ReplayWrapped(es[..|es| - 1]), es[|es| - 1]);
      Tally(Wrap(t.balance), Wrap(t.reserved))
  }

  lemma {:induction false} WrappedIsExact(es: seq<Event>)
    requires PrefixesWithin(es, MAX_INT64)
    ensures ReplayWrapped(es) == ReplayOf(es)
    ensures Wrap(ReplayOf(es).Available()) == ReplayOf(es).Available()
  {
    assert es[..|es|] == es;
    assert Within(ReplayOf(es), MAX_INT64);
    if es != [] {
      var before := es[..|es| - 1];
      forall k | 0 <= k <= |before|
        ensures Within(ReplayOf(before[..k]), MAX_INT64)
      {
        assert before[..k] == es[..k];
      }
      WrappedIsExact(before);
    }
  }

  /** If everything that came in fits in int64, no fold of any prefix of any stream ever overflows. */
  lemma NoOverflow(sys: Sys, acts: seq<Action>, a: Id, k: nat)
    requires Initial(sys) && |sys.workers| == 1 && Possible(sys, acts) && Respected(sys, acts)
    requires Injected(After(sys, acts)) <= MAX_INT64
    requires a in After(sys, acts).store.streams && k <= |After(sys, acts).store.streams[a]|
    ensures var es := After(sys, acts).store.streams[a][..k];
            && Within(ReplayOf(es), MAX_INT64)
            && ReplayWrapped(es) == ReplayOf(es) && Wrap(ReplayOf(es).Available()) == ReplayOf(es).Available()
  {
    SafeStart(sys);
    BoundedRun(sys, acts);
    var es := After(sys, acts).store.streams[a];
    assert PrefixesWithin(es, Injected(After(sys, acts)));
    PrefixWiden(es, Injected(After(sys, acts)), MAX_INT64);
    PrefixNarrow(es, k, MAX_INT64);
    assert es[..k][..k] == es[..k];
    WrappedIsExact(es[..k]);
  }

  lemma PrefixNarrow(es: seq<Event>, k: nat, limit: Money)
    requires PrefixesWithin(es, limit) && k <= |es|
    ensures PrefixesWithin(es[..k], limit)
  {
    forall i | 0 <= i <= k
      ensures Within(ReplayOf(es[..k][..i]), limit)
    {
      assert es[..k][..i] == es[..i];
    }
  }

  // ---- exactly when int64 is wide enough

  /** The folds of a stream are exact if and only if int64 holds every balance and reserved amount on the way. */
  lemma WrappedIsExactIff(es: seq<Event>)
    ensures (forall k :: 0 <= k <= |es| ==> ReplayWrapped(es[..k]) == ReplayOf(es[..k]))
            <==> (forall k :: 0 <= k <= |es| ==> Int64(ReplayOf(es[..k]).balance) && Int64(ReplayOf(es[..k]).reserved))
  {
    forall k | 0 <= k <= |es|
      ensures Int64(ReplayWrapped(es[..k]).balance) && Int64(ReplayWrapped(es[..k]).reserved)
    {
    }
    if forall k :: 0 <= k <= |es| ==> Int64(ReplayOf(es[..k]).balance) && Int64(ReplayOf(es[..k]).reserved) {
      forall k | 0 <= k <= |es|
        ensures ReplayWrapped(es[..k]) == ReplayOf(es[..k])
      {
        PrefixIsExact(es, k);
      }
    }
  }

  lemma {:induction false} PrefixIsExact(es: seq<Event>, k: nat)
    requires k <= |es|
    requires forall i :: 0 <= i <= |es| ==> Int64(ReplayOf(es[..i]).balance) && Int64(ReplayOf(es[..i]).reserved)
    ensures ReplayWrapped(es[..k]) == ReplayOf(es[..k])
  {
    if k > 0 {
      PrefixIsExact(es, k - 1);
      assert es[..k][..k - 1] == es[..k - 1];
    }
  }

  /** The next credit on a stream without overflow overflows if and only if it exceeds what is left below MaxInt64. */
  lemma CreditFitsIff(es: seq<Event>, e: Event)
    requires PrefixesWithin(es, MAX_INT64) && e.MoneyCredited? && 0 <= e.amount <= MAX_INT64
    ensures ReplayWrapped(es + [e]) == ReplayOf(es + [e]) <==> e.amount <= MAX_INT64 - ReplayOf(es).balance
  {
    WrappedIsExact(es);
    assert es[..|es|] == es;
    assert Within(ReplayOf(es), MAX_INT64);
    assert (es + [e])[..|es|] == es;
  }

  /** The three ways to credit an account: a deposit, the leg of a transfer, and an approved adjustment. */
  lemma EachCreditFitsIff(es: seq<Event>, a: Id, amount: Money, r: Transfer, j: Adjustment, other: Id)
    requires PrefixesWithin(es, MAX_INT64)
    requires 0 <= amount <= MAX_INT64 && 0 <= r.amount <= MAX_INT64
    ensures var room := MAX_INT64 - ReplayOf(es).balance;
            && (Exact(es + [DepositEvent(a, |es|, amount)]) <==> amount <= room)
            && (Exact(es + [CreditEvent(r, |es|)]) <==> r.amount <= room)
            && (Exact(es + [AdjustmentCredit(j, a, |es|, amount, other)]) <==> amount <= room)
  {
    CreditFitsIff(es, DepositEvent(a, |es|, amount));
    CreditFitsIff(es, CreditEvent(r, |es|));
    CreditFitsIff(es, AdjustmentCredit(j, a, |es|, amount, other));
  }

  ghost predicate Exact(es: seq<Event>) {
    ReplayWrapped(es) == ReplayOf(es)
  }

  /** In every reachable state without overflow so far, a deposit that goes through is exact if and only if it fits. */
  lemma DepositFitsIff(sys: Sys, acts: seq<Action>, a: Id, loaded: seq<Event>, amount: Money)
    requires Initial(sys) && Possible(sys, acts) && AllWithin(After(sys, acts).store, MAX_INT64)
    requires Enabled(After(sys, acts), DepositAt(a, loaded, amount)) && amount <= MAX_INT64
    requires PlainAppend(After(sys, acts).store, DepositEvent(a, |loaded|, amount)).1
    ensures Exact(Stream(Step(After(sys, acts), DepositAt(a, loaded, amount)).store, a))
            <==> amount <= MAX_INT64 - TallyOf(After(sys, acts).store, a).balance
  {
    HealthyStart(sys);
    HealthyRun(sys, acts);
    var s := After(sys, acts).store;
    FreshTicket(After(sys, acts), a, loaded);
    assert PrefixesWithin(s.streams[a], MAX_INT64);
    CreditFitsIff(loaded, DepositEvent(a, |loaded|, amount));
  }

  // ---- deposits have no upper limit

  const START: Sys := Sys(EMPTY, [Worker(Done, [])], {}, [], Flows(0, 0, 0))
  const RICH: Id := 1
  const FULL: seq<Event> := [AccountOpened(RICH, 0, MAX_INT64)]

  /** A reachable state in which an int64 balance has wrapped to a negative one. */
  lemma DepositsCanOverflow()
    ensures Initial(START)
    ensures exists sys ::
              && Reaches(START, sys) && RICH in sys.store.streams
              && ReplayWrapped(sys.store.streams[RICH]).balance < 0 < ReplayOf(sys.store.streams[RICH]).balance
  {
    var funded := Step(START, OpenAccount(RICH, MAX_INT64));
    assert Possible(START, []) && After(START, []) == START;
    Then(START, START, OpenAccount(RICH, MAX_INT64));
    assert Stream(funded.store, RICH) == FULL;
    Then(START, funded, LoadStream(RICH));
    var seen := Step(funded, LoadStream(RICH));
    Then(START, seen, DepositAt(RICH, FULL, 1000));
    var rich := Step(seen, DepositAt(RICH, FULL, 1000));
    assert rich.store.streams[RICH] == FULL + [DepositEvent(RICH, 1, 1000)];
    FullOverflows();
  }

  lemma FullOverflows()
    ensures ReplayOf(FULL + [DepositEvent(RICH, 1, 1000)]).balance == MAX_INT64 + 1000
    ensures ReplayWrapped(FULL + [DepositEvent(RICH, 1, 1000)]).balance == -TWO_63 + 999
  {
    var e := AccountOpened(RICH, 0, MAX_INT64);
    var es := FULL + [DepositEvent(RICH, 1, 1000)];
    assert es[..1] == [e] && [e][..0] == [];
  }
}
