/**
  When the rule of OneWorker holds. It holds without crashes, whatever the compliance checker answers; and it holds
  with crashes between any two store calls if the compliance checker's verdict on a transfer does not change. Then
  crashes do not show.
 */
module Crashes {
  import opened Domain
  import opened Ledger
  import opened Saga
  import opened System
  import opened Trails
  import opened Bookkeeping
  import opened AnyWorkers
  import opened OneWorker
  import opened SafeRuns

  // ---- no crash, arbitrary answers

  ghost predicate HeldOrFailing(s: Store, pc: Pc, t: Id)
    requires t in s.transfers
  {
    s.transfers[t].status == Pending && s.transfers[t].step == FundsHeld ==>
      StateOf(s.reservations, t) == Some(OnHold) || (pc.Update? && pc.r.id == t && pc.u.status == Failed)
  }

  ghost predicate Unbroken(sys: Sys) {
    |sys.workers| == 1 &&
    forall t {:trigger HeldOrFailing(sys.store, sys.workers[0].pc, t)} :: t in sys.store.transfers ==>
      HeldOrFailing(sys.store, sys.workers[0].pc, t)
  }

  lemma CallUnbroken(s: Store, pc: Pc, answer: Answer, now: int)
    requires PcAgrees(s, pc) && pc != Done && Agree(pc.r, FactsOf(s, pc.r.id))
    requires HeldOrFailing(s, pc, pc.r.id)
    ensures var (s', pc', _) := Work(s, pc, answer, now);
            pc.r.id in s'.transfers && HeldOrFailing(s', pc', pc.r.id)
  {
    WorkCalls(s, pc, answer, now);
    CallMovesFacts(s, pc);
  }

  lemma UnbrokenCall(sys: Sys, act: Action)
    requires Safe(sys) && Unbroken(sys) && Enabled(sys, act) && act.CallStore?
    ensures Respects(sys, act) && Unbroken(Step(sys, act))
  {
    var s, s', pc := sys.store, Step(sys, act).store, sys.workers[0].pc;
    WorkCalls(s, pc, act.answer, act.now);
    assert HeldOrFailing(s, pc, pc.r.id) && Agree(pc.r, FactsOf(s, pc.r.id));
    CallUnbroken(s, pc, act.answer, act.now);
    forall t | t in s'.transfers
      ensures HeldOrFailing(s', Step(sys, act).workers[0].pc, t)
    {
      if t != pc.r.id {
        OthersUntouched(s, pc, t);
        assert HeldOrFailing(s, pc, t) && FactsOf(s', t) == FactsOf(s, t);
      }
    }
  }

  lemma UnbrokenOtherwise(sys: Sys, act: Action)
    requires Safe(sys) && Unbroken(sys) && Enabled(sys, act) && !act.CallStore? && !act.Crash? && !act.StoreFails?
    ensures Respects(sys, act) && Unbroken(Step(sys, act))
  {
    var s, s', pc := sys.store, Step(sys, act).store, sys.workers[0].pc;
    ClientsLeaveSaga(sys, act);
    forall t | t in s'.transfers
      ensures HeldOrFailing(s', Step(sys, act).workers[0].pc, t)
    {
      if t in s.transfers {
        assert HeldOrFailing(s, pc, t);
      } else {
        assert act.NewTransfer?;
      }
    }
  }

  lemma UnbrokenStep(sys: Sys, act: Action)
    requires Safe(sys) && Unbroken(sys) && Enabled(sys, act) && !act.Crash? && !act.StoreFails?
    ensures Respects(sys, act) && Unbroken(Step(sys, act))
  {
    if act.CallStore? {
      UnbrokenCall(sys, act);
    } else {
      UnbrokenOtherwise(sys, act);
    }
  }

  /** Without a crash the rule takes care of itself, for every compliance checker and every interleaving of clients. */
  lemma {:induction false} WithoutCrashes(sys: Sys, acts: seq<Action>)
    requires Safe(sys) && Unbroken(sys) && Possible(sys, acts)
    requires Undisturbed(acts)
    ensures Respected(sys, acts) && Unbroken(After(sys, acts))
    decreases |acts|
  {
    if acts != [] {
      UnbrokenStep(sys, acts[0]);
      SafeStep(sys, acts[0]);
      WithoutCrashes(Step(sys, acts[0]), acts[1..]);
    }
  }

  /** So without crashes the saga is safe, whatever the compliance checker answers and whatever clients do. */
  lemma SagaIsSafeWithoutCrashes(sys: Sys, acts: seq<Action>, t: Id, a: Id)
    requires Initial(sys) && |sys.workers| == 1 && Possible(sys, acts)
    requires Undisturbed(acts)
    requires t in After(sys, acts).store.transfers && a in After(sys, acts).store.streams
    ensures SafelyServed(After(sys, acts).store, t, a)
  {
    SafeStart(sys);
    WithoutCrashes(sys, acts);
    SagaIsSafe(sys, acts, t, a);
  }

  // ---- crashes, fixed verdicts

  /** Status and failure code that a verdict leads to once the funds are held. */
  function Outcome(verdict: Answer): (TransferStatus, Option<FailureCode>) {
    match verdict
    case Approve => (Completed, None)
    case Refuse => (Failed, Some(ComplianceRejected))
    case Broken(AccountNotFound) => (Failed, Some(AccountMissing))
    case Broken(InsufficientFunds) => (Failed, Some(FundsMissing))
    case Broken(_) => (Failed, Some(RetryExhausted))
  }

  /** A final status is the one the verdict calls for, or the funds could not be held in the first place. */
  predicate CalledFor(verdict: Answer, hold: Option<HoldState>, status: TransferStatus, failure: Option<FailureCode>) {
    status != Pending ==>
      if hold == None then status == Failed && (failure == Some(AccountMissing) || failure == Some(FundsMissing))
      else (status, failure) == Outcome(verdict)
  }

  ghost predicate Follows(s: Store, r: Transfer, verdict: Answer) {
    var f := FactsOf(s, r.id);
    && (f.hold == Some(GivenBack) ==> verdict != Approve)
    && (f.decision == Some(Approved) ==> verdict == Approve)
    && (f.decision == Some(Rejected) ==> verdict == Refuse)
    && CalledFor(verdict, f.hold, r.status, r.failure)
  }

  ghost predicate PcFollows(s: Store, pc: Pc, verdict: Answer) {
    match pc
    case Done => true
    case Begin(_) => true
    case Record(_, approved) => verdict == if approved then Approve else Refuse
    case ReleaseRejected(_) => verdict == Refuse
    case ReleaseThenFail(_, u) => verdict.Broken? && (u.status, u.failure) == Outcome(verdict)
    case Update(r, u, _) => CalledFor(verdict, StateOf(s.reservations, r.id), u.status, u.failure)
  }

  ghost predicate Steady(sys: Sys, verdicts: Id -> Answer) {
    && |sys.workers| == 1
    && (forall t {:trigger Follows(sys.store, sys.store.transfers[t], verdicts(t))} :: t in sys.store.transfers ==>
          Follows(sys.store, sys.store.transfers[t], verdicts(t)))
    && var pc := sys.workers[0].pc;
       pc != Done ==> PcFollows(sys.store, pc, verdicts(pc.r.id))
  }

  /** Every call of the compliance checker gives the verdict of its transfer, and no store call fails by itself. */
  ghost predicate Gives(sys: Sys, act: Action, verdicts: Id -> Answer)
    requires Enabled(sys, act)
  {
    && !act.StoreFails?
    && (act.CallStore? && sys.workers[act.w].pc.Begin? ==> act.answer == verdicts(sys.workers[act.w].pc.r.id))
  }

  lemma CallFollows(s: Store, pc: Pc, answer: Answer, now: int)
    requires Ledgered(s) && PcAgrees(s, pc) && pc != Done && Agree(pc.r, FactsOf(s, pc.r.id))
    requires Follows(s, pc.r, answer) && PcFollows(s, pc, answer)
    ensures var (s', pc', _) := Work(s, pc, answer, now);
            && PcFollows(s', pc', answer)
            && pc.r.id in s'.transfers && Follows(s', s'.transfers[pc.r.id], answer)
  {
    WorkCalls(s, pc, answer, now);
    CallMovesFacts(s, pc);
    if pc.Begin? { CallsSucceed(s, pc); }
  }

  lemma AnswerOnlyAtBegin(s: Store, pc: Pc, answer: Answer, other: Answer, now: int)
    requires !pc.Begin?
    ensures Work(s, pc, answer, now) == Work(s, pc, other, now)
  {
  }

  lemma SteadyCall(sys: Sys, act: Action, verdicts: Id -> Answer)
    requires Safe(sys) && Steady(sys, verdicts) && Enabled(sys, act) && act.CallStore? && Gives(sys, act, verdicts)
    ensures Respects(sys, act) && Steady(Step(sys, act), verdicts)
  {
    var s, pc := sys.store, sys.workers[0].pc;
    var sys' := Step(sys, act);
    var s' := sys'.store;
    var verdict := verdicts(pc.r.id);
    if !pc.Begin? { AnswerOnlyAtBegin(s, pc, act.answer, verdict, act.now); }
    WorkCalls(s, pc, verdict, act.now);
    assert Agree(pc.r, FactsOf(s, pc.r.id)) && Follows(s, pc.r, verdict);
    CallFollows(s, pc, verdict, act.now);
    CallAgrees(s, pc, verdict, act.now);
    forall t | t in s'.transfers
      ensures Follows(s', s'.transfers[t], verdicts(t))
    {
      assert TransferOk(s', t, s'.transfers[t]) by { HealthyStep(sys, act); }
      if t != pc.r.id {
        OthersUntouched(s, pc, t);
        assert TransferOk(s, t, s.transfers[t]);
        assert FactsOf(s', t) == FactsOf(s, t) && Follows(s, s.transfers[t], verdicts(t));
      }
    }
  }

  lemma PcFollowsStill(sys: Sys, act: Action, verdicts: Id -> Answer)
    requires Steady(sys, verdicts) && Enabled(sys, act) && !act.CallStore? && !act.StoreFails?
    requires SagaUntouched(sys.store, Step(sys, act).store)
    ensures var sys' := Step(sys, act);
            && |sys'.workers| == 1
            && var pc := sys'.workers[0].pc;
               pc != Done ==> PcFollows(sys'.store, pc, verdicts(pc.r.id))
  {
    var pc, pc' := sys.workers[0].pc, Step(sys, act).workers[0].pc;
    if pc' != Done && !pc'.Begin? {
      assert pc' == pc;
      assert PcFollows(sys.store, pc, verdicts(pc.r.id));
      assert PcFollows(Step(sys, act).store, pc, verdicts(pc.r.id));
    }
  }

  lemma SteadyClients(sys: Sys, act: Action, verdicts: Id -> Answer)
    requires Safe(sys) && Steady(sys, verdicts) && Enabled(sys, act) && !act.CallStore? && !act.StoreFails?
    ensures Steady(Step(sys, act), verdicts)
  {
    var s, s' := sys.store, Step(sys, act).store;
    ClientsLeaveSaga(sys, act);
    PcFollowsStill(sys, act, verdicts);
    forall t | t in s'.transfers
      ensures Follows(s', s'.transfers[t], verdicts(t))
    {
      if t in s.transfers {
        assert TransferOk(s, t, s.transfers[t]);
        assert FactsOf(s', t) == FactsOf(s, t) && Follows(s, s.transfers[t], verdicts(t));
      } else {
        assert act.NewTransfer? && t == act.r.id;
        assert Agree(s'.transfers[t], FactsOf(s', t));
      }
    }
  }

  ghost predicate Given(sys: Sys, acts: seq<Action>, verdicts: Id -> Answer)
    requires Possible(sys, acts)
    decreases |acts|
  {
    acts != [] ==> Gives(sys, acts[0], verdicts) && Given(Step(sys, acts[0]), acts[1..], verdicts)
  }

  /** With a fixed verdict per transfer the rule survives crashes between any two store calls. */
  lemma {:induction false} FixedVerdicts(sys: Sys, acts: seq<Action>, verdicts: Id -> Answer)
    requires Safe(sys) && Steady(sys, verdicts) && Possible(sys, acts) && Given(sys, acts, verdicts)
    ensures Respected(sys, acts) && Safe(After(sys, acts)) && Steady(After(sys, acts), verdicts)
    decreases |acts|
  {
    if acts != [] {
      if acts[0].CallStore? {
        SteadyCall(sys, acts[0], verdicts);
      } else {
        SteadyClients(sys, acts[0], verdicts);
      }
      SafeStep(sys, acts[0]);
      FixedVerdicts(Step(sys, acts[0]), acts[1..], verdicts);
    }
  }

  /** What is left of a finished transfer: its final status and code, and its marks on an account. */
  ghost function Trace(s: Store, t: Id, a: Id): (TransferStatus, Option<FailureCode>, seq<Mark>)
    requires t in s.transfers && a in s.streams
  {
    (s.transfers[t].status, s.transfers[t].failure, Marks(s.streams[a], t))
  }

  /** The trace that record `r` must leave on `a` under a verdict, once its funds were held. */
  function ExpectedTrace(r: Transfer, a: Id, verdict: Answer): (TransferStatus, Option<FailureCode>, seq<Mark>) {
    var hold := [Held(Due(r))];
    var marks :=
      if a == r.source then
        if verdict == Approve then hold + LegMarks(r) + [Charged(Due(r))] else hold + [Freed(Due(r))]
      else if a == r.destination && verdict == Approve then [Received(r.amount)]
      else [];
    (Outcome(verdict).0, Outcome(verdict).1, marks)
  }

  /** And with crashes it is safe under fixed verdicts. */
  lemma SagaIsSafeUnderVerdicts(sys: Sys, acts: seq<Action>, verdicts: Id -> Answer, t: Id, a: Id)
    requires Initial(sys) && |sys.workers| == 1 && Possible(sys, acts) && Given(sys, acts, verdicts)
    requires t in After(sys, acts).store.transfers && a in After(sys, acts).store.streams
    ensures SafelyServed(After(sys, acts).store, t, a)
  {
    SafeStart(sys);
    FixedVerdicts(sys, acts, verdicts);
    SagaIsSafe(sys, acts, t, a);
  }

  lemma FinishedTrace(s: Store, t: Id, a: Id, verdict: Answer)
    requires Ledgered(s) && t in s.transfers && a in s.streams
    requires Agree(s.transfers[t], FactsOf(s, t)) && OrderedAt(s, t)
    requires s.transfers[t].status != Pending && Follows(s, s.transfers[t], verdict)
    ensures if t in s.reservations then Trace(s, t, a) == ExpectedTrace(s.transfers[t], a, verdict)
            else s.transfers[t].status == Failed && Marks(s.streams[a], t) == []
  {
    assert TransferOk(s, t, s.transfers[t]);
    SafeMarks(s, t, a);
  }

  /** However the worker is cut, a finished transfer whose funds were ever held has left the expected trace. */
  lemma CrashesDoNotShow(sys: Sys, acts: seq<Action>, verdicts: Id -> Answer, t: Id, a: Id)
    requires Initial(sys) && |sys.workers| == 1 && Possible(sys, acts) && Given(sys, acts, verdicts)
    requires t in After(sys, acts).store.transfers && a in After(sys, acts).store.streams
    requires After(sys, acts).store.transfers[t].status != Pending
    ensures var s := After(sys, acts).store;
            if t in s.reservations then Trace(s, t, a) == ExpectedTrace(s.transfers[t], a, verdicts(t))
            else s.transfers[t].status == Failed && Marks(s.streams[a], t) == []
  {
    SafeStart(sys);
    FixedVerdicts(sys, acts, verdicts);
    SteadyTransfer(After(sys, acts), verdicts, t);
    FinishedTrace(After(sys, acts).store, t, a, verdicts(t));
  }

  lemma SteadyTransfer(sys: Sys, verdicts: Id -> Answer, t: Id)
    requires Safe(sys) && Steady(sys, verdicts) && t in sys.store.transfers
    ensures var s := sys.store;
            && s.transfers[t].id == t && Agree(s.transfers[t], FactsOf(s, t)) && OrderedAt(s, t)
            && Follows(s, s.transfers[t], verdicts(t))
  {
    assert TransferOk(sys.store, t, sys.store.transfers[t]);
    assert Agree(sys.store.transfers[t], FactsOf(sys.store, t)) && OrderedAt(sys.store, t);
  }
}
