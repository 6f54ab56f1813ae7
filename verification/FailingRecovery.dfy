/**
  Recovery where store calls fail. The worker may die and any of its store calls may fail, the releases and updates
  included; what it leaves pending is finished by nine calls that go through, as the verdict calls for. The one
  exception is exact: a transfer that is approved although its funds were given back.
 */
module FailingRecovery {
  import opened Domain
  import opened Ledger
  import opened Saga
  import opened System
  import opened Trails
  import opened Bookkeeping
  import opened AnyWorkers
  import opened OneWorker
  import opened SafeRuns
  import opened Crashes
  import opened Progress
  import opened Recovery
  import opened Solvency
  import opened SolventRuns

  // ---- what lasts

  /** What step and verdict say about the facts of a pending transfer. */
  predicate Lasting(r: Transfer, f: Facts, verdict: Answer) {
    r.status == Pending ==>
      && 0 <= r.attempts
      && (r.step == Created || r.step == FundsHeld || r.step == ComplianceApproved ==> r.attempts < MAX_ATTEMPTS)
      && (2 <= Rank(r.step) ==> verdict == Approve && f.decision == Some(Approved))
      && match r.step
         case Created => !f.posted && f.decision == None && (f.hold == None || f.hold == Some(OnHold))
         case FundsHeld =>
           && !f.posted && (f.hold == Some(OnHold) || f.hold == Some(GivenBack))
           && (f.decision.Some? ==> verdict == if f.decision.value == Approved then Approve else Refuse)
         case ComplianceApproved => f.hold == Some(OnHold) || f.hold == Some(GivenBack)
         case LedgerPosted => f.posted && f.hold.Some?
         case Captured => f.posted && f.hold == Some(Taken) && r.attempts == 0
  }

  ghost predicate PcLasting(s: Store, pc: Pc, verdict: Answer) {
    match pc
    case Done => true
    case Begin(_) => true
    case Record(r, approved) => r.step == FundsHeld && verdict == if approved then Approve else Refuse
    case ReleaseRejected(r) => r.step == FundsHeld && verdict == Refuse
    case ReleaseThenFail(r, u) => r.step == FundsHeld || r.step == ComplianceApproved
    case Update(r, u, _) => Lasting(ApplyUpdate(r, u), FactsOf(s, r.id), verdict)
  }

  /** The debits stand right after the hold, unless the hold was given back. */
  ghost predicate OrderedUnlessFreed(s: Store, t: Id)
    requires t in s.transfers
  {
    StateOf(s.reservations, t) != Some(GivenBack) ==> OrderedAt(s, t)
  }

  ghost predicate Lasts(s: Store, t: Id, verdict: Answer) {
    t in s.transfers && Lasting(s.transfers[t], FactsOf(s, t), verdict) && OrderedUnlessFreed(s, t)
  }

  ghost predicate Enduring(sys: Sys, verdicts: Id -> Answer) {
    && Attentive(sys)
    && (forall t {:trigger Lasts(sys.store, t, verdicts(t))} :: t in sys.store.transfers ==>
          Lasts(sys.store, t, verdicts(t)))
    && var pc := sys.workers[0].pc;
       pc != Done ==> PcLasting(sys.store, pc, verdicts(pc.r.id))
  }

  /** The compliance checker gives each transfer its verdict; store calls may fail. */
  ghost predicate Says(sys: Sys, act: Action, verdicts: Id -> Answer)
    requires Enabled(sys, act)
  {
    act.CallStore? && sys.workers[act.w].pc.Begin? ==> act.answer == verdicts(sys.workers[act.w].pc.r.id)
  }

  lemma CallLasts(s: Store, pc: Pc, verdict: Answer, now: int)
    requires Ledgered(s) && PcOk(s, pc) && pc != Done && Current(s, pc.r)
    requires Lasting(pc.r, FactsOf(s, pc.r.id), verdict) && PcLasting(s, pc, verdict)
    ensures var (s', pc', _) := Work(s, pc, verdict, now);
            && PcLasting(s', pc', verdict)
            && pc.r.id in s'.transfers && Lasting(s'.transfers[pc.r.id], FactsOf(s', pc.r.id), verdict)
  {
    WorkCalls(s, pc, verdict, now);
    CallMovesFacts(s, pc);
    if pc.Begin? && pc.r.step == ComplianceApproved && pc.r.id !in s.postings { HeldCanBePosted(s, pc.r); }
  }

  lemma RetryLasts(s: Store, r: Transfer, afterLedger: bool, now: int, verdict: Answer)
    requires Current(s, r) && Lasting(r, FactsOf(s, r.id), verdict) && (afterLedger <==> r.step == LedgerPosted)
    requires r.step != Captured
    ensures PcLasting(s, Saga.Retry(r, afterLedger, now), verdict)
  {
  }

  lemma StepErrorLasts(s: Store, r: Transfer, e: Error, reserved: bool, now: int, verdict: Answer)
    requires Current(s, r) && Lasting(r, FactsOf(s, r.id), verdict) && Rank(r.step) <= 2
    requires reserved <==> r.step != Created
    ensures PcLasting(s, HandleStepError(r, e, reserved, now), verdict)
  {
    RetryLasts(s, r, false, now, verdict);
  }

  lemma FailingLasts(s: Store, pc: Pc, e: Error, now: int, verdict: Answer)
    requires PcOk(s, pc) && pc != Done && Current(s, pc.r)
    requires Lasting(pc.r, FactsOf(s, pc.r.id), verdict) && PcLasting(s, pc, verdict)
    ensures PcLasting(s, Failing(pc, e, now), verdict)
  {
    match pc {
      case Begin(r) =>
        if r.step == LedgerPosted {
          RetryLasts(s, r, true, now, verdict);
        } else if r.step != Captured {
          StepErrorLasts(s, r, e, r.step != Created, now, verdict);
        }
      case Record(r, _) => StepErrorLasts(s, r, e, true, now, verdict);
      case ReleaseRejected(r) => StepErrorLasts(s, r, e, true, now, verdict);
      case ReleaseThenFail(_, _) =>
      case Update(_, _, _) =>
    }
  }

  lemma CallOrdersUnlessFreed(s: Store, pc: Pc, verdict: Answer)
    requires Ledgered(s) && PcOk(s, pc) && pc != Done && Current(s, pc.r)
    requires Lasting(pc.r, FactsOf(s, pc.r.id), verdict) && OrderedUnlessFreed(s, pc.r.id)
    ensures pc.r.id in Called(s, pc).transfers && OrderedUnlessFreed(Called(s, pc), pc.r.id)
  {
    var t := pc.r.id;
    CallMovesFacts(s, pc);
    if t in s.postings {
      if pc.Begin? && pc.r.step == LedgerPosted && StateOf(s.reservations, t) != Some(GivenBack) {
        CaptureOrders(s, t);
      }
    } else if pc.Begin? && pc.r.step == ComplianceApproved && StateOf(s.reservations, t) == Some(OnHold) {
      HeldCanBePosted(s, pc.r);
      PostOrders(s, pc.r);
    }
  }

  // ---- whole runs

  lemma LastsFrame(s: Store, s': Store, t: Id, verdict: Answer)
    requires Lasts(s, t, verdict) && t in s'.transfers && s'.transfers[t] == s.transfers[t]
    requires FactsOf(s', t) == FactsOf(s, t) && MarksKept(s, s', t)
    ensures Lasts(s', t, verdict)
  {
    if StateOf(s.reservations, t) != Some(GivenBack) { OrderFrame(s, s', t); }
  }

  lemma EnduringCall(sys: Sys, act: Action, verdicts: Id -> Answer)
    requires Healthy(sys) && Enduring(sys, verdicts) && Enabled(sys, act) && act.CallStore? && Says(sys, act, verdicts)
    ensures Enduring(Step(sys, act), verdicts)
  {
    var s, pc, s' := sys.store, sys.workers[0].pc, Step(sys, act).store;
    var verdict := verdicts(pc.r.id);
    assert WorkerOk(s, sys.workers[0]) && Lasts(s, pc.r.id, verdict);
    if !pc.Begin? { AnswerOnlyAtBegin(s, pc, act.answer, verdict, act.now); }
    AttentiveStep(sys, act);
    CallLasts(s, pc, verdict, act.now);
    WorkCalls(s, pc, verdict, act.now);
    CallOrdersUnlessFreed(s, pc, verdict);
    SameRecordStays(s, pc, verdict, act.now);
    forall t | t in s'.transfers
      ensures Lasts(s', t, verdicts(t))
    {
      if t != pc.r.id {
        OthersUntouched(s, pc, t);
        assert Lasts(s, t, verdicts(t));
        CallKeepsMarks(s, pc, t);
        LastsFrame(s, s', t, verdicts(t));
      }
    }
  }

  lemma NewTransferLasts(s: Store, r: Transfer, verdict: Answer)
    requires Ledgered(s) && NewRecord(r) && r.id !in s.transfers && r.id in AddTransfer(s, r).transfers
    ensures Lasts(AddTransfer(s, r), r.id, verdict)
  {
    assert r.id in s.reservations ==> HoldOk(s, r.id, s.reservations[r.id]);
    assert r.id in s.postings ==> Touched(s, r.id);
  }

  lemma EnduringOtherwise(sys: Sys, act: Action, verdicts: Id -> Answer)
    requires Healthy(sys) && Enduring(sys, verdicts) && Enabled(sys, act) && !act.CallStore?
    ensures Enduring(Step(sys, act), verdicts)
  {
    var s, s' := sys.store, Step(sys, act).store;
    AttentiveStep(sys, act);
    ClientsLeaveSaga(sys, act);
    PcStaysLasting(sys, act, verdicts);
    forall t | t in s'.transfers
      ensures Lasts(s', t, verdicts(t))
    {
      if t in s.transfers {
        UntouchedLeaves(s, s', t);
        ClientsKeepMarks(sys, act, t);
        assert Lasts(s, t, verdicts(t));
        LastsFrame(s, s', t, verdicts(t));
      } else {
        assert act.NewTransfer? && t == act.r.id;
        NewTransferLasts(s, act.r, verdicts(t));
      }
    }
  }

  lemma PcStaysLasting(sys: Sys, act: Action, verdicts: Id -> Answer)
    requires Healthy(sys) && Enduring(sys, verdicts) && Enabled(sys, act) && !act.CallStore?
    requires SagaUntouched(sys.store, Step(sys, act).store)
    ensures var pc := Step(sys, act).workers[0].pc;
            pc != Done ==> PcLasting(Step(sys, act).store, pc, verdicts(pc.r.id))
  {
    var s, s', pc := sys.store, Step(sys, act).store, sys.workers[0].pc;
    assert WorkerOk(s, sys.workers[0]);
    if act.StoreFails? {
      assert Lasts(s, pc.r.id, verdicts(pc.r.id));
      FailingLasts(s, pc, act.e, act.now, verdicts(pc.r.id));
      FailingStays(pc, act.e, act.now);
    } else {
      var pc' := Step(sys, act).workers[0].pc;
      if pc' == pc && pc' != Done { CurrentFrame(s, s', pc.r); }
    }
  }

  lemma EnduringStep(sys: Sys, act: Action, verdicts: Id -> Answer)
    requires Healthy(sys) && Enduring(sys, verdicts) && Enabled(sys, act) && Says(sys, act, verdicts)
    ensures Enduring(Step(sys, act), verdicts)
  {
    if act.CallStore? {
      EnduringCall(sys, act, verdicts);
    } else {
      EnduringOtherwise(sys, act, verdicts);
    }
  }

  ghost predicate AllSaid(sys: Sys, acts: seq<Action>, verdicts: Id -> Answer)
    requires Possible(sys, acts)
    decreases |acts|
  {
    acts != [] ==> Says(sys, acts[0], verdicts) && AllSaid(Step(sys, acts[0]), acts[1..], verdicts)
  }

  lemma {:induction false} EnduringRun(sys: Sys, acts: seq<Action>, verdicts: Id -> Answer)
    requires Healthy(sys) && Enduring(sys, verdicts) && Possible(sys, acts) && AllSaid(sys, acts, verdicts)
    ensures Healthy(After(sys, acts)) && Enduring(After(sys, acts), verdicts)
    decreases |acts|
  {
    if acts != [] {
      EnduringStep(sys, acts[0], verdicts);
      HealthyStep(sys, acts[0]);
      EnduringRun(Step(sys, acts[0]), acts[1..], verdicts);
    }
  }

  // ---- one call that goes through

  /** The record as if none of its attempts had failed, where the count does not matter any more. */
  function Fresh(s: Store, t: Id): Store
    requires t in s.transfers
  {
    var r := s.transfers[t];
    if r.step == FundsHeld then s else s.(transfers := s.transfers[t := r.(attempts := 0)])
  }

  /** The attempt count of a record shows only where it can run out. */
  lemma CountDoesNotShow(s: Store, t: Id, verdict: Answer, now: int)
    requires Ledgered(s) && Lasts(s, t, verdict) && s.transfers[t].status == Pending
    requires verdict == Approve ==> StateOf(s.reservations, t) != Some(GivenBack)
    ensures Serve(Fresh(s, t), t, verdict, now) == Serve(s, t, verdict, now)
  {
    var r, q := s.transfers[t], Fresh(s, t).transfers[t];
    if r == q {
      assert Fresh(s, t) == s;
    } else {
      BeginOk(s, t);
      OnlyCountDiffers(s, r, verdict, now);
      TwoCalls(s, t, verdict, now);
      TwoCalls(Fresh(s, t), t, verdict, now);
      var s1, s2 := Work(s, Begin(r), verdict, now).0, Work(Fresh(s, t), Begin(q), verdict, now).0;
      SameUpdate(s1, s2, t, q, Work(s, Begin(r), verdict, now).1.u);
    }
  }

  lemma TwoCalls(s: Store, t: Id, answer: Answer, now: int)
    requires t in s.transfers && s.transfers[t].status == Pending && s.transfers[t].id == t
    requires var pc := Work(s, Begin(s.transfers[t]), answer, now).1; pc.Update? && pc.r.id == t
    ensures var (s', pc, _) := Work(s, Begin(s.transfers[t]), answer, now);
            Serve(s, t, answer, now) == UpdateTransferSaga(s', t, pc.u).0
  {
    var (s', pc, _) := Work(s, Begin(s.transfers[t]), answer, now);
    FinishedStep(s, Begin(s.transfers[t]), answer, now);
    UpdateEnds(s', pc.r, pc.u, pc.publish, answer, now);
  }

  lemma SameUpdate(s1: Store, s2: Store, t: Id, q: Transfer, u: SagaUpdate)
    requires t in s1.transfers && q == s1.transfers[t].(attempts := 0) && s2 == s1.(transfers := s1.transfers[t := q])
    requires q.status == Pending && q.step == u.expected
    ensures UpdateTransferSaga(s1, t, u).0 == UpdateTransferSaga(s2, t, u).0
  {
    assert ApplyUpdate(q, u) == ApplyUpdate(s1.transfers[t], u);
    assert s1.transfers[t := q][t := ApplyUpdate(q, u)] == s1.transfers[t := ApplyUpdate(q, u)];
  }

  /** A worker's first store call does the same with and without the count, and the update that follows clears it. */
  ghost predicate CountIsCleared(s: Store, r: Transfer, verdict: Answer, now: int) {
    var q := r.(attempts := 0);
    var z := s.(transfers := s.transfers[r.id := q]);
    var (s1, pc1, _) := Work(s, Begin(r), verdict, now);
    var (s2, pc2, _) := Work(z, Begin(q), verdict, now);
    && s2 == s1.(transfers := z.transfers) && s1.transfers == s.transfers
    && pc1.Update? && pc1.u.expected == r.step && pc1.u.attempts == 0
    && pc1.r == r && pc2 == pc1.(r := q)
  }

  lemma ReservingClears(s: Store, r: Transfer, verdict: Answer, now: int)
    requires Current(s, r) && r.step == Created
    ensures CountIsCleared(s, r, verdict, now)
  {
  }

  lemma PostingClears(s: Store, r: Transfer, verdict: Answer, now: int)
    requires Ledgered(s) && PcOk(s, Begin(r)) && Current(s, r) && r.step == ComplianceApproved
    ensures CountIsCleared(s, r, verdict, now)
  {
    if r.id !in s.postings { HeldCanBePosted(s, r); }
  }

  lemma CapturingClears(s: Store, r: Transfer, verdict: Answer, now: int)
    requires Current(s, r) && r.step == LedgerPosted
    requires r.id in s.reservations && s.reservations[r.id].state != GivenBack
    ensures CountIsCleared(s, r, verdict, now)
  {
  }

  lemma OnlyCountDiffers(s: Store, r: Transfer, verdict: Answer, now: int)
    requires Ledgered(s) && PcOk(s, Begin(r)) && Current(s, r) && r.step != FundsHeld && r.step != Captured
    requires Lasting(r, FactsOf(s, r.id), verdict) && StateOf(s.reservations, r.id) != Some(GivenBack)
    ensures CountIsCleared(s, r, verdict, now)
  {
    match r.step {
      case Created => ReservingClears(s, r, verdict, now);
      case ComplianceApproved => PostingClears(s, r, verdict, now);
      case LedgerPosted => CapturingClears(s, r, verdict, now);
    }
  }

  lemma FreshIsRecoverable(s: Store, t: Id, verdict: Answer)
    requires Ledgered(s) && Lasts(s, t, verdict) && s.transfers[t].status == Pending
    requires verdict == Approve ==> StateOf(s.reservations, t) != Some(GivenBack)
    ensures Recoverable(Fresh(s, t), t, verdict) && Fresh(s, t).transfers[t].status == Pending
    ensures Remaining(Fresh(s, t).transfers[t]) <= 9
  {
    var r := s.transfers[t];
    assert TransferOk(s, t, r);
    if r.step != FundsHeld {
      RecordKeeps(s, t, r.(attempts := 0));
      assert FactsOf(Fresh(s, t), t) == FactsOf(s, t);
    }
  }

  lemma FirstServe(s: Store, t: Id, verdict: Answer, now: int)
    requires Ledgered(s) && Lasts(s, t, verdict) && s.transfers[t].status == Pending
    requires verdict == Approve ==> StateOf(s.reservations, t) != Some(GivenBack)
    ensures var s' := Serve(s, t, verdict, now);
            Recoverable(s', t, verdict) && Remaining(s'.transfers[t]) <= 8
  {
    var z := Fresh(s, t);
    CountDoesNotShow(s, t, verdict, now);
    FreshIsRecoverable(s, t, verdict);
    ServeFollows(z, t, verdict, now);
    BeginUnderway(z, t, verdict);
    FinishedIsCut(z, Begin(z.transfers[t]), verdict, now);
    CutRecovers(z, Begin(z.transfers[t]), t, 5, verdict, now);
  }

  /** What nine calls with the verdict leave of transfer `t`, as seen on account `a`. */
  ghost predicate Recovered(s: Store, t: Id, a: Id, verdict: Answer) {
    && t in s.transfers && s.transfers[t].status != Pending
    && (a in s.streams ==>
          if t in s.reservations then Trace(s, t, a) == ExpectedTrace(s.transfers[t], a, verdict)
          else s.transfers[t].status == Failed && Marks(s.streams[a], t) == [])
  }

  /** Whatever failed before, nine calls that go through bring a pending transfer to the end its verdict calls for. */
  lemma NineCallsRecoverLost(s: Store, t: Id, a: Id, calls: seq<(Answer, int)>, verdict: Answer)
    requires Ledgered(s) && Lasts(s, t, verdict) && s.transfers[t].status == Pending
    requires verdict == Approve ==> StateOf(s.reservations, t) != Some(GivenBack)
    requires AllSay(calls, verdict) && 9 <= |calls|
    ensures Recovered(ServeAll(s, t, calls), t, a, verdict)
  {
    FirstServe(s, t, verdict, calls[0].1);
    EnoughCallsRecover(Serve(s, t, verdict, calls[0].1), t, a, calls[1..], verdict);
  }

  /** Approved although its funds were given back, a transfer is never finished. */
  lemma FreedApprovalNeverEnds(s: Store, t: Id, calls: seq<(Answer, int)>)
    requires Ledgered(s) && Lasts(s, t, Approve) && s.transfers[t].status == Pending
    requires StateOf(s.reservations, t) == Some(GivenBack) && AllSay(calls, Approve) && 9 <= |calls|
    ensures t in ServeAll(s, t, calls).transfers && ServeAll(s, t, calls).transfers[t].status == Pending
  {
    if s.transfers[t].step == FundsHeld {
      VerdictEndsIff(s, t, calls, Approve);
    } else {
      StuckForEver(s, t, calls);
    }
  }

  lemma RecoversIff(s: Store, t: Id, a: Id, calls: seq<(Answer, int)>, verdict: Answer)
    requires Ledgered(s) && Lasts(s, t, verdict) && s.transfers[t].status == Pending
    requires AllSay(calls, verdict) && 9 <= |calls|
    ensures Recovered(ServeAll(s, t, calls), t, a, verdict)
            <==> !(verdict == Approve && StateOf(s.reservations, t) == Some(GivenBack))
  {
    if verdict == Approve && StateOf(s.reservations, t) == Some(GivenBack) {
      FreedApprovalNeverEnds(s, t, calls);
    } else {
      NineCallsRecoverLost(s, t, a, calls, verdict);
    }
  }

  /**
    Crash recovery with failing calls, over whole runs: from every state reached under fixed verdicts, with crashes and
    failing store calls anywhere, nine calls with its verdict that go through finish a pending transfer, and with the
    trace that terms and verdict fix, if and only if it is not an approved one whose funds were given back.
   */
  lemma EveryTransferRecoversIff(sys: Sys, acts: seq<Action>, verdicts: Id -> Answer, t: Id, a: Id,
                                 calls: seq<(Answer, int)>)
    requires Initial(sys) && |sys.workers| == 1 && Possible(sys, acts) && AllSaid(sys, acts, verdicts)
    requires t in After(sys, acts).store.transfers && After(sys, acts).store.transfers[t].status == Pending
    requires AllSay(calls, verdicts(t)) && 9 <= |calls|
    ensures var s := After(sys, acts).store;
            Recovered(ServeAll(s, t, calls), t, a, verdicts(t))
            <==> !(verdicts(t) == Approve && StateOf(s.reservations, t) == Some(GivenBack))
  {
    AttentiveStart(sys);
    EnduringRun(sys, acts, verdicts);
    RecoversIff(After(sys, acts).store, t, a, calls, verdicts(t));
  }
}
