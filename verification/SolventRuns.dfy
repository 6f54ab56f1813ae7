/**
  Solvency where store calls fail and workers die. Any number of workers: the one step that can make the bank insolvent,
  and exactly when it does. One worker: every run is solvent in which no failing update is lost after its release.
 */
module SolventRuns {
  import opened Domain
  import opened Ledger
  import opened Saga
  import opened System
  import opened Bookkeeping
  import opened AnyWorkers
  import opened OneWorker
  import opened Solvency

  // ---- any number of workers

  /** A posting whose funds are not on hold and that takes more than the source has beyond what it has promised. */
  ghost predicate Overpays(s: Store, pc: Pc) {
    && pc.Begin? && pc.r.step == ComplianceApproved && pc.r.id !in s.postings
    && StateOf(s.reservations, pc.r.id) != Some(OnHold)
    && TallyOf(s, pc.r.source).balance < Promised(s, pc.r.source) + Due(pc.r)
  }

  ghost predicate Overspends(sys: Sys, act: Action)
    requires Enabled(sys, act)
  {
    act.CallStore? && Overpays(sys.store, sys.workers[act.w].pc)
  }

  lemma CallSolventIff(s: Store, pc: Pc)
    requires Ledgered(s) && Solvent(s) && PcOk(s, pc)
    ensures Solvent(Called(s, pc)) <==> !Overpays(s, pc)
  {
    match pc {
      case Done =>
      case Begin(r) =>
        if r.step == Created {
          ReserveSolvent(s, r);
        } else if r.step == ComplianceApproved {
          PostingSolventIff(s, r);
        } else if r.step == LedgerPosted {
          FinishSolvent(s, r.id, Taken);
        }
      case ReleaseRejected(r) => FinishSolvent(s, r.id, GivenBack);
      case ReleaseThenFail(r, _) => FinishSolvent(s, r.id, GivenBack);
      case Record(_, _) => SameMoney(s, Called(s, pc));
      case Update(_, _, _) => SameMoney(s, Called(s, pc));
    }
  }

  lemma PostingSolventIff(s: Store, r: Transfer)
    requires Ledgered(s) && Solvent(s) && PcOk(s, Begin(r)) && r.step == ComplianceApproved
    ensures Solvent(Post(s, r).0) <==> !Overpays(s, Begin(r))
  {
    if r.id !in s.postings {
      HeldCanBePosted(s, r);
      PostSolventIff(s, r);
    }
  }

  /** Whatever workers and clients do next, the bank stays solvent if and only if it is no such posting. */
  lemma SolventStepIff(sys: Sys, act: Action)
    requires Healthy(sys) && Solvent(sys.store) && Enabled(sys, act)
    ensures Solvent(Step(sys, act).store) <==> !Overspends(sys, act)
  {
    if act.CallStore? {
      assert WorkerOk(sys.store, sys.workers[act.w]);
      WorkCalls(sys.store, sys.workers[act.w].pc, act.answer, act.now);
      CallSolventIff(sys.store, sys.workers[act.w].pc);
    } else {
      ClientsSolvent(sys, act);
    }
  }

  ghost predicate NeverOverspends(sys: Sys, acts: seq<Action>)
    requires Possible(sys, acts)
    decreases |acts|
  {
    acts != [] ==> !Overspends(sys, acts[0]) && NeverOverspends(Step(sys, acts[0]), acts[1..])
  }

  ghost predicate AlwaysSolvent(sys: Sys, acts: seq<Action>)
    requires Possible(sys, acts)
    decreases |acts|
  {
    Solvent(sys.store) && (acts != [] ==> AlwaysSolvent(Step(sys, acts[0]), acts[1..]))
  }

  lemma {:induction false} SolventFromIff(sys: Sys, acts: seq<Action>)
    requires Healthy(sys) && Solvent(sys.store) && Possible(sys, acts)
    ensures AlwaysSolvent(sys, acts) <==> NeverOverspends(sys, acts)
    decreases |acts|
  {
    if acts != [] {
      var sys' := Step(sys, acts[0]);
      SolventStepIff(sys, acts[0]);
      HealthyStep(sys, acts[0]);
      if Solvent(sys'.store) {
        SolventFromIff(sys', acts[1..]);
      } else {
        assert !AlwaysSolvent(sys', acts[1..]);
      }
    }
  }

  /**
    A run of any number of workers, dying and failing wherever they like, is solvent in all its states if and only if it
    contains no posting that overpays.
   */
  lemma SolventRunIff(sys: Sys, acts: seq<Action>)
    requires Initial(sys) && Possible(sys, acts)
    ensures AlwaysSolvent(sys, acts) <==> NeverOverspends(sys, acts)
  {
    HealthyStart(sys);
    SolventFromIff(sys, acts);
  }

  // ---- one worker

  /** The one worker's records are the stored ones, whatever dies and fails. */
  ghost predicate Attentive(sys: Sys) {
    && |sys.workers| == 1
    && (sys.workers[0].pc != Done ==> Current(sys.store, sys.workers[0].pc.r))
    && BatchCurrent(sys.store, sys.workers[0])
  }

  lemma CallStaysCurrent(s: Store, pc: Pc, answer: Answer, now: int)
    requires pc != Done && Current(s, pc.r)
    ensures var (s', pc', _) := Work(s, pc, answer, now);
            (pc' != Done ==> pc'.r == pc.r && Current(s', pc.r))
  {
    WorkCalls(s, pc, answer, now);
    CallMovesFacts(s, pc);
    SameRecordStays(s, pc, answer, now);
  }

  lemma SameRecordStays(s: Store, pc: Pc, answer: Answer, now: int)
    requires pc != Done
    ensures var pc' := Work(s, pc, answer, now).1; pc' != Done ==> pc'.r == pc.r && !pc.Update?
  {
  }

  lemma FailingStays(pc: Pc, e: Error, now: int)
    ensures Failing(pc, e, now) != Done ==> pc != Done && Failing(pc, e, now).r == pc.r
  {
  }

  lemma AttentiveStep(sys: Sys, act: Action)
    requires Healthy(sys) && Attentive(sys) && Enabled(sys, act)
    ensures Attentive(Step(sys, act))
  {
    var s, w, sys' := sys.store, sys.workers[0], Step(sys, act);
    if act.CallStore? {
      CallStaysCurrent(s, w.pc, act.answer, act.now);
      WorkCalls(s, w.pc, act.answer, act.now);
      forall i | 0 <= i < |w.batch|
        ensures Current(sys'.store, w.batch[i])
      {
        OthersUntouched(s, w.pc, w.batch[i].id);
      }
    } else {
      ClientsLeaveSaga(sys, act);
      forall i | 0 <= i < |w.batch|
        ensures Current(sys'.store, w.batch[i])
      {
        CurrentFrame(s, sys'.store, w.batch[i]);
      }
      if w.pc != Done { CurrentFrame(s, sys'.store, w.pc.r); }
      if act.StoreFails? { FailingStays(w.pc, act.e, act.now); }
    }
  }

  lemma {:induction false} AttentiveRun(sys: Sys, acts: seq<Action>)
    requires Healthy(sys) && Attentive(sys) && Possible(sys, acts)
    ensures Healthy(After(sys, acts)) && Attentive(After(sys, acts))
    decreases |acts|
  {
    if acts != [] {
      HealthyStep(sys, acts[0]);
      AttentiveStep(sys, acts[0]);
      AttentiveRun(Step(sys, acts[0]), acts[1..]);
    }
  }

  /** The funds are on hold, or the posting has taken them. */
  ghost predicate Backed(s: Store, t: Id) {
    t in s.postings || StateOf(s.reservations, t) == Some(OnHold)
  }

  predicate FailsNext(pc: Pc, t: Id) {
    pc.Update? && pc.r.id == t && pc.u.status == Failed
  }

  /** A transfer on the way to its posting is backed, or its funds were given back and its failing update comes next. */
  ghost predicate BackedUntilFailed(s: Store, pc: Pc, t: Id)
    requires t in s.transfers
  {
    s.transfers[t].status == Pending ==>
      match s.transfers[t].step
      case Created => t !in s.reservations || Backed(s, t)
      case FundsHeld => Backed(s, t) || (FailsNext(pc, t) && StateOf(s.reservations, t) == Some(GivenBack))
      case ComplianceApproved => Backed(s, t) || (FailsNext(pc, t) && StateOf(s.reservations, t) == Some(GivenBack))
      case _ => true
  }

  ghost predicate PcBacked(s: Store, pc: Pc) {
    && (pc.ReleaseThenFail? ==> pc.r.step == FundsHeld || pc.r.step == ComplianceApproved)
    && (pc.Update? && pc.u.status == Pending && (pc.u.step == FundsHeld || pc.u.step == ComplianceApproved) ==>
          Backed(s, pc.r.id))
  }

  ghost predicate AllBacked(sys: Sys) {
    && Attentive(sys)
    && PcBacked(sys.store, sys.workers[0].pc)
    && forall t {:trigger BackedUntilFailed(sys.store, sys.workers[0].pc, t)} :: t in sys.store.transfers ==>
         BackedUntilFailed(sys.store, sys.workers[0].pc, t)
  }

  /** The funds have been given back, and the update that would fail the record is lost. */
  ghost predicate Strands(sys: Sys, act: Action)
    requires Enabled(sys, act)
  {
    && (act.Crash? || act.StoreFails?)
    && var pc := sys.workers[act.w].pc;
       pc.Update? && pc.u.status == Failed && StateOf(sys.store.reservations, pc.r.id) == Some(GivenBack)
  }

  lemma CallBacked(s: Store, pc: Pc, answer: Answer, now: int)
    requires Ledgered(s) && PcOk(s, pc) && pc != Done && Current(s, pc.r)
    requires PcBacked(s, pc) && BackedUntilFailed(s, pc, pc.r.id)
    ensures var (s', pc', _) := Work(s, pc, answer, now);
            pc.r.id in s'.transfers && PcBacked(s', pc') && BackedUntilFailed(s', pc', pc.r.id)
  {
    WorkCalls(s, pc, answer, now);
    CallMovesFacts(s, pc);
  }

  lemma FailingBacked(s: Store, pc: Pc, e: Error, now: int)
    requires PcOk(s, pc) && pc != Done && Current(s, pc.r)
    requires PcBacked(s, pc) && BackedUntilFailed(s, pc, pc.r.id)
    requires !(pc.Update? && pc.u.status == Failed && StateOf(s.reservations, pc.r.id) == Some(GivenBack))
    ensures PcBacked(s, Failing(pc, e, now)) && BackedUntilFailed(s, Failing(pc, e, now), pc.r.id)
  {
  }

  lemma AllBackedCall(sys: Sys, act: Action)
    requires Healthy(sys) && AllBacked(sys) && Enabled(sys, act) && act.CallStore?
    ensures AllBacked(Step(sys, act)) && !Overspends(sys, act)
  {
    var s, pc, s' := sys.store, sys.workers[0].pc, Step(sys, act).store;
    assert WorkerOk(s, sys.workers[0]) && BackedUntilFailed(s, pc, pc.r.id);
    AttentiveStep(sys, act);
    CallBacked(s, pc, act.answer, act.now);
    WorkCalls(s, pc, act.answer, act.now);
    forall t | t in s'.transfers
      ensures BackedUntilFailed(s', Step(sys, act).workers[0].pc, t)
    {
      if t != pc.r.id {
        OthersUntouched(s, pc, t);
        assert BackedUntilFailed(s, pc, t);
        SameFactsBacked(s, s', pc, Step(sys, act).workers[0].pc, t);
      }
    }
  }

  /** What is backed by facts that stay does not depend on a worker that turns to another transfer. */
  lemma SameFactsBacked(s: Store, s': Store, pc: Pc, pc': Pc, t: Id)
    requires t in s.transfers && t in s'.transfers && s'.transfers[t] == s.transfers[t]
    requires FactsOf(s', t) == FactsOf(s, t)
    requires BackedUntilFailed(s, pc, t)
    requires FailsNext(pc, t) && StateOf(s.reservations, t) == Some(GivenBack) ==> FailsNext(pc', t)
    ensures BackedUntilFailed(s', pc', t)
  {
  }

  lemma AllBackedStep(sys: Sys, act: Action)
    requires Healthy(sys) && AllBacked(sys) && Enabled(sys, act) && !Strands(sys, act)
    ensures AllBacked(Step(sys, act)) && !Overspends(sys, act)
  {
    if act.CallStore? {
      AllBackedCall(sys, act);
    } else {
      AttentiveStep(sys, act);
      AllBackedOtherwise(sys, act);
    }
  }

  lemma AllBackedOtherwise(sys: Sys, act: Action)
    requires Healthy(sys) && AllBacked(sys) && Enabled(sys, act) && !Strands(sys, act) && !act.CallStore?
    requires Attentive(Step(sys, act))
    ensures AllBacked(Step(sys, act))
  {
    var s, s' := sys.store, Step(sys, act).store;
    var pc, pc' := sys.workers[0].pc, Step(sys, act).workers[0].pc;
    assert WorkerOk(s, sys.workers[0]);
    ClientsLeaveSaga(sys, act);
    if act.StoreFails? {
      assert BackedUntilFailed(s, pc, pc.r.id);
      FailingBacked(s, pc, act.e, act.now);
    }
    assert PcBacked(s', pc') by {
      if pc'.Update? && !act.StoreFails? { CurrentFrame(s, s', pc.r); }
    }
    forall t | t in s'.transfers
      ensures BackedUntilFailed(s', pc', t)
    {
      if t in s.transfers {
        assert BackedUntilFailed(s, pc, t) && FactsOf(s', t) == FactsOf(s, t);
        if !(act.StoreFails? && t == pc.r.id) { SameFactsBacked(s, s', pc, pc', t); }
      } else {
        assert act.NewTransfer? && Agree(s'.transfers[t], FactsOf(s', t));
      }
    }
  }

  ghost predicate NeverStrands(sys: Sys, acts: seq<Action>)
    requires Possible(sys, acts)
    decreases |acts|
  {
    acts != [] ==> !Strands(sys, acts[0]) && NeverStrands(Step(sys, acts[0]), acts[1..])
  }

  lemma {:induction false} NeverStrandsNeverOverspends(sys: Sys, acts: seq<Action>)
    requires Healthy(sys) && AllBacked(sys) && Possible(sys, acts) && NeverStrands(sys, acts)
    ensures NeverOverspends(sys, acts)
    decreases |acts|
  {
    if acts != [] {
      AllBackedStep(sys, acts[0]);
      HealthyStep(sys, acts[0]);
      NeverStrandsNeverOverspends(Step(sys, acts[0]), acts[1..]);
    }
  }

  lemma AttentiveStart(sys: Sys)
    requires Initial(sys) && |sys.workers| == 1
    ensures Healthy(sys) && Attentive(sys) && AllBacked(sys)
  {
    HealthyStart(sys);
  }

  /**
    One worker, with any verdicts, dying anywhere and with store calls failing anywhere: as long as no failing update is
    lost after the funds were given back, the bank is solvent in every state.
   */
  lemma SolventUnlessStranded(sys: Sys, acts: seq<Action>)
    requires Initial(sys) && |sys.workers| == 1 && Possible(sys, acts) && NeverStrands(sys, acts)
    ensures AlwaysSolvent(sys, acts)
  {
    AttentiveStart(sys);
    NeverStrandsNeverOverspends(sys, acts);
    SolventRunIff(sys, acts);
  }

  // ---- failed transfers

  predicate AdvancesNext(pc: Pc, r: Transfer) {
    pc.Update? && pc.r.id == r.id && pc.u.status == Pending && pc.u.step != r.step
  }

  /**
    A failed transfer was never posted and has nothing on hold; and a pending one has nothing on hold before the step
    that gives it back, and is not posted before the step that cannot fail any more, unless its next step comes next.
   */
  ghost predicate FailsClean(s: Store, pc: Pc, t: Id)
    requires t in s.transfers
  {
    var r := s.transfers[t];
    match r.status
    case Failed => !Backed(s, t)
    case Completed => true
    case Pending =>
      match r.step
      case Created => t !in s.postings && (t !in s.reservations || AdvancesNext(pc, r))
      case FundsHeld => t !in s.postings
      case ComplianceApproved => t !in s.postings || AdvancesNext(pc, r)
      case _ => true
  }

  ghost predicate PcClean(s: Store, pc: Pc) {
    && (pc.ReleaseThenFail? ==> pc.r.step == FundsHeld || pc.r.step == ComplianceApproved)
    && (pc.Update? && pc.u.status == Failed ==> !Backed(s, pc.r.id))
    && (pc.Update? && pc.u.status == Pending && Rank(pc.u.step) <= 2 ==> pc.r.id !in s.postings)
    && (pc.Update? && pc.u.status == Pending && pc.u.step == Created ==> pc.r.id !in s.reservations)
  }

  ghost predicate AllClean(sys: Sys) {
    && Attentive(sys)
    && PcClean(sys.store, sys.workers[0].pc)
    && forall t {:trigger FailsClean(sys.store, sys.workers[0].pc, t)} :: t in sys.store.transfers ==>
         FailsClean(sys.store, sys.workers[0].pc, t)
  }

  /**
    The release on the way to a failed record fails, and nobody looks; or the update is lost that would have recorded
    the hold or the posting just made.
   */
  ghost predicate Sheds(sys: Sys, act: Action)
    requires Enabled(sys, act)
  {
    (act.Crash? || act.StoreFails?) &&
    match sys.workers[act.w].pc
    case ReleaseThenFail(r, _) => act.StoreFails? && StateOf(sys.store.reservations, r.id) == Some(OnHold)
    case Update(r, u, _) =>
      (r.step == Created || r.step == ComplianceApproved) && u.status == Pending && u.step != r.step
    case _ => false
  }

  lemma CallClean(s: Store, pc: Pc, answer: Answer, now: int)
    requires Ledgered(s) && PcOk(s, pc) && pc != Done && Current(s, pc.r)
    requires PcClean(s, pc) && FailsClean(s, pc, pc.r.id)
    ensures var (s', pc', _) := Work(s, pc, answer, now);
            pc.r.id in s'.transfers && PcClean(s', pc') && FailsClean(s', pc', pc.r.id)
  {
    WorkCalls(s, pc, answer, now);
    CallMovesFacts(s, pc);
    if pc.Begin? && pc.r.step == ComplianceApproved && pc.r.id !in s.postings { HeldCanBePosted(s, pc.r); }
  }

  lemma FailingClean(s: Store, pc: Pc, act: Action)
    requires act.StoreFails? && PcOk(s, pc) && pc != Done && Current(s, pc.r)
    requires PcClean(s, pc) && FailsClean(s, pc, pc.r.id)
    requires pc.ReleaseThenFail? ==> StateOf(s.reservations, pc.r.id) != Some(OnHold)
    requires pc.Update? && (pc.r.step == Created || pc.r.step == ComplianceApproved) ==>
               pc.u.status != Pending || pc.u.step == pc.r.step
    ensures var pc' := Failing(pc, act.e, act.now); PcClean(s, pc') && FailsClean(s, pc', pc.r.id)
  {
  }

  lemma SameFactsClean(s: Store, s': Store, pc: Pc, pc': Pc, t: Id)
    requires t in s.transfers && t in s'.transfers && s'.transfers[t] == s.transfers[t]
    requires FactsOf(s', t) == FactsOf(s, t)
    requires FailsClean(s, pc, t)
    requires AdvancesNext(pc, s.transfers[t])
             && (s.transfers[t].step == Created || s.transfers[t].step == ComplianceApproved) ==>
               AdvancesNext(pc', s.transfers[t])
    ensures FailsClean(s', pc', t)
  {
  }

  lemma AllCleanCall(sys: Sys, act: Action)
    requires Healthy(sys) && AllClean(sys) && Enabled(sys, act) && act.CallStore?
    ensures AllClean(Step(sys, act))
  {
    var s, pc, s' := sys.store, sys.workers[0].pc, Step(sys, act).store;
    assert WorkerOk(s, sys.workers[0]) && FailsClean(s, pc, pc.r.id);
    AttentiveStep(sys, act);
    CallClean(s, pc, act.answer, act.now);
    WorkCalls(s, pc, act.answer, act.now);
    forall t | t in s'.transfers
      ensures FailsClean(s', Step(sys, act).workers[0].pc, t)
    {
      if t != pc.r.id {
        OthersUntouched(s, pc, t);
        assert FailsClean(s, pc, t) && TransferOk(s, t, s.transfers[t]);
        SameFactsClean(s, s', pc, Step(sys, act).workers[0].pc, t);
      }
    }
  }

  lemma AllCleanFails(sys: Sys, act: Action)
    requires Healthy(sys) && AllClean(sys) && Enabled(sys, act) && !Sheds(sys, act) && act.StoreFails?
    ensures AllClean(Step(sys, act))
  {
    var s, pc := sys.store, sys.workers[0].pc;
    var pc' := Failing(pc, act.e, act.now);
    assert WorkerOk(s, sys.workers[0]) && FailsClean(s, pc, pc.r.id);
    AttentiveStep(sys, act);
    FailingClean(s, pc, act);
    forall t | t in s.transfers
      ensures FailsClean(s, pc', t)
    {
      assert FailsClean(s, pc, t) && TransferOk(s, t, s.transfers[t]);
      if t != pc.r.id { SameFactsClean(s, s, pc, pc', t); }
    }
  }

  lemma NewTransferClean(s: Store, r: Transfer, pc: Pc)
    requires Ledgered(s) && NewRecord(r) && r.id !in s.transfers && r.id in AddTransfer(s, r).transfers
    ensures FailsClean(AddTransfer(s, r), pc, r.id)
  {
    assert r.id in s.reservations ==> HoldOk(s, r.id, s.reservations[r.id]);
    assert r.id in s.postings ==> Touched(s, r.id);
  }

  lemma PcCleanFrame(s: Store, s': Store, pc: Pc)
    requires PcClean(s, pc) && (pc != Done ==> FactsOf(s', pc.r.id) == FactsOf(s, pc.r.id))
    ensures PcClean(s', pc)
  {
  }

  lemma AllCleanOtherwise(sys: Sys, act: Action)
    requires Healthy(sys) && AllClean(sys) && Enabled(sys, act) && !Sheds(sys, act)
    requires !act.CallStore? && !act.StoreFails?
    ensures AllClean(Step(sys, act))
  {
    var s, s' := sys.store, Step(sys, act).store;
    var pc, pc' := sys.workers[0].pc, Step(sys, act).workers[0].pc;
    AttentiveStep(sys, act);
    ClientsLeaveSaga(sys, act);
    if pc' == pc { PcCleanFrame(s, s', pc); }
    forall t | t in s'.transfers
      ensures FailsClean(s', pc', t)
    {
      if t in s.transfers {
        assert FailsClean(s, pc, t) && FactsOf(s', t) == FactsOf(s, t) && TransferOk(s, t, s.transfers[t]);
        SameFactsClean(s, s', pc, pc', t);
      } else {
        assert act.NewTransfer? && t == act.r.id;
        NewTransferClean(s, act.r, pc');
      }
    }
  }

  lemma AllCleanStep(sys: Sys, act: Action)
    requires Healthy(sys) && AllClean(sys) && Enabled(sys, act) && !Sheds(sys, act)
    ensures AllClean(Step(sys, act))
  {
    if act.CallStore? {
      AllCleanCall(sys, act);
    } else if act.StoreFails? {
      AllCleanFails(sys, act);
    } else {
      AllCleanOtherwise(sys, act);
    }
  }

  ghost predicate NeverSheds(sys: Sys, acts: seq<Action>)
    requires Possible(sys, acts)
    decreases |acts|
  {
    acts != [] ==> !Sheds(sys, acts[0]) && NeverSheds(Step(sys, acts[0]), acts[1..])
  }

  lemma {:induction false} AllCleanRun(sys: Sys, acts: seq<Action>)
    requires Healthy(sys) && AllClean(sys) && Possible(sys, acts) && NeverSheds(sys, acts)
    ensures AllClean(After(sys, acts))
    decreases |acts|
  {
    if acts != [] {
      AllCleanStep(sys, acts[0]);
      HealthyStep(sys, acts[0]);
      AllCleanRun(Step(sys, acts[0]), acts[1..]);
    }
  }

  /**
    One worker, with any verdicts: as long as no release on the way to failing and no update of a new hold or posting is
    lost, a failed transfer was never posted and has nothing on hold.
   */
  lemma FailedHoldsNothing(sys: Sys, acts: seq<Action>, t: Id)
    requires Initial(sys) && |sys.workers| == 1 && Possible(sys, acts) && NeverSheds(sys, acts)
    requires t in After(sys, acts).store.transfers && After(sys, acts).store.transfers[t].status == Failed
    ensures t !in After(sys, acts).store.postings
    ensures StateOf(After(sys, acts).store.reservations, t) != Some(OnHold)
  {
    AttentiveStart(sys);
    AllCleanRun(sys, acts);
    assert FailsClean(After(sys, acts).store, After(sys, acts).workers[0].pc, t);
  }

  /** What a failed transfer has on hold stays on hold, in every run from there on. */
  lemma {:induction false} HeldForGood(sys: Sys, acts: seq<Action>, t: Id)
    requires Healthy(sys) && Attentive(sys) && Possible(sys, acts)
    requires t in sys.store.transfers && sys.store.transfers[t].status == Failed
    requires StateOf(sys.store.reservations, t) == Some(OnHold)
    ensures var s := After(sys, acts).store;
            && t in s.transfers && s.transfers[t].status == Failed && StateOf(s.reservations, t) == Some(OnHold)
    decreases |acts|
  {
    if acts != [] {
      HealthyStep(sys, acts[0]);
      AttentiveStep(sys, acts[0]);
      FinishedIsLeft(sys, acts[0], t);
      HeldForGood(Step(sys, acts[0]), acts[1..], t);
    }
  }

  /** Nobody touches a transfer that is not pending any more. */
  lemma FinishedIsLeft(sys: Sys, act: Action, t: Id)
    requires Healthy(sys) && Attentive(sys) && Enabled(sys, act)
    requires t in sys.store.transfers && sys.store.transfers[t].status != Pending
    ensures var s, s' := sys.store, Step(sys, act).store;
            t in s'.transfers && s'.transfers[t] == s.transfers[t] && FactsOf(s', t) == FactsOf(s, t)
  {
    if act.CallStore? {
      WorkLeaves(sys.store, sys.workers[0].pc, act.answer, act.now, t);
    } else {
      ClientsLeaveSaga(sys, act);
      UntouchedLeaves(sys.store, Step(sys, act).store, t);
    }
  }

  lemma WorkLeaves(s: Store, pc: Pc, answer: Answer, now: int, t: Id)
    requires t in s.transfers && (pc != Done ==> pc.r.id != t)
    ensures var s' := Work(s, pc, answer, now).0;
            t in s'.transfers && s'.transfers[t] == s.transfers[t] && FactsOf(s', t) == FactsOf(s, t)
  {
    WorkCalls(s, pc, answer, now);
    OthersUntouched(s, pc, t);
  }

  lemma UntouchedLeaves(s: Store, s': Store, t: Id)
    requires SagaUntouched(s, s') && t in s.transfers
    ensures t in s'.transfers && s'.transfers[t] == s.transfers[t] && FactsOf(s', t) == FactsOf(s, t)
  {
    assert t in s'.transfers;
  }
}
