/**
  The saga as the server runs it: one worker. With one rule on the verdicts, a transfer's record, hold, decision and
  posting always agree, and no account ever goes below zero.
 */
module OneWorker {
  import opened Domain
  import opened Ledger
  import opened Saga
  import opened System
  import opened Bookkeeping
  import opened AnyWorkers

  // ---- one transfer

  /** What the other tables say about a transfer. */
  datatype Facts = Facts(hold: Option<HoldState>, posted: bool, decision: Option<Decision>)

  function DecisionOf(s: Store, t: Id): Option<Decision> {
    if t in s.decisions then Some(s.decisions[t]) else None
  }

  ghost function FactsOf(s: Store, t: Id): Facts {
    Facts(StateOf(s.reservations, t), t in s.postings, DecisionOf(s, t))
  }

  /** Step and status fix hold, posting and decision. */
  predicate Agree(r: Transfer, f: Facts) {
    && (r.status == Pending ==> if r.step == FundsHeld then 0 <= r.attempts < MAX_ATTEMPTS else r.attempts == 0)
    && match r.step
       case Created =>
         && r.status != Completed && !f.posted && f.decision == None
         && (f.hold == None || (r.status == Pending && f.hold == Some(OnHold)))
       case FundsHeld =>
         && r.status != Completed && !f.posted
         && (f.hold == Some(GivenBack) || (r.status == Pending && f.hold == Some(OnHold)))
       case ComplianceApproved => r.status == Pending && f.hold == Some(OnHold) && f.decision == Some(Approved)
       case LedgerPosted =>
         && r.status == Pending && f.posted && f.decision == Some(Approved)
         && (f.hold == Some(OnHold) || f.hold == Some(Taken))
       case Captured => r.status != Failed && f.posted && f.decision == Some(Approved) && f.hold == Some(Taken)
  }

  ghost predicate AllAgree(s: Store) {
    forall t {:trigger FactsOf(s, t)} :: t in s.transfers ==> Agree(s.transfers[t], FactsOf(s, t))
  }

  /** Calls of `Process` that a pending record still needs, at most. */
  function Remaining(r: Transfer): int {
    if r.status != Pending then 0
    else
      match r.step
      case Created => 9
      case FundsHeld => 8 - r.attempts
      case ComplianceApproved => 3
      case LedgerPosted => 2
      case Captured => 1
  }

  // ---- the worker's view is the stored record

  ghost predicate Current(s: Store, r: Transfer) {
    r.id in s.transfers && s.transfers[r.id] == r && r.status == Pending
  }

  /** The funds are on hold, or a refusal is on record, so that the store turns an approval down. */
  predicate Approvable(f: Facts) {
    f.hold == Some(OnHold) || f.decision == Some(Rejected)
  }

  ghost predicate PcAgrees(s: Store, pc: Pc) {
    match pc
    case Done => true
    case Begin(r) => Current(s, r)
    case Record(r, approved) =>
      Current(s, r) && r.step == FundsHeld && (approved ==> Approvable(FactsOf(s, r.id)))
    case ReleaseRejected(r) => Current(s, r) && r.step == FundsHeld
    case ReleaseThenFail(r, u) =>
      Current(s, r) && r.step == FundsHeld && u.expected == FundsHeld && u.step == FundsHeld && u.status == Failed
    case Update(r, u, publish) =>
      && Current(s, r) && u.expected == r.step
      && Agree(ApplyUpdate(r, u), FactsOf(s, r.id))
      && Remaining(ApplyUpdate(r, u)) < Remaining(r)
  }

  /** The rule: funds that were given back are not approved any more. */
  ghost predicate HeldWhenApproved(s: Store, pc: Pc, answer: Answer) {
    pc.Begin? && pc.r.step == FundsHeld && answer == Approve ==> Approvable(FactsOf(s, pc.r.id))
  }

  /** The store calls of a pending, current record never meet the error paths that another worker could cause. */
  lemma CallsSucceed(s: Store, pc: Pc)
    requires Ledgered(s) && PcAgrees(s, pc) && pc.Begin? && Agree(pc.r, FactsOf(s, pc.r.id))
    ensures pc.r.step == ComplianceApproved ==> Post(s, pc.r).1.Ok?
    ensures pc.r.step == LedgerPosted ==> Finish(s, pc.r.id, Taken).1.Ok?
  {
    var t := pc.r.id;
    if t in s.reservations {
      assert HoldOk(s, t, s.reservations[t]);
      assert StreamOk(s.transfers.Keys, s.adjustments.Keys, pc.r.source, s.streams[pc.r.source]);
      assert StreamOk(s.transfers.Keys, s.adjustments.Keys, pc.r.destination, s.streams[pc.r.destination]);
    }
  }

  function Ended(f: Facts, target: HoldState): Facts {
    if f.hold == Some(OnHold) then f.(hold := Some(target)) else f
  }

  /** How one store call moves the facts about its own transfer. */
  ghost function FactsAfter(s: Store, pc: Pc): Facts
    requires pc != Done
  {
    var r := pc.r;
    var f := FactsOf(s, r.id);
    match pc
    case Begin(_) =>
      (match r.step
       case Created => if f.hold == None && Reserve(s, r).1.Ok? then f.(hold := Some(OnHold)) else f
       case ComplianceApproved => f.(posted := f.posted || Post(s, r).1.Ok?)
       case LedgerPosted => Ended(f, Taken)
       case _ => f)
    case Record(_, approved) =>
      if f.decision == None then f.(decision := Some(if approved then Approved else Rejected)) else f
    case ReleaseRejected(_) => Ended(f, GivenBack)
    case ReleaseThenFail(_, _) => Ended(f, GivenBack)
    case Update(_, _, _) => f
  }

  lemma ReserveFacts(s: Store, r: Transfer, t: Id)
    ensures var s' := Reserve(s, r).0;
            && s'.transfers == s.transfers
            && FactsOf(s', t) == if t == r.id && t !in s.reservations && Reserve(s, r).1.Ok?
                                 then FactsOf(s, t).(hold := Some(OnHold)) else FactsOf(s, t)
  {
  }

  lemma PostFacts(s: Store, r: Transfer, t: Id)
    ensures var s' := Post(s, r).0;
            && s'.transfers == s.transfers
            && FactsOf(s', t) == if t == r.id && Post(s, r).1.Ok? then FactsOf(s, t).(posted := true) else FactsOf(s, t)
  {
  }

  lemma FinishFacts(s: Store, x: Id, target: HoldState, t: Id)
    ensures var s' := Finish(s, x, target).0;
            && s'.transfers == s.transfers
            && FactsOf(s', t) == if t == x then Ended(FactsOf(s, t), target) else FactsOf(s, t)
  {
  }

  lemma CallMovesFacts(s: Store, pc: Pc)
    requires pc != Done && Current(s, pc.r)
    ensures FactsOf(Called(s, pc), pc.r.id) == FactsAfter(s, pc)
    ensures !pc.Update? ==> Current(Called(s, pc), pc.r)
  {
    match pc {
      case Begin(r) =>
        if r.step == Created {
          ReserveFacts(s, r, r.id);
        } else if r.step == ComplianceApproved {
          PostFacts(s, r, r.id);
        } else {
          FinishFacts(s, r.id, Taken, r.id);
        }
      case ReleaseRejected(r) => FinishFacts(s, r.id, GivenBack, r.id);
      case ReleaseThenFail(r, _) => FinishFacts(s, r.id, GivenBack, r.id);
      case _ =>
    }
  }

  lemma OthersUntouched(s: Store, pc: Pc, t: Id)
    requires pc == Done || t != pc.r.id
    ensures FactsOf(Called(s, pc), t) == FactsOf(s, t)
    ensures t in s.transfers <==> t in Called(s, pc).transfers
    ensures t in s.transfers ==> Called(s, pc).transfers[t] == s.transfers[t]
  {
    match pc {
      case Done =>
      case Begin(r) =>
        if r.step == Created {
          ReserveFacts(s, r, t);
        } else if r.step == ComplianceApproved {
          PostFacts(s, r, t);
        } else {
          FinishFacts(s, r.id, Taken, t);
        }
      case ReleaseRejected(r) => FinishFacts(s, r.id, GivenBack, t);
      case ReleaseThenFail(r, _) => FinishFacts(s, r.id, GivenBack, t);
      case _ =>
    }
  }

  lemma BeginAgrees(s: Store, pc: Pc, answer: Answer, now: int)
    requires Ledgered(s) && PcAgrees(s, pc) && pc.Begin?
    requires Agree(pc.r, FactsOf(s, pc.r.id)) && HeldWhenApproved(s, pc, answer)
    ensures var (s', pc', _) := Work(s, pc, answer, now);
            && PcAgrees(s', pc') && pc' != Done && pc'.r == pc.r
            && Current(s', pc.r) && Agree(pc.r, FactsOf(s', pc.r.id))
  {
    CallsSucceed(s, pc);
    CallMovesFacts(s, pc);
    WorkCalls(s, pc, answer, now);
    BeginLeads(s, pc, answer, now, Called(s, pc));
  }

  lemma BeginLeads(s: Store, pc: Pc, answer: Answer, now: int, s': Store)
    requires pc.Begin? && Current(s', pc.r)
    requires Agree(pc.r, FactsOf(s, pc.r.id)) && HeldWhenApproved(s, pc, answer)
    requires FactsOf(s', pc.r.id) == FactsAfter(s, pc)
    requires pc.r.step == ComplianceApproved ==> Post(s, pc.r).1.Ok?
    requires pc.r.step == LedgerPosted ==> Finish(s, pc.r.id, Taken).1.Ok?
    ensures var pc' := Work(s, pc, answer, now).1;
            PcAgrees(s', pc') && pc' != Done && pc'.r == pc.r && Agree(pc.r, FactsOf(s', pc.r.id))
  {
  }

  lemma RestAgrees(s: Store, pc: Pc, answer: Answer, now: int)
    requires PcAgrees(s, pc) && !pc.Begin? && !pc.Update? && pc != Done
    requires Agree(pc.r, FactsOf(s, pc.r.id))
    ensures var (s', pc', _) := Work(s, pc, answer, now);
            && PcAgrees(s', pc') && pc' != Done && pc'.r == pc.r
            && Current(s', pc.r) && Agree(pc.r, FactsOf(s', pc.r.id))
  {
    CallMovesFacts(s, pc);
    WorkCalls(s, pc, answer, now);
  }

  lemma CallAgrees(s: Store, pc: Pc, answer: Answer, now: int)
    requires Ledgered(s) && PcAgrees(s, pc) && pc != Done
    requires Agree(pc.r, FactsOf(s, pc.r.id)) && HeldWhenApproved(s, pc, answer)
    ensures var (s', pc', _) := Work(s, pc, answer, now);
            && PcAgrees(s', pc')
            && (pc' == Done <==> pc.Update?)
            && (pc' != Done ==> pc'.r == pc.r)
            && pc.r.id in s'.transfers && Agree(s'.transfers[pc.r.id], FactsOf(s', pc.r.id))
  {
    if pc.Begin? {
      BeginAgrees(s, pc, answer, now);
    } else if pc.Update? {
      CallMovesFacts(s, pc);
    } else {
      RestAgrees(s, pc, answer, now);
    }
  }

  // ---- one worker among clients

  /** Client calls leave the saga's tables alone, except that new records appear with nothing done for them. */
  ghost predicate SagaUntouched(s: Store, s': Store) {
    && s'.reservations == s.reservations && s'.postings == s.postings && s'.decisions == s.decisions
    && (forall t {:trigger t in s'.transfers} :: t in s.transfers ==>
          t in s'.transfers && s'.transfers[t] == s.transfers[t])
    && (forall t {:trigger FactsOf(s', t)} :: t in s'.transfers && t !in s.transfers ==>
          Agree(s'.transfers[t], FactsOf(s', t)))
  }

  lemma NewRecordAgrees(s: Store, r: Transfer)
    requires TablesOk(s) && NewRecord(r) && r.id !in s.transfers
    ensures SagaUntouched(s, AddTransfer(s, r))
  {
    assert r.id in s.reservations ==> HoldOk(s, r.id, s.reservations[r.id]);
    assert r.id in s.postings ==> Touched(s, r.id);
  }

  ghost predicate SameSaga(s: Store, s': Store) {
    && s'.transfers == s.transfers && s'.reservations == s.reservations
    && s'.postings == s.postings && s'.decisions == s.decisions
  }

  lemma RequestKeepsTables(s: Store, r: Adjustment)
    ensures SameSaga(s, CreateAdjustment(s, r).0)
  {
    var n := Normalise(s, r);
  }

  lemma ClientsKeepTables(sys: Sys, act: Action)
    requires Enabled(sys, act) && !act.CallStore? && !act.NewTransfer?
    ensures SameSaga(sys.store, Step(sys, act).store)
  {
    var s := sys.store;
    match act {
      case RequestAdjustment(r) => RequestKeepsTables(s, r);
      case _ =>
    }
  }

  lemma SameTables(s: Store, s': Store)
    requires SameSaga(s, s')
    ensures SagaUntouched(s, s')
  {
  }

  lemma ClientsLeaveSaga(sys: Sys, act: Action)
    requires TablesOk(sys.store) && Enabled(sys, act) && !act.CallStore?
    ensures SagaUntouched(sys.store, Step(sys, act).store)
  {
    if act.NewTransfer? {
      NewRecordAgrees(sys.store, act.r);
    } else {
      ClientsKeepTables(sys, act);
      SameTables(sys.store, Step(sys, act).store);
    }
  }

  ghost predicate BatchCurrent(s: Store, w: Worker) {
    && Distinct(w.batch)
    && (forall i :: 0 <= i < |w.batch| ==> Current(s, w.batch[i]))
    && (w.pc != Done ==> forall i :: 0 <= i < |w.batch| ==> w.batch[i].id != w.pc.r.id)
  }

  /** One worker whose records are never stale, and tables that agree. */
  ghost predicate InStep(sys: Sys) {
    && |sys.workers| == 1
    && AllAgree(sys.store)
    && PcAgrees(sys.store, sys.workers[0].pc)
    && BatchCurrent(sys.store, sys.workers[0])
  }

  ghost predicate Respects(sys: Sys, act: Action)
    requires Enabled(sys, act)
  {
    && !act.StoreFails?
    && (act.CallStore? ==> HeldWhenApproved(sys.store, sys.workers[act.w].pc, act.answer))
  }

  lemma AgreeFrame(s: Store, s': Store)
    requires AllAgree(s) && SagaUntouched(s, s')
    ensures AllAgree(s')
  {
    forall t | t in s'.transfers
      ensures Agree(s'.transfers[t], FactsOf(s', t))
    {
      assert FactsOf(s', t) == FactsOf(s, t);
    }
  }

  lemma CurrentFrame(s: Store, s': Store, r: Transfer)
    requires Current(s, r) && SagaUntouched(s, s')
    ensures Current(s', r) && FactsOf(s', r.id) == FactsOf(s, r.id)
  {
    assert r.id in s'.transfers;
  }

  lemma ClientsKeepStep(sys: Sys, act: Action)
    requires Healthy(sys) && InStep(sys) && Enabled(sys, act) && !act.CallStore? && !act.StoreFails?
    ensures InStep(Step(sys, act))
  {
    var sys' := Step(sys, act);
    var s, s', w, w' := sys.store, sys'.store, sys.workers[0], sys'.workers[0];
    ClientsLeaveSaga(sys, act);
    AgreeFrame(s, s');
    if w.pc != Done { CurrentFrame(s, s', w.pc.r); }
    forall i | 0 <= i < |w.batch|
      ensures Current(s', w.batch[i])
    {
      CurrentFrame(s, s', w.batch[i]);
    }
  }

  lemma CallKeepsStep(sys: Sys, act: Action)
    requires Healthy(sys) && InStep(sys) && Enabled(sys, act) && act.CallStore? && Respects(sys, act)
    ensures InStep(Step(sys, act))
  {
    var s, w := sys.store, sys.workers[0];
    var sys' := Step(sys, act);
    var s' := sys'.store;
    WorkCalls(s, w.pc, act.answer, act.now);
    assert Agree(w.pc.r, FactsOf(s, w.pc.r.id));
    CallAgrees(s, w.pc, act.answer, act.now);
    forall t | t in s'.transfers
      ensures Agree(s'.transfers[t], FactsOf(s', t))
    {
      if t != w.pc.r.id {
        OthersUntouched(s, w.pc, t);
        assert Agree(s.transfers[t], FactsOf(s, t));
      }
    }
    forall i | 0 <= i < |w.batch|
      ensures Current(s', w.batch[i])
    {
      OthersUntouched(s, w.pc, w.batch[i].id);
    }
  }

  lemma StepKeepsStep(sys: Sys, act: Action)
    requires Healthy(sys) && InStep(sys) && Enabled(sys, act) && Respects(sys, act)
    ensures InStep(Step(sys, act))
  {
    if act.CallStore? {
      CallKeepsStep(sys, act);
    } else {
      ClientsKeepStep(sys, act);
    }
  }
}
