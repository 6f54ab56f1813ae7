/**
  What holds for any number of workers, however old the records they carry, crashing wherever they like.
  Safety here rests on idempotent store calls and on the compare-and-set of `UpdateTransferSaga` alone.
 */
module AnyWorkers {
  import opened Domain
  import opened Replay
  import opened Ledger
  import opened Saga
  import opened System
  import opened Trails
  import opened Bookkeeping
  import opened Adjustments

  // ---- nothing is taken back

  ghost predicate TransferGrows(r: Transfer, r': Transfer) {
    && SameTerms(r, r')
    && Rank(r.step) <= Rank(r'.step)
    && (r.status != Pending ==> r' == r)
  }

  ghost predicate HoldGrows(h: Hold, h': Hold) {
    h'.account == h.account && h'.amount == h.amount && (h.state != OnHold ==> h' == h)
  }

  ghost predicate AdjustmentGrows(r: Adjustment, r': Adjustment) {
    && r' == r.(status := r'.status, reviewedBy := r'.reviewedBy)
    && (r.status != Waiting ==> r' == r)
  }

  ghost predicate StreamsGrow(m: Streams, m': Streams) {
    forall a {:trigger a in m'} :: a in m ==> a in m' && m[a] <= m'[a]
  }

  ghost predicate TransfersGrow(m: map<Id, Transfer>, m': map<Id, Transfer>) {
    forall t {:trigger t in m'} :: t in m ==> t in m' && TransferGrows(m[t], m'[t])
  }

  ghost predicate HoldsGrow(m: map<Id, Hold>, m': map<Id, Hold>) {
    forall t {:trigger t in m'} :: t in m ==> t in m' && HoldGrows(m[t], m'[t])
  }

  ghost predicate DecisionsGrow(m: map<Id, Decision>, m': map<Id, Decision>) {
    forall t {:trigger t in m'} :: t in m ==> t in m' && m'[t] == m[t]
  }

  ghost predicate AdjustmentsGrow(m: map<Id, Adjustment>, m': map<Id, Adjustment>) {
    forall j {:trigger j in m'} :: j in m ==> j in m' && AdjustmentGrows(m[j], m'[j])
  }

  /** Streams are only extended, steps never move back, and what is final stays as it is. */
  ghost predicate Grows(s: Store, s': Store) {
    && StreamsGrow(s.streams, s'.streams)
    && TransfersGrow(s.transfers, s'.transfers)
    && HoldsGrow(s.reservations, s'.reservations)
    && s.postings <= s'.postings
    && DecisionsGrow(s.decisions, s'.decisions)
    && AdjustmentsGrow(s.adjustments, s'.adjustments)
  }

  // ---- what a worker may rely on

  /** An earlier or the current version of a stored record, pending when it was listed. */
  ghost predicate Version(s: Store, r: Transfer) {
    && Known(s, r)
    && r.status == Pending
    && Reached(s, r.id, r.step)
    && Rank(r.step) <= Rank(s.transfers[r.id].step)
  }

  ghost predicate UpdateOk(s: Store, r: Transfer, u: SagaUpdate) {
    && u.expected == r.step
    && Rank(r.step) <= Rank(u.step)
    && Reached(s, r.id, u.step)
    && (u.status == Completed ==> u.step == Captured)
  }

  ghost predicate PcOk(s: Store, pc: Pc) {
    match pc
    case Done => true
    case Begin(r) => Version(s, r)
    case Record(r, _) => Version(s, r) && r.step == FundsHeld
    case ReleaseRejected(r) => Version(s, r) && r.step == FundsHeld
    case ReleaseThenFail(r, u) => Version(s, r) && UpdateOk(s, r, u) && u.status == Failed
    case Update(r, u, publish) => Version(s, r) && UpdateOk(s, r, u) && (publish <==> u.status == Completed)
  }

  lemma VersionGrows(s: Store, s': Store, r: Transfer)
    requires Version(s, r) && Grows(s, s')
    ensures Version(s', r)
  {
    assert r.id in s'.transfers;
    ReachedGrows(s, s', r.id, r.step);
  }

  lemma ReachedGrows(s: Store, s': Store, t: Id, step: SagaStep)
    requires Reached(s, t, step) && Grows(s, s')
    ensures Reached(s', t, step)
  {
    if Rank(step) >= 1 { assert t in s'.reservations; }
    if Rank(step) >= 2 { assert t in s'.decisions; }
  }

  lemma PcOkGrows(s: Store, s': Store, pc: Pc)
    requires PcOk(s, pc) && Grows(s, s')
    ensures PcOk(s', pc)
  {
    if pc != Done { VersionGrows(s, s', pc.r); }
    match pc {
      case ReleaseThenFail(r, u) => ReachedGrows(s, s', r.id, u.step);
      case Update(r, u, _) => ReachedGrows(s, s', r.id, u.step);
      case _ =>
    }
  }

  // ---- one store call of one worker

  lemma CallKeepsLedger(s: Store, pc: Pc)
    requires Ledgered(s) && PcOk(s, pc)
    ensures Ledgered(Called(s, pc))
  {
    match pc {
      case Done =>
      case Begin(r) =>
        if r.step == Created {
          ReserveKeeps(s, r);
        } else if r.step == ComplianceApproved {
          PostKeeps(s, r);
        } else if r.step == LedgerPosted {
          FinishKeeps(s, r.id, Taken);
        }
      case Record(r, approved) => DecideKeeps(s, r.id, if approved then Approved else Rejected);
      case ReleaseRejected(r) => FinishKeeps(s, r.id, GivenBack);
      case ReleaseThenFail(r, _) => FinishKeeps(s, r.id, GivenBack);
      case Update(r, u, _) => UpdateKeeps(s, r.id, u);
    }
  }

  lemma CallGrows(s: Store, pc: Pc)
    requires Ledgered(s) && PcOk(s, pc)
    ensures Grows(s, Called(s, pc))
  {
    if pc == Done { return; }
    assert TransferOk(s, pc.r.id, s.transfers[pc.r.id]);
    match pc {
      case Update(r, u, _) => UpdateGrows(s, r.id, u);
      case Record(_, _) =>
      case Begin(r) => ReserveGrows(s, r); PostGrows(s, r); FinishGrows(s, r.id, Taken);
      case ReleaseRejected(r) => FinishGrows(s, r.id, GivenBack);
      case ReleaseThenFail(r, _) => FinishGrows(s, r.id, GivenBack);
    }
  }

  lemma PushGrows(s: Store, a: Id, e: Event)
    ensures Grows(s, Push(s, a, e))
  {
  }

  lemma ReserveGrows(s: Store, r: Transfer)
    ensures Grows(s, Reserve(s, r).0)
  {
  }

  lemma PostGrows(s: Store, r: Transfer)
    requires r.source != r.destination
    ensures Grows(s, Post(s, r).0)
  {
  }

  lemma FinishGrows(s: Store, t: Id, target: HoldState)
    ensures Grows(s, Finish(s, t, target).0)
  {
  }

  lemma UpdateGrows(s: Store, t: Id, u: SagaUpdate)
    requires t in s.transfers ==> Rank(u.expected) <= Rank(u.step)
    ensures Grows(s, UpdateTransferSaga(s, t, u).0)
  {
  }

  /** Whatever the compliance checker answers, the worker's next call rests on what has really happened. */
  lemma CallAdvances(s: Store, pc: Pc, answer: Answer, now: int)
    requires Ledgered(s) && PcOk(s, pc) && pc != Done
    ensures PcOk(Called(s, pc), Work(s, pc, answer, now).1)
  {
    var s' := Called(s, pc);
    CallGrows(s, pc);
    VersionGrows(s, s', pc.r);
    ReachedGrows(s, s', pc.r.id, pc.r.step);
    CallReaches(s, pc, answer, now);
  }

  lemma CallReaches(s: Store, pc: Pc, answer: Answer, now: int)
    requires pc != Done && Version(s, pc.r) && PcOk(s, pc) && Version(Called(s, pc), pc.r)
    requires Reached(Called(s, pc), pc.r.id, pc.r.step)
    ensures PcOk(Called(s, pc), Work(s, pc, answer, now).1)
  {
  }

  // ---- clients

  /** A customer's own deposit or withdrawal on an open account. */
  lemma MovementKeeps(s: Store, a: Id, e: Event)
    requires Ledgered(s) && Adjusted(s) && Stream(s, a) != []
    requires 0 <= e.version == |Stream(s, a)|
    requires exists m :: 0 <= m && (e == DepositEvent(a, e.version, m) || e == Withdrawal(a, e.version, m))
    ensures Ledgered(Push(s, a, e)) && Adjusted(Push(s, a, e)) && Grows(s, Push(s, a, e))
  {
    MoneyPushKeeps(s, a, e);
    QuietPush(s, a, e);
    QuietKeeps(s, Push(s, a, e));
    PushGrows(s, a, e);
  }

  lemma OpenGrows(s: Store, a: Id, balance: Money)
    requires a !in s.streams
    ensures Grows(s, Open(s, a, balance))
  {
  }

  lemma AddTransferQuiet(s: Store, r: Transfer)
    requires r.id !in s.transfers
    ensures Quiet(s, AddTransfer(s, r)) && Grows(s, AddTransfer(s, r))
  {
  }

  lemma RequestGrows(s: Store, r: Adjustment)
    requires r.id !in s.adjustments
    ensures Grows(s, CreateAdjustment(s, r).0)
  {
  }

  lemma RejectGrows(s: Store, j: Id, admin: Id)
    ensures Grows(s, RejectAdjustment(s, j, admin).0)
  {
  }

  lemma ApproveChanges(s: Store, j: Id, admin: Id)
    requires Ledgered(s) && Adjusted(s) && ApproveAdjustment(s, j, admin).1.Ok?
    ensures var s' := ApproveAdjustment(s, j, admin).0;
            && s' == s.(streams := s'.streams, adjustments := s'.adjustments)
            && s'.adjustments == s.adjustments[j := s.adjustments[j].(status := Accepted, reviewedBy := Some(admin))]
            && StreamsGrow(s.streams, s'.streams)
  {
    BookedStreams(s, j);
  }

  lemma GrowsSelf(s: Store)
    ensures Grows(s, s)
  {
  }

  lemma ApproveGrows(s: Store, j: Id, admin: Id)
    requires Ledgered(s) && Adjusted(s)
    ensures Grows(s, ApproveAdjustment(s, j, admin).0)
  {
    var (s', result) := ApproveAdjustment(s, j, admin);
    if result.Ok? {
      ApproveChanges(s, j, admin);
      assert s.adjustments[j].status == Waiting;
      var r := s.adjustments[j].(status := Accepted, reviewedBy := Some(admin));
      ReviewGrows(s, s', j, r);
    } else {
      GrowsSelf(s);
    }
  }

  lemma ReviewGrows(s: Store, s': Store, j: Id, r: Adjustment)
    requires j in s.adjustments && s.adjustments[j].status == Waiting && AdjustmentGrows(s.adjustments[j], r)
    requires s' == s.(streams := s'.streams, adjustments := s.adjustments[j := r])
    requires StreamsGrow(s.streams, s'.streams)
    ensures Grows(s, s')
  {
  }

  // ---- the whole system

  ghost predicate TicketsOk(sys: Sys) {
    forall a, es :: (a, es) in sys.tickets ==> es <= Stream(sys.store, a)
  }

  ghost predicate WorkerOk(s: Store, w: Worker) {
    && PcOk(s, w.pc)
    && (forall i :: 0 <= i < |w.batch| ==> Version(s, w.batch[i]))
  }

  ghost predicate PublishedOk(sys: Sys) {
    && (forall i, j :: 0 <= i < j < |sys.published| ==> sys.published[i] != sys.published[j])
    && (forall i :: 0 <= i < |sys.published| ==>
          sys.published[i] in sys.store.transfers && sys.store.transfers[sys.published[i]].status == Completed)
  }

  ghost predicate Healthy(sys: Sys) {
    && Ledgered(sys.store)
    && Adjusted(sys.store)
    && (forall w :: 0 <= w < |sys.workers| ==> WorkerOk(sys.store, sys.workers[w]))
    && TicketsOk(sys)
    && PublishedOk(sys)
  }

  lemma StoreKeeps(sys: Sys, act: Action)
    requires Healthy(sys) && Enabled(sys, act)
    ensures var s' := Step(sys, act).store; Ledgered(s') && Adjusted(s') && Grows(sys.store, s')
  {
    var s := sys.store;
    match act {
      case OpenAccount(a, balance) =>
        OpenKeeps(s, a, balance);
        QuietOpen(s, a, balance);
        QuietKeeps(s, Open(s, a, balance));
        OpenGrows(s, a, balance);
      case DepositAt(a, loaded, amount) =>
        if PlainAppend(s, DepositEvent(a, |loaded|, amount)).1 {
          MovementKeeps(s, a, DepositEvent(a, |loaded|, amount));
        }
      case WithdrawNow(a, amount) =>
        if WithdrawAvailable(s, a, amount).1.Ok? {
          MovementKeeps(s, a, Withdrawal(a, |Stream(s, a)|, amount));
        }
      case WithdrawAt(a, loaded, amount) =>
        if PlainAppend(s, Withdrawal(a, |loaded|, amount)).1 {
          MovementKeeps(s, a, Withdrawal(a, |loaded|, amount));
        }
      case NewTransfer(r) =>
        AddTransferKeeps(s, r);
        AddTransferQuiet(s, r);
        QuietKeeps(s, AddTransfer(s, r));
      case RequestAdjustment(r) =>
        RequestKeeps(s, r);
        RequestGrows(s, r);
      case AcceptAdjustment(j, admin) =>
        ApproveKeeps(s, j, admin);
        ApproveGrows(s, j, admin);
      case DeclineAdjustment(j, admin) =>
        DeclineKeeps(s, j, admin);
        RejectGrows(s, j, admin);
      case CallStore(w, answer, now) =>
        CallStoreKeeps(s, sys.workers[w].pc);
        WorkCalls(s, sys.workers[w].pc, answer, now);
      case _ =>
    }
  }

  lemma CallStoreKeeps(s: Store, pc: Pc)
    requires Ledgered(s) && Adjusted(s) && PcOk(s, pc)
    ensures Ledgered(Called(s, pc)) && Adjusted(Called(s, pc)) && Grows(s, Called(s, pc))
  {
    CallKeepsLedger(s, pc);
    QuietCall(s, pc);
    QuietKeeps(s, Called(s, pc));
    CallGrows(s, pc);
  }

  /** A call that fails leads to a retry or to the failing of the record, at the step it stands at. */
  lemma FailingKeeps(s: Store, pc: Pc, e: Error, now: int)
    requires PcOk(s, pc)
    ensures PcOk(s, Failing(pc, e, now))
  {
    match pc {
      case Begin(r) =>
        RetryKeeps(s, r, true, now);
        StepErrorKeeps(s, r, e, r.step != Created, now);
      case Record(r, _) => StepErrorKeeps(s, r, e, true, now);
      case ReleaseRejected(r) => StepErrorKeeps(s, r, e, true, now);
      case _ =>
    }
  }

  lemma RetryKeeps(s: Store, r: Transfer, afterLedger: bool, now: int)
    requires Version(s, r)
    ensures PcOk(s, Retry(r, afterLedger, now))
  {
  }

  lemma StepErrorKeeps(s: Store, r: Transfer, e: Error, reserved: bool, now: int)
    requires Version(s, r)
    ensures PcOk(s, HandleStepError(r, e, reserved, now))
  {
    RetryKeeps(s, r, false, now);
  }

  lemma WorkersKeep(sys: Sys, act: Action, w: nat)
    requires Healthy(sys) && Enabled(sys, act) && w < |sys.workers|
    ensures var sys' := Step(sys, act);
            |sys'.workers| == |sys.workers| && WorkerOk(sys'.store, sys'.workers[w])
  {
    var sys' := Step(sys, act);
    StoreKeeps(sys, act);
    var before := sys.workers[w];
    assert WorkerOk(sys.store, before);
    forall i | 0 <= i < |before.batch|
      ensures Version(sys'.store, before.batch[i])
    {
      VersionGrows(sys.store, sys'.store, before.batch[i]);
    }
    PcOkGrows(sys.store, sys'.store, before.pc);
    match act {
      case CallStore(w', answer, now) =>
        if w' == w {
          WorkCalls(sys.store, before.pc, answer, now);
          CallAdvances(sys.store, before.pc, answer, now);
        }
      case StoreFails(w', e, now) =>
        if w' == w { FailingKeeps(sys.store, before.pc, e, now); }
      case Fetch(w', batch) =>
        if w' == w {
          forall i | 0 <= i < |batch|
            ensures Version(sys'.store, batch[i])
          {
            assert TransferOk(sys.store, batch[i].id, sys.store.transfers[batch[i].id]);
          }
        }
      case _ =>
    }
  }

  /** A completion is published by the one update that completes the record. */
  lemma PublishesOnce(s: Store, pc: Pc, answer: Answer, now: int)
    requires PcOk(s, pc) && Work(s, pc, answer, now).2
    ensures pc != Done && pc.r.id in s.transfers && s.transfers[pc.r.id].status == Pending
    ensures pc.r.id in Called(s, pc).transfers && Called(s, pc).transfers[pc.r.id].status == Completed
  {
  }

  lemma StaysCompleted(s: Store, s': Store, t: Id)
    requires Grows(s, s') && t in s.transfers && s.transfers[t].status == Completed
    ensures t in s'.transfers && s'.transfers[t].status == Completed
  {
    assert t in s'.transfers;
  }

  lemma PublishedKeep(sys: Sys, act: Action)
    requires Healthy(sys) && Enabled(sys, act)
    ensures PublishedOk(Step(sys, act))
  {
    var sys' := Step(sys, act);
    StoreKeeps(sys, act);
    forall i | 0 <= i < |sys.published|
      ensures sys.published[i] in sys'.store.transfers
      ensures sys'.store.transfers[sys.published[i]].status == Completed
    {
      StaysCompleted(sys.store, sys'.store, sys.published[i]);
    }
    if sys'.published != sys.published {
      var pc := sys.workers[act.w].pc;
      assert WorkerOk(sys.store, sys.workers[act.w]);
      WorkCalls(sys.store, pc, act.answer, act.now);
      PublishesOnce(sys.store, pc, act.answer, act.now);
    }
  }

  lemma TicketsKeep(sys: Sys, act: Action)
    requires Healthy(sys) && Enabled(sys, act)
    ensures TicketsOk(Step(sys, act))
  {
    var sys' := Step(sys, act);
    StoreKeeps(sys, act);
    forall a, es | (a, es) in sys'.tickets
      ensures es <= Stream(sys'.store, a)
    {
      if (a, es) in sys.tickets {
        assert es <= Stream(sys.store, a);
        assert a in sys.store.streams ==> a in sys'.store.streams;
      }
    }
  }

  lemma HealthyStep(sys: Sys, act: Action)
    requires Healthy(sys) && Enabled(sys, act)
    ensures Healthy(Step(sys, act)) && Grows(sys.store, Step(sys, act).store)
  {
    StoreKeeps(sys, act);
    forall w | 0 <= w < |sys.workers|
      ensures WorkerOk(Step(sys, act).store, Step(sys, act).workers[w])
    {
      WorkersKeep(sys, act, w);
    }
    PublishedKeep(sys, act);
    TicketsKeep(sys, act);
  }

  /** In every run, from every start, with any number of workers. */
  lemma {:induction false} HealthyRun(sys: Sys, acts: seq<Action>)
    requires Healthy(sys) && Possible(sys, acts)
    ensures Healthy(After(sys, acts))
    decreases |acts|
  {
    if acts != [] {
      HealthyStep(sys, acts[0]);
      HealthyRun(Step(sys, acts[0]), acts[1..]);
    }
  }

  lemma HealthyStart(sys: Sys)
    requires Initial(sys)
    ensures Healthy(sys)
  {
  }

  // ---- what it means, whole runs at a time

  lemma GrowsTwice(s: Store, s': Store, s'': Store)
    requires Grows(s, s') && Grows(s', s'')
    ensures Grows(s, s'')
  {
    forall a | a in s.streams ensures a in s''.streams && s.streams[a] <= s''.streams[a] {
      assert a in s'.streams;
    }
    TablesGrowTwice(s, s', s'');
  }

  lemma TablesGrowTwice(s: Store, s': Store, s'': Store)
    requires Grows(s, s') && Grows(s', s'')
    ensures TransfersGrow(s.transfers, s''.transfers) && HoldsGrow(s.reservations, s''.reservations)
    ensures DecisionsGrow(s.decisions, s''.decisions) && AdjustmentsGrow(s.adjustments, s''.adjustments)
  {
    forall t | t in s.transfers ensures t in s''.transfers && TransferGrows(s.transfers[t], s''.transfers[t]) {
      assert t in s'.transfers;
    }
    forall t | t in s.reservations ensures t in s''.reservations && HoldGrows(s.reservations[t], s''.reservations[t]) {
      assert t in s'.reservations;
    }
    forall t | t in s.decisions ensures t in s''.decisions && s''.decisions[t] == s.decisions[t] {
      assert t in s'.decisions;
    }
    forall j | j in s.adjustments
      ensures j in s''.adjustments && AdjustmentGrows(s.adjustments[j], s''.adjustments[j])
    {
      assert j in s'.adjustments;
    }
  }

  /** Over a whole run no event is lost, no step moves back and nothing final changes. */
  lemma {:induction false} GrowsRun(sys: Sys, acts: seq<Action>)
    requires Healthy(sys) && Possible(sys, acts)
    ensures Grows(sys.store, After(sys, acts).store)
    decreases |acts|
  {
    if acts == [] {
      GrowsSelf(sys.store);
    } else {
      HealthyStep(sys, acts[0]);
      GrowsRun(Step(sys, acts[0]), acts[1..]);
      GrowsTwice(sys.store, Step(sys, acts[0]).store, After(sys, acts).store);
    }
  }

  function Kind(m: Mark): nat {
    match m
    case Held(_) => 0
    case Charged(_) => 1
    case Freed(_) => 2
    case FeePaid(_) => 3
    case Paid(_) => 4
    case Received(_) => 5
  }

  ghost predicate OncePerKind(marks: seq<Mark>) {
    forall i, j :: 0 <= i < j < |marks| ==> Kind(marks[i]) != Kind(marks[j])
  }

  ghost predicate NeverBoth(marks: seq<Mark>) {
    !(exists i, j :: 0 <= i < |marks| && 0 <= j < |marks| && marks[i].Charged? && marks[j].Freed?)
  }

  lemma WeaveOnce(holds: seq<Mark>, legs: seq<Mark>, at: nat)
    requires at <= |holds| && OncePerKind(holds) && OncePerKind(legs) && NeverBoth(holds)
    requires forall i :: 0 <= i < |holds| ==> Kind(holds[i]) <= 2
    requires forall i :: 0 <= i < |legs| ==> 3 <= Kind(legs[i])
    ensures OncePerKind(Weave(holds, legs, at)) && NeverBoth(Weave(holds, legs, at))
  {
    var w := Weave(holds, legs, at);
    forall i | 0 <= i < |w|
      ensures w[i] == if i < at then holds[i] else if i < at + |legs| then legs[i - at] else holds[i - |legs|]
    {
    }
  }

  lemma WovenOnce(marks: seq<Mark>, r: Transfer, hold: Option<HoldState>)
    requires Woven(marks, HoldMarks(r, hold), LegMarks(r))
    ensures OncePerKind(marks) && NeverBoth(marks)
  {
    var holds, legs := HoldMarks(r, hold), LegMarks(r);
    var at: nat :| at <= |holds| && marks == Weave(holds, legs, at);
    HoldsOnce(r, hold);
    LegsOnce(r);
    WeaveOnce(holds, legs, at);
  }

  lemma HoldsOnce(r: Transfer, hold: Option<HoldState>)
    ensures OncePerKind(HoldMarks(r, hold)) && NeverBoth(HoldMarks(r, hold))
    ensures forall i :: 0 <= i < |HoldMarks(r, hold)| ==> Kind(HoldMarks(r, hold)[i]) <= 2
  {
  }

  lemma LegsOnce(r: Transfer)
    ensures OncePerKind(LegMarks(r))
    ensures forall i :: 0 <= i < |LegMarks(r)| ==> 3 <= Kind(LegMarks(r)[i])
  {
    assert LegMarks(r) == if r.fee > 0 then [FeePaid(r.fee), Paid(r.amount)] else [Paid(r.amount)];
  }

  /** On account `a`: each kind of event once, no capture beside a release, and a completed transfer in full. */
  ghost predicate TrailSafe(s: Store, t: Id, a: Id)
    requires t in s.transfers && a in s.streams
  {
    var r, marks := s.transfers[t], Marks(s.streams[a], t);
    && OncePerKind(marks)
    && NeverBoth(marks)
    && (r.status == Completed ==>
          && t in s.decisions && s.decisions[t] == Approved
          && t in s.reservations && s.reservations[t] == Hold(r.source, Due(r), Taken)
          && (a == r.source ==> Woven(marks, [Held(Due(r)), Charged(Due(r))], LegMarks(r)))
          && (a == r.destination ==> marks == [Received(r.amount)])
          && (a != r.source && a != r.destination ==> marks == []))
  }

  /**
    However stale its workers, a transfer has at most one event of each kind on each account, never both a capture and
    a release, and once completed it is approved, posted and captured, exactly once, by the amounts of its record.
   */
  lemma StaleWorkersStaySafe(sys: Sys, acts: seq<Action>, t: Id, a: Id)
    requires Initial(sys) && Possible(sys, acts)
    requires t in After(sys, acts).store.transfers && a in After(sys, acts).store.streams
    ensures TrailSafe(After(sys, acts).store, t, a)
  {
    HealthyStart(sys);
    HealthyRun(sys, acts);
    TrailIsSafe(After(sys, acts).store, t, a);
  }

  lemma TrailIsSafe(s: Store, t: Id, a: Id)
    requires Ledgered(s) && t in s.transfers && a in s.streams
    ensures TrailSafe(s, t, a)
  {
    var r := s.transfers[t];
    assert TransferOk(s, t, r) && TrailAt(s, t, a);
    assert t in s.reservations ==> HoldOk(s, t, s.reservations[t]);
    if a == r.source && t in s.postings {
      WovenOnce(Marks(s.streams[a], t), r, StateOf(s.reservations, t));
    }
  }

  /**
    In every reachable state, event i of a stream has version i, and what replaying it finds reserved is what the hold
    table still has on hold for the account.
   */
  lemma ReplayAgreesWithHolds(sys: Sys, acts: seq<Action>, a: Id)
    requires Initial(sys) && Possible(sys, acts) && a in After(sys, acts).store.streams
    ensures var s := After(sys, acts).store;
            Numbered(s.streams[a]) && ReplayOf(s.streams[a]).reserved == Reserved(s.reservations, a)
  {
    HealthyStart(sys);
    HealthyRun(sys, acts);
    var s := After(sys, acts).store;
    assert StreamOk(s.transfers.Keys, s.adjustments.Keys, a, s.streams[a]);
    assert forall i :: 0 <= i < |s.streams[a]| ==> EventOk(s.transfers.Keys, s.adjustments.Keys, a, i, s.streams[a][i]);
  }

  /**
    In every reachable state, no transfer and no event has two reversals that stand, nobody reviewed what they asked
    for, and an accepted transfer reversal has taken its transfer back on every account.
   */
  lemma ReversalsStaySound(sys: Sys, acts: seq<Action>, j: Id, a: Id)
    requires Initial(sys) && Possible(sys, acts)
    requires j in After(sys, acts).store.adjustments && a in After(sys, acts).store.streams
    ensures var s := After(sys, acts).store;
            var r := s.adjustments[j];
            && ReversedOnce(s.adjustments)
            && (r.status != Waiting ==> r.reviewedBy.Some? && r.reviewedBy.value != r.createdBy)
            && (r.status == Accepted && r.originalTransfer.Some? ==>
                  Net(Marks(s.streams[a], r.originalTransfer.value)) + Net(Entries(s.streams[a], j)) == 0)
  {
    HealthyStart(sys);
    HealthyRun(sys, acts);
    var s := After(sys, acts).store;
    assert AdjustmentOk(s, j, s.adjustments[j]);
    if s.adjustments[j].status == Accepted && s.adjustments[j].originalTransfer.Some? { ReversalCancels(s, j, a); }
  }

  /** A completion is published at most once, and only for a record that is and stays completed. */
  lemma CompletionPublishedOnce(sys: Sys, acts: seq<Action>)
    requires Initial(sys) && Possible(sys, acts)
    ensures PublishedOk(After(sys, acts))
  {
    HealthyStart(sys);
    HealthyRun(sys, acts);
  }
}
