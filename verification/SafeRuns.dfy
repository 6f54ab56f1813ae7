/** Whole runs of one worker and any clients: agreement, solvency and the language of the streams. */
module SafeRuns {
  import opened Domain
  import opened Replay
  import opened Ledger
  import opened Saga
  import opened System
  import opened Trails
  import opened Bookkeeping
  import opened Adjustments
  import opened AnyWorkers
  import opened OneWorker
  import opened Solvency

  // ---- the debit block stands right after the hold

  ghost predicate OrderedAt(s: Store, t: Id)
    requires t in s.transfers
  {
    var r := s.transfers[t];
    t in s.postings ==>
      && t in s.reservations && r.source in s.streams
      && Marks(s.streams[r.source], t) == Weave(HoldMarks(r, StateOf(s.reservations, t)), LegMarks(r), 1)
  }

  ghost predicate Ordered(s: Store) {
    forall t {:trigger OrderedAt(s, t)} :: t in s.transfers ==> OrderedAt(s, t)
  }

  ghost predicate MarksKept(s: Store, s': Store, t: Id) {
    forall a {:trigger a in s'.streams} :: a in s.streams ==>
      a in s'.streams && Marks(s'.streams[a], t) == Marks(s.streams[a], t)
  }

  lemma PushKeepsMarks(s: Store, a: Id, e: Event, t: Id)
    requires a in s.streams && TransferTag(e) != Some(t)
    ensures MarksKept(s, Push(s, a, e), t)
  {
    MarksAppend(s.streams[a], e, t);
  }

  lemma ApproveKeepsMarks(s: Store, j: Id, admin: Id, t: Id)
    requires Ledgered(s) && Adjusted(s)
    ensures MarksKept(s, ApproveAdjustment(s, j, admin).0, t)
  {
    var (s', result) := ApproveAdjustment(s, j, admin);
    if result.Ok? {
      var r := s.adjustments[j];
      BookedStreams(s, j);
      forall a | a in s.streams
        ensures a in s'.streams && Marks(s'.streams[a], t) == Marks(s.streams[a], t)
      {
        BookingsKeepMarks(s, r, a, t);
      }
    }
  }

  lemma BookingsKeepMarks(s: Store, r: Adjustment, a: Id, t: Id)
    requires a in s.streams
    ensures Marks(s.streams[a] + Bookings(s, r, a), t) == Marks(s.streams[a], t)
  {
    var more := Bookings(s, r, a);
    if more == [] {
      assert s.streams[a] + more == s.streams[a];
    } else {
      assert more == [more[0]];
      MarksAppend(s.streams[a], more[0], t);
    }
  }

  lemma ClientsKeepMarks(sys: Sys, act: Action, t: Id)
    requires Healthy(sys) && Enabled(sys, act) && !act.CallStore?
    ensures MarksKept(sys.store, Step(sys, act).store, t)
  {
    var s := sys.store;
    match act {
      case DepositAt(a, loaded, amount) =>
        if PlainAppend(s, DepositEvent(a, |loaded|, amount)).1 {
          PushKeepsMarks(s, a, DepositEvent(a, |loaded|, amount), t);
        }
      case WithdrawNow(a, amount) =>
        if WithdrawAvailable(s, a, amount).1.Ok? {
          PushKeepsMarks(s, a, Withdrawal(a, |Stream(s, a)|, amount), t);
        }
      case WithdrawAt(a, loaded, amount) =>
        if PlainAppend(s, Withdrawal(a, |loaded|, amount)).1 {
          PushKeepsMarks(s, a, Withdrawal(a, |loaded|, amount), t);
        }
      case AcceptAdjustment(j, admin) => ApproveKeepsMarks(s, j, admin, t);
      case _ =>
    }
  }

  lemma PostKeepsMarks(s: Store, r: Transfer, t: Id)
    requires TermsOk(r) && t != r.id
    ensures MarksKept(s, Post(s, r).0, t)
  {
    if Post(s, r).0 != s {
      var dst := s.streams[r.destination];
      LegsRead(s.streams[r.source], r, t);
      MarksAppend(dst, CreditEvent(r, |dst|), t);
    }
  }

  lemma CallKeepsMarks(s: Store, pc: Pc, t: Id)
    requires Ledgered(s) && (pc != Done ==> Known(s, pc.r) && pc.r.id != t)
    ensures MarksKept(s, Called(s, pc), t)
  {
    match pc {
      case Done =>
      case Begin(r) =>
        assert TransferOk(s, r.id, s.transfers[r.id]);
        if r.step == Created {
          if Reserve(s, r).0 != s { PushKeepsMarks(s, r.source, HoldEvent(r, |s.streams[r.source]|), t); }
        } else if r.step == ComplianceApproved {
          PostKeepsMarks(s, r, t);
        } else if r.step == LedgerPosted {
          FinishKeepsMarks(s, r.id, Taken, t);
        }
      case ReleaseRejected(r) => FinishKeepsMarks(s, r.id, GivenBack, t);
      case ReleaseThenFail(r, _) => FinishKeepsMarks(s, r.id, GivenBack, t);
      case Record(_, _) =>
      case Update(_, _, _) =>
    }
  }

  lemma FinishKeepsMarks(s: Store, x: Id, target: HoldState, t: Id)
    requires TablesOk(s) && x != t
    ensures MarksKept(s, Finish(s, x, target).0, t)
  {
    if Finish(s, x, target).0 != s {
      var h := s.reservations[x];
      assert HoldOk(s, x, h);
      PushKeepsMarks(s, h.account, EndEvent(h, x, |s.streams[h.account]|, target), t);
    }
  }

  lemma OrderFrame(s: Store, s': Store, t: Id)
    requires t in s.transfers && OrderedAt(s, t) && t in s'.transfers && SameTerms(s'.transfers[t], s.transfers[t])
    requires StateOf(s'.reservations, t) == StateOf(s.reservations, t) && (t in s'.postings <==> t in s.postings)
    requires MarksKept(s, s', t)
    ensures OrderedAt(s', t)
  {
    if t in s.postings { assert s.transfers[t].source in s'.streams; }
  }

  lemma PostOrders(s: Store, r: Transfer)
    requires Ledgered(s) && Known(s, r) && r.id !in s.postings && Post(s, r).1.Ok?
    requires r.id in s.reservations && s.reservations[r.id].state == OnHold
    ensures OrderedAt(Post(s, r).0, r.id)
  {
    var q := s.transfers[r.id];
    assert TransferOk(s, r.id, q) && TrailAt(s, r.id, r.source);
    LegsRead(s.streams[r.source], r, r.id);
    assert [Held(Due(q))] + LegMarks(q) == Weave([Held(Due(q))], LegMarks(q), 1);
  }

  lemma CaptureOrders(s: Store, t: Id)
    requires Ledgered(s) && t in s.postings && t in s.reservations && t in s.transfers && OrderedAt(s, t)
    ensures OrderedAt(Finish(s, t, Taken).0, t)
  {
    var q := s.transfers[t];
    var h := s.reservations[t];
    assert TransferOk(s, t, q) && HoldOk(s, t, h);
    if h.state == OnHold {
      var e := EndEvent(h, t, |s.streams[q.source]|, Taken);
      MarksAppend(s.streams[q.source], e, t);
      assert Weave([Held(Due(q))], LegMarks(q), 1) + [Charged(Due(q))]
          == Weave([Held(Due(q)), Charged(Due(q))], LegMarks(q), 1);
    }
  }

  lemma CallOrders(s: Store, pc: Pc)
    requires Ledgered(s) && PcAgrees(s, pc) && pc != Done
    requires Agree(pc.r, FactsOf(s, pc.r.id)) && OrderedAt(s, pc.r.id)
    ensures pc.r.id in Called(s, pc).transfers && OrderedAt(Called(s, pc), pc.r.id)
  {
    var t := pc.r.id;
    CallMovesFacts(s, pc);
    if t in s.postings {
      if pc.Begin? && pc.r.step == LedgerPosted { CaptureOrders(s, t); }
    } else if pc.Begin? && pc.r.step == ComplianceApproved {
      CallsSucceed(s, pc);
      PostOrders(s, pc.r);
    }
  }

  lemma StepOrders(sys: Sys, act: Action)
    requires Healthy(sys) && InStep(sys) && Ordered(sys.store) && Enabled(sys, act)
    ensures Ordered(Step(sys, act).store)
  {
    var s, s' := sys.store, Step(sys, act).store;
    if act.CallStore? {
      var pc := sys.workers[act.w].pc;
      WorkCalls(s, pc, act.answer, act.now);
      assert Agree(pc.r, FactsOf(s, pc.r.id)) && OrderedAt(s, pc.r.id);
      CallOrders(s, pc);
      forall t | t in s'.transfers
        ensures OrderedAt(s', t)
      {
        if t != pc.r.id {
          OthersUntouched(s, pc, t);
          CallKeepsMarks(s, pc, t);
          assert OrderedAt(s, t) && FactsOf(s', t) == FactsOf(s, t);
          OrderFrame(s, s', t);
        }
      }
    } else {
      ClientsLeaveSaga(sys, act);
      forall t | t in s'.transfers
        ensures OrderedAt(s', t)
      {
        if t in s.transfers {
          ClientsKeepMarks(sys, act, t);
          assert OrderedAt(s, t);
          OrderFrame(s, s', t);
        } else {
          assert FactsOf(s', t) == FactsOf(s, t);
          assert t in s.postings ==> Touched(s, t);
        }
      }
    }
  }

  // ---- whole runs

  ghost predicate Safe(sys: Sys) {
    Healthy(sys) && InStep(sys) && Solvent(sys.store) && Ordered(sys.store)
  }

  lemma SafeStep(sys: Sys, act: Action)
    requires Safe(sys) && Enabled(sys, act) && Respects(sys, act)
    ensures Safe(Step(sys, act))
  {
    HealthyStep(sys, act);
    StepKeepsStep(sys, act);
    StepOrders(sys, act);
    if act.CallStore? {
      var pc := sys.workers[0].pc;
      WorkCalls(sys.store, pc, act.answer, act.now);
      assert pc != Done ==> Agree(pc.r, FactsOf(sys.store, pc.r.id));
      CallSolvent(sys.store, pc);
    } else {
      ClientsSolvent(sys, act);
    }
  }

  /** In every step of the run, funds that were given back are not approved. */
  ghost predicate Respected(sys: Sys, acts: seq<Action>)
    requires Possible(sys, acts)
    decreases |acts|
  {
    acts != [] ==> Respects(sys, acts[0]) && Respected(Step(sys, acts[0]), acts[1..])
  }

  lemma {:induction false} SafeRun(sys: Sys, acts: seq<Action>)
    requires Safe(sys) && Possible(sys, acts) && Respected(sys, acts)
    ensures Safe(After(sys, acts))
    decreases |acts|
  {
    if acts != [] {
      SafeStep(sys, acts[0]);
      SafeRun(Step(sys, acts[0]), acts[1..]);
    }
  }

  lemma SafeStart(sys: Sys)
    requires Initial(sys) && |sys.workers| == 1
    ensures Safe(sys)
  {
    HealthyStart(sys);
  }

  /** Every word that the marks of a transfer can spell on its source account. */
  predicate InLanguage(r: Transfer, marks: seq<Mark>) {
    var hold, legs := [Held(Due(r))], LegMarks(r);
    || marks == []
    || marks == hold
    || marks == hold + [Freed(Due(r))]
    || marks == hold + legs
    || marks == hold + legs + [Charged(Due(r))]
  }

  /**
    What is safe about transfer `t` and account `a`: the balance was never negative at any point of the stream; a
    completed transfer is approved, posted once and captured; a failed one was never posted and holds nothing; and the
    stream spells the language.
   */
  ghost predicate SafelyServed(s: Store, t: Id, a: Id)
    requires t in s.transfers && a in s.streams
  {
    var r, marks, legs := s.transfers[t], Marks(s.streams[a], t), LegMarks(s.transfers[t]);
    && NeverBelowZero(s.streams[a])
    && Promised(s, a) <= ReplayOf(s.streams[a]).balance
    && Agree(r, FactsOf(s, t))
    && (a == r.source ==> InLanguage(r, marks))
    && (a == r.source && r.status == Completed ==> marks == [Held(Due(r))] + legs + [Charged(Due(r))])
    && (a == r.source && r.status == Failed ==> marks == [] || marks == [Held(Due(r)), Freed(Due(r))])
    && (a == r.destination ==> marks == if t in s.postings then [Received(r.amount)] else [])
    && (a != r.source && a != r.destination ==> marks == [])
  }

  /** The saga is safe in every run that respects the rule. */
  lemma SagaIsSafe(sys: Sys, acts: seq<Action>, t: Id, a: Id)
    requires Initial(sys) && |sys.workers| == 1 && Possible(sys, acts) && Respected(sys, acts)
    requires t in After(sys, acts).store.transfers && a in After(sys, acts).store.streams
    ensures SafelyServed(After(sys, acts).store, t, a)
  {
    SafeStart(sys);
    SafeRun(sys, acts);
    var s := After(sys, acts).store;
    assert TransferOk(s, t, s.transfers[t]) && SolventAt(s, a) && Agree(s.transfers[t], FactsOf(s, t));
    assert OrderedAt(s, t);
    SafeMarks(s, t, a);
  }

  /** The marks on the source account, read off the tables. */
  function SourceMarks(r: Transfer, f: Facts): seq<Mark> {
    var hold := [Held(Due(r))];
    match f.hold
    case None => []
    case Some(OnHold) => if f.posted then hold + LegMarks(r) else hold
    case Some(Taken) => hold + LegMarks(r) + [Charged(Due(r))]
    case Some(GivenBack) => hold + [Freed(Due(r))]
  }

  lemma SourceMarksRead(r: Transfer, f: Facts, marks: seq<Mark>)
    requires Agree(r, f)
    requires if f.posted then f.hold != None && marks == Weave(HoldMarks(r, f.hold), LegMarks(r), 1)
             else marks == HoldMarks(r, f.hold)
    ensures marks == SourceMarks(r, f)
  {
  }

  lemma SafeMarks(s: Store, t: Id, a: Id)
    requires Ledgered(s) && t in s.transfers && a in s.streams
    requires Agree(s.transfers[t], FactsOf(s, t)) && OrderedAt(s, t)
    ensures var r, marks := s.transfers[t], Marks(s.streams[a], t);
            && r.source != r.destination
            && (a == r.source ==> marks == SourceMarks(r, FactsOf(s, t)))
            && (a == r.destination ==> marks == if t in s.postings then [Received(r.amount)] else [])
            && (a != r.source && a != r.destination ==> marks == [])
  {
    var r := s.transfers[t];
    assert TransferOk(s, t, r) && TrailAt(s, t, a);
    if a == r.source {
      SourceMarksRead(r, FactsOf(s, t), Marks(s.streams[a], t));
    }
  }
}
