/**
  Crash recovery. `Process` is cut after any store call, any number of times, and started again from the stored record;
  with a fixed verdict the transfer ends where an uninterrupted run of calls ends.
 */
module Recovery {
  import opened Domain
  import opened Sums
  import opened Ledger
  import opened Saga
  import opened System
  import opened Trails
  import opened Bookkeeping
  import opened AnyWorkers
  import opened OneWorker
  import opened SafeRuns
  import opened Crashes
  import opened Progress
  import opened StoreLaws

  // ---- cutting a call

  /** The first `n` store calls of a worker; then the process dies. */
  function Cut(s: Store, pc: Pc, n: nat, verdict: Answer, now: int): Store
    decreases n
  {
    if n == 0 || pc == Done then s
    else
      var (s', pc', _) := Work(s, pc, verdict, now);
      Cut(s', pc', n - 1, verdict, now)
  }

  /** `Process` on the stored record, cut after `n` store calls. */
  function CutServe(s: Store, t: Id, n: nat, verdict: Answer, now: int): Store {
    if t in s.transfers && s.transfers[t].status == Pending then Cut(s, Begin(s.transfers[t]), n, verdict, now) else s
  }

  /** Any number of such attempts, each with the number of its store calls and its time. */
  function Interrupted(s: Store, t: Id, cuts: seq<(nat, int)>, verdict: Answer): Store
    decreases |cuts|
  {
    if cuts == [] then s else Interrupted(CutServe(s, t, cuts[0].0, verdict, cuts[0].1), t, cuts[1..], verdict)
  }

  // ---- what every cut keeps

  ghost predicate Recoverable(s: Store, t: Id, verdict: Answer) {
    Served(s, t) && OrderedAt(s, t) && Follows(s, s.transfers[t], verdict)
  }

  ghost predicate Underway(s: Store, pc: Pc, t: Id, verdict: Answer) {
    && Recoverable(s, t, verdict)
    && (pc != Done ==>
          && PcOk(s, pc) && PcAgrees(s, pc) && pc.r.id == t && Agree(pc.r, FactsOf(s, t))
          && Follows(s, pc.r, verdict) && PcFollows(s, pc, verdict))
  }

  lemma CallRecovers(s: Store, pc: Pc, t: Id, verdict: Answer, now: int)
    requires Underway(s, pc, t, verdict) && pc != Done
    ensures var (s', pc', _) := Work(s, pc, verdict, now); Underway(s', pc', t, verdict)
  {
    CallServes(s, pc, verdict, now);
    CallFollows(s, pc, verdict, now);
    WorkCalls(s, pc, verdict, now);
    CallOrders(s, pc);
    var (s', pc', _) := Work(s, pc, verdict, now);
    assert TransferOk(s', t, s'.transfers[t]);
  }

  lemma BeginUnderway(s: Store, t: Id, verdict: Answer)
    requires Recoverable(s, t, verdict) && s.transfers[t].status == Pending
    ensures Underway(s, Begin(s.transfers[t]), t, verdict)
  {
    BeginOk(s, t);
  }

  lemma {:induction false} CutRecovers(s: Store, pc: Pc, t: Id, n: nat, verdict: Answer, now: int)
    requires Underway(s, pc, t, verdict)
    ensures Recoverable(Cut(s, pc, n, verdict, now), t, verdict)
    decreases n
  {
    if n != 0 && pc != Done {
      CallRecovers(s, pc, t, verdict, now);
      var (s', pc', _) := Work(s, pc, verdict, now);
      CutRecovers(s', pc', t, n - 1, verdict, now);
    }
  }

  lemma {:induction false} InterruptedRecovers(s: Store, t: Id, cuts: seq<(nat, int)>, verdict: Answer)
    requires Recoverable(s, t, verdict)
    ensures Recoverable(Interrupted(s, t, cuts, verdict), t, verdict)
    decreases |cuts|
  {
    if cuts != [] {
      if s.transfers[t].status == Pending {
        BeginUnderway(s, t, verdict);
        CutRecovers(s, Begin(s.transfers[t]), t, cuts[0].0, verdict, cuts[0].1);
      }
      InterruptedRecovers(CutServe(s, t, cuts[0].0, verdict, cuts[0].1), t, cuts[1..], verdict);
    }
  }

  /** An uninterrupted call is one that is cut after its last store call. */
  lemma {:induction false} FinishedIsCut(s: Store, pc: Pc, verdict: Answer, now: int)
    ensures Finished(s, pc, verdict, now).0 == Cut(s, pc, Distance(pc), verdict, now)
    decreases Distance(pc)
  {
    if pc != Done {
      FinishedStep(s, pc, verdict, now);
      WorkComesCloser(s, pc, verdict, now);
      var (s', pc', _) := Work(s, pc, verdict, now);
      FinishedIsCut(s', pc', verdict, now);
      CutBeyond(s', pc', Distance(pc'), Distance(pc) - 1, verdict, now);
    }
  }

  lemma {:induction false} CutBeyond(s: Store, pc: Pc, n: nat, m: nat, verdict: Answer, now: int)
    requires Distance(pc) <= n <= m
    ensures Cut(s, pc, m, verdict, now) == Cut(s, pc, n, verdict, now)
    decreases n
  {
    if pc != Done {
      WorkComesCloser(s, pc, verdict, now);
      var (s', pc', _) := Work(s, pc, verdict, now);
      CutBeyond(s', pc', n - 1, m - 1, verdict, now);
    }
  }

  function CutsOf(calls: seq<(Answer, int)>): seq<(nat, int)>
    ensures |CutsOf(calls)| == |calls|
    ensures forall i :: 0 <= i < |calls| ==> CutsOf(calls)[i] == (5, calls[i].1)
  {
    seq(|calls|, i requires 0 <= i < |calls| => (5, calls[i].1))
  }

  lemma {:induction false} ServeAllIsInterrupted(s: Store, t: Id, calls: seq<(Answer, int)>, verdict: Answer)
    requires AllSay(calls, verdict)
    ensures ServeAll(s, t, calls) == Interrupted(s, t, CutsOf(calls), verdict)
    decreases |calls|
  {
    if calls != [] {
      if t in s.transfers && s.transfers[t].status == Pending {
        FinishedIsCut(s, Begin(s.transfers[t]), verdict, calls[0].1);
      }
      assert CutsOf(calls)[1..] == CutsOf(calls[1..]);
      ServeAllIsInterrupted(Serve(s, t, verdict, calls[0].1), t, calls[1..], verdict);
    }
  }

  // ---- cut anywhere, the transfer ends, and ends as its verdict says

  lemma EnoughCallsRecover(s: Store, t: Id, a: Id, calls: seq<(Answer, int)>, verdict: Answer)
    requires Recoverable(s, t, verdict) && AllSay(calls, verdict)
    requires s.transfers[t].status == Pending ==> Remaining(s.transfers[t]) <= |calls|
    ensures var s' := ServeAll(s, t, calls);
            && t in s'.transfers && s'.transfers[t].status != Pending
            && (a in s'.streams ==>
                  if t in s'.reservations then Trace(s', t, a) == ExpectedTrace(s'.transfers[t], a, verdict)
                  else s'.transfers[t].status == Failed && Marks(s'.streams[a], t) == [])
  {
    VerdictEnds(s, t, calls, verdict);
    ServeAllIsInterrupted(s, t, calls, verdict);
    InterruptedRecovers(s, t, CutsOf(calls), verdict);
    if a in ServeAll(s, t, calls).streams { FinishedTrace(ServeAll(s, t, calls), t, a, verdict); }
  }

  /**
    From any store that a worker under this verdict has left behind, nine more calls with the verdict leave a final
    status and the trace that terms and verdict fix.
   */
  lemma NineCallsRecover(s: Store, t: Id, a: Id, calls: seq<(Answer, int)>, verdict: Answer)
    requires Recoverable(s, t, verdict) && AllSay(calls, verdict) && 9 <= |calls|
    ensures var s' := ServeAll(s, t, calls);
            && t in s'.transfers && s'.transfers[t].status != Pending
            && (a in s'.streams ==>
                  if t in s'.reservations then Trace(s', t, a) == ExpectedTrace(s'.transfers[t], a, verdict)
                  else s'.transfers[t].status == Failed && Marks(s'.streams[a], t) == [])
  {
    EnoughCallsRecover(s, t, a, calls, verdict);
  }

  /**
    Whole runs: whatever the bank has done, with crashes between any store calls and any clients in between, every
    transfer is finished by nine calls that give its verdict, and leaves the expected trace.
   */
  lemma EveryTransferRecovers(sys: Sys, acts: seq<Action>, verdicts: Id -> Answer, t: Id, a: Id,
                              calls: seq<(Answer, int)>)
    requires Initial(sys) && |sys.workers| == 1 && Possible(sys, acts) && Given(sys, acts, verdicts)
    requires t in After(sys, acts).store.transfers && AllSay(calls, verdicts(t)) && 9 <= |calls|
    ensures Recoverable(After(sys, acts).store, t, verdicts(t))
    ensures var s' := ServeAll(After(sys, acts).store, t, calls);
            && t in s'.transfers && s'.transfers[t].status != Pending
            && (a in s'.streams ==>
                  if t in s'.reservations then Trace(s', t, a) == ExpectedTrace(s'.transfers[t], a, verdicts(t))
                  else s'.transfers[t].status == Failed && Marks(s'.streams[a], t) == [])
  {
    SafeStart(sys);
    FixedVerdicts(sys, acts, verdicts);
    SteadyTransfer(After(sys, acts), verdicts, t);
    NineCallsRecover(After(sys, acts).store, t, a, calls, verdicts(t));
  }

  /** And every pass that gives the verdicts takes at least one off the outstanding total per transfer it lists. */
  lemma EveryPassReduces(sys: Sys, acts: seq<Action>, verdicts: Id -> Answer, batch: seq<Transfer>, now: int)
    requires Initial(sys) && |sys.workers| == 1 && Possible(sys, acts) && Given(sys, acts, verdicts)
    requires Listed(After(sys, acts).store, batch)
    ensures var s := After(sys, acts).store;
            Total(Outstanding(ServeBatch(s, batch, verdicts, now))) <= Total(Outstanding(s)) - |batch|
  {
    SafeStart(sys);
    FixedVerdicts(sys, acts, verdicts);
    var s := After(sys, acts).store;
    forall i | 0 <= i < |batch|
      ensures HeldWhenApproved(s, Begin(batch[i]), verdicts(batch[i].id))
    {
      SteadyTransfer(After(sys, acts), verdicts, batch[i].id);
    }
    PassReduces(s, batch, verdicts, now);
  }

  // ---- whether the funds can be held is decided where the attempts start

  /** How the reservation turns out when it is first tried in `s0`. */
  function Code(e: Error): FailureCode {
    if e == InsufficientFunds then FundsMissing else AccountMissing
  }

  /**
    `s` comes from `s0` by calls for `t` alone: the funds are held only if they can be in `s0`, and until they are, the
    streams are those of `s0` and the transfer fails only as the reservation fails there.
   */
  ghost predicate SameHold(s0: Store, s: Store, t: Id)
    requires t in s0.transfers
  {
    var result := Reserve(s0, s0.transfers[t]).1;
    && t in s.transfers && SameTerms(s.transfers[t], s0.transfers[t])
    && (t in s.reservations ==> result.Ok?)
    && (t !in s.reservations ==>
          && s.streams == s0.streams && s.transfers[t].step == Created
          && (s.transfers[t].status != Pending ==>
                s.transfers[t].status == Failed && result.Err? && s.transfers[t].failure == Some(Code(result.error))))
  }

  ghost predicate PcSameHold(s0: Store, s: Store, pc: Pc, t: Id)
    requires t in s0.transfers
  {
    var result := Reserve(s0, s0.transfers[t]).1;
    t !in s.reservations ==>
      && (pc.Begin? || pc.Update? || pc == Done)
      && (pc.Begin? ==> pc.r.step == Created)
      && (pc.Update? ==>
            pc.u.step == Created && pc.u.status == Failed && result.Err? && pc.u.failure == Some(Code(result.error)))
  }

  lemma ReserveSameHold(s0: Store, s: Store, r: Transfer)
    requires r.id in s0.transfers && SameTerms(r, s0.transfers[r.id]) && r.id !in s0.reservations
    requires r.id !in s.reservations && s.streams == s0.streams
    ensures Reserve(s, r).1 == Reserve(s0, s0.transfers[r.id]).1
    ensures Reserve(s, r).1.Err? ==> Permanent(Reserve(s, r).1.error)
  {
  }

  lemma CallSameHold(s0: Store, s: Store, pc: Pc, t: Id, verdict: Answer, now: int)
    requires t in s0.transfers && t !in s0.reservations
    requires Underway(s, pc, t, verdict) && pc != Done && SameHold(s0, s, t) && PcSameHold(s0, s, pc, t)
    ensures var (s', pc', _) := Work(s, pc, verdict, now); SameHold(s0, s', t) && PcSameHold(s0, s', pc', t)
  {
    CallRecovers(s, pc, t, verdict, now);
    if t in s.reservations {
      HeldSameHold(s0, s, pc, t, verdict, now);
    } else if pc.Begin? {
      ReserveSameHold(s0, s, pc.r);
    }
  }

  lemma HeldSameHold(s0: Store, s: Store, pc: Pc, t: Id, verdict: Answer, now: int)
    requires t in s0.transfers && Underway(s, pc, t, verdict) && pc != Done && SameHold(s0, s, t)
    requires t in s.reservations
    ensures var (s', pc', _) := Work(s, pc, verdict, now); SameHold(s0, s', t) && PcSameHold(s0, s', pc', t)
  {
    WorkCalls(s, pc, verdict, now);
    CallGrows(s, pc);
    var s' := Called(s, pc);
    assert t in s'.reservations && t in s'.transfers;
  }

  lemma {:induction false} CutSameHold(s0: Store, s: Store, pc: Pc, t: Id, n: nat, verdict: Answer, now: int)
    requires t in s0.transfers && t !in s0.reservations
    requires Underway(s, pc, t, verdict) && SameHold(s0, s, t) && PcSameHold(s0, s, pc, t)
    ensures SameHold(s0, Cut(s, pc, n, verdict, now), t)
    decreases n
  {
    if n != 0 && pc != Done {
      CallRecovers(s, pc, t, verdict, now);
      CallSameHold(s0, s, pc, t, verdict, now);
      var (s', pc', _) := Work(s, pc, verdict, now);
      CutSameHold(s0, s', pc', t, n - 1, verdict, now);
    }
  }

  lemma {:induction false} InterruptedSameHold(s0: Store, s: Store, t: Id, cuts: seq<(nat, int)>, verdict: Answer)
    requires t in s0.transfers && t !in s0.reservations && Recoverable(s, t, verdict) && SameHold(s0, s, t)
    ensures SameHold(s0, Interrupted(s, t, cuts, verdict), t)
    decreases |cuts|
  {
    if cuts != [] {
      var s' := CutServe(s, t, cuts[0].0, verdict, cuts[0].1);
      if s.transfers[t].status == Pending {
        BeginUnderway(s, t, verdict);
        CutRecovers(s, Begin(s.transfers[t]), t, cuts[0].0, verdict, cuts[0].1);
        CutSameHold(s0, s, Begin(s.transfers[t]), t, cuts[0].0, verdict, cuts[0].1);
      }
      InterruptedSameHold(s0, s', t, cuts[1..], verdict);
    }
  }

  // ---- interrupted and uninterrupted

  lemma {:induction false} InterruptedGrows(s: Store, t: Id, cuts: seq<(nat, int)>, verdict: Answer)
    requires Recoverable(s, t, verdict)
    ensures Grows(s, Interrupted(s, t, cuts, verdict))
    decreases |cuts|
  {
    GrowsSelf(s);
    if cuts != [] {
      var s' := CutServe(s, t, cuts[0].0, verdict, cuts[0].1);
      if s.transfers[t].status == Pending {
        BeginUnderway(s, t, verdict);
        CutRecovers(s, Begin(s.transfers[t]), t, cuts[0].0, verdict, cuts[0].1);
        CutGrows(s, Begin(s.transfers[t]), t, cuts[0].0, verdict, cuts[0].1);
      }
      InterruptedGrows(s', t, cuts[1..], verdict);
      GrowsTwice(s, s', Interrupted(s, t, cuts, verdict));
    }
  }

  lemma {:induction false} CutGrows(s: Store, pc: Pc, t: Id, n: nat, verdict: Answer, now: int)
    requires Underway(s, pc, t, verdict)
    ensures Grows(s, Cut(s, pc, n, verdict, now))
    decreases n
  {
    GrowsSelf(s);
    if n != 0 && pc != Done {
      CallRecovers(s, pc, t, verdict, now);
      WorkCalls(s, pc, verdict, now);
      CallGrows(s, pc);
      var (s', pc', _) := Work(s, pc, verdict, now);
      CutGrows(s', pc', t, n - 1, verdict, now);
      GrowsTwice(s, s', Cut(s, pc, n, verdict, now));
    }
  }

  lemma {:induction false} InterruptedStays(s: Store, t: Id, cuts: seq<(nat, int)>, verdict: Answer)
    requires t in s.transfers && s.transfers[t].status != Pending
    ensures Interrupted(s, t, cuts, verdict) == s
    decreases |cuts|
  {
    if cuts != [] { InterruptedStays(s, t, cuts[1..], verdict); }
  }

  lemma {:induction false} InterruptedAgain(s: Store, t: Id, cuts: seq<(nat, int)>, more: seq<(nat, int)>,
                                            verdict: Answer)
    ensures Interrupted(s, t, cuts + more, verdict) == Interrupted(Interrupted(s, t, cuts, verdict), t, more, verdict)
    decreases |cuts|
  {
    if cuts == [] {
      assert cuts + more == more;
    } else {
      assert (cuts + more)[1..] == cuts[1..] + more;
      InterruptedAgain(CutServe(s, t, cuts[0].0, verdict, cuts[0].1), t, cuts[1..], more, verdict);
    }
  }

  lemma SeriesGrows(s: Store, t: Id, a: Id, cuts: seq<(nat, int)>, verdict: Answer)
    requires Recoverable(s, t, verdict) && a in s.streams
    ensures var s' := Interrupted(s, t, cuts, verdict);
            && t in s'.transfers && a in s'.streams && SameTerms(s'.transfers[t], s.transfers[t])
            && (t in s.reservations ==> t in s'.reservations)
  {
    var s' := Interrupted(s, t, cuts, verdict);
    InterruptedGrows(s, t, cuts, verdict);
    assert t in s'.transfers && a in s'.streams;
    assert t in s.reservations ==> t in s'.reservations;
  }

  /**
    What a series of attempts leaves if it finishes the transfer: decided by the verdict, and by whether the source can
    pay amount and fee beside its open holds where the series starts.
   */
  ghost function SeriesTrace(s: Store, t: Id, a: Id, verdict: Answer): (TransferStatus, Option<FailureCode>, seq<Mark>)
    requires t in s.transfers
  {
    var r := s.transfers[t];
    if t in s.reservations then ExpectedTrace(r, a, verdict)
    else if Stream(s, r.source) == [] || Stream(s, r.destination) == [] then (Failed, Some(AccountMissing), [])
    else if Balance(s, r.source) - OnHoldOf(s, r.source) < r.amount + r.fee then (Failed, Some(FundsMissing), [])
    else ExpectedTrace(r, a, verdict)
  }

  lemma SeriesLeaves(s: Store, t: Id, a: Id, cuts: seq<(nat, int)>, verdict: Answer)
    requires Recoverable(s, t, verdict) && a in s.streams && s.transfers[t].status == Pending
    ensures var s' := Interrupted(s, t, cuts, verdict);
            && t in s'.transfers && a in s'.streams
            && (s'.transfers[t].status != Pending ==> Trace(s', t, a) == SeriesTrace(s, t, a, verdict))
  {
    var s' := Interrupted(s, t, cuts, verdict);
    BeginOk(s, t);
    InterruptedRecovers(s, t, cuts, verdict);
    SeriesGrows(s, t, a, cuts, verdict);
    if t !in s.reservations {
      ReservesIff(s, s.transfers[t]);
      InterruptedSameHold(s, s, t, cuts, verdict);
    }
    if s'.transfers[t].status != Pending {
      FinishedTrace(s', t, a, verdict);
      SameExpected(s.transfers[t], s'.transfers[t], a, verdict);
    }
  }

  lemma SameExpected(r: Transfer, r': Transfer, a: Id, verdict: Answer)
    requires SameTerms(r', r)
    ensures ExpectedTrace(r', a, verdict) == ExpectedTrace(r, a, verdict)
  {
  }

  /** However two series of attempts are cut, if both finish the transfer they leave the same trace on every account. */
  lemma InterruptionsDoNotShow(s: Store, t: Id, a: Id, cuts: seq<(nat, int)>, cuts': seq<(nat, int)>, verdict: Answer)
    requires Recoverable(s, t, verdict) && a in s.streams
    ensures var s1, s2 := Interrupted(s, t, cuts, verdict), Interrupted(s, t, cuts', verdict);
            && t in s1.transfers && a in s1.streams && t in s2.transfers && a in s2.streams
            && (s1.transfers[t].status != Pending && s2.transfers[t].status != Pending ==>
                  Trace(s1, t, a) == Trace(s2, t, a))
  {
    if s.transfers[t].status == Pending {
      SeriesLeaves(s, t, a, cuts, verdict);
      SeriesLeaves(s, t, a, cuts', verdict);
    } else {
      InterruptedStays(s, t, cuts, verdict);
      InterruptedStays(s, t, cuts', verdict);
    }
  }

  /**
    Cut `Process` after any store calls, as often as you like, then let it run: it ends, and in the same final status,
    failure code and tagged events on every account as if it had never been cut.
   */
  lemma CutAndResumed(s: Store, t: Id, a: Id, cuts: seq<(nat, int)>, calls: seq<(Answer, int)>,
                      uncut: seq<(Answer, int)>, verdict: Answer)
    requires Recoverable(s, t, verdict) && a in s.streams
    requires AllSay(calls, verdict) && 9 <= |calls| && AllSay(uncut, verdict) && 9 <= |uncut|
    ensures var s1, s2 := ServeAll(Interrupted(s, t, cuts, verdict), t, calls), ServeAll(s, t, uncut);
            && t in s1.transfers && a in s1.streams && t in s2.transfers && a in s2.streams
            && s1.transfers[t].status != Pending && s2.transfers[t].status != Pending
            && Trace(s1, t, a) == Trace(s2, t, a)
  {
    var s' := Interrupted(s, t, cuts, verdict);
    InterruptedRecovers(s, t, cuts, verdict);
    VerdictEnds(s', t, calls, verdict);
    VerdictEnds(s, t, uncut, verdict);
    ServeAllIsInterrupted(s', t, calls, verdict);
    ServeAllIsInterrupted(s, t, uncut, verdict);
    InterruptedAgain(s, t, cuts, CutsOf(calls), verdict);
    InterruptionsDoNotShow(s, t, a, cuts + CutsOf(calls), CutsOf(uncut), verdict);
  }
}
