/** How often `Process` must be called, and exactly when an approved transfer is ever completed. */
module Progress {
  import opened Domain
  import opened Sums
  import opened Ledger
  import opened Saga
  import opened System
  import opened Bookkeeping
  import opened AnyWorkers
  import opened OneWorker
  import opened SafeRuns
  import opened Crashes

  lemma {:induction false} FinishedKeeps(s: Store, pc: Pc, answer: Answer, now: int)
    requires Ledgered(s) && PcOk(s, pc)
    ensures Ledgered(Finished(s, pc, answer, now).0) && Grows(s, Finished(s, pc, answer, now).0)
    decreases Distance(pc)
  {
    if pc == Done {
      GrowsSelf(s);
    } else {
      var (s', pc', _) := Work(s, pc, answer, now);
      WorkCalls(s, pc, answer, now);
      WorkComesCloser(s, pc, answer, now);
      CallKeepsLedger(s, pc);
      CallGrows(s, pc);
      CallAdvances(s, pc, answer, now);
      FinishedKeeps(s', pc', answer, now);
      GrowsTwice(s, s', Finished(s', pc', answer, now).0);
    }
  }

  /** One store call, of a worker whose record is the stored one. */
  lemma CallServes(s: Store, pc: Pc, answer: Answer, now: int)
    requires Ledgered(s) && PcOk(s, pc) && PcAgrees(s, pc) && pc != Done
    requires Agree(pc.r, FactsOf(s, pc.r.id)) && HeldWhenApproved(s, pc, answer)
    ensures var (s', pc', _) := Work(s, pc, answer, now);
            && Ledgered(s') && PcOk(s', pc') && PcAgrees(s', pc')
            && (pc' == Done <==> pc.Update?) && (pc' != Done ==> pc'.r == pc.r && !pc'.Begin?)
            && pc.r.id in s'.transfers && Agree(s'.transfers[pc.r.id], FactsOf(s', pc.r.id))
            && (pc.Update? ==> Remaining(s'.transfers[pc.r.id]) < Remaining(pc.r))
  {
    WorkCalls(s, pc, answer, now);
    CallKeepsLedger(s, pc);
    CallAdvances(s, pc, answer, now);
    CallAgrees(s, pc, answer, now);
    CallMovesFacts(s, pc);
  }

  /** One uninterrupted call brings its transfer closer to the end and keeps record and tables in agreement. */
  lemma {:induction false} FinishedServes(s: Store, pc: Pc, answer: Answer, now: int)
    requires Ledgered(s) && PcOk(s, pc) && PcAgrees(s, pc) && pc != Done
    requires Agree(pc.r, FactsOf(s, pc.r.id)) && HeldWhenApproved(s, pc, answer)
    ensures var s' := Finished(s, pc, answer, now).0;
            && pc.r.id in s'.transfers
            && Agree(s'.transfers[pc.r.id], FactsOf(s', pc.r.id))
            && Remaining(s'.transfers[pc.r.id]) < Remaining(pc.r)
    decreases Distance(pc)
  {
    var (s', pc', _) := Work(s, pc, answer, now);
    WorkComesCloser(s, pc, answer, now);
    CallServes(s, pc, answer, now);
    if pc' != Done { FinishedServes(s', pc', answer, now); }
  }

  /** It also keeps the funds of a waiting transfer on hold, whatever the answer. */
  lemma {:induction false} FinishedHolds(s: Store, pc: Pc, answer: Answer, now: int)
    requires Ledgered(s) && PcOk(s, pc) && PcAgrees(s, pc) && pc != Done
    requires Agree(pc.r, FactsOf(s, pc.r.id)) && HeldWhenApproved(s, pc, answer)
    requires HeldOrFailing(s, pc, pc.r.id)
    ensures var s' := Finished(s, pc, answer, now).0;
            pc.r.id in s'.transfers && HeldOrFailing(s', Done, pc.r.id)
    decreases Distance(pc)
  {
    var (s', pc', _) := Work(s, pc, answer, now);
    WorkComesCloser(s, pc, answer, now);
    CallServes(s, pc, answer, now);
    CallUnbroken(s, pc, answer, now);
    if pc' != Done { FinishedHolds(s', pc', answer, now); }
  }

  /** And it follows a verdict that is the same at every call. */
  lemma {:induction false} FinishedFollows(s: Store, pc: Pc, verdict: Answer, now: int)
    requires Ledgered(s) && PcOk(s, pc) && PcAgrees(s, pc) && pc != Done
    requires Agree(pc.r, FactsOf(s, pc.r.id))
    requires Follows(s, pc.r, verdict) && PcFollows(s, pc, verdict)
    ensures var s' := Finished(s, pc, verdict, now).0;
            pc.r.id in s'.transfers && Follows(s', s'.transfers[pc.r.id], verdict)
    decreases Distance(pc)
  {
    var (s', pc', _) := Work(s, pc, verdict, now);
    WorkComesCloser(s, pc, verdict, now);
    CallServes(s, pc, verdict, now);
    CallFollows(s, pc, verdict, now);
    if pc' != Done { FinishedFollows(s', pc', verdict, now); }
  }

  // ---- calling Process again and again

  /** One call of `Process` on the stored record, if it is still pending. */
  function Serve(s: Store, t: Id, answer: Answer, now: int): Store {
    if t in s.transfers && s.transfers[t].status == Pending then Finished(s, Begin(s.transfers[t]), answer, now).0
    else s
  }

  function ServeAll(s: Store, t: Id, calls: seq<(Answer, int)>): Store
    decreases |calls|
  {
    if calls == [] then s else ServeAll(Serve(s, t, calls[0].0, calls[0].1), t, calls[1..])
  }

  ghost predicate Served(s: Store, t: Id) {
    Ledgered(s) && t in s.transfers && Agree(s.transfers[t], FactsOf(s, t))
  }

  lemma BeginOk(s: Store, t: Id)
    requires Ledgered(s) && t in s.transfers && s.transfers[t].status == Pending
    ensures PcOk(s, Begin(s.transfers[t])) && s.transfers[t].id == t
  {
    assert TransferOk(s, t, s.transfers[t]);
  }

  /** The funds of a waiting transfer are on hold, or a refusal is on record, or nobody approves it any more. */
  ghost predicate Settles(s: Store, t: Id, calls: seq<(Answer, int)>)
    requires t in s.transfers
  {
    s.transfers[t].status == Pending && s.transfers[t].step == FundsHeld ==>
      Approvable(FactsOf(s, t)) || forall i :: 0 <= i < |calls| ==> calls[i].0 != Approve
  }

  lemma ServeReduces(s: Store, t: Id, calls: seq<(Answer, int)>)
    requires Served(s, t) && calls != [] && Settles(s, t, calls) && s.transfers[t].status == Pending
    ensures var s' := Serve(s, t, calls[0].0, calls[0].1);
            Served(s', t) && Settles(s', t, calls[1..]) && Remaining(s'.transfers[t]) < Remaining(s.transfers[t])
  {
    var (answer, now) := calls[0];
    var pc := Begin(s.transfers[t]);
    BeginOk(s, t);
    FinishedKeeps(s, pc, answer, now);
    FinishedServes(s, pc, answer, now);
    if HeldOrFailing(s, pc, t) {
      FinishedHolds(s, pc, answer, now);
    } else {
      assert DecisionOf(s, t) == Some(Rejected) ==> t in Serve(s, t, answer, now).decisions;
    }
  }

  /** Whatever the compliance checker answers, as many calls as `Remaining` says finish a transfer that settles. */
  lemma {:induction false} ServedToTheEnd(s: Store, t: Id, calls: seq<(Answer, int)>)
    requires Served(s, t) && Settles(s, t, calls)
    requires s.transfers[t].status == Pending ==> Remaining(s.transfers[t]) <= |calls|
    ensures t in ServeAll(s, t, calls).transfers && ServeAll(s, t, calls).transfers[t].status != Pending
    decreases |calls|
  {
    if s.transfers[t].status != Pending {
      StaysFinished(s, t, calls);
    } else {
      ServeReduces(s, t, calls);
      ServedToTheEnd(Serve(s, t, calls[0].0, calls[0].1), t, calls[1..]);
    }
  }

  lemma NineCallsSuffice(s: Store, t: Id, calls: seq<(Answer, int)>)
    requires Served(s, t) && Settles(s, t, calls) && 9 <= |calls|
    ensures t in ServeAll(s, t, calls).transfers && ServeAll(s, t, calls).transfers[t].status != Pending
  {
    ServedToTheEnd(s, t, calls);
  }

  lemma {:induction false} StaysFinished(s: Store, t: Id, calls: seq<(Answer, int)>)
    requires t in s.transfers && s.transfers[t].status != Pending
    ensures ServeAll(s, t, calls) == s
    decreases |calls|
  {
    if calls != [] { StaysFinished(s, t, calls[1..]); }
  }

  // ---- one verdict for every call

  ghost predicate AllSay(calls: seq<(Answer, int)>, verdict: Answer) {
    forall i :: 0 <= i < |calls| ==> calls[i].0 == verdict
  }

  lemma ServeFollows(s: Store, t: Id, verdict: Answer, now: int)
    requires Served(s, t) && Follows(s, s.transfers[t], verdict)
    ensures var s' := Serve(s, t, verdict, now);
            && Served(s', t) && Follows(s', s'.transfers[t], verdict)
            && (s.transfers[t].status == Pending ==> Remaining(s'.transfers[t]) < Remaining(s.transfers[t]))
  {
    if s.transfers[t].status == Pending {
      var pc := Begin(s.transfers[t]);
      BeginOk(s, t);
      FinishedKeeps(s, pc, verdict, now);
      FinishedServes(s, pc, verdict, now);
      FinishedFollows(s, pc, verdict, now);
    }
  }

  /**
    A transfer that has followed its verdict so far is finished by enough calls that give it again, and then as the
    verdict calls for. That includes a record which a crash left pending after its funds were given back.
   */
  lemma {:induction false} VerdictEnds(s: Store, t: Id, calls: seq<(Answer, int)>, verdict: Answer)
    requires Served(s, t) && Follows(s, s.transfers[t], verdict) && AllSay(calls, verdict)
    requires s.transfers[t].status == Pending ==> Remaining(s.transfers[t]) <= |calls|
    ensures var s' := ServeAll(s, t, calls);
            Served(s', t) && Follows(s', s'.transfers[t], verdict) && s'.transfers[t].status != Pending
    decreases |calls|
  {
    if s.transfers[t].status != Pending {
      StaysFinished(s, t, calls);
    } else {
      ServeFollows(s, t, verdict, calls[0].1);
      VerdictEnds(Serve(s, t, verdict, calls[0].1), t, calls[1..], verdict);
    }
  }

  // ---- exactly when an approval is good

  /** Funds that were given back stay given back, so the transfer can never be captured. */
  lemma {:induction false} GivenBackNeverCompletes(s: Store, t: Id, calls: seq<(Answer, int)>)
    requires Ledgered(s) && t in s.transfers && StateOf(s.reservations, t) == Some(GivenBack)
    ensures t in ServeAll(s, t, calls).transfers && ServeAll(s, t, calls).transfers[t].status != Completed
    decreases |calls|
  {
    assert TransferOk(s, t, s.transfers[t]);
    if calls != [] {
      var s' := Serve(s, t, calls[0].0, calls[0].1);
      if s.transfers[t].status == Pending {
        BeginOk(s, t);
        FinishedKeeps(s, Begin(s.transfers[t]), calls[0].0, calls[0].1);
        assert t in s'.transfers && t in s'.reservations;
      }
      GivenBackNeverCompletes(s', t, calls[1..]);
    }
  }

  /** Nor is a transfer with a refusal on record, since a decision never changes. */
  lemma {:induction false} RefusedNeverCompletes(s: Store, t: Id, calls: seq<(Answer, int)>)
    requires Ledgered(s) && t in s.transfers && DecisionOf(s, t) == Some(Rejected)
    ensures t in ServeAll(s, t, calls).transfers && ServeAll(s, t, calls).transfers[t].status != Completed
    decreases |calls|
  {
    assert TransferOk(s, t, s.transfers[t]);
    if calls != [] {
      var s' := Serve(s, t, calls[0].0, calls[0].1);
      if s.transfers[t].status == Pending {
        BeginOk(s, t);
        FinishedKeeps(s, Begin(s.transfers[t]), calls[0].0, calls[0].1);
        assert t in s'.transfers && t in s'.decisions;
      }
      RefusedNeverCompletes(s', t, calls[1..]);
    }
  }

  /** A worker that finds a transfer waiting for its verdict and approves it goes on to posting, held or not. */
  lemma ApprovedGoesOn(s: Store, t: Id, now: int)
    requires Served(s, t) && s.transfers[t].status == Pending && s.transfers[t].step == FundsHeld
    requires DecisionOf(s, t) != Some(Rejected)
    ensures var r := s.transfers[t];
            var u := Advance(r, ComplianceApproved, now).(compliance := Some(Approved));
            Serve(s, t, Approve, now)
            == s.(decisions := s.decisions[t := Approved], transfers := s.transfers[t := ApplyUpdate(r, u)])
  {
    var r := s.transfers[t];
    BeginOk(s, t);
    var u := Advance(r, ComplianceApproved, now).(compliance := Some(Approved));
    var decided := s.(decisions := s.decisions[t := Approved]);
    FinishedStep(s, Begin(r), Approve, now);
    FinishedStep(s, Record(r, true), Approve, now);
    UpdateEnds(decided, r, u, false, Approve, now);
  }

  /**
    The rule of OneWorker is exact for the agreement: after one approving call, record and tables agree if and only if
    the funds were on hold or a refusal was on record.
   */
  lemma ApprovalAgreesIff(s: Store, t: Id, now: int)
    requires Served(s, t) && s.transfers[t].status == Pending && s.transfers[t].step == FundsHeld
    ensures var s' := Serve(s, t, Approve, now);
            t in s'.transfers && (Agree(s'.transfers[t], FactsOf(s', t)) <==> Approvable(FactsOf(s, t)))
  {
    if Approvable(FactsOf(s, t)) {
      BeginOk(s, t);
      FinishedServes(s, Begin(s.transfers[t]), Approve, now);
    } else {
      ApprovedGoesOn(s, t, now);
    }
  }

  /**
    It is exact for completion: a transfer that waits for its verdict and is approved from now on completes if and only
    if its funds are still on hold and no refusal is on record.
   */
  lemma ApprovalCompletesIff(s: Store, t: Id, calls: seq<(Answer, int)>)
    requires Served(s, t) && s.transfers[t].status == Pending && s.transfers[t].step == FundsHeld
    requires AllSay(calls, Approve) && 9 <= |calls|
    ensures t in ServeAll(s, t, calls).transfers
    ensures ServeAll(s, t, calls).transfers[t].status == Completed
            <==> StateOf(s.reservations, t) == Some(OnHold) && DecisionOf(s, t) != Some(Rejected)
  {
    BeginOk(s, t);
    if StateOf(s.reservations, t) != Some(OnHold) {
      GivenBackNeverCompletes(s, t, calls);
    } else if DecisionOf(s, t) == Some(Rejected) {
      RefusedNeverCompletes(s, t, calls);
    } else {
      VerdictEnds(s, t, calls, Approve);
      HeldStaysHeld(s, t, calls);
      assert TransferOk(ServeAll(s, t, calls), t, ServeAll(s, t, calls).transfers[t]);
    }
  }

  lemma {:induction false} HeldStaysHeld(s: Store, t: Id, calls: seq<(Answer, int)>)
    requires Ledgered(s) && t in s.transfers && t in s.reservations
    ensures t in ServeAll(s, t, calls).reservations
    decreases |calls|
  {
    if calls != [] {
      var s' := Serve(s, t, calls[0].0, calls[0].1);
      if s.transfers[t].status == Pending {
        BeginOk(s, t);
        FinishedKeeps(s, Begin(s.transfers[t]), calls[0].0, calls[0].1);
        assert t in s'.transfers && t in s'.reservations;
      }
      HeldStaysHeld(s', t, calls[1..]);
    }
  }

  /** Posted without a hold, a transfer stays pending for ever: it can neither be captured nor fail. */
  lemma {:induction false} StuckForEver(s: Store, t: Id, calls: seq<(Answer, int)>)
    requires Ledgered(s) && t in s.transfers && StateOf(s.reservations, t) == Some(GivenBack)
    requires s.transfers[t].status == Pending && 2 <= Rank(s.transfers[t].step)
    ensures t in ServeAll(s, t, calls).transfers && ServeAll(s, t, calls).transfers[t].status == Pending
    decreases |calls|
  {
    if calls != [] {
      StuckServe(s, t, calls[0].0, calls[0].1);
      StuckForEver(Serve(s, t, calls[0].0, calls[0].1), t, calls[1..]);
    }
  }

  lemma StuckServe(s: Store, t: Id, answer: Answer, now: int)
    requires Ledgered(s) && t in s.transfers && StateOf(s.reservations, t) == Some(GivenBack)
    requires s.transfers[t].status == Pending && 2 <= Rank(s.transfers[t].step)
    ensures var s' := Serve(s, t, answer, now);
            && Ledgered(s') && t in s'.transfers && StateOf(s'.reservations, t) == Some(GivenBack)
            && s'.transfers[t].status == Pending && 2 <= Rank(s'.transfers[t].step)
  {
    var r := s.transfers[t];
    BeginOk(s, t);
    FinishedKeeps(s, Begin(r), answer, now);
    assert TransferOk(s, t, r) && HoldOk(s, t, s.reservations[t]);
    assert StreamOk(s.transfers.Keys, s.adjustments.Keys, r.source, s.streams[r.source]);
    assert StreamOk(s.transfers.Keys, s.adjustments.Keys, r.destination, s.streams[r.destination]);
    var (s', pc', _) := Work(s, Begin(r), answer, now);
    assert s'.transfers == s.transfers && s'.reservations == s.reservations;
    assert pc'.Update? && pc'.u.status == Pending && pc'.u.expected == r.step && pc'.r == r;
    FinishedStep(s, Begin(r), answer, now);
    UpdateEnds(s', r, pc'.u, false, answer, now);
  }

  /**
    And it is exact for termination: nine calls with one verdict finish a pending transfer if and only if they are not
    approvals of a transfer whose funds were given back without a refusal.
   */
  lemma VerdictEndsIff(s: Store, t: Id, calls: seq<(Answer, int)>, verdict: Answer)
    requires Served(s, t) && s.transfers[t].status == Pending && AllSay(calls, verdict) && 9 <= |calls|
    ensures t in ServeAll(s, t, calls).transfers
    ensures ServeAll(s, t, calls).transfers[t].status != Pending
            <==> !(verdict == Approve && s.transfers[t].step == FundsHeld && !Approvable(FactsOf(s, t)))
  {
    if verdict == Approve && s.transfers[t].step == FundsHeld && !Approvable(FactsOf(s, t)) {
      ApprovedGoesOn(s, t, calls[0].1);
      BeginOk(s, t);
      FinishedKeeps(s, Begin(s.transfers[t]), Approve, calls[0].1);
      StuckForEver(Serve(s, t, Approve, calls[0].1), t, calls[1..]);
    } else {
      ServedToTheEnd(s, t, calls);
    }
  }

  // ---- a pass over a batch

  lemma {:induction false} FinishedLeavesOthers(s: Store, pc: Pc, answer: Answer, now: int, t: Id)
    requires pc != Done ==> t != pc.r.id
    ensures var s' := Finished(s, pc, answer, now).0;
            && FactsOf(s', t) == FactsOf(s, t)
            && (t in s.transfers <==> t in s'.transfers)
            && (t in s.transfers ==> s'.transfers[t] == s.transfers[t])
    decreases Distance(pc)
  {
    if pc != Done {
      var (s', pc', _) := Work(s, pc, answer, now);
      WorkCalls(s, pc, answer, now);
      WorkComesCloser(s, pc, answer, now);
      OthersUntouched(s, pc, t);
      assert pc' != Done ==> pc'.r == pc.r;
      FinishedLeavesOthers(s', pc', answer, now, t);
    }
  }

  function ServeBatch(s: Store, batch: seq<Transfer>, answers: Id -> Answer, now: int): Store
    decreases |batch|
  {
    if batch == [] then s
    else ServeBatch(Finished(s, Begin(batch[0]), answers(batch[0].id), now).0, batch[1..], answers, now)
  }

  ghost function Outstanding(s: Store): map<Id, int> {
    map t | t in s.transfers :: Remaining(s.transfers[t])
  }

  /** A call of `Process` on transfer `t` touches no other transfer. */
  ghost predicate OnlyServes(s: Store, s': Store, t: Id) {
    && s'.transfers.Keys == s.transfers.Keys
    && (forall x {:trigger FactsOf(s', x)} :: x != t ==> FactsOf(s', x) == FactsOf(s, x))
    && (forall x :: x in s.transfers && x != t ==> s'.transfers[x] == s.transfers[x])
  }

  lemma ProcessOnlyServes(s: Store, t: Id, answer: Answer, now: int)
    requires t in s.transfers && s.transfers[t].id == t
    requires t in Finished(s, Begin(s.transfers[t]), answer, now).0.transfers
    ensures OnlyServes(s, Finished(s, Begin(s.transfers[t]), answer, now).0, t)
  {
    var s' := Finished(s, Begin(s.transfers[t]), answer, now).0;
    forall x | x != t
      ensures FactsOf(s', x) == FactsOf(s, x)
      ensures x in s.transfers <==> x in s'.transfers
      ensures x in s.transfers ==> s'.transfers[x] == s.transfers[x]
    {
      FinishedLeavesOthers(s, Begin(s.transfers[t]), answer, now, x);
    }
    assert forall x :: x in s'.transfers.Keys <==> x in s.transfers.Keys;
  }

  lemma ProcessReduces(s: Store, t: Id, answer: Answer, now: int)
    requires Ledgered(s) && AllAgree(s) && t in s.transfers && s.transfers[t].status == Pending
    requires HeldWhenApproved(s, Begin(s.transfers[t]), answer)
    ensures var s' := Finished(s, Begin(s.transfers[t]), answer, now).0;
            && Ledgered(s') && AllAgree(s') && OnlyServes(s, s', t)
            && Total(Outstanding(s')) < Total(Outstanding(s))
  {
    var r := s.transfers[t];
    var s' := Finished(s, Begin(r), answer, now).0;
    BeginOk(s, t);
    assert Agree(r, FactsOf(s, t));
    FinishedKeeps(s, Begin(r), answer, now);
    FinishedServes(s, Begin(r), answer, now);
    ProcessOnlyServes(s, t, answer, now);
    forall x | x in s'.transfers
      ensures Agree(s'.transfers[x], FactsOf(s', x))
    {
      assert x != t ==> Agree(s.transfers[x], FactsOf(s, x));
    }
    OneOutstandingChanges(s, s', t);
    TotalUpdate(Outstanding(s), t, Remaining(s'.transfers[t]));
  }

  lemma OneOutstandingChanges(s: Store, s': Store, t: Id)
    requires OnlyServes(s, s', t) && t in s.transfers
    ensures t in s'.transfers && Outstanding(s') == Outstanding(s)[t := Remaining(s'.transfers[t])]
  {
    assert t in s'.transfers.Keys;
    var after := Outstanding(s)[t := Remaining(s'.transfers[t])];
    forall x
      ensures x in Outstanding(s') <==> x in after
      ensures x in after ==> Outstanding(s')[x] == after[x]
    {
      assert x in s'.transfers.Keys <==> x in s.transfers.Keys;
      if x in s.transfers && x != t { assert s'.transfers[x] == s.transfers[x]; }
    }
  }

  /** Each pass of `ProcessDue` takes at least one off the outstanding total for every transfer it finds due. */
  lemma {:induction false} PassReduces(s: Store, batch: seq<Transfer>, answers: Id -> Answer, now: int)
    requires Ledgered(s) && AllAgree(s) && Listed(s, batch)
    requires forall i :: 0 <= i < |batch| ==> HeldWhenApproved(s, Begin(batch[i]), answers(batch[i].id))
    ensures var s' := ServeBatch(s, batch, answers, now);
            Ledgered(s') && AllAgree(s') && Total(Outstanding(s')) <= Total(Outstanding(s)) - |batch|
    decreases |batch|
  {
    if batch != [] {
      var r := batch[0];
      var s' := Finished(s, Begin(r), answers(r.id), now).0;
      ProcessReduces(s, r.id, answers(r.id), now);
      var rest := batch[1..];
      forall i | 0 <= i < |rest|
        ensures rest[i].id in s'.transfers && s'.transfers[rest[i].id] == rest[i]
        ensures HeldWhenApproved(s', Begin(rest[i]), answers(rest[i].id))
      {
        assert rest[i] == batch[i + 1] && rest[i].id != r.id;
        assert HeldWhenApproved(s, Begin(batch[i + 1]), answers(batch[i + 1].id));
        assert FactsOf(s', rest[i].id) == FactsOf(s, rest[i].id);
      }
      PassReduces(s', rest, answers, now);
    }
  }

  // ---- without crashes

  /** Between two passes of the worker: tables agree and every waiting transfer has its funds on hold. */
  ghost predicate AtRest(s: Store) {
    && Ledgered(s) && AllAgree(s)
    && (forall t {:trigger HeldOrFailing(s, Done, t)} :: t in s.transfers ==> HeldOrFailing(s, Done, t))
  }

  /** So it is whenever the one worker is idle in a run without crashes. */
  lemma IdleIsAtRest(sys: Sys, acts: seq<Action>)
    requires Initial(sys) && |sys.workers| == 1 && Possible(sys, acts)
    requires Undisturbed(acts)
    requires forall w :: w in After(sys, acts).workers ==> w.pc == Done
    ensures AtRest(After(sys, acts).store)
  {
    SafeStart(sys);
    WithoutCrashes(sys, acts);
    SafeRun(sys, acts);
  }

  lemma ProcessKeepsRest(s: Store, t: Id, answer: Answer, now: int)
    requires AtRest(s) && t in s.transfers && s.transfers[t].status == Pending
    ensures AtRest(Finished(s, Begin(s.transfers[t]), answer, now).0)
  {
    var r := s.transfers[t];
    var s' := Finished(s, Begin(r), answer, now).0;
    BeginOk(s, t);
    assert Agree(r, FactsOf(s, t)) && HeldOrFailing(s, Done, t);
    ProcessReduces(s, t, answer, now);
    FinishedHolds(s, Begin(r), answer, now);
    forall x | x in s'.transfers
      ensures HeldOrFailing(s', Done, x)
    {
      assert x != t ==> HeldOrFailing(s, Done, x) && FactsOf(s', x) == FactsOf(s, x);
    }
  }

  /** At rest every pass reduces the total, for every answer, and leaves the store at rest. */
  lemma {:induction false} PassAtRest(s: Store, batch: seq<Transfer>, answers: Id -> Answer, now: int)
    requires AtRest(s) && Listed(s, batch)
    ensures var s' := ServeBatch(s, batch, answers, now);
            AtRest(s') && Total(Outstanding(s')) <= Total(Outstanding(s)) - |batch|
    decreases |batch|
  {
    forall i | 0 <= i < |batch|
      ensures HeldWhenApproved(s, Begin(batch[i]), answers(batch[i].id))
    {
      RestIsApprovable(s, batch[i], answers(batch[i].id));
    }
    PassReduces(s, batch, answers, now);
    if batch != [] {
      var r := batch[0];
      ProcessKeepsRest(s, r.id, answers(r.id), now);
      RestIsApprovable(s, r, answers(r.id));
      ProcessReduces(s, r.id, answers(r.id), now);
      PassAtRest(Finished(s, Begin(r), answers(r.id), now).0, batch[1..], answers, now);
    }
  }

  lemma RestIsApprovable(s: Store, r: Transfer, answer: Answer)
    requires AtRest(s) && r.id in s.transfers && s.transfers[r.id] == r && r.status == Pending
    ensures HeldWhenApproved(s, Begin(r), answer)
  {
    assert HeldOrFailing(s, Done, r.id);
  }
}
