/** What the methods of the transfer service do to the store are runs of System, so its theorems speak about them. */
module ServedRuns {
  import opened Domain
  import opened Ledger
  import opened Saga
  import opened System
  import opened Bookkeeping
  import opened AnyWorkers
  import opened Progress
  import opened Services

  ghost predicate Busy(sys: Sys, w: nat) {
    w < |sys.workers| && sys.workers[w].pc != Done
  }

  /** The store calls that worker `w` still makes in its call of `Process`, with nothing in between. */
  ghost function CallsLeft(s: Store, pc: Pc, w: nat, answer: Answer, now: int): seq<Action>
    decreases Distance(pc)
  {
    if pc == Done then []
    else
      WorkComesCloser(s, pc, answer, now);
      var (s', pc', _) := Work(s, pc, answer, now);
      [CallStore(w, answer, now)] + CallsLeft(s', pc', w, answer, now)
  }

  ghost function ProcessDone(sys: Sys, w: nat, answer: Answer, now: int): Sys
    requires Busy(sys, w)
  {
    var worker := sys.workers[w];
    var (s', published) := Finished(sys.store, worker.pc, answer, now);
    sys.(store := s', workers := sys.workers[w := worker.(pc := Done)],
         published := sys.published + (if published then [worker.pc.r.id] else []))
  }

  /** An uninterrupted call of `Process` is a run of its worker. */
  lemma {:induction false} ProcessIsARun(sys: Sys, w: nat, answer: Answer, now: int)
    requires Busy(sys, w)
    ensures var acts := CallsLeft(sys.store, sys.workers[w].pc, w, answer, now);
            && Possible(sys, acts) && After(sys, acts) == ProcessDone(sys, w, answer, now)
            && (forall i :: 0 <= i < |acts| ==> acts[i] == CallStore(w, answer, now))
    decreases Distance(sys.workers[w].pc)
  {
    var act := CallStore(w, answer, now);
    var sys' := Step(sys, act);
    WorkComesCloser(sys.store, sys.workers[w].pc, answer, now);
    CallDone(sys, w, answer, now);
    var rest := CallsLeft(sys'.store, sys'.workers[w].pc, w, answer, now);
    assert ([act] + rest)[1..] == rest;
    if sys'.workers[w].pc != Done { ProcessIsARun(sys', w, answer, now); }
  }

  lemma SameRecord(s: Store, pc: Pc, answer: Answer, now: int)
    requires pc != Done && Work(s, pc, answer, now).1 != Done
    ensures Work(s, pc, answer, now).1.r == pc.r && !Work(s, pc, answer, now).2
  {
  }

  lemma CallDone(sys: Sys, w: nat, answer: Answer, now: int)
    requires Busy(sys, w)
    ensures var sys' := Step(sys, CallStore(w, answer, now));
            ProcessDone(sys, w, answer, now) == if Busy(sys', w) then ProcessDone(sys', w, answer, now) else sys'
  {
    var worker := sys.workers[w];
    var sys' := Step(sys, CallStore(w, answer, now));
    var pc' := Work(sys.store, worker.pc, answer, now).1;
    FinishedStep(sys.store, worker.pc, answer, now);
    if pc' != Done {
      SameRecord(sys.store, worker.pc, answer, now);
      assert sys'.workers[w := sys'.workers[w].(pc := Done)] == sys.workers[w := worker.(pc := Done)];
    }
  }

  /** The actions of a worker that serves its batch to the end. */
  ghost function PassOf(s: Store, batch: seq<Transfer>, w: nat, answers: Id -> Answer, now: int): seq<Action>
    decreases |batch|
  {
    if batch == [] then []
    else
      var answer := answers(batch[0].id);
      [Pick(w)] + CallsLeft(s, Begin(batch[0]), w, answer, now)
      + PassOf(Finished(s, Begin(batch[0]), answer, now).0, batch[1..], w, answers, now)
  }

  ghost function PassDone(sys: Sys, w: nat, batch: seq<Transfer>, answers: Id -> Answer, now: int): Sys
    requires w < |sys.workers|
  {
    sys.(store := ServeBatch(sys.store, batch, answers, now), workers := sys.workers[w := Worker(Done, [])],
         published := sys.published + Completions(sys.store, batch, answers, now))
  }

  /**
    A pass of `ProcessDue` is an undisturbed run. With the contract of `TransferService.ProcessDue`: the store and
    the publications that the method leaves are those of a reachable state.
   */
  lemma {:induction false} PassIsARun(sys: Sys, w: nat, batch: seq<Transfer>, answers: Id -> Answer, now: int)
    requires w < |sys.workers| && sys.workers[w] == Worker(Done, batch)
    ensures var acts := PassOf(sys.store, batch, w, answers, now);
            && Possible(sys, acts) && After(sys, acts) == PassDone(sys, w, batch, answers, now)
            && Undisturbed(acts)
    decreases |batch|
  {
    if batch == [] {
      assert sys.workers[w := Worker(Done, [])] == sys.workers;
    } else {
      var answer := answers(batch[0].id);
      var calls := CallsLeft(sys.store, Begin(batch[0]), w, answer, now);
      PickIsARun(sys, w, batch, answer, now);
      var served := ProcessDone(Step(sys, Pick(w)), w, answer, now);
      PassIsARun(served, w, batch[1..], answers, now);
      var rest := PassOf(served.store, batch[1..], w, answers, now);
      OneAfterTheOther(sys, [Pick(w)] + calls, rest);
      PassStates(sys, w, batch, answers, now);
    }
  }

  lemma PickIsARun(sys: Sys, w: nat, batch: seq<Transfer>, answer: Answer, now: int)
    requires w < |sys.workers| && sys.workers[w] == Worker(Done, batch) && batch != []
    ensures var acts := [Pick(w)] + CallsLeft(sys.store, Begin(batch[0]), w, answer, now);
            && Possible(sys, acts) && After(sys, acts) == ProcessDone(Step(sys, Pick(w)), w, answer, now)
            && Undisturbed(acts)
  {
    var calls := CallsLeft(sys.store, Begin(batch[0]), w, answer, now);
    ProcessIsARun(Step(sys, Pick(w)), w, answer, now);
    assert ([Pick(w)] + calls)[1..] == calls;
  }

  lemma PassStates(sys: Sys, w: nat, batch: seq<Transfer>, answers: Id -> Answer, now: int)
    requires batch != [] && w < |sys.workers| && sys.workers[w] == Worker(Done, batch)
    ensures PassDone(sys, w, batch, answers, now)
            == PassDone(ProcessDone(Step(sys, Pick(w)), w, answers(batch[0].id), now), w, batch[1..], answers, now)
  {
    var served := ProcessDone(Step(sys, Pick(w)), w, answers(batch[0].id), now);
    assert served.workers[w := Worker(Done, [])] == sys.workers[w := Worker(Done, [])];
  }

  // ---- a record served again and again

  /** What a worker does with its own records, with nobody else in between and nothing lost. */
  ghost predicate Serving(acts: seq<Action>) {
    forall i :: 0 <= i < |acts| ==> acts[i].Fetch? || acts[i].Pick? || acts[i].CallStore?
  }

  ghost predicate Idle(sys: Sys) {
    sys.workers == [Worker(Done, [])]
  }

  ghost predicate RunsTo(sys: Sys, acts: seq<Action>, s: Store) {
    && Possible(sys, acts) && Serving(acts)
    && After(sys, acts) == sys.(store := s, published := After(sys, acts).published)
  }

  lemma ServeIsARun(sys: Sys, t: Id, answer: Answer, now: int) returns (acts: seq<Action>)
    requires Idle(sys) && (t in sys.store.transfers ==> sys.store.transfers[t].id == t)
    ensures RunsTo(sys, acts, Serve(sys.store, t, answer, now))
    ensures forall i :: 0 <= i < |acts| && acts[i].CallStore? ==> acts[i].answer == answer
  {
    if t !in sys.store.transfers || sys.store.transfers[t].status != Pending {
      acts := [];
    } else {
      var r := sys.store.transfers[t];
      var listed := Step(sys, Fetch(0, [r]));
      PickIsARun(listed, 0, [r], answer, now);
      ProcessIsARun(Step(listed, Pick(0)), 0, answer, now);
      var calls := CallsLeft(sys.store, Begin(r), 0, answer, now);
      acts := [Fetch(0, [r])] + ([Pick(0)] + calls);
      assert acts[1..] == [Pick(0)] + calls;
      assert [r][1..] == [];
    }
  }

  lemma {:induction false} ServeAllIsARun(sys: Sys, t: Id, calls: seq<(Answer, int)>) returns (acts: seq<Action>)
    requires Idle(sys) && Healthy(sys)
    ensures RunsTo(sys, acts, ServeAll(sys.store, t, calls))
    decreases |calls|
  {
    if calls == [] {
      acts := [];
    } else {
      assert t in sys.store.transfers ==> TransferOk(sys.store, t, sys.store.transfers[t]);
      var first := ServeIsARun(sys, t, calls[0].0, calls[0].1);
      HealthyRun(sys, first);
      var rest := ServeAllIsARun(After(sys, first), t, calls[1..]);
      OneAfterTheOther(sys, first, rest);
      acts := first + rest;
    }
  }
}
