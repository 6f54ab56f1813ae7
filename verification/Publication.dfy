/** When completion events are published: exactly once for exactly the completed transfers. */
module Publication {
  import opened Domain
  import opened Ledger
  import opened Saga
  import opened System
  import opened AnyWorkers
  import opened OneWorker

  ghost predicate IsCompleted(s: Store, t: Id) {
    t in s.transfers && s.transfers[t].status == Completed
  }

  ghost predicate AllPublished(sys: Sys) {
    forall t :: IsCompleted(sys.store, t) ==> t in sys.published
  }

  /** A call that turns a record to completed is the call that publishes it. */
  lemma CompletingCallPublishes(s: Store, pc: Pc, answer: Answer, now: int, t: Id)
    requires PcOk(s, pc) && IsCompleted(Called(s, pc), t) && !IsCompleted(s, t)
    ensures pc != Done && pc.r.id == t && Work(s, pc, answer, now).2
  {
    if pc.Update? {
    } else {
      CallTouchesNoRecord(s, pc);
    }
  }

  lemma CallTouchesNoRecord(s: Store, pc: Pc)
    requires !pc.Update?
    ensures Called(s, pc).transfers == s.transfers
  {
  }

  lemma PublishedStep(sys: Sys, act: Action)
    requires Healthy(sys) && AllPublished(sys) && Enabled(sys, act)
    ensures AllPublished(Step(sys, act))
  {
    var s, sys' := sys.store, Step(sys, act);
    match act {
      case CallStore(w, answer, now) =>
        var pc := sys.workers[w].pc;
        assert WorkerOk(s, sys.workers[w]);
        WorkCalls(s, pc, answer, now);
        forall t | IsCompleted(sys'.store, t)
          ensures t in sys'.published
        {
          if !IsCompleted(s, t) { CompletingCallPublishes(s, pc, answer, now, t); }
        }
      case NewTransfer(r) =>
        assert forall t :: IsCompleted(sys'.store, t) ==> IsCompleted(s, t);
      case _ =>
        ClientsKeepTables(sys, act);
        assert forall t :: IsCompleted(sys'.store, t) ==> IsCompleted(s, t);
    }
  }

  lemma {:induction false} PublishedRun(sys: Sys, acts: seq<Action>)
    requires Healthy(sys) && AllPublished(sys) && Possible(sys, acts)
    ensures AllPublished(After(sys, acts))
    decreases |acts|
  {
    if acts != [] {
      HealthyStep(sys, acts[0]);
      PublishedStep(sys, acts[0]);
      PublishedRun(Step(sys, acts[0]), acts[1..]);
    }
  }

  /** In every reachable state a transfer was published if and only if it is completed, and then once. */
  lemma PublishedIffCompleted(sys: Sys, acts: seq<Action>, t: Id)
    requires Initial(sys) && Possible(sys, acts)
    ensures IsCompleted(After(sys, acts).store, t) <==> t in After(sys, acts).published
    ensures multiset(After(sys, acts).published)[t] <= 1
  {
    HealthyStart(sys);
    HealthyRun(sys, acts);
    PublishedRun(sys, acts);
    var published := After(sys, acts).published;
    assert PublishedOk(After(sys, acts));
    OnceInADistinctList(published, t);
  }

  lemma {:induction false} OnceInADistinctList(ids: seq<Id>, t: Id)
    requires forall i, j :: 0 <= i < j < |ids| ==> ids[i] != ids[j]
    ensures multiset(ids)[t] <= 1
    decreases |ids|
  {
    if ids != [] {
      var rest := ids[..|ids| - 1];
      OnceInADistinctList(rest, t);
      assert ids == rest + [ids[|ids| - 1]];
      if ids[|ids| - 1] == t { assert t !in rest; }
    }
  }
}
