/** Idempotent creation: one record per source and key, whichever order the scan takes and whoever runs in between. */
module Idempotency {
  import opened Domain
  import opened Ledger
  import opened System
  import opened Bookkeeping
  import opened AnyWorkers

  type CreateAnswer = Result<(Transfer, bool)>

  /** With unique keys the scan finds at most one record, so its order cannot be seen in the store or in the answer. */
  lemma ScanOrderDoesNotShow(s: Store, r: Transfer, s1: Store, s2: Store, answer1: CreateAnswer, answer2: CreateAnswer)
    requires UniqueKeys(s.transfers)
    requires CreateTransferMay(s, r, s1, answer1) && CreateTransferMay(s, r, s2, answer2)
    ensures answer1 == answer2 && s1 == s2 == AddTransfer(s, r)
  {
    forall t, t' | t in s.transfers && t' in s.transfers
                   && SameRequest(s.transfers[t], r) && SameRequest(s.transfers[t'], r)
      ensures t == t'
    {
      assert SameRequest(s.transfers[t], s.transfers[t']);
    }
  }

  ghost predicate SameOrder(x: Transfer, r: Transfer) {
    x.amount == r.amount && x.destination == r.destination
  }

  /** The answer is the stored record when the request repeats it, and the conflict when it only reuses the key. */
  lemma AnsweredByTheRecord(s: Store, r: Transfer, s': Store, answer: CreateAnswer, t: Id)
    requires UniqueKeys(s.transfers) && t in s.transfers && SameRequest(s.transfers[t], r)
    requires CreateTransferMay(s, r, s', answer)
    ensures s' == s
    ensures answer == if SameOrder(s.transfers[t], r) then Ok((s.transfers[t], false)) else Err(IdempotencyConflict)
  {
    forall t' | t' in s.transfers && SameRequest(s.transfers[t'], r)
      ensures t' == t
    {
      assert SameRequest(s.transfers[t], s.transfers[t']);
    }
  }

  /**
    A client that sends the same key twice, at any two moments of any run, gets the id of its first transfer again or
    the conflict error, the latter exactly when the amount or the destination differ; the second call changes nothing.
   */
  lemma OneTransferPerKey(sys: Sys, acts: seq<Action>, first: Transfer, again: Transfer,
                          answer1: CreateAnswer, s': Store, answer2: CreateAnswer)
    requires Healthy(sys) && Enabled(sys, NewTransfer(first)) && Possible(Step(sys, NewTransfer(first)), acts)
    requires CreateTransferMay(sys.store, first, Step(sys, NewTransfer(first)).store, answer1) && answer1.Ok?
    requires SameRequest(first, again)
    requires CreateTransferMay(After(Step(sys, NewTransfer(first)), acts).store, again, s', answer2)
    ensures s' == After(Step(sys, NewTransfer(first)), acts).store
    ensures answer2.Ok? <==> SameOrder(first, again)
    ensures answer2.Ok? ==> answer2.value.0.id == answer1.value.0.id && !answer2.value.1
    ensures answer2.Err? ==> answer2.error == IdempotencyConflict
  {
    var created := Step(sys, NewTransfer(first));
    HealthyStep(sys, NewTransfer(first));
    HealthyRun(created, acts);
    GrowsRun(created, acts);
    var s1, s2 := created.store, After(created, acts).store;
    ScanOrderDoesNotShow(sys.store, first, s1, s1, answer1, answer1);
    var x := answer1.value.0;
    FirstStored(sys.store, first, s1, answer1);
    assert x.id in s2.transfers && TransferGrows(s1.transfers[x.id], s2.transfers[x.id]);
    AnsweredByTheRecord(s2, again, s', answer2, x.id);
    assert TransferOk(s2, x.id, s2.transfers[x.id]);
  }

  lemma FirstStored(s: Store, r: Transfer, s': Store, answer: CreateAnswer)
    requires Ledgered(s) && CreateTransferMay(s, r, s', answer) && answer.Ok?
    ensures var x := answer.value.0;
            x.id in s'.transfers && s'.transfers[x.id] == x && SameRequest(x, r) && SameOrder(x, r)
  {
    if exists t :: t in s.transfers && SameRequest(s.transfers[t], r) {
      var t :| t in s.transfers && SameRequest(s.transfers[t], r) && answer == Ok((s.transfers[t], false));
      assert TransferOk(s, t, s.transfers[t]);
    }
  }
}
