/** Inputs on the Postgres tables: an overdrawn account, and a hold that stays for good. */
module PostgresExamples {
  import opened Domain
  import opened Ledger
  import opened Saga
  import opened System
  import opened Bookkeeping
  import opened AnyWorkers
  import opened OneWorker
  import opened Postgres
  import opened PostgresTransactions
  import opened PostgresBank
  import opened PostgresMirror
  import opened PostgresSafety
  import opened CrashExample

  lemma ShownOnTables(sys: Sys, way: Way) returns (deeds: seq<Deed>)
    requires Shown(sys, way)
    ensures AllCan(EMPTY_BANK, deeds) && Mirrors(AllDone(EMPTY_BANK, deeds), sys) && Behaves(deeds, way)
  {
    ReachedOnTables(START, sys, way);
    deeds :| AllCan(EMPTY_BANK, deeds) && Mirrors(AllDone(EMPTY_BANK, deeds), sys) && Behaves(deeds, way);
  }

  /**
    One worker and a compliance checker that always approves: a release that commits, a failing update that does not,
    and the account is overdrawn.
   */
  lemma LostUpdateOverdrawsTables() returns (deeds: seq<Deed>, s: Store)
    ensures AllCan(EMPTY_BANK, deeds) && Behaves(deeds, APPROVED_WAY)
    ensures Simulates(AllDone(EMPTY_BANK, deeds).pg, s) && Overdrawn(s)
  {
    LostUpdateOverdraws();
    var sys :| Shown(sys, APPROVED_WAY) && Overdrawn(sys.store);
    deeds := ShownOnTables(sys, APPROVED_WAY);
    s := sys.store;
  }

  // ---- a release that collides

  /** The worker has read `a`, a client too, and nothing else has happened. */
  lemma BothRead(b: Bank, sys: Sys, a: Id) returns (deeds: seq<Deed>)
    requires Healthy(sys) && Stands(b, sys) && 0 < |b.workers| && b.workers[0].pc != Done
    ensures AllCan(b, deeds) && NoCalls(deeds)
    ensures var b' := AllDone(b, deeds);
            && Stands(b', Knowing(sys, a)) && Healthy(Knowing(sys, a))
            && b' == b.(tickets := b'.tickets, seen := b'.seen)
            && a in b'.seen[0] && b'.seen[0][a] == Stream(sys.store, a)
  {
    var first := LoadAll(b, sys, 0, [a]);
    assert a in [a];
    var second := ClientLoad(AllDone(b, first), sys, a);
    DeedsInARow(b, first, second);
    deeds := first + second;
  }

  lemma DepositGoesIn(b: Bank, sys: Sys, a: Id, amount: Money) returns (sys': Sys)
    requires Healthy(sys) && Stands(b, sys) && (a, Stream(sys.store, a)) in sys.tickets
    requires a in sys.store.streams && amount >= MINIMUM_MOVEMENT
    ensures var deed := Deposits(a, Stream(sys.store, a), amount);
            && Can(b, deed) && Stands(Do(b, deed), sys') && Healthy(sys')
            && |Stream(sys'.store, a)| == |Stream(sys.store, a)| + 1
            && Do(b, deed).workers == b.workers && Do(b, deed).seen == b.seen
            && Do(b, deed).pg.rest == b.pg.rest
  {
    assert StreamOk(sys.store.transfers.Keys, sys.store.adjustments.Keys, a, sys.store.streams[a]);
    sys' := NextStands(b, sys, Deposits(a, Stream(sys.store, a), amount));
  }

  /** A deposit goes in between the worker's reading of `a` and its writing. */
  lemma DepositBetween(b: Bank, sys: Sys, a: Id, amount: Money) returns (deeds: seq<Deed>, sys': Sys)
    requires Healthy(sys) && Stands(b, sys) && 0 < |b.workers| && b.workers[0].pc != Done
    requires a in sys.store.streams && amount >= MINIMUM_MOVEMENT
    ensures AllCan(b, deeds) && NoCalls(deeds)
    ensures var b' := AllDone(b, deeds);
            && Stands(b', sys') && Healthy(sys') && b'.workers == b.workers && b'.pg.rest == b.pg.rest
            && a in b'.seen[0] && |b'.seen[0][a]| < |Stream(sys'.store, a)|
  {
    var loads := BothRead(b, sys, a);
    sys' := DepositGoesIn(AllDone(b, loads), Knowing(sys, a), a, amount);
    ThenDeed(b, loads, Deposits(a, Stream(sys.store, a), amount));
    deeds := loads + [Deposits(a, Stream(sys.store, a), amount)];
  }

  lemma TwoCallsCan(b: Bank, r: Transfer, u: SagaUpdate, answer: Answer)
    requires 0 < |b.workers| == |b.seen| && b.workers[0].pc == ReleaseThenFail(r, u)
    requires HoldAccount(b.pg, r.id) <= b.seen[0].Keys
    ensures var b' := Do(b, Calls(0, answer, 0));
            var released := Transacted(b.pg, ReleaseThenFail(r, u), b.seen[0]).0;
            && AllCan(b, [Calls(0, answer, 0), Calls(0, answer, 0)])
            && AllDone(b, [Calls(0, answer, 0), Calls(0, answer, 0)]).pg
               == Transacted(released, Update(r, u, false), map[]).0
  {
    var b' := Do(b, Calls(0, answer, 0));
    assert b'.workers[0].pc == Update(r, u, false);
    OneDeed(b', Calls(0, answer, 0));
    assert [Calls(0, answer, 0), Calls(0, answer, 0)][1..] == [Calls(0, answer, 0)];
  }

  ghost predicate FailedHolding(pg: Pg, t: Id) {
    && t in pg.rest.transfers && pg.rest.transfers[t].status == Failed
    && StateOf(pg.rest.reservations, t) == Some(OnHold)
  }

  /** What the worker read is out of date: it releases, fails the record, and the hold stays. */
  lemma OutdatedRelease(b: Bank, sys: Sys, r: Transfer, u: SagaUpdate, a: Id, answer: Answer)
    requires Stands(b, sys) && 0 < |b.workers| && b.workers[0].pc == ReleaseThenFail(r, u)
    requires r.id in b.pg.rest.transfers && b.pg.rest.transfers[r.id] == r && r.status == Pending
    requires r.step == u.expected && u.status == Failed
    requires StateOf(b.pg.rest.reservations, r.id) == Some(OnHold) && b.pg.rest.reservations[r.id].account == a
    requires a in b.seen[0] && |b.seen[0][a]| < |Stream(sys.store, a)|
    ensures var calls := [Calls(0, answer, 0), Calls(0, answer, 0)];
            AllCan(b, calls) && FailedHolding(AllDone(b, calls).pg, r.id)
  {
    TwoCallsCan(b, r, u, answer);
    assert Rows(sys.store.streams, a) == Stream(sys.store, a);
    assert !Latest(b.pg, a, b.seen[0][a]);
    DroppedReleaseIff(b.pg, sys.store, r, u, b.seen[0], answer, 0);
  }

  lemma ReleaseRests(sys: Sys, r: Transfer, u: SagaUpdate)
    requires Healthy(sys) && 0 < |sys.workers| && sys.workers[0].pc == ReleaseThenFail(r, u)
    requires r.id in sys.store.reservations
    ensures sys.store.reservations[r.id].account in sys.store.streams && u.expected == r.step && u.status == Failed
  {
    assert HoldOk(sys.store, r.id, sys.store.reservations[r.id]) && WorkerOk(sys.store, sys.workers[0]);
  }

  lemma LostThen(b: Bank, first: seq<Deed>, sys: Sys, r: Transfer, u: SagaUpdate, a: Id, answer: Answer)
    returns (deeds: seq<Deed>)
    requires AllCan(b, first) && NoCalls(first)
    requires var b' := AllDone(b, first);
             && Stands(b', sys) && 0 < |b'.workers| && b'.workers[0].pc == ReleaseThenFail(r, u)
             && r.id in b'.pg.rest.transfers && b'.pg.rest.transfers[r.id] == r && r.status == Pending
             && r.step == u.expected && u.status == Failed
             && StateOf(b'.pg.rest.reservations, r.id) == Some(OnHold) && b'.pg.rest.reservations[r.id].account == a
             && a in b'.seen[0] && |b'.seen[0][a]| < |Stream(sys.store, a)|
    ensures AllCan(b, deeds) && Behaves(deeds, Way(Some(answer), true)) && FailedHolding(AllDone(b, deeds).pg, r.id)
  {
    var calls := [Calls(0, answer, 0), Calls(0, answer, 0)];
    OutdatedRelease(AllDone(b, first), sys, r, u, a, answer);
    DeedsInARow(b, first, calls);
    deeds := first + calls;
  }

  /** One deposit is enough: when a worker is about to release and fail, the release can be lost and the hold stay. */
  lemma ReleaseCanBeLost(b: Bank, sys: Sys, r: Transfer, u: SagaUpdate, answer: Answer) returns (deeds: seq<Deed>)
    requires Healthy(sys) && Stands(b, sys) && 0 < |b.workers| && b.workers[0].pc == ReleaseThenFail(r, u)
    requires Current(sys.store, r) && StateOf(sys.store.reservations, r.id) == Some(OnHold)
    ensures AllCan(b, deeds) && Behaves(deeds, Way(Some(answer), true)) && FailedHolding(AllDone(b, deeds).pg, r.id)
  {
    var a := sys.store.reservations[r.id].account;
    ReleaseRests(sys, r, u);
    var first, sys' := DepositBetween(b, sys, a, MINIMUM_MOVEMENT);
    deeds := LostThen(b, first, sys', r, u, a, answer);
  }

  /** From empty tables, one worker, one verdict, no error and no crash: a failed transfer that keeps its hold. */
  lemma DepositKeepsHold() returns (deeds: seq<Deed>)
    ensures AllCan(EMPTY_BANK, deeds) && Behaves(deeds, REFUSED_WAY)
    ensures FailedHolding(AllDone(EMPTY_BANK, deeds).pg, TRANSFER)
  {
    AboutToRelease();
    var sys := With(BankOf(RESERVED, HELD, map[TRANSFER := HOLD], map[]), FAILING, FLOWS);
    var first := ShownOnTables(sys, REFUSED_WAY);
    var b := AllDone(EMPTY_BANK, first);
    var more := ReleaseCanBeLost(b, sys.(tickets := b.tickets), FAILING.r, FAILING.u, Broken(AccountNotFound));
    DeedsInARow(EMPTY_BANK, first, more);
    deeds := first + more;
  }
}