/**
  The other direction of PostgresBank: the Postgres bank can do what System does. A worker or a client whose transaction
  is not disturbed does on the tables what the atomic step does to the store, so every run of System is a run on the
  tables, except where the indexes on requests or the repeated check of an approval step in.
 */
module PostgresMirror {
  import opened Domain
  import opened Ledger
  import opened Saga
  import opened System
  import opened Bookkeeping
  import opened Adjustments
  import opened AnyWorkers
  import opened Postgres
  import opened PostgresTransactions
  import opened PostgresBank
  import opened ServedRuns

  // ---- loading

  lemma StreamIsSelected(table: Table, m: Streams, a: Id) returns (keys: seq<int>)
    requires Represents(table, m)
    ensures Selects(table, a, keys, Rows(m, a))
  {
    keys := seq(|Rows(m, a)|, i => i);
    forall k ensures (a, k) in table <==> k in keys {
      if 0 <= k < |Rows(m, a)| { assert keys[k] == k; }
    }
  }

  lemma {:induction false} DeedsInARow(b: Bank, deeds: seq<Deed>, more: seq<Deed>)
    requires AllCan(b, deeds) && AllCan(AllDone(b, deeds), more)
    ensures AllCan(b, deeds + more) && AllDone(b, deeds + more) == AllDone(AllDone(b, deeds), more)
    decreases |deeds|
  {
    if deeds == [] {
      assert deeds + more == more;
    } else {
      assert (deeds + more)[1..] == deeds[1..] + more;
      DeedsInARow(Do(b, deeds[0]), deeds[1..], more);
    }
  }

  lemma OneDeed(b: Bank, deed: Deed)
    requires Can(b, deed)
    ensures AllCan(b, [deed]) && AllDone(b, [deed]) == Do(b, deed)
  {
    assert [deed][1..] == [];
  }

  lemma ThenDeed(b: Bank, deeds: seq<Deed>, deed: Deed)
    requires AllCan(b, deeds) && Can(AllDone(b, deeds), deed)
    ensures AllCan(b, deeds + [deed]) && AllDone(b, deeds + [deed]) == Do(AllDone(b, deeds), deed)
  {
    OneDeed(AllDone(b, deeds), deed);
    DeedsInARow(b, deeds, [deed]);
  }

  /** What the transaction of a call reads, in order. */
  function ReadList(pg: Pg, pc: Pc): (ids: seq<Id>)
    ensures forall a :: a in ids <==> a in Reads(pg, pc)
  {
    match pc
    case Begin(r) =>
      if r.step == Created || r.step == ComplianceApproved then [r.source, r.destination]
      else if r.step == LedgerPosted then HoldList(pg, r.id)
      else []
    case ReleaseRejected(r) => HoldList(pg, r.id)
    case ReleaseThenFail(r, _) => HoldList(pg, r.id)
    case _ => []
  }

  function HoldList(pg: Pg, t: Id): seq<Id> {
    if t in pg.rest.reservations then [pg.rest.reservations[t].account] else []
  }

  lemma {:induction false} LoadAll(b: Bank, sys: Sys, w: nat, ids: seq<Id>) returns (deeds: seq<Deed>)
    requires Healthy(sys) && Stands(b, sys) && w < |b.workers| && b.workers[w].pc != Done
    ensures AllCan(b, deeds) && Stands(AllDone(b, deeds), sys)
    ensures var b' := AllDone(b, deeds);
            && w < |b'.seen| && b' == b.(seen := b'.seen)
            && (forall a :: a in ids ==> a in b'.seen[w] && b'.seen[w][a] == Stream(sys.store, a))
    ensures forall i :: 0 <= i < |deeds| ==> deeds[i].WorkerLoads?
    decreases |ids|
  {
    if ids == [] {
      deeds := [];
    } else {
      var rest := LoadAll(b, sys, w, ids[..|ids| - 1]);
      var b', a := AllDone(b, rest), ids[|ids| - 1];
      var keys := StreamIsSelected(b'.pg.events, sys.store.streams, a);
      assert Rows(sys.store.streams, a) == Stream(sys.store, a);
      var deed := WorkerLoads(w, a, keys, Stream(sys.store, a));
      LoadFollows(b', sys, deed);
      ThenDeed(b, rest, deed);
      deeds := rest + [deed];
    }
  }

  // ---- a worker's call on current streams

  ghost predicate SeenCurrent(s: Store, ids: set<Id>, seen: Seen) {
    forall a :: a in ids ==> a in seen && seen[a] == Stream(s, a)
  }

  lemma FinishIsCurrent(pg: Pg, s: Store, t: Id, target: HoldState, seen: Seen)
    requires Simulates(pg, s) && SeenCurrent(s, HoldAccount(pg, t), seen)
    ensures Failure(Finishing(pg, t, target, seen).1) == Why(Finish(s, t, target).1)
  {
    var loaded := if t in pg.rest.reservations then Read(seen, pg.rest.reservations[t].account) else [];
    FinishSimulates(pg, s, t, target, loaded);
  }

  /** On the current streams the transaction of a call fails exactly as the atomic call does. */
  lemma CurrentCallAnswers(pg: Pg, s: Store, pc: Pc, seen: Seen)
    requires Simulates(pg, s) && pc != Done && SeenOk(s, pc, seen) && SeenCurrent(s, Reads(pg, pc), seen)
    requires pc.r.source != pc.r.destination
    ensures Failure(Transacted(pg, pc, seen).1) == Why(Answered(s, pc))
  {
    match pc {
      case Begin(r) =>
        if r.step == Created {
          ReserveSimulates(pg, s, r, seen[r.source], seen[r.destination]);
        } else if r.step == ComplianceApproved {
          PostSimulates(pg, s, r, seen[r.source], seen[r.destination]);
        } else if r.step == LedgerPosted {
          FinishIsCurrent(pg, s, r.id, Taken, seen);
        }
      case Record(r, approved) => DecideSimulates(pg, s, r.id, if approved then Approved else Rejected);
      case ReleaseRejected(r) => FinishIsCurrent(pg, s, r.id, GivenBack, seen);
      case ReleaseThenFail(r, _) => FinishIsCurrent(pg, s, r.id, GivenBack, seen);
      case Update(_, _, _) =>
    }
  }

  /** A call that is answered with an error has done nothing, so it is a call that failed with that error. */
  lemma RefusedIsFailed(sys: Sys, w: nat, answer: Answer, now: int)
    requires w < |sys.workers| && sys.workers[w].pc != Done && Answered(sys.store, sys.workers[w].pc).Err?
    ensures Step(sys, CallStore(w, answer, now))
            == Step(sys, StoreFails(w, Answered(sys.store, sys.workers[w].pc).error, now))
  {
    WorkGoesOn(sys.store, sys.workers[w].pc, answer, now);
    RefusedDoesNothing(sys.store, sys.workers[w].pc, answer, now);
  }

  lemma RefusedDoesNothing(s: Store, pc: Pc, answer: Answer, now: int)
    requires pc != Done && Answered(s, pc).Err?
    ensures Work(s, pc, answer, now).0 == s && !Work(s, pc, answer, now).2
  {
  }

  lemma CallIsPossible(b: Bank, sys: Sys, w: nat, answer: Answer, now: int)
    requires Healthy(sys) && Stands(b, sys) && w < |b.workers| && b.workers[w].pc != Done
    requires SeenCurrent(sys.store, Reads(b.pg, b.workers[w].pc), b.seen[w])
    ensures Can(b, Calls(w, answer, now))
  {
    var pc, seen := b.workers[w].pc, b.seen[w];
    if AnswersBalance(pc) && Transacted(b.pg, pc, seen).1 == NothingToDo {
      assert Rows(sys.store.streams, pc.r.source) == Stream(sys.store, pc.r.source);
      assert (pc.r.source, |Stream(sys.store, pc.r.source)|) !in b.pg.events;
    }
  }

  lemma CallOnCurrent(b: Bank, sys: Sys, w: nat, answer: Answer, now: int)
    requires Healthy(sys) && Stands(b, sys) && w < |b.workers| && b.workers[w].pc != Done
    requires SeenCurrent(sys.store, Reads(b.pg, b.workers[w].pc), b.seen[w]) && Can(b, Calls(w, answer, now))
    ensures Stands(Do(b, Calls(w, answer, now)), Step(sys, CallStore(w, answer, now)))
  {
    var pc := b.workers[w].pc;
    assert WorkerOk(sys.store, sys.workers[w]);
    TermsDiffer(sys.store, pc);
    CurrentCallAnswers(b.pg, sys.store, pc, b.seen[w]);
    DeedFollows(b, sys, Calls(w, answer, now));
    if Answered(sys.store, pc).Err? { RefusedIsFailed(sys, w, answer, now); }
  }

  lemma CurrentCall(b: Bank, sys: Sys, w: nat, answer: Answer, now: int)
    requires Healthy(sys) && Stands(b, sys) && w < |b.workers| && b.workers[w].pc != Done
    requires SeenCurrent(sys.store, Reads(b.pg, b.workers[w].pc), b.seen[w])
    ensures var deed := Calls(w, answer, now);
            && Can(b, deed) && Stands(Do(b, deed), Step(sys, CallStore(w, answer, now)))
            && Do(b, deed).tickets == b.tickets
  {
    CallIsPossible(b, sys, w, answer, now);
    CallOnCurrent(b, sys, w, answer, now);
  }

  lemma CallIsMirrored(b: Bank, sys: Sys, w: nat, answer: Answer, now: int) returns (deeds: seq<Deed>)
    requires Healthy(sys) && Stands(b, sys) && Enabled(sys, CallStore(w, answer, now))
    ensures AllCan(b, deeds) && Stands(AllDone(b, deeds), Step(sys, CallStore(w, answer, now)))
    ensures AllDone(b, deeds).tickets == b.tickets
    ensures forall i :: 0 <= i < |deeds| ==> deeds[i].WorkerLoads? || deeds[i] == Calls(w, answer, now)
  {
    var loads := LoadAll(b, sys, w, ReadList(b.pg, b.workers[w].pc));
    CurrentCall(AllDone(b, loads), sys, w, answer, now);
    ThenDeed(b, loads, Calls(w, answer, now));
    deeds := loads + [Calls(w, answer, now)];
  }

  // ---- clients

  function Knowing(sys: Sys, a: Id): Sys {
    sys.(tickets := sys.tickets + {(a, Stream(sys.store, a))})
  }

  predicate NoCalls(deeds: seq<Deed>) {
    forall i :: 0 <= i < |deeds| ==> !deeds[i].Calls? && !deeds[i].Fails? && !deeds[i].Dies?
  }

  lemma ClientLoad(b: Bank, sys: Sys, a: Id) returns (deeds: seq<Deed>)
    requires Healthy(sys) && Stands(b, sys)
    ensures AllCan(b, deeds) && Stands(AllDone(b, deeds), Knowing(sys, a)) && Healthy(Knowing(sys, a))
    ensures AllDone(b, deeds) == b.(tickets := AllDone(b, deeds).tickets) && NoCalls(deeds)
  {
    var keys := StreamIsSelected(b.pg.events, sys.store.streams, a);
    assert Rows(sys.store.streams, a) == Stream(sys.store, a);
    var deed := ClientLoads(a, keys, Stream(sys.store, a));
    DeedFollows(b, sys, deed);
    HealthyStep(sys, LoadStream(a));
    OneDeed(b, deed);
    deeds := [deed];
  }

  /** Where the two stores do not differ: the indexes find nothing, nor does the repeated check. */
  ghost predicate BothDo(s: Store, act: Action) {
    match act
    case RequestAdjustment(r) =>
      r.reviewedBy == None && !(Normalise(s, r).Ok? && Indexed(s.adjustments, Normalise(s, r).value))
    case AcceptAdjustment(j, admin) =>
      !(ApproveAdjustment(s, j, admin).1.Ok? && AlreadyApproved(s.adjustments, j, s.adjustments[j]))
    case _ => true
  }

  /** What `deeds` on the tables must have done to be `act`. */
  ghost predicate MirroredBy(b: Bank, sys: Sys, act: Action, deeds: seq<Deed>)
    requires Enabled(sys, act)
  {
    && AllCan(b, deeds)
    && var b', sys' := AllDone(b, deeds), Step(sys, act);
       && sys'.tickets <= b'.tickets && Stands(b', sys'.(tickets := b'.tickets))
       && Healthy(sys'.(tickets := b'.tickets))
  }

  ghost predicate OneToOne(act: Action) {
    || act.OpenAccount? || act.DepositAt? || act.NewTransfer? || act.DeclineAdjustment? || act.Fetch? || act.Pick?
    || act.StoreFails? || act.Crash?
  }

  function DeedOf(act: Action): Deed
    requires OneToOne(act)
  {
    match act
    case OpenAccount(a, balance) => Opens(a, balance)
    case DepositAt(a, loaded, amount) => Deposits(a, loaded, amount)
    case NewTransfer(r) => Orders(r)
    case DeclineAdjustment(j, admin) => Rejects(j, admin)
    case Fetch(w, batch) => Fetches(w, batch)
    case Pick(w) => Picks(w)
    case StoreFails(w, e, now) => Fails(w, e, now)
    case Crash(w) => Dies(w)
  }

  lemma OneToOneIsMirrored(b: Bank, sys: Sys, act: Action)
    requires Healthy(sys) && Stands(b, sys) && Enabled(sys, act) && OneToOne(act)
    ensures MirroredBy(b, sys, act, [DeedOf(act)])
  {
    if act.OpenAccount? { assert forall i :: (act.a, i) in b.pg.events <==> 0 <= i < |Rows(sys.store.streams, act.a)|; }
    DeedFollows(b, sys, DeedOf(act));
    HealthyStep(sys, act);
    OneDeed(b, DeedOf(act));
  }

  /** The same bank, but with clients that have loaded more. */
  ghost predicate KnowsMore(sys: Sys, sys': Sys) {
    sys.tickets <= sys'.tickets && sys' == sys.(tickets := sys'.tickets)
  }

  lemma EnabledKnowing(sys: Sys, sys': Sys, act: Action)
    requires Enabled(sys, act) && KnowsMore(sys, sys')
    ensures Enabled(sys', act) && Step(sys', act).tickets >= Step(sys, act).tickets
    ensures KnowsMore(Step(sys, act), Step(sys', act))
  {
  }

  lemma LoadedThen(b: Bank, sys: Sys, act: Action, loads: seq<Deed>, sys': Sys, deed: Deed)
    requires AllCan(b, loads) && Healthy(sys') && Stands(AllDone(b, loads), sys') && KnowsMore(sys, sys')
    requires act.WithdrawNow? || act.RequestAdjustment? || act.AcceptAdjustment?
    requires Enabled(sys, act)
    requires Can(AllDone(b, loads), deed) && Acts(AllDone(b, loads), deed) == Some(act)
    ensures MirroredBy(b, sys, act, loads + [deed])
  {
    DeedFollows(AllDone(b, loads), sys', deed);
    HealthyStep(sys', act);
    ThenDeed(b, loads, deed);
    EnabledKnowing(sys, sys', act);
  }

  lemma WithdrawalActs(b: Bank, sys: Sys, a: Id, amount: Money)
    requires Stands(b, sys) && (a, Stream(sys.store, a)) in sys.tickets && amount >= MINIMUM_MOVEMENT
    requires WithdrawAvailable(sys.store, a, amount).1.Ok?
    ensures var deed := Withdraws(a, Stream(sys.store, a), amount);
            Can(b, deed) && Acts(b, deed) == Some(WithdrawNow(a, amount))
  {
    WithdrawSimulates(b.pg, sys.store, a, amount, Stream(sys.store, a));
  }

  lemma WithdrawalAfterLoad(b: Bank, sys: Sys, a: Id, amount: Money, loads: seq<Deed>, sys': Sys)
    requires AllCan(b, loads) && Healthy(sys') && Stands(AllDone(b, loads), sys') && KnowsMore(sys, sys')
    requires (a, Stream(sys'.store, a)) in sys'.tickets && amount >= MINIMUM_MOVEMENT
    requires WithdrawAvailable(sys'.store, a, amount).1.Ok?
    ensures MirroredBy(b, sys, WithdrawNow(a, amount), loads + [Withdraws(a, Stream(sys'.store, a), amount)])
  {
    WithdrawalActs(AllDone(b, loads), sys', a, amount);
    LoadedThen(b, sys, WithdrawNow(a, amount), loads, sys', Withdraws(a, Stream(sys'.store, a), amount));
  }

  lemma WithdrawalIsMirrored(b: Bank, sys: Sys, a: Id, amount: Money) returns (deeds: seq<Deed>)
    requires Healthy(sys) && Stands(b, sys) && Enabled(sys, WithdrawNow(a, amount))
    requires WithdrawAvailable(sys.store, a, amount).1.Ok?
    ensures MirroredBy(b, sys, WithdrawNow(a, amount), deeds) && NoCalls(deeds)
  {
    var loads := ClientLoad(b, sys, a);
    WithdrawalAfterLoad(b, sys, a, amount, loads, Knowing(sys, a));
    deeds := loads + [Withdraws(a, Stream(sys.store, a), amount)];
  }

  /** A withdrawal that checked a current stream is the atomic one; any other does nothing. */
  lemma CheckedWithdrawal(sys: Sys, a: Id, loaded: seq<Event>, amount: Money)
    requires Healthy(sys) && Enabled(sys, WithdrawAt(a, loaded, amount))
    ensures if loaded == Stream(sys.store, a)
            then WithdrawAvailable(sys.store, a, amount).1.Ok?
                 && Step(sys, WithdrawAt(a, loaded, amount)) == Step(sys, WithdrawNow(a, amount))
            else Step(sys, WithdrawAt(a, loaded, amount)) == sys
  {
    assert loaded <= Stream(sys.store, a);
  }

  lemma RequestIsMirrored(b: Bank, sys: Sys, r: Adjustment) returns (deeds: seq<Deed>)
    requires Healthy(sys) && Stands(b, sys)
    requires Enabled(sys, RequestAdjustment(r)) && BothDo(sys.store, RequestAdjustment(r))
    requires Normalise(sys.store, r).Ok?
    ensures MirroredBy(b, sys, RequestAdjustment(r), deeds) && NoCalls(deeds)
  {
    var loads := ClientLoad(b, sys, Checked(r));
    var deed := Requests(r, Stream(sys.store, Checked(r)));
    RequestsAgreeIff(AllDone(b, loads).pg, sys.store, r);
    LoadedThen(b, sys, RequestAdjustment(r), loads, Knowing(sys, Checked(r)), deed);
    deeds := loads + [deed];
  }

  /** An approval on current streams commits where both stores do it. */
  lemma ApprovalActs(b: Bank, sys: Sys, j: Id, admin: Id, payer: Id)
    requires Healthy(sys) && Stands(b, sys) && BothDo(sys.store, AcceptAdjustment(j, admin))
    requires ApproveAdjustment(sys.store, j, admin).1.Ok? && j in sys.store.adjustments
    requires var r := sys.store.adjustments[j]; payer == if r.originalTransfer.Some? then r.counterparty else r.account
    requires (payer, Stream(sys.store, payer)) in sys.tickets
    requires var a := sys.store.adjustments[j].account; (a, Stream(sys.store, a)) in sys.tickets
    ensures var deed := Approves(j, admin, Stream(sys.store, payer),
                                 Stream(sys.store, sys.store.adjustments[j].account));
            Can(b, deed) && Acts(b, deed) == Some(AcceptAdjustment(j, admin))
  {
    var s := sys.store;
    var r := s.adjustments[j];
    assert AdjustmentOk(s, j, r);
    if r.originalTransfer.Some? {
      assert TransferOk(s, r.originalTransfer.value, s.transfers[r.originalTransfer.value]);
    }
    ApprovalsAgreeIff(b.pg, s, j, admin, Stream(s, payer), Stream(s, r.account));
  }

  lemma TwoLoads(b: Bank, sys: Sys, a: Id, a': Id) returns (deeds: seq<Deed>, sys': Sys)
    requires Healthy(sys) && Stands(b, sys)
    ensures AllCan(b, deeds) && Stands(AllDone(b, deeds), sys') && Healthy(sys') && KnowsMore(sys, sys')
    ensures (a, Stream(sys.store, a)) in sys'.tickets && (a', Stream(sys.store, a')) in sys'.tickets
    ensures NoCalls(deeds)
  {
    var first := ClientLoad(b, sys, a);
    var second := ClientLoad(AllDone(b, first), Knowing(sys, a), a');
    DeedsInARow(b, first, second);
    deeds, sys' := first + second, Knowing(Knowing(sys, a), a');
  }

  lemma ApprovalAfterLoads(b: Bank, sys: Sys, j: Id, admin: Id, payer: Id, loads: seq<Deed>, sys': Sys)
    returns (deed: Deed)
    requires AllCan(b, loads) && Stands(AllDone(b, loads), sys') && Healthy(sys') && KnowsMore(sys, sys')
    requires BothDo(sys'.store, AcceptAdjustment(j, admin)) && ApproveAdjustment(sys'.store, j, admin).1.Ok?
    requires j in sys'.store.adjustments
    requires var r := sys'.store.adjustments[j]; payer == if r.originalTransfer.Some? then r.counterparty else r.account
    requires (payer, Stream(sys'.store, payer)) in sys'.tickets
    requires var a := sys'.store.adjustments[j].account; (a, Stream(sys'.store, a)) in sys'.tickets
    ensures MirroredBy(b, sys, AcceptAdjustment(j, admin), loads + [deed]) && deed.Approves?
  {
    deed := Approves(j, admin, Stream(sys'.store, payer), Stream(sys'.store, sys'.store.adjustments[j].account));
    ApprovalActs(AllDone(b, loads), sys', j, admin, payer);
    LoadedThen(b, sys, AcceptAdjustment(j, admin), loads, sys', deed);
  }

  // ---- any action, any run

  lemma NothingIsMirrored(b: Bank, sys: Sys, act: Action)
    requires Healthy(sys) && Stands(b, sys) && Enabled(sys, act) && Step(sys, act) == sys
    ensures MirroredBy(b, sys, act, [])
  {
  }

  /** A worker that serves its records: it lists, picks up, loads and calls, and nothing errs or dies. */
  predicate Serves(deeds: seq<Deed>) {
    forall i :: 0 <= i < |deeds| ==> deeds[i].Fetches? || deeds[i].Picks? || deeds[i].WorkerLoads? || deeds[i].Calls?
  }

  /** The deeds ask the compliance checker only where the action does, and if a worker acts they are the worker's. */
  ghost predicate InKind(deeds: seq<Deed>, act: Action) {
    && (forall i :: 0 <= i < |deeds| && deeds[i].Calls? ==> act.CallStore? && deeds[i].answer == act.answer)
    && (act.Fetch? || act.Pick? || act.CallStore? ==> Serves(deeds))
    && (forall i :: 0 <= i < |deeds| && (deeds[i].Fails? || deeds[i].Dies?) ==> act.StoreFails? || act.Crash?)
  }

  lemma WithdrawalsAreMirrored(b: Bank, sys: Sys, act: Action) returns (deeds: seq<Deed>)
    requires Healthy(sys) && Stands(b, sys) && Enabled(sys, act) && (act.WithdrawNow? || act.WithdrawAt?)
    ensures MirroredBy(b, sys, act, deeds) && NoCalls(deeds)
  {
    var s, a, amount := sys.store, act.a, act.amount;
    if act.WithdrawAt? { CheckedWithdrawal(sys, a, act.loaded, amount); }
    if WithdrawAvailable(s, a, amount).1.Ok? && (act.WithdrawAt? ==> act.loaded == Stream(s, a)) {
      deeds := WithdrawalIsMirrored(b, sys, a, amount);
    } else {
      NothingIsMirrored(b, sys, act);
      deeds := [];
    }
  }

  lemma RequestsAreMirrored(b: Bank, sys: Sys, r: Adjustment) returns (deeds: seq<Deed>)
    requires Healthy(sys) && Stands(b, sys)
    requires Enabled(sys, RequestAdjustment(r)) && BothDo(sys.store, RequestAdjustment(r))
    ensures MirroredBy(b, sys, RequestAdjustment(r), deeds) && NoCalls(deeds)
  {
    if Normalise(sys.store, r).Ok? {
      deeds := RequestIsMirrored(b, sys, r);
    } else {
      NothingIsMirrored(b, sys, RequestAdjustment(r));
      deeds := [];
    }
  }

  lemma ApprovalsAreMirrored(b: Bank, sys: Sys, j: Id, admin: Id) returns (deeds: seq<Deed>)
    requires Healthy(sys) && Stands(b, sys) && BothDo(sys.store, AcceptAdjustment(j, admin))
    ensures MirroredBy(b, sys, AcceptAdjustment(j, admin), deeds) && NoCalls(deeds)
  {
    if j in sys.store.adjustments {
      var r := sys.store.adjustments[j];
      var payer := if r.originalTransfer.Some? then r.counterparty else r.account;
      var loads, sys' := TwoLoads(b, sys, payer, r.account);
      deeds := ApprovalIsMirrored(b, sys, j, admin, payer, loads, sys');
    } else {
      NothingIsMirrored(b, sys, AcceptAdjustment(j, admin));
      deeds := [];
    }
  }

  lemma ApprovalIsMirrored(b: Bank, sys: Sys, j: Id, admin: Id, payer: Id, loads: seq<Deed>, sys': Sys)
    returns (deeds: seq<Deed>)
    requires Healthy(sys) && Stands(b, sys) && NoCalls(loads)
    requires AllCan(b, loads) && Stands(AllDone(b, loads), sys') && Healthy(sys') && KnowsMore(sys, sys')
    requires BothDo(sys'.store, AcceptAdjustment(j, admin)) && j in sys'.store.adjustments
    requires var r := sys'.store.adjustments[j]; payer == if r.originalTransfer.Some? then r.counterparty else r.account
    requires (payer, Stream(sys'.store, payer)) in sys'.tickets
    requires var a := sys'.store.adjustments[j].account; (a, Stream(sys'.store, a)) in sys'.tickets
    ensures MirroredBy(b, sys, AcceptAdjustment(j, admin), deeds) && NoCalls(deeds)
  {
    if ApproveAdjustment(sys'.store, j, admin).1.Ok? {
      var deed := ApprovalAfterLoads(b, sys, j, admin, payer, loads, sys');
      deeds := loads + [deed];
    } else {
      NothingIsMirrored(b, sys, AcceptAdjustment(j, admin));
      deeds := [];
    }
  }

  lemma CallsAreMirrored(b: Bank, sys: Sys, act: Action) returns (deeds: seq<Deed>)
    requires Healthy(sys) && Stands(b, sys) && Enabled(sys, act) && act.CallStore?
    ensures MirroredBy(b, sys, act, deeds) && InKind(deeds, act)
  {
    deeds := CallIsMirrored(b, sys, act.w, act.answer, act.now);
    HealthyStep(sys, act);
  }

  lemma OthersAreMirrored(b: Bank, sys: Sys, act: Action) returns (deeds: seq<Deed>)
    requires Healthy(sys) && Stands(b, sys) && Enabled(sys, act) && OneToOne(act)
    ensures MirroredBy(b, sys, act, deeds) && InKind(deeds, act)
  {
    OneToOneIsMirrored(b, sys, act);
    deeds := [DeedOf(act)];
  }

  /** Whatever the bank does on the store, deeds on the tables do as well, where both stores would. */
  lemma ActIsMirrored(b: Bank, sys: Sys, act: Action) returns (deeds: seq<Deed>)
    requires Healthy(sys) && Stands(b, sys) && Enabled(sys, act) && BothDo(sys.store, act)
    ensures MirroredBy(b, sys, act, deeds) && InKind(deeds, act)
  {
    match act {
      case LoadStream(a) => deeds := ClientLoad(b, sys, a);
      case WithdrawNow(_, _) => deeds := WithdrawalsAreMirrored(b, sys, act);
      case WithdrawAt(_, _, _) => deeds := WithdrawalsAreMirrored(b, sys, act);
      case RequestAdjustment(r) => deeds := RequestsAreMirrored(b, sys, r);
      case AcceptAdjustment(j, admin) => deeds := ApprovalsAreMirrored(b, sys, j, admin);
      case CallStore(_, _, _) => deeds := CallsAreMirrored(b, sys, act);
      case _ => deeds := OthersAreMirrored(b, sys, act);
    }
  }

  /** `b` stands for the bank `sys`, but for what its clients have loaded besides. */
  ghost predicate Mirrors(b: Bank, sys: Sys) {
    sys.tickets <= b.tickets && Stands(b, sys.(tickets := b.tickets)) && Healthy(sys.(tickets := b.tickets))
  }

  lemma MirrorStep(b: Bank, sys: Sys, act: Action) returns (deeds: seq<Deed>)
    requires Mirrors(b, sys) && Enabled(sys, act) && BothDo(sys.store, act)
    ensures AllCan(b, deeds) && Mirrors(AllDone(b, deeds), Step(sys, act)) && InKind(deeds, act)
  {
    var knowing := sys.(tickets := b.tickets);
    EnabledKnowing(sys, knowing, act);
    deeds := ActIsMirrored(b, knowing, act);
  }

  /** Every action of the run is one that both stores do. */
  ghost predicate BothDoAll(sys: Sys, acts: seq<Action>)
    requires Possible(sys, acts)
    decreases |acts|
  {
    acts != [] ==> BothDo(sys.store, acts[0]) && BothDoAll(Step(sys, acts[0]), acts[1..])
  }

  lemma {:induction false} RunIsMirrored(b: Bank, sys: Sys, acts: seq<Action>) returns (deeds: seq<Deed>)
    requires Mirrors(b, sys) && Possible(sys, acts) && BothDoAll(sys, acts)
    ensures AllCan(b, deeds) && Mirrors(AllDone(b, deeds), After(sys, acts))
    decreases |acts|
  {
    if acts == [] {
      deeds := [];
    } else {
      var first := MirrorStep(b, sys, acts[0]);
      var rest := RunIsMirrored(AllDone(b, first), Step(sys, acts[0]), acts[1..]);
      DeedsInARow(b, first, rest);
      deeds := first + rest;
    }
  }

  /** A worker that serves its records on the store can do so on the tables. */
  lemma {:induction false} ServingIsMirrored(b: Bank, sys: Sys, acts: seq<Action>) returns (deeds: seq<Deed>)
    requires Mirrors(b, sys) && Possible(sys, acts) && Serving(acts)
    ensures AllCan(b, deeds) && Mirrors(AllDone(b, deeds), After(sys, acts)) && Serves(deeds)
    decreases |acts|
  {
    if acts == [] {
      deeds := [];
    } else {
      var first := MirrorStep(b, sys, acts[0]);
      var rest := ServingIsMirrored(AllDone(b, first), Step(sys, acts[0]), acts[1..]);
      DeedsInARow(b, first, rest);
      deeds := first + rest;
    }
  }

  /** Every run of System in which the indexes and the repeated check do not step in is a run on the Postgres tables. */
  lemma RunIsAPostgresRun(sys: Sys, acts: seq<Action>) returns (b: Bank, deeds: seq<Deed>)
    requires Initial(sys) && Possible(sys, acts) && BothDoAll(sys, acts)
    ensures EmptyBank(b) && b.workers == sys.workers && AllCan(b, deeds)
    ensures Mirrors(AllDone(b, deeds), After(sys, acts))
  {
    b := Bank(Pg(map[], EMPTY), sys.workers, seq(|sys.workers|, i => map[]), {}, [], Flows(0, 0, 0));
    HealthyStart(sys);
    deeds := RunIsMirrored(b, sys, acts);
  }

  // ---- reaching a state on the tables

  const EMPTY_BANK: Bank := Bank(Pg(map[], EMPTY), [Worker(Done, [])], [map[]], {}, [], Flows(0, 0, 0))

  /** The deeds go the way: only these answers, and if it is calm, nothing errs or dies. */
  ghost predicate Behaves(deeds: seq<Deed>, way: Way) {
    forall i :: 0 <= i < |deeds| ==>
      && (deeds[i].Calls? && way.only.Some? ==> deeds[i].answer == way.only.value)
      && (way.calm ==> !deeds[i].Fails? && !deeds[i].Dies?)
  }

  lemma {:induction false} WayIsMirrored(b: Bank, sys: Sys, acts: seq<Action>, way: Way) returns (deeds: seq<Deed>)
    requires Mirrors(b, sys) && Possible(sys, acts) && AllGo(acts, way)
    ensures AllCan(b, deeds) && Mirrors(AllDone(b, deeds), After(sys, acts)) && Behaves(deeds, way)
    decreases |acts|
  {
    if acts == [] {
      deeds := [];
    } else {
      assert Goes(acts[0], way);
      var first := MirrorStep(b, sys, acts[0]);
      var rest := WayIsMirrored(AllDone(b, first), Step(sys, acts[0]), acts[1..], way);
      DeedsInARow(b, first, rest);
      deeds := first + rest;
    }
  }

  /** From empty tables, with one worker, deeds lead to tables that stand for `sys`. */
  ghost predicate OnTables(sys: Sys, way: Way) {
    exists deeds ::
      AllCan(EMPTY_BANK, deeds) && Mirrors(AllDone(EMPTY_BANK, deeds), sys) && Behaves(deeds, way)
  }

  /** What the bank with one worker reaches on the store it reaches on the tables, and in the same way. */
  lemma ReachedOnTables(sys: Sys, sys': Sys, way: Way)
    requires Initial(sys) && sys.workers == [Worker(Done, [])] && ReachesBy(sys, sys', way)
    ensures OnTables(sys', way)
  {
    HealthyStart(sys);
    var acts :| Possible(sys, acts) && After(sys, acts) == sys' && AllGo(acts, way);
    var deeds := WayIsMirrored(EMPTY_BANK, sys, acts, way);
  }
}
