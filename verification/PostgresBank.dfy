/**
  The whole bank on the Postgres store. Every run of it is a run of System: a transaction that commits is the atomic
  step, one that collides or is refused is a store call that failed, and a client's is as if it had not been made. So
  whatever holds in every run of System, with any number of workers, holds of the Postgres tables.
 */
module PostgresBank {
  import opened Domain
  import opened Replay
  import opened Ledger
  import opened Saga
  import opened System
  import opened Bookkeeping
  import opened Adjustments
  import opened AnyWorkers
  import opened Conservation
  import opened Postgres
  import opened PostgresTransactions

  type Seen = map<Id, seq<Event>>

  /** `seen` holds what each worker's transaction has read so far; the other fields are those of System. */
  datatype Bank = Bank(pg: Pg, workers: seq<Worker>, seen: seq<Seen>, tickets: set<(Id, seq<Event>)>,
                       published: seq<Id>, flows: Flows)

  /** `Fails` is a worker's call that errs for any other reason, such as its timeout, and is rolled back. */
  datatype Deed =
    | ClientLoads(a: Id, keys: seq<int>, loaded: seq<Event>)
    | WorkerLoads(w: nat, a: Id, keys: seq<int>, loaded: seq<Event>)
    | Opens(a: Id, balance: Money)
    | Deposits(a: Id, loaded: seq<Event>, amount: Money)
    | Withdraws(a: Id, loaded: seq<Event>, amount: Money)
    | Orders(r: Transfer)
    | Requests(request: Adjustment, loaded: seq<Event>)
    | Approves(j: Id, admin: Id, first: seq<Event>, second: seq<Event>)
    | Rejects(j: Id, admin: Id)
    | Fetches(w: nat, batch: seq<Transfer>)
    | Picks(w: nat)
    | Calls(w: nat, answer: Answer, now: int)
    | Fails(w: nat, e: Error, now: int)
    | Dies(w: nat)

  // ---- a worker's call as a transaction

  function HoldAccount(pg: Pg, t: Id): set<Id> {
    if t in pg.rest.reservations then {pg.rest.reservations[t].account} else {}
  }

  /** The accounts whose events the transaction of a call reads. */
  function Reads(pg: Pg, pc: Pc): set<Id> {
    match pc
    case Begin(r) =>
      if r.step == Created || r.step == ComplianceApproved then {r.source, r.destination}
      else if r.step == LedgerPosted then HoldAccount(pg, r.id)
      else {}
    case ReleaseRejected(r) => HoldAccount(pg, r.id)
    case ReleaseThenFail(r, _) => HoldAccount(pg, r.id)
    case _ => {}
  }

  function Read(seen: Seen, a: Id): seq<Event> {
    if a in seen then seen[a] else []
  }

  function Finishing(pg: Pg, t: Id, target: HoldState, seen: Seen): (Pg, Outcome) {
    FinishHold(pg, t, target, if t in pg.rest.reservations then Read(seen, pg.rest.reservations[t].account) else [])
  }

  function Transacted(pg: Pg, pc: Pc, seen: Seen): (Pg, Outcome) {
    match pc
    case Done => (pg, NothingToDo)
    case Begin(r) =>
      if r.step == Created then ReserveFunds(pg, r, Read(seen, r.source), Read(seen, r.destination))
      else if r.step == ComplianceApproved then PostLedger(pg, r, Read(seen, r.source), Read(seen, r.destination))
      else if r.step == LedgerPosted then Finishing(pg, r.id, Taken, seen)
      else (pg, NothingToDo)
    case Record(r, approved) => Deciding(pg, r.id, if approved then Approved else Rejected)
    case ReleaseRejected(r) => Finishing(pg, r.id, GivenBack, seen)
    case ReleaseThenFail(r, _) => Finishing(pg, r.id, GivenBack, seen)
    case Update(r, u, _) => (UpdateRow(pg, r.id, u).0, Committed)
  }

  /** A transaction that has nothing to do still answers with the balance it read. */
  predicate AnswersBalance(pc: Pc) {
    pc.Begin? && (pc.r.step == Created || pc.r.step == ComplianceApproved)
  }

  function Balance(pg: Pg, pc: Pc, seen: Seen): Money {
    if !AnswersBalance(pc) then 0
    else
      var src := Read(seen, pc.r.source);
      if pc.r.step == ComplianceApproved && pc.r.id !in pg.rest.postings
      then ReplayOf(src + SourceLegs(pc.r, |src|)).balance
      else ReplayOf(src).balance
  }

  function Failure(outcome: Outcome): Option<Error> {
    match outcome
    case Refused(e) => Some(e)
    case Collided => Some(Unavailable)
    case _ => None
  }

  function GoesOn(pg: Pg, pc: Pc, seen: Seen, answer: Answer, now: int): Pc {
    var failure := Failure(Transacted(pg, pc, seen).1);
    if failure.Some? then Failing(pc, failure.value, now) else Succeeding(pc, Balance(pg, pc, seen), answer, now)
  }

  predicate Publishes(pg: Pg, pc: Pc) {
    pc.Update? && pc.publish && UpdateRow(pg, pc.r.id, pc.u).1 == Ok(true)
  }

  // ---- the bank

  ghost predicate Can(b: Bank, deed: Deed) {
    match deed
    case ClientLoads(a, keys, loaded) => Selects(b.pg.events, a, keys, loaded)
    case WorkerLoads(w, a, keys, loaded) =>
      w < |b.workers| && w < |b.seen| && b.workers[w].pc != Done && Selects(b.pg.events, a, keys, loaded)
    case Opens(a, balance) => a != NO_ID && (forall i :: (a, i) !in b.pg.events) && 0 <= balance
    case Deposits(a, loaded, amount) => (a, loaded) in b.tickets && loaded != [] && amount >= MINIMUM_MOVEMENT
    case Withdraws(a, loaded, amount) => (a, loaded) in b.tickets && amount >= MINIMUM_MOVEMENT
    case Orders(r) => NewRecord(r) && r.id !in b.pg.rest.transfers
    case Requests(r, loaded) =>
      NewRequest(r) && r.id !in b.pg.rest.adjustments && (Checked(r), loaded) in b.tickets
    case Approves(j, _, first, second) =>
      j in b.pg.rest.adjustments ==>
        var r := b.pg.rest.adjustments[j];
        if r.originalTransfer.Some? then (r.counterparty, first) in b.tickets && (r.account, second) in b.tickets
        else (r.account, first) in b.tickets
    case Rejects(_, _) => true
    case Fetches(w, batch) => w < |b.workers| && b.workers[w] == Worker(Done, []) && Listed(b.pg.rest, batch)
    case Picks(w) =>
      w < |b.workers| && w < |b.seen| && b.workers[w].pc == Done && b.workers[w].batch != []
    case Calls(w, _, _) =>
      && w < |b.workers| && w < |b.seen| && b.workers[w].pc != Done
      && Reads(b.pg, b.workers[w].pc) <= b.seen[w].Keys
      && (AnswersBalance(b.workers[w].pc) && Transacted(b.pg, b.workers[w].pc, b.seen[w]).1 == NothingToDo ==>
            Latest(b.pg, b.workers[w].pc.r.source, Read(b.seen[w], b.workers[w].pc.r.source)))
    case Fails(w, _, _) => w < |b.workers| && w < |b.seen| && b.workers[w].pc != Done
    case Dies(w) => w < |b.workers| && w < |b.seen|
  }

  /** No row follows what was read: a transaction that only reads takes place when it reads. */
  ghost predicate Latest(pg: Pg, a: Id, loaded: seq<Event>) {
    (a, |loaded|) !in pg.events
  }

  ghost function Do(b: Bank, deed: Deed): Bank
    requires Can(b, deed)
  {
    match deed
    case ClientLoads(a, _, loaded) => b.(tickets := b.tickets + {(a, loaded)})
    case WorkerLoads(w, a, _, loaded) => b.(seen := b.seen[w := b.seen[w][a := loaded]])
    case Opens(a, balance) =>
      var (pg, outcome) := InsertRows(b.pg, a, 0, [AccountOpened(a, 0, balance)], b.pg.rest);
      b.(pg := pg, flows := b.flows.(openings := b.flows.openings + (if outcome == Committed then balance else 0)))
    case Deposits(a, loaded, amount) =>
      var (events, result) := PostgresAppend(b.pg.events, DepositEvent(a, |loaded|, amount), |loaded|);
      b.(pg := b.pg.(events := events),
         flows := if result.Ok? then b.flows.(deposits := b.flows.deposits + amount) else b.flows)
    case Withdraws(a, loaded, amount) =>
      var (pg, outcome) := Withdraw(b.pg, a, amount, loaded);
      b.(pg := pg,
         flows := if outcome == Committed then b.flows.(withdrawals := b.flows.withdrawals + amount) else b.flows)
    case Orders(r) => b.(pg := InsertTransfer(b.pg, r).0)
    case Requests(r, loaded) => b.(pg := InsertRequest(b.pg, r, loaded).0)
    case Approves(j, admin, first, second) => b.(pg := Approval(b.pg, j, admin, first, second).0)
    case Rejects(j, admin) => b.(pg := Rejection(b.pg, j, admin).0)
    case Fetches(w, batch) => b.(workers := b.workers[w := Worker(Done, batch)])
    case Picks(w) =>
      var batch := b.workers[w].batch;
      b.(workers := b.workers[w := Worker(Begin(batch[0]), batch[1..])], seen := b.seen[w := map[]])
    case Calls(w, answer, now) =>
      var pc := b.workers[w].pc;
      b.(pg := Transacted(b.pg, pc, b.seen[w]).0,
         workers := b.workers[w := b.workers[w].(pc := GoesOn(b.pg, pc, b.seen[w], answer, now))],
         seen := b.seen[w := map[]],
         published := if Publishes(b.pg, pc) then b.published + [pc.r.id] else b.published)
    case Fails(w, e, now) =>
      b.(workers := b.workers[w := b.workers[w].(pc := Failing(b.workers[w].pc, e, now))], seen := b.seen[w := map[]])
    case Dies(w) => b.(workers := b.workers[w := Worker(Done, [])], seen := b.seen[w := map[]])
  }

  // ---- what it stands for

  /** What was read is a prefix of what is there, and a posting has read accounts that exist. */
  ghost predicate SeenOk(s: Store, pc: Pc, seen: Seen) {
    && (forall a :: a in seen ==> seen[a] <= Stream(s, a))
    && (pc.Begin? && pc.r.step == ComplianceApproved ==>
          forall a :: a in seen && (a == pc.r.source || a == pc.r.destination) ==> seen[a] != [])
  }

  ghost predicate Stands(b: Bank, sys: Sys) {
    && Simulates(b.pg, sys.store)
    && b.workers == sys.workers && b.tickets == sys.tickets && b.published == sys.published && b.flows == sys.flows
    && |b.seen| == |sys.workers|
    && (forall w :: 0 <= w < |b.seen| ==> SeenOk(sys.store, sys.workers[w].pc, b.seen[w]))
  }

  /** The action of System that a deed is, or none. */
  ghost function Acts(b: Bank, deed: Deed): Option<Action>
    requires Can(b, deed)
  {
    match deed
    case ClientLoads(a, _, _) => Some(LoadStream(a))
    case WorkerLoads(_, _, _, _) => None
    case Opens(a, balance) => Some(OpenAccount(a, balance))
    case Deposits(a, loaded, amount) => Some(DepositAt(a, loaded, amount))
    case Withdraws(a, loaded, amount) =>
      if Withdraw(b.pg, a, amount, loaded).1 == Committed then Some(WithdrawNow(a, amount)) else None
    case Orders(r) => Some(NewTransfer(r))
    case Requests(r, loaded) =>
      if InsertRequest(b.pg, r, loaded).1 == Committed then Some(RequestAdjustment(Unreviewed(r))) else None
    case Approves(j, admin, first, second) =>
      if Approval(b.pg, j, admin, first, second).1 == Committed then Some(AcceptAdjustment(j, admin)) else None
    case Rejects(j, admin) => Some(DeclineAdjustment(j, admin))
    case Fetches(w, batch) => Some(Fetch(w, batch))
    case Picks(w) => Some(Pick(w))
    case Calls(w, answer, now) =>
      var failure := Failure(Transacted(b.pg, b.workers[w].pc, b.seen[w]).1);
      Some(if failure.Some? then StoreFails(w, failure.value, now) else CallStore(w, answer, now))
    case Fails(w, e, now) => Some(StoreFails(w, e, now))
    case Dies(w) => Some(Crash(w))
  }

  // ---- one call of a worker

  lemma LatestIsCurrent(pg: Pg, s: Store, a: Id, loaded: seq<Event>)
    requires Simulates(pg, s) && Latest(pg, a, loaded) && loaded <= Stream(s, a)
    ensures loaded == Stream(s, a)
  {
    assert Rows(s.streams, a) == Stream(s, a);
    assert (a, |loaded|) in pg.events <==> 0 <= |loaded| < |Rows(s.streams, a)|;
  }

  /** The transaction of a call, the atomic call, and the answers of both. */
  ghost predicate CallAlike(pg: Pg, s: Store, pc: Pc, seen: Seen)
    requires pc != Done
  {
    var (pg', outcome) := Transacted(pg, pc, seen);
    && (Failure(outcome).Some? ==> pg' == pg)
    && (Failure(outcome).None? ==> Simulates(pg', Called(s, pc)) && Answered(s, pc) == Ok(Balance(pg, pc, seen)))
  }

  lemma ReserveAlike(pg: Pg, s: Store, r: Transfer, seen: Seen)
    requires Simulates(pg, s) && SeenOk(s, Begin(r), seen) && r.step == Created
    requires {r.source, r.destination} <= seen.Keys
    requires r.id in pg.rest.reservations ==> Latest(pg, r.source, Read(seen, r.source))
    ensures CallAlike(pg, s, Begin(r), seen)
  {
    var src, dst := seen[r.source], seen[r.destination];
    var rest := pg.rest.(reservations := pg.rest.reservations[r.id := Hold(r.source, Due(r), OnHold)]);
    ReserveSimulates(pg, s, r, src, dst);
    InsertRowsSimulates(pg, s, r.source, src, [HoldEvent(r, |src|)], rest);
    if r.id in pg.rest.reservations { LatestIsCurrent(pg, s, r.source, src); }
  }

  lemma PostAlike(pg: Pg, s: Store, r: Transfer, seen: Seen)
    requires Simulates(pg, s) && SeenOk(s, Begin(r), seen) && r.step == ComplianceApproved && r.source != r.destination
    requires {r.source, r.destination} <= seen.Keys
    requires r.id in pg.rest.postings ==> Latest(pg, r.source, Read(seen, r.source))
    ensures CallAlike(pg, s, Begin(r), seen)
  {
    var src, dst := seen[r.source], seen[r.destination];
    PostSimulates(pg, s, r, src, dst);
    InsertRowsSimulates(pg, s, r.source, src, SourceLegs(r, |src|), pg.rest);
    if r.id in pg.rest.postings { LatestIsCurrent(pg, s, r.source, src); }
  }

  lemma FinishAlike(pg: Pg, s: Store, pc: Pc, target: HoldState, seen: Seen)
    requires Simulates(pg, s) && SeenOk(s, pc, seen) && Reads(pg, pc) <= seen.Keys
    requires if target == Taken then pc.Begin? && pc.r.step == LedgerPosted
             else target == GivenBack && (pc.ReleaseRejected? || pc.ReleaseThenFail?)
    ensures CallAlike(pg, s, pc, seen)
  {
    var t := pc.r.id;
    var loaded := if t in pg.rest.reservations then Read(seen, pg.rest.reservations[t].account) else [];
    FinishSimulates(pg, s, t, target, loaded);
  }

  lemma TransactedAlike(pg: Pg, s: Store, pc: Pc, seen: Seen)
    requires Simulates(pg, s) && pc != Done && SeenOk(s, pc, seen) && Reads(pg, pc) <= seen.Keys
    requires pc.r.source != pc.r.destination
    requires AnswersBalance(pc) && Transacted(pg, pc, seen).1 == NothingToDo ==>
               Latest(pg, pc.r.source, Read(seen, pc.r.source))
    ensures CallAlike(pg, s, pc, seen)
  {
    match pc {
      case Begin(r) =>
        if r.step == Created {
          ReserveAlike(pg, s, r, seen);
        } else if r.step == ComplianceApproved {
          PostAlike(pg, s, r, seen);
        } else if r.step == LedgerPosted {
          FinishAlike(pg, s, pc, Taken, seen);
        }
      case Record(r, approved) => DecideSimulates(pg, s, r.id, if approved then Approved else Rejected);
      case ReleaseRejected(r) => FinishAlike(pg, s, pc, GivenBack, seen);
      case ReleaseThenFail(r, _) => FinishAlike(pg, s, pc, GivenBack, seen);
      case Update(r, u, _) => UpdatesAgreeIff(pg, s, r.id, u);
    }
  }

  lemma PublishesAlike(pg: Pg, s: Store, pc: Pc, answer: Answer, now: int)
    requires Simulates(pg, s) && pc != Done
    ensures Publishes(pg, pc) == Work(s, pc, answer, now).2
  {
  }

  // ---- one deed

  lemma SeenKeeps(s: Store, s': Store, pc: Pc, seen: Seen)
    requires SeenOk(s, pc, seen) && StreamsGrow(s.streams, s'.streams)
    ensures SeenOk(s', pc, seen)
  {
    forall a | a in seen
      ensures seen[a] <= Stream(s', a)
    {
      if a in s.streams { assert a in s'.streams; }
    }
  }

  /** A worker that is about to post reads accounts that exist: the hold proves that they do. */
  lemma PostingReadsRows(s: Store, r: Transfer, a: Id)
    requires Ledgered(s) && PcOk(s, Begin(r)) && r.step == ComplianceApproved
    requires a == r.source || a == r.destination
    ensures Stream(s, a) != []
  {
    assert HoldOk(s, r.id, s.reservations[r.id]);
    assert StreamOk(s.transfers.Keys, s.adjustments.Keys, a, s.streams[a]);
  }

  lemma SeenGrows(s: Store, pc: Pc, seen: Seen, a: Id)
    requires Ledgered(s) && PcOk(s, pc) && SeenOk(s, pc, seen)
    ensures SeenOk(s, pc, seen[a := Stream(s, a)])
  {
    if pc.Begin? && pc.r.step == ComplianceApproved && (a == pc.r.source || a == pc.r.destination) {
      PostingReadsRows(s, pc.r, a);
    }
  }

  lemma TermsDiffer(s: Store, pc: Pc)
    requires Ledgered(s) && PcOk(s, pc) && pc != Done
    ensures pc.r.source != pc.r.destination
  {
    assert TransferOk(s, pc.r.id, s.transfers[pc.r.id]);
  }

  ghost predicate ByClient(deed: Deed) {
    || deed.Opens? || deed.Deposits? || deed.Withdraws? || deed.Orders? || deed.Requests? || deed.Approves?
    || deed.Rejects?
  }

  /** A client's deed: its action, if any, is possible and leaves what the tables stand for. */
  ghost predicate DeedAlike(b: Bank, sys: Sys, deed: Deed)
    requires Can(b, deed)
  {
    var b', act := Do(b, deed), Acts(b, deed);
    && b' == b.(pg := b'.pg, flows := b'.flows)
    && match act
       case None => Simulates(b'.pg, sys.store) && b'.flows == b.flows
       case Some(act) =>
         && Enabled(sys, act)
         && Simulates(b'.pg, Step(sys, act).store) && b'.flows == Step(sys, act).flows
         && Step(sys, act) == sys.(store := Step(sys, act).store, flows := Step(sys, act).flows)
  }

  lemma OpensAlike(b: Bank, sys: Sys, a: Id, balance: Money)
    requires Healthy(sys) && Stands(b, sys) && Can(b, Opens(a, balance))
    ensures DeedAlike(b, sys, Opens(a, balance))
  {
    var s := sys.store;
    assert (a, 0) !in b.pg.events;
    assert Rows(s.streams, a) == Stream(s, a);
    OpenSimulates(b.pg, s, a, balance);
  }

  lemma DepositsAlike(b: Bank, sys: Sys, a: Id, loaded: seq<Event>, amount: Money)
    requires Healthy(sys) && Stands(b, sys) && Can(b, Deposits(a, loaded, amount))
    ensures DeedAlike(b, sys, Deposits(a, loaded, amount))
  {
    assert (a, loaded) in sys.tickets;
    AppendSimulates(b.pg, sys.store, DepositEvent(a, |loaded|, amount), loaded);
  }

  lemma WithdrawsAlike(b: Bank, sys: Sys, a: Id, loaded: seq<Event>, amount: Money)
    requires Healthy(sys) && Stands(b, sys) && Can(b, Withdraws(a, loaded, amount))
    ensures DeedAlike(b, sys, Withdraws(a, loaded, amount))
  {
    assert (a, loaded) in sys.tickets;
    WithdrawSimulates(b.pg, sys.store, a, amount, loaded);
  }

  lemma RequestsAlike(b: Bank, sys: Sys, r: Adjustment, loaded: seq<Event>)
    requires Healthy(sys) && Stands(b, sys) && Can(b, Requests(r, loaded))
    ensures DeedAlike(b, sys, Requests(r, loaded))
  {
    assert (Checked(r), loaded) in sys.tickets;
    RequestSimulates(b.pg, sys.store, r, loaded);
  }

  lemma ApprovesAlike(b: Bank, sys: Sys, j: Id, admin: Id, first: seq<Event>, second: seq<Event>)
    requires Healthy(sys) && Stands(b, sys) && Can(b, Approves(j, admin, first, second))
    ensures DeedAlike(b, sys, Approves(j, admin, first, second))
  {
    var s := sys.store;
    if j in s.adjustments {
      var r := s.adjustments[j];
      assert AdjustmentOk(s, j, r);
      if r.originalTransfer.Some? {
        assert (r.counterparty, first) in sys.tickets && (r.account, second) in sys.tickets;
        assert TransferOk(s, r.originalTransfer.value, s.transfers[r.originalTransfer.value]);
      } else {
        assert (r.account, first) in sys.tickets;
      }
    }
    ApprovalSimulates(b.pg, s, j, admin, first, second);
  }

  lemma MoneyAlike(b: Bank, sys: Sys, deed: Deed)
    requires Healthy(sys) && Stands(b, sys) && Can(b, deed) && (deed.Opens? || deed.Deposits? || deed.Withdraws?)
    ensures DeedAlike(b, sys, deed)
  {
    match deed {
      case Opens(a, balance) => OpensAlike(b, sys, a, balance);
      case Deposits(a, loaded, amount) => DepositsAlike(b, sys, a, loaded, amount);
      case Withdraws(a, loaded, amount) => WithdrawsAlike(b, sys, a, loaded, amount);
    }
  }

  lemma OrdersAlike(b: Bank, sys: Sys, r: Transfer)
    requires Stands(b, sys) && Can(b, Orders(r))
    ensures DeedAlike(b, sys, Orders(r))
  {
    TransferSimulates(b.pg, sys.store, r);
  }

  lemma RejectsAlike(b: Bank, sys: Sys, j: Id, admin: Id)
    requires Stands(b, sys) && Can(b, Rejects(j, admin))
    ensures DeedAlike(b, sys, Rejects(j, admin))
  {
    RejectSimulates(b.pg, sys.store, j, admin);
  }

  lemma ClientAlike(b: Bank, sys: Sys, deed: Deed)
    requires Healthy(sys) && Stands(b, sys) && Can(b, deed) && ByClient(deed)
    ensures DeedAlike(b, sys, deed)
  {
    match deed {
      case Orders(r) => OrdersAlike(b, sys, r);
      case Requests(r, loaded) => RequestsAlike(b, sys, r, loaded);
      case Approves(j, admin, first, second) => ApprovesAlike(b, sys, j, admin, first, second);
      case Rejects(j, admin) => RejectsAlike(b, sys, j, admin);
      case _ => MoneyAlike(b, sys, deed);
    }
  }

  /** What `deed` is for System: nothing, or one of its steps. */
  ghost predicate Follows(b: Bank, sys: Sys, deed: Deed)
    requires Can(b, deed)
  {
    match Acts(b, deed)
    case None => Stands(Do(b, deed), sys)
    case Some(act) => Enabled(sys, act) && Stands(Do(b, deed), Step(sys, act))
  }

  lemma ClientFollows(b: Bank, sys: Sys, deed: Deed)
    requires Healthy(sys) && Stands(b, sys) && Can(b, deed) && ByClient(deed)
    ensures Follows(b, sys, deed)
  {
    ClientAlike(b, sys, deed);
    var act := Acts(b, deed);
    if act.Some? {
      HealthyStep(sys, act.value);
      forall w | 0 <= w < |b.seen|
        ensures SeenOk(Step(sys, act.value).store, sys.workers[w].pc, b.seen[w])
      {
        SeenKeeps(sys.store, Step(sys, act.value).store, sys.workers[w].pc, b.seen[w]);
      }
    }
  }

  /** A worker's call: System's step is possible, goes on alike and leaves what the tables stand for. */
  lemma CallSteps(b: Bank, sys: Sys, w: nat, answer: Answer, now: int)
    requires Healthy(sys) && Stands(b, sys) && Can(b, Calls(w, answer, now))
    ensures var act := Acts(b, Calls(w, answer, now)).value;
            && Enabled(sys, act)
            && Simulates(Do(b, Calls(w, answer, now)).pg, Step(sys, act).store)
            && Step(sys, act).workers
               == sys.workers[w := sys.workers[w].(pc := GoesOn(b.pg, sys.workers[w].pc, b.seen[w], answer, now))]
            && Step(sys, act).published == Do(b, Calls(w, answer, now)).published
            && Step(sys, act).tickets == sys.tickets && Step(sys, act).flows == sys.flows
  {
    var s, pc, seen := sys.store, sys.workers[w].pc, b.seen[w];
    assert WorkerOk(s, sys.workers[w]);
    TermsDiffer(s, pc);
    TransactedAlike(b.pg, s, pc, seen);
    PublishesAlike(b.pg, s, pc, answer, now);
    WorkGoesOn(s, pc, answer, now);
    WorkCalls(s, pc, answer, now);
    FailedPublishesNothing(b.pg, pc, seen);
  }

  lemma CallFollows(b: Bank, sys: Sys, w: nat, answer: Answer, now: int)
    requires Healthy(sys) && Stands(b, sys) && Can(b, Calls(w, answer, now))
    ensures Follows(b, sys, Calls(w, answer, now))
  {
    var act := Acts(b, Calls(w, answer, now)).value;
    CallSteps(b, sys, w, answer, now);
    HealthyStep(sys, act);
    CallStands(b, sys, Do(b, Calls(w, answer, now)), Step(sys, act), w);
  }

  /** After its call the worker has read nothing, and the others have read what they had. */
  lemma CallStands(b: Bank, sys: Sys, b': Bank, sys': Sys, w: nat)
    requires Stands(b, sys) && w < |sys.workers| && StreamsGrow(sys.store.streams, sys'.store.streams)
    requires b'.seen == b.seen[w := map[]] && |sys'.workers| == |sys.workers|
    requires forall x :: 0 <= x < |sys.workers| && x != w ==> sys'.workers[x] == sys.workers[x]
    requires Simulates(b'.pg, sys'.store) && b'.workers == sys'.workers && b'.tickets == sys'.tickets
    requires b'.published == sys'.published && b'.flows == sys'.flows
    ensures Stands(b', sys')
  {
    OtherSeenKeeps(b, sys, sys', w);
    assert SeenOk(sys'.store, sys'.workers[w].pc, map[]);
  }

  lemma OtherSeenKeeps(b: Bank, sys: Sys, sys': Sys, w: nat)
    requires Stands(b, sys) && StreamsGrow(sys.store.streams, sys'.store.streams) && |sys'.workers| == |sys.workers|
    requires forall x :: 0 <= x < |sys.workers| && x != w ==> sys'.workers[x] == sys.workers[x]
    ensures forall x :: 0 <= x < |b.seen| && x != w ==> SeenOk(sys'.store, sys'.workers[x].pc, b.seen[x])
  {
    forall x | 0 <= x < |b.seen| && x != w
      ensures SeenOk(sys'.store, sys'.workers[x].pc, b.seen[x])
    {
      SeenKeeps(sys.store, sys'.store, sys.workers[x].pc, b.seen[x]);
    }
  }

  lemma FailedPublishesNothing(pg: Pg, pc: Pc, seen: Seen)
    ensures Failure(Transacted(pg, pc, seen).1).Some? ==> !Publishes(pg, pc)
  {
  }

  lemma LoadFollows(b: Bank, sys: Sys, deed: Deed)
    requires Healthy(sys) && Stands(b, sys) && Can(b, deed) && (deed.ClientLoads? || deed.WorkerLoads?)
    ensures Follows(b, sys, deed)
  {
    var s := sys.store;
    SelectIsTheStream(b.pg.events, s.streams, deed.a, deed.keys, deed.loaded);
    assert deed.loaded == Stream(s, deed.a);
    if deed.WorkerLoads? {
      assert WorkerOk(s, sys.workers[deed.w]);
      SeenGrows(s, sys.workers[deed.w].pc, b.seen[deed.w], deed.a);
    }
  }

  lemma WorkerFollows(b: Bank, sys: Sys, deed: Deed)
    requires Stands(b, sys) && Can(b, deed) && (deed.Fetches? || deed.Picks? || deed.Fails? || deed.Dies?)
    ensures Follows(b, sys, deed)
  {
    if deed.Fails? {
      FailureFollows(b, sys, deed.w, deed.e, deed.now);
    } else {
      assert forall w :: 0 <= w < |b.seen| ==> SeenOk(sys.store, sys.workers[w].pc, b.seen[w]);
    }
  }

  lemma FailureFollows(b: Bank, sys: Sys, w: nat, e: Error, now: int)
    requires Stands(b, sys) && Can(b, Fails(w, e, now))
    ensures Follows(b, sys, Fails(w, e, now))
  {
    CallStands(b, sys, Do(b, Fails(w, e, now)), Step(sys, StoreFails(w, e, now)), w);
  }

  lemma DeedFollows(b: Bank, sys: Sys, deed: Deed)
    requires Healthy(sys) && Stands(b, sys) && Can(b, deed)
    ensures Follows(b, sys, deed)
  {
    if deed.Calls? {
      CallFollows(b, sys, deed.w, deed.answer, deed.now);
    } else if deed.ClientLoads? || deed.WorkerLoads? {
      LoadFollows(b, sys, deed);
    } else if ByClient(deed) {
      ClientFollows(b, sys, deed);
    } else {
      WorkerFollows(b, sys, deed);
    }
  }

  // ---- whole runs

  ghost predicate AllCan(b: Bank, deeds: seq<Deed>)
    decreases |deeds|
  {
    deeds == [] || (Can(b, deeds[0]) && AllCan(Do(b, deeds[0]), deeds[1..]))
  }

  ghost function AllDone(b: Bank, deeds: seq<Deed>): Bank
    requires AllCan(b, deeds)
    decreases |deeds|
  {
    if deeds == [] then b else AllDone(Do(b, deeds[0]), deeds[1..])
  }

  lemma {:induction false} RunFollows(b: Bank, sys: Sys, deeds: seq<Deed>) returns (acts: seq<Action>)
    requires Healthy(sys) && Stands(b, sys) && AllCan(b, deeds)
    ensures Possible(sys, acts) && Stands(AllDone(b, deeds), After(sys, acts))
    decreases |deeds|
  {
    if deeds == [] {
      acts := [];
    } else {
      DeedFollows(b, sys, deeds[0]);
      match Acts(b, deeds[0]) {
        case None => acts := RunFollows(Do(b, deeds[0]), sys, deeds[1..]);
        case Some(act) =>
          HealthyStep(sys, act);
          var rest := RunFollows(Do(b, deeds[0]), Step(sys, act), deeds[1..]);
          acts := [act] + rest;
          assert acts[1..] == rest;
      }
    }
  }

  ghost predicate EmptyBank(b: Bank) {
    && b.pg == Pg(map[], EMPTY) && |b.seen| == |b.workers|
    && (forall w :: 0 <= w < |b.workers| ==> b.workers[w] == Worker(Done, []) && b.seen[w] == map[])
    && b.tickets == {} && b.published == [] && b.flows == Flows(0, 0, 0)
  }

  /** Every run on the Postgres store, from empty tables, is a run of System with the same workers. */
  lemma PostgresRunIsARun(b: Bank, deeds: seq<Deed>) returns (sys: Sys, acts: seq<Action>)
    requires EmptyBank(b) && AllCan(b, deeds)
    ensures Initial(sys) && sys.workers == b.workers && Possible(sys, acts)
    ensures Stands(AllDone(b, deeds), After(sys, acts))
  {
    sys := Sys(EMPTY, b.workers, {}, [], Flows(0, 0, 0));
    HealthyStart(sys);
    acts := RunFollows(b, sys, deeds);
  }

  /**
    So the tables of every run stand for a store that keeps its books: gap-free numbered streams, tables and streams in
    agreement, at most one standing reversal per original, unique keys, money conserved, completions published once.
   */
  lemma TablesKeepTheBooks(b: Bank, deeds: seq<Deed>) returns (s: Store)
    requires EmptyBank(b) && AllCan(b, deeds)
    ensures Simulates(AllDone(b, deeds).pg, s)
    ensures Ledgered(s) && Adjusted(s) && Conserved(s, AllDone(b, deeds).flows)
    ensures var published := AllDone(b, deeds).published;
            && (forall i, k :: 0 <= i < k < |published| ==> published[i] != published[k])
            && (forall i :: 0 <= i < |published| ==>
                  published[i] in s.transfers && s.transfers[published[i]].status == Completed)
  {
    var sys, acts := PostgresRunIsARun(b, deeds);
    HealthyStart(sys);
    HealthyRun(sys, acts);
    MoneyIsConserved(sys, acts);
    s := After(sys, acts).store;
    assert PublishedOk(After(sys, acts));
  }

  /** And on every account a transfer has at most one event of each kind and never both a capture and a release. */
  lemma TablesStaySafe(b: Bank, deeds: seq<Deed>, t: Id, a: Id) returns (s: Store)
    requires EmptyBank(b) && AllCan(b, deeds)
    ensures Simulates(AllDone(b, deeds).pg, s)
    ensures t in s.transfers && a in s.streams ==> TrailSafe(s, t, a)
  {
    var sys, acts := PostgresRunIsARun(b, deeds);
    s := After(sys, acts).store;
    if t in s.transfers && a in s.streams { StaleWorkersStaySafe(sys, acts, t, a); }
  }
}
