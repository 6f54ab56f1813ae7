/**
  The whole bank: one store, any number of saga workers, and clients, interleaved at their store calls. Workers may die
  at any moment, and any of their store calls may fail without effect.
 */
module System {
  import opened Domain
  import opened Replay
  import opened Ledger
  import opened Saga
  import opened Text

  /** A worker inside `ProcessDue`: the call in progress and the rest of the batch it listed. */
  datatype Worker = Worker(pc: Pc, batch: seq<Transfer>)

  /** Money that clients brought in and took out during the run. */
  datatype Flows = Flows(openings: Money, deposits: Money, withdrawals: Money)

  /** `tickets` are the streams that clients have loaded and may still act on. */
  datatype Sys = Sys(store: Store, workers: seq<Worker>, tickets: set<(Id, seq<Event>)>,
                     published: seq<Id>, flows: Flows)

  datatype Action =
    | OpenAccount(a: Id, balance: Money)
    | LoadStream(a: Id)
    | DepositAt(a: Id, loaded: seq<Event>, amount: Money)
    | WithdrawNow(a: Id, amount: Money)
    | WithdrawAt(a: Id, loaded: seq<Event>, amount: Money)
    | NewTransfer(r: Transfer)
    | RequestAdjustment(request: Adjustment)
    | AcceptAdjustment(j: Id, admin: Id)
    | DeclineAdjustment(j: Id, admin: Id)
    | Fetch(w: nat, batch: seq<Transfer>)
    | Pick(w: nat)
    | CallStore(w: nat, answer: Answer, now: int)
    | StoreFails(w: nat, e: Error, now: int)
    | Crash(w: nat)

  const MINIMUM_TRANSFER := 100
  const MINIMUM_MOVEMENT := 1000
  const MAX_KEY_LENGTH := 128
  const BATCH_LIMIT := 100

  predicate ValidTerms(r: Transfer) {
    && r.amount >= MINIMUM_TRANSFER
    && r.source != r.destination
    && 0 <= r.fee
    && r.amount <= MAX_INT64 - r.fee
  }

  /** A record as `TransferService.Transfer` submits it. */
  predicate NewRecord(r: Transfer) {
    && ValidTerms(r)
    && r.key != "" && Utf8Length(r.key) <= MAX_KEY_LENGTH
    && r.status == Pending && r.step == Created && r.failure == None && r.compliance == None
    && r.attempts == 0 && r.initialBalance == 0 && r.finalBalance == 0
  }

  /** A request as `AdjustmentService.Create` submits it. Manual requests name no original transfer. */
  predicate NewRequest(r: Adjustment) {
    && r.status == Waiting
    && (r.kind == Manual ==>
          && r.account != NO_ID && r.direction != Both && r.amount >= 1
          && r.originalTransfer == None)
    && (r.kind == Reversal && r.originalTransfer == None ==> r.originalAccount != NO_ID && r.originalSequence.Some?)
  }

  ghost predicate Distinct(batch: seq<Transfer>) {
    forall i, j :: 0 <= i < j < |batch| ==> batch[i].id != batch[j].id
  }

  ghost predicate Listed(s: Store, batch: seq<Transfer>) {
    && Distinct(batch)
    && |batch| <= BATCH_LIMIT
    && (forall i :: 0 <= i < |batch| ==>
          batch[i].id in s.transfers && s.transfers[batch[i].id] == batch[i] && batch[i].status == Pending)
  }

  ghost predicate Enabled(sys: Sys, act: Action) {
    var s := sys.store;
    match act
    case OpenAccount(a, balance) => a != NO_ID && a !in s.streams && 0 <= balance
    case LoadStream(a) => true
    case DepositAt(a, loaded, amount) => (a, loaded) in sys.tickets && loaded != [] && amount >= MINIMUM_MOVEMENT
    case WithdrawNow(a, amount) => amount >= MINIMUM_MOVEMENT
    case WithdrawAt(a, loaded, amount) =>
      && (a, loaded) in sys.tickets && loaded != [] && amount >= MINIMUM_MOVEMENT
      && ReplayOf(loaded).Available() >= amount
    case NewTransfer(r) => NewRecord(r) && r.id !in s.transfers
    case RequestAdjustment(r) => NewRequest(r) && r.id !in s.adjustments
    case AcceptAdjustment(_, _) => true
    case DeclineAdjustment(_, _) => true
    case Fetch(w, batch) => w < |sys.workers| && sys.workers[w] == Worker(Done, []) && Listed(s, batch)
    case Pick(w) => w < |sys.workers| && sys.workers[w].pc == Done && sys.workers[w].batch != []
    case CallStore(w, _, _) => w < |sys.workers| && sys.workers[w].pc != Done
    case StoreFails(w, _, _) => w < |sys.workers| && sys.workers[w].pc != Done
    case Crash(w) => w < |sys.workers|
  }

  function PlainAppend(s: Store, e: Event): (Store, bool) {
    var (s', result) := Append(s, e, e.version);
    (s', result.Ok?)
  }

  ghost function Step(sys: Sys, act: Action): Sys
    requires Enabled(sys, act)
  {
    var s := sys.store;
    match act
    case OpenAccount(a, balance) =>
      sys.(store := Open(s, a, balance), flows := sys.flows.(openings := sys.flows.openings + balance))
    case LoadStream(a) => sys.(tickets := sys.tickets + {(a, Stream(s, a))})
    case DepositAt(a, loaded, amount) =>
      var (s', done) := PlainAppend(s, DepositEvent(a, |loaded|, amount));
      sys.(store := s',
           flows := if done then sys.flows.(deposits := sys.flows.deposits + amount) else sys.flows)
    case WithdrawNow(a, amount) =>
      var (s', result) := WithdrawAvailable(s, a, amount);
      sys.(store := s',
           flows := if result.Ok? then sys.flows.(withdrawals := sys.flows.withdrawals + amount) else sys.flows)
    case WithdrawAt(a, loaded, amount) =>
      var (s', done) := PlainAppend(s, Withdrawal(a, |loaded|, amount));
      sys.(store := s',
           flows := if done then sys.flows.(withdrawals := sys.flows.withdrawals + amount) else sys.flows)
    case NewTransfer(r) => sys.(store := AddTransfer(s, r))
    case RequestAdjustment(r) => sys.(store := CreateAdjustment(s, r).0)
    case AcceptAdjustment(j, admin) => sys.(store := ApproveAdjustment(s, j, admin).0)
    case DeclineAdjustment(j, admin) => sys.(store := RejectAdjustment(s, j, admin).0)
    case Fetch(w, batch) => sys.(workers := sys.workers[w := Worker(Done, batch)])
    case Pick(w) =>
      var worker := sys.workers[w];
      sys.(workers := sys.workers[w := Worker(Begin(worker.batch[0]), worker.batch[1..])])
    case CallStore(w, answer, now) =>
      var worker := sys.workers[w];
      var (s', pc', published) := Work(s, worker.pc, answer, now);
      sys.(store := s', workers := sys.workers[w := worker.(pc := pc')],
           published := if published then sys.published + [worker.pc.r.id] else sys.published)
    case StoreFails(w, e, now) =>
      sys.(workers := sys.workers[w := sys.workers[w].(pc := Failing(sys.workers[w].pc, e, now))])
    case Crash(w) => sys.(workers := sys.workers[w := Worker(Done, [])])
  }

  /** No worker dies and no store call fails by itself, as the memory store's never do. */
  ghost predicate Undisturbed(acts: seq<Action>) {
    forall i :: 0 <= i < |acts| ==> !acts[i].Crash? && !acts[i].StoreFails?
  }

  ghost predicate Initial(sys: Sys) {
    && sys.store == EMPTY
    && (forall w :: 0 <= w < |sys.workers| ==> sys.workers[w] == Worker(Done, []))
    && sys.tickets == {} && sys.published == [] && sys.flows == Flows(0, 0, 0)
  }

  /** `acts` can be taken one after the other from `sys`. */
  ghost predicate Possible(sys: Sys, acts: seq<Action>)
    decreases |acts|
  {
    acts == [] || (Enabled(sys, acts[0]) && Possible(Step(sys, acts[0]), acts[1..]))
  }

  ghost function After(sys: Sys, acts: seq<Action>): Sys
    requires Possible(sys, acts)
    decreases |acts|
  {
    if acts == [] then sys else After(Step(sys, acts[0]), acts[1..])
  }

  ghost predicate Reaches(sys: Sys, sys': Sys) {
    exists acts :: Possible(sys, acts) && After(sys, acts) == sys'
  }

  lemma {:induction false} OneAfterTheOther(sys: Sys, acts: seq<Action>, more: seq<Action>)
    requires Possible(sys, acts) && Possible(After(sys, acts), more)
    ensures Possible(sys, acts + more) && After(sys, acts + more) == After(After(sys, acts), more)
    decreases |acts|
  {
    if acts == [] {
      assert acts + more == more;
    } else {
      assert (acts + more)[1..] == acts[1..] + more;
      OneAfterTheOther(Step(sys, acts[0]), acts[1..], more);
    }
  }

  lemma Then(sys: Sys, mid: Sys, act: Action)
    requires Reaches(sys, mid) && Enabled(mid, act)
    ensures Reaches(sys, Step(mid, act))
  {
    var acts :| Possible(sys, acts) && After(sys, acts) == mid;
    OneAfterTheOther(sys, acts, [act]);
    assert [act][1..] == [];
  }

  /** How a run goes: what the compliance checker says all the time, if so, and whether nothing fails or dies. */
  datatype Way = Way(only: Option<Answer>, calm: bool)

  ghost predicate Goes(act: Action, way: Way) {
    && (act.CallStore? && way.only.Some? ==> act.answer == way.only.value)
    && (way.calm ==> !act.StoreFails? && !act.Crash?)
    && !act.RequestAdjustment? && !act.AcceptAdjustment?
  }

  ghost predicate AllGo(acts: seq<Action>, way: Way) {
    forall i :: 0 <= i < |acts| ==> Goes(acts[i], way)
  }

  ghost predicate ReachesBy(sys: Sys, sys': Sys, way: Way) {
    exists acts :: Possible(sys, acts) && After(sys, acts) == sys' && AllGo(acts, way)
  }

  lemma ThenBy(sys: Sys, mid: Sys, act: Action, way: Way)
    requires ReachesBy(sys, mid, way) && Enabled(mid, act) && Goes(act, way)
    ensures ReachesBy(sys, Step(mid, act), way)
  {
    var acts :| Possible(sys, acts) && After(sys, acts) == mid && AllGo(acts, way);
    OneAfterTheOther(sys, acts, [act]);
    assert [act][1..] == [];
    assert AllGo(acts + [act], way);
  }
}
