/**
  What the tables and the streams of the store say about each other, in every order of store calls that any number
  of workers with stale records can produce.
 */
module Bookkeeping {
  import opened Domain
  import opened Replay
  import opened Sums
  import opened Ledger
  import opened Trails

  type Streams = map<Id, seq<Event>>

  // ---- streams

  ghost predicate EventOk(ts: set<Id>, js: set<Id>, a: Id, i: int, e: Event) {
    && e.aggregate == a
    && e.version == i
    && (i == 0 ==> e.AccountOpened? && 0 <= e.initialBalance)
    && (i != 0 ==> !e.AccountOpened? && 0 <= e.amount)
    && (TransferTag(e).Some? ==> TransferTag(e).value in ts)
    && (AdjustmentTag(e).Some? ==> AdjustmentTag(e).value in js)
  }

  ghost predicate StreamOk(ts: set<Id>, js: set<Id>, a: Id, es: seq<Event>) {
    && es != []
    && (forall i :: 0 <= i < |es| ==> EventOk(ts, js, a, i, es[i]))
  }

  /** Event i of every stream has version i, only the first one opens, and tags name known records. */
  ghost predicate StreamsOk(streams: Streams, ts: set<Id>, js: set<Id>) {
    forall a {:trigger StreamOk(ts, js, a, streams[a])} :: a in streams ==> StreamOk(ts, js, a, streams[a])
  }

  lemma StreamsPush(streams: Streams, ts: set<Id>, js: set<Id>, a: Id, e: Event)
    requires StreamsOk(streams, ts, js)
    requires a in streams && EventOk(ts, js, a, |streams[a]|, e)
    ensures StreamsOk(streams[a := streams[a] + [e]], ts, js)
  {
    assert StreamOk(ts, js, a, streams[a]);
    assert StreamOk(ts, js, a, streams[a] + [e]);
  }

  lemma StreamsKnowMore(streams: Streams, ts: set<Id>, js: set<Id>, ts': set<Id>, js': set<Id>)
    requires StreamsOk(streams, ts, js) && ts <= ts' && js <= js'
    ensures StreamsOk(streams, ts', js')
  {
    forall a | a in streams
      ensures StreamOk(ts', js', a, streams[a])
    {
      assert StreamOk(ts, js, a, streams[a]);
      assert forall i :: 0 <= i < |streams[a]| ==> EventOk(ts, js, a, i, streams[a][i]);
    }
  }

  // ---- tables

  function Rank(step: SagaStep): nat {
    match step
    case Created => 0
    case FundsHeld => 1
    case ComplianceApproved => 2
    case LedgerPosted => 3
    case Captured => 4
  }

  /** What must already have happened to `t` for a record to stand at `step`. */
  ghost predicate Reached(s: Store, t: Id, step: SagaStep) {
    && (Rank(step) >= 1 ==> t in s.reservations)
    && (Rank(step) >= 2 ==> t in s.decisions && s.decisions[t] == Approved)
    && (Rank(step) >= 3 ==> t in s.postings)
    && (Rank(step) >= 4 ==> s.reservations[t].state == Taken)
  }

  ghost predicate TermsOk(r: Transfer) {
    r.amount > 0 && 0 <= r.fee && Due(r) <= MAX_INT64 && r.source != r.destination
  }

  ghost predicate TransferOk(s: Store, t: Id, r: Transfer) {
    && r.id == t
    && TermsOk(r)
    && Reached(s, t, r.step)
    && (r.status == Completed ==> r.step == Captured)
  }

  ghost predicate Touched(s: Store, t: Id) {
    t in s.transfers && s.transfers[t].source in s.streams && s.transfers[t].destination in s.streams
  }

  ghost predicate HoldOk(s: Store, t: Id, h: Hold) {
    Touched(s, t) && h.account == s.transfers[t].source && h.amount == Due(s.transfers[t])
  }

  ghost predicate TablesOk(s: Store) {
    && (forall t {:trigger TransferOk(s, t, s.transfers[t])} :: t in s.transfers ==> TransferOk(s, t, s.transfers[t]))
    && (forall t {:trigger HoldOk(s, t, s.reservations[t])} :: t in s.reservations ==> HoldOk(s, t, s.reservations[t]))
    && (forall t {:trigger Touched(s, t)} :: t in s.postings ==> Touched(s, t))
    && (forall t :: t in s.decisions ==> t in s.transfers)
  }

  lemma TablesFrame(s: Store, s': Store)
    requires TablesOk(s)
    requires s'.transfers == s.transfers && s'.reservations == s.reservations
    requires s.streams.Keys <= s'.streams.Keys
    requires s.postings <= s'.postings && (forall t :: t in s'.postings ==> t in s.postings || Touched(s', t))
    requires forall t :: t in s'.decisions ==> t in s.transfers
    requires forall t :: t in s.decisions ==> t in s'.decisions && s'.decisions[t] == s.decisions[t]
    ensures TablesOk(s')
  {
    forall x | x in s'.transfers
      ensures TransferOk(s', x, s'.transfers[x])
    {
      assert TransferOk(s, x, s.transfers[x]);
    }
    forall x | x in s'.reservations
      ensures HoldOk(s', x, s'.reservations[x])
    {
      assert HoldOk(s, x, s.reservations[x]);
    }
    forall x | x in s'.postings
      ensures Touched(s', x)
    {
      assert x in s.postings ==> Touched(s, x);
    }
  }

  ghost predicate UniqueKeys(transfers: map<Id, Transfer>) {
    forall t, t' {:trigger SameRequest(transfers[t], transfers[t'])} ::
      t in transfers && t' in transfers && SameRequest(transfers[t], transfers[t']) ==> t == t'
  }

  // ---- holds

  ghost function Weight(h: Hold, t: Id, settled: set<Id>, a: Id): int {
    if h.account == a && h.state == OnHold && t !in settled then h.amount else 0
  }

  /** Each hold with its amount if it is on `a`, still open and not in `settled`, and with nothing otherwise. */
  ghost function OpenHolds(holds: map<Id, Hold>, settled: set<Id>, a: Id): map<Id, int> {
    map t | t in holds :: Weight(holds[t], t, settled, a)
  }

  ghost function Reserved(holds: map<Id, Hold>, a: Id): int { Total(OpenHolds(holds, {}, a)) }

  /** The fold of every stream reserves exactly what the hold table holds. */
  ghost predicate HoldsAgree(streams: Streams, holds: map<Id, Hold>) {
    forall a :: a in streams ==> ReplayOf(streams[a]).reserved == Reserved(holds, a)
  }

  lemma HoldChanges(holds: map<Id, Hold>, settled: set<Id>, a: Id, t: Id, h: Hold)
    ensures Total(OpenHolds(holds[t := h], settled, a))
            == Total(OpenHolds(holds, settled, a))
               - (if t in holds then Weight(holds[t], t, settled, a) else 0) + Weight(h, t, settled, a)
  {
    assert OpenHolds(holds[t := h], settled, a) == OpenHolds(holds, settled, a)[t := Weight(h, t, settled, a)];
    TotalUpdate(OpenHolds(holds, settled, a), t, Weight(h, t, settled, a));
  }

  lemma SettledChanges(holds: map<Id, Hold>, settled: set<Id>, a: Id, t: Id)
    ensures Total(OpenHolds(holds, settled + {t}, a))
            == Total(OpenHolds(holds, settled, a)) - (if t in holds then Weight(holds[t], t, settled, a) else 0)
  {
    if t in holds {
      assert OpenHolds(holds, settled + {t}, a) == OpenHolds(holds, settled, a)[t := 0];
      TotalUpdate(OpenHolds(holds, settled, a), t, 0);
    } else {
      assert OpenHolds(holds, settled + {t}, a) == OpenHolds(holds, settled, a);
    }
  }

  /** A stream and the hold table move together. */
  lemma HoldsPush(streams: Streams, holds: map<Id, Hold>, a: Id, e: Event, t: Id, h: Hold)
    requires HoldsAgree(streams, holds) && a in streams && h.account == a
    requires t in holds ==> holds[t].account == a
    requires Apply(Tally(0, 0), e).reserved
             == Weight(h, t, {}, a) - (if t in holds then Weight(holds[t], t, {}, a) else 0)
    ensures HoldsAgree(streams[a := streams[a] + [e]], holds[t := h])
  {
    ReplayAppend(streams[a], e);
    ApplyReserves(ReplayOf(streams[a]), e);
    forall b | b in streams
      ensures ReplayOf(streams[a := streams[a] + [e]][b]).reserved == Reserved(holds[t := h], b)
    {
      HoldChanges(holds, {}, b, t, h);
    }
  }

  lemma ApplyReserves(t: Tally, e: Event)
    ensures Apply(t, e).reserved == t.reserved + Apply(Tally(0, 0), e).reserved
  {
  }

  lemma HoldsPushMoney(streams: Streams, holds: map<Id, Hold>, a: Id, e: Event)
    requires HoldsAgree(streams, holds) && a in streams
    requires e.MoneyCredited? || e.MoneyDebited?
    ensures HoldsAgree(streams[a := streams[a] + [e]], holds)
  {
    ReplayAppend(streams[a], e);
  }

  // ---- trails

  ghost function StateOf(holds: map<Id, Hold>, t: Id): Option<HoldState> {
    if t in holds then Some(holds[t].state) else None
  }

  /** The marks of transfer `r` on account `a`: what its hold and its posting say, and nothing anywhere else. */
  ghost predicate TrailOk(a: Id, marks: seq<Mark>, r: Transfer, hold: Option<HoldState>, posted: bool) {
    if a == r.source then if posted then Woven(marks, HoldMarks(r, hold), LegMarks(r)) else marks == HoldMarks(r, hold)
    else marks == if a == r.destination && posted then [Received(r.amount)] else []
  }

  ghost predicate TrailAt(s: Store, t: Id, a: Id)
    requires t in s.transfers && a in s.streams
  {
    TrailOk(a, Marks(s.streams[a], t), s.transfers[t], StateOf(s.reservations, t), t in s.postings)
  }

  ghost predicate TrailsOk(s: Store) {
    forall t, a {:trigger TrailAt(s, t, a)} :: t in s.transfers && a in s.streams ==> TrailAt(s, t, a)
  }

  lemma TrailHold(a: Id, marks: seq<Mark>, r: Transfer, hold: Option<HoldState>, posted: bool,
                  hold': HoldState, m: Mark)
    requires TrailOk(a, marks, r, hold, posted)
    requires HoldMarks(r, Some(hold')) == HoldMarks(r, hold) + [m]
    ensures TrailOk(a, marks + (if a == r.source then [m] else []), r, Some(hold'), posted)
  {
    if a == r.source && posted {
      WovenExtends(marks, HoldMarks(r, hold), LegMarks(r), m);
    }
  }

  predicate SameTerms(r: Transfer, q: Transfer) {
    && r.id == q.id && r.source == q.source && r.destination == q.destination && r.key == q.key
    && r.amount == q.amount && r.fee == q.fee
  }

  lemma TrailFrame(s: Store, s': Store, t: Id, b: Id)
    requires t in s.transfers && b in s.streams && TrailAt(s, t, b)
    requires t in s'.transfers && b in s'.streams && s'.streams[b] == s.streams[b]
    requires SameTerms(s'.transfers[t], s.transfers[t])
    requires StateOf(s'.reservations, t) == StateOf(s.reservations, t) && (t in s'.postings <==> t in s.postings)
    ensures TrailAt(s', t, b)
  {
  }

  lemma PushMarks(s: Store, a: Id, e: Event, t: Id, b: Id)
    requires a in s.streams && b in s.streams
    ensures b in Push(s, a, e).streams
    ensures Marks(Push(s, a, e).streams[b], t)
            == Marks(s.streams[b], t) + (if b == a && TransferTag(e) == Some(t) then [MarkOf(e)] else [])
  {
    MarksAppend(s.streams[a], e, t);
  }

  lemma TrailPost(a: Id, marks: seq<Mark>, r: Transfer, hold: Option<HoldState>)
    requires TrailOk(a, marks, r, hold, false) && r.source != r.destination
    ensures a == r.source ==> TrailOk(a, marks + LegMarks(r), r, hold, true)
    ensures a == r.destination ==> TrailOk(a, marks + [Received(r.amount)], r, hold, true)
    ensures a != r.source && a != r.destination ==> TrailOk(a, marks, r, hold, true)
  {
    if a == r.source {
      assert marks + LegMarks(r) == Weave(marks, LegMarks(r), |marks|);
    }
  }

  // ---- together

  ghost predicate Ledgered(s: Store) {
    && StreamsOk(s.streams, s.transfers.Keys, s.adjustments.Keys)
    && TablesOk(s)
    && UniqueKeys(s.transfers)
    && HoldsAgree(s.streams, s.reservations)
    && TrailsOk(s)
  }

  /** `r` is some version of a stored record, perhaps an old one. */
  ghost predicate Known(s: Store, r: Transfer) {
    r.id in s.transfers && SameTerms(r, s.transfers[r.id])
  }

  // ---- each store call keeps it

  lemma MoneyPushKeeps(s: Store, a: Id, e: Event)
    requires Ledgered(s) && a in s.streams
    requires e.MoneyCredited? || e.MoneyDebited?
    requires EventOk(s.transfers.Keys, s.adjustments.Keys, a, |s.streams[a]|, e) && TransferTag(e) == None
    ensures Ledgered(Push(s, a, e))
  {
    var s' := Push(s, a, e);
    TablesFrame(s, s');
    StreamsPush(s.streams, s.transfers.Keys, s.adjustments.Keys, a, e);
    HoldsPushMoney(s.streams, s.reservations, a, e);
    forall t, b | t in s'.transfers && b in s'.streams
      ensures TrailAt(s', t, b)
    {
      assert TrailAt(s, t, b);
      PushMarks(s, a, e, t, b);
    }
  }

  lemma ReserveTrail(s: Store, r: Transfer, t: Id, b: Id)
    requires Known(s, r) && Reserve(s, r).1.Ok? && r.id !in s.reservations
    requires t in s.transfers && b in s.streams && TrailAt(s, t, b)
    ensures b in Reserve(s, r).0.streams && TrailAt(Reserve(s, r).0, t, b)
  {
    var e := HoldEvent(r, |s.streams[r.source]|);
    PushMarks(s, r.source, e, t, b);
    if t == r.id {
      TrailHold(b, Marks(s.streams[b], t), s.transfers[t], None, t in s.postings, OnHold, MarkOf(e));
    }
  }

  lemma HoldTableKeeps(s: Store, s': Store, t: Id, h: Hold)
    requires TablesOk(s) && HoldOk(s, t, h)
    requires s' == s.(streams := s'.streams, reservations := s.reservations[t := h])
    requires s'.streams.Keys == s.streams.Keys
    requires t in s.reservations && s.reservations[t].state == Taken ==> h.state == Taken
    ensures TablesOk(s')
  {
    forall x | x in s'.transfers
      ensures TransferOk(s', x, s'.transfers[x])
    {
      assert TransferOk(s, x, s.transfers[x]);
    }
    forall x | x in s'.reservations
      ensures HoldOk(s', x, s'.reservations[x])
    {
      assert x != t ==> HoldOk(s, x, s.reservations[x]);
    }
    forall x | x in s'.postings
      ensures Touched(s', x)
    {
      assert Touched(s, x);
    }
  }

  lemma ReserveKeeps(s: Store, r: Transfer)
    requires Ledgered(s) && Known(s, r)
    ensures Ledgered(Reserve(s, r).0)
  {
    var s' := Reserve(s, r).0;
    if s' == s { return; }
    var e, h := HoldEvent(r, |s.streams[r.source]|), Hold(r.source, Due(r), OnHold);
    assert TransferOk(s, r.id, s.transfers[r.id]);
    StreamsPush(s.streams, s.transfers.Keys, s.adjustments.Keys, r.source, e);
    HoldsPush(s.streams, s.reservations, r.source, e, r.id, h);
    HoldTableKeeps(s, s', r.id, h);
    forall t, b | t in s'.transfers && b in s'.streams
      ensures TrailAt(s', t, b)
    {
      assert TrailAt(s, t, b);
      ReserveTrail(s, r, t, b);
    }
  }

  lemma FinishTrail(s: Store, t: Id, target: HoldState, t': Id, b: Id)
    requires target != OnHold && t in s.reservations && s.reservations[t].state == OnHold
    requires HoldOk(s, t, s.reservations[t]) && s.transfers[t].id == t
    requires t' in s.transfers && b in s.streams && TrailAt(s, t', b)
    ensures b in Finish(s, t, target).0.streams && TrailAt(Finish(s, t, target).0, t', b)
  {
    var h := s.reservations[t];
    var e := EndEvent(h, t, |s.streams[h.account]|, target);
    PushMarks(s, h.account, e, t', b);
    if t' == t {
      TrailHold(b, Marks(s.streams[b], t), s.transfers[t], Some(OnHold), t in s.postings, target, MarkOf(e));
    }
  }

  lemma FinishKeeps(s: Store, t: Id, target: HoldState)
    requires Ledgered(s) && target != OnHold
    ensures Ledgered(Finish(s, t, target).0)
  {
    var s' := Finish(s, t, target).0;
    if s' == s { return; }
    var h := s.reservations[t];
    assert HoldOk(s, t, h) && TransferOk(s, t, s.transfers[t]);
    assert StreamOk(s.transfers.Keys, s.adjustments.Keys, h.account, s.streams[h.account]);
    var e := EndEvent(h, t, |s.streams[h.account]|, target);
    StreamsPush(s.streams, s.transfers.Keys, s.adjustments.Keys, h.account, e);
    HoldsPush(s.streams, s.reservations, h.account, e, t, h.(state := target));
    HoldTableKeeps(s, s', t, h.(state := target));
    forall t', b | t' in s'.transfers && b in s'.streams
      ensures TrailAt(s', t', b)
    {
      assert TrailAt(s, t', b);
      FinishTrail(s, t, target, t', b);
    }
  }

  lemma PostStreams(s: Store, r: Transfer)
    requires Ledgered(s) && Known(s, r)
    ensures var s' := Post(s, r).0;
            && StreamsOk(s'.streams, s'.transfers.Keys, s'.adjustments.Keys)
            && HoldsAgree(s'.streams, s'.reservations)
  {
    if Post(s, r).0 == s { return; }
    var src, dst := s.streams[r.source], s.streams[r.destination];
    var ts, js := s.transfers.Keys, s.adjustments.Keys;
    assert TransferOk(s, r.id, s.transfers[r.id]);
    var mid := s.streams;
    if r.fee > 0 {
      StreamsPush(mid, ts, js, r.source, FeeEvent(r, |src|));
      mid := mid[r.source := src + [FeeEvent(r, |src|)]];
    }
    StreamsPush(mid, ts, js, r.source, DebitEvent(r, |mid[r.source]|));
    assert mid[r.source] + [DebitEvent(r, |mid[r.source]|)] == src + SourceLegs(r, |src|);
    mid := mid[r.source := src + SourceLegs(r, |src|)];
    StreamsPush(mid, ts, js, r.destination, CreditEvent(r, |dst|));
    assert Post(s, r).0.streams == mid[r.destination := dst + [CreditEvent(r, |dst|)]];
    LegsRead(src, r, r.id);
    HoldsPushMoney(mid, s.reservations, r.destination, CreditEvent(r, |dst|));
  }

  lemma PostTrail(s: Store, r: Transfer, t: Id, b: Id)
    requires Known(s, r) && TermsOk(r) && r.id !in s.postings && Post(s, r).1.Ok?
    requires t in s.transfers && b in s.streams && TrailAt(s, t, b)
    ensures b in Post(s, r).0.streams && TrailAt(Post(s, r).0, t, b)
  {
    var src, dst := s.streams[r.source], s.streams[r.destination];
    LegsRead(src, r, t);
    MarksAppend(dst, CreditEvent(r, |dst|), t);
    if t == r.id {
      TrailPost(b, Marks(s.streams[b], t), s.transfers[t], StateOf(s.reservations, t));
    }
  }

  lemma PostKeeps(s: Store, r: Transfer)
    requires Ledgered(s) && Known(s, r)
    ensures Ledgered(Post(s, r).0)
  {
    PostStreams(s, r);
    var s' := Post(s, r).0;
    if s' == s { return; }
    assert TransferOk(s, r.id, s.transfers[r.id]);
    TablesFrame(s, s');
    forall t, b | t in s'.transfers && b in s'.streams
      ensures TrailAt(s', t, b)
    {
      assert TrailAt(s, t, b);
      PostTrail(s, r, t, b);
    }
  }

  lemma DecideKeeps(s: Store, t: Id, d: Decision)
    requires Ledgered(s) && t in s.transfers
    ensures Ledgered(Decide(s, t, d).0)
  {
    var s' := Decide(s, t, d).0;
    TablesFrame(s, s');
    forall t', b | t' in s'.transfers && b in s'.streams
      ensures TrailAt(s', t', b)
    {
      assert TrailAt(s, t', b);
      TrailFrame(s, s', t', b);
    }
  }

  /** Replacing a record by another with the same terms leaves every statement about the others alone. */
  lemma RecordKeeps(s: Store, t: Id, r: Transfer)
    requires Ledgered(s)
    requires t in s.transfers && SameTerms(r, s.transfers[t]) && TransferOk(s, t, r)
    ensures Ledgered(s.(transfers := s.transfers[t := r]))
  {
    var s' := s.(transfers := s.transfers[t := r]);
    assert s'.transfers.Keys == s.transfers.Keys;
    RecordTables(s, t, r);
    RecordUnique(s.transfers, t, r);
    forall x, b | x in s'.transfers && b in s'.streams
      ensures TrailAt(s', x, b)
    {
      assert TrailAt(s, x, b);
      TrailFrame(s, s', x, b);
    }
  }

  lemma RecordUnique(transfers: map<Id, Transfer>, t: Id, r: Transfer)
    requires UniqueKeys(transfers) && t in transfers && SameTerms(r, transfers[t])
    ensures UniqueKeys(transfers[t := r])
  {
    var after := transfers[t := r];
    forall x, y | x in after && y in after && SameRequest(after[x], after[y])
      ensures x == y
    {
      assert SameRequest(transfers[x], transfers[y]);
    }
  }

  lemma RecordTables(s: Store, t: Id, r: Transfer)
    requires TablesOk(s)
    requires t in s.transfers && SameTerms(r, s.transfers[t]) && TransferOk(s, t, r)
    ensures TablesOk(s.(transfers := s.transfers[t := r]))
  {
    var s' := s.(transfers := s.transfers[t := r]);
    forall x | x in s'.transfers
      ensures TransferOk(s', x, s'.transfers[x])
    {
      assert TransferOk(s, x, s.transfers[x]);
    }
    forall x | x in s'.reservations
      ensures HoldOk(s', x, s'.reservations[x])
    {
      assert HoldOk(s, x, s.reservations[x]);
    }
    forall x | x in s'.postings
      ensures Touched(s', x)
    {
      assert Touched(s, x);
    }
  }

  lemma UpdateKeeps(s: Store, t: Id, u: SagaUpdate)
    requires Ledgered(s)
    requires Reached(s, t, u.step) && (u.status == Completed ==> u.step == Captured)
    ensures Ledgered(UpdateTransferSaga(s, t, u).0)
  {
    if UpdateTransferSaga(s, t, u).1 == Ok(true) {
      assert TransferOk(s, t, s.transfers[t]);
      RecordKeeps(s, t, ApplyUpdate(s.transfers[t], u));
    }
  }

  lemma OpenKeeps(s: Store, a: Id, balance: Money)
    requires Ledgered(s) && a !in s.streams && 0 <= balance
    ensures Ledgered(Open(s, a, balance))
  {
    var s' := Open(s, a, balance);
    var opening := s'.streams[a];
    assert StreamOk(s.transfers.Keys, s.adjustments.Keys, a, opening);
    TablesFrame(s, s');
    forall t | t in s.reservations
      ensures Weight(s.reservations[t], t, {}, a) == 0
    {
      assert HoldOk(s, t, s.reservations[t]);
    }
    TotalZero(OpenHolds(s.reservations, {}, a));
    assert opening[..0] == [];
    forall t, b | t in s'.transfers && b in s'.streams
      ensures TrailAt(s', t, b)
    {
      if b == a {
        assert TransferOk(s, t, s.transfers[t]);
        assert t in s.reservations ==> HoldOk(s, t, s.reservations[t]);
        assert t in s.postings ==> Touched(s, t);
        NoMarks(opening, t);
      } else {
        assert TrailAt(s, t, b);
        TrailFrame(s, s', t, b);
      }
    }
  }

  lemma AddTransferTables(s: Store, r: Transfer)
    requires TablesOk(s) && r.id !in s.transfers && TermsOk(r)
    requires r.step == Created && r.status == Pending
    ensures TablesOk(s.(transfers := s.transfers[r.id := r]))
  {
    var s' := s.(transfers := s.transfers[r.id := r]);
    forall x | x in s'.transfers
      ensures TransferOk(s', x, s'.transfers[x])
    {
      assert x != r.id ==> TransferOk(s, x, s.transfers[x]);
    }
    forall x | x in s'.reservations
      ensures HoldOk(s', x, s'.reservations[x])
    {
      assert HoldOk(s, x, s.reservations[x]);
    }
    forall x | x in s'.postings
      ensures Touched(s', x)
    {
      assert Touched(s, x);
    }
  }

  lemma AddTransferKeeps(s: Store, r: Transfer)
    requires Ledgered(s) && r.id !in s.transfers && TermsOk(r)
    requires r.step == Created && r.status == Pending
    ensures Ledgered(AddTransfer(s, r))
  {
    var s' := AddTransfer(s, r);
    if s' == s { return; }
    StreamsKnowMore(s.streams, s.transfers.Keys, s.adjustments.Keys, s'.transfers.Keys, s'.adjustments.Keys);
    AddTransferTables(s, r);
    forall t, b | t in s'.transfers && b in s'.streams
      ensures TrailAt(s', t, b)
    {
      if t == r.id {
        assert t in s.reservations ==> HoldOk(s, t, s.reservations[t]);
        assert t in s.postings ==> Touched(s, t);
        assert StreamOk(s.transfers.Keys, s.adjustments.Keys, b, s.streams[b]);
        NoMarks(s.streams[b], t);
      } else {
        assert TrailAt(s, t, b);
        TrailFrame(s, s', t, b);
      }
    }
  }

  /** Requests and reviews change the adjustment table only. */
  lemma AdjustmentTableKeeps(s: Store, j: Id, r: Adjustment)
    requires Ledgered(s)
    ensures Ledgered(s.(adjustments := s.adjustments[j := r]))
  {
    var s' := s.(adjustments := s.adjustments[j := r]);
    TablesFrame(s, s');
    StreamsKnowMore(s.streams, s.transfers.Keys, s.adjustments.Keys, s'.transfers.Keys, s'.adjustments.Keys);
    forall t, b | t in s'.transfers && b in s'.streams
      ensures TrailAt(s', t, b)
    {
      assert TrailAt(s, t, b);
      TrailFrame(s, s', t, b);
    }
  }
}
