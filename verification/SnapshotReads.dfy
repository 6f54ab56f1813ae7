/**
  `repository/memory_repo.go`: reading an account through a cached snapshot.

  A read makes three store calls: it loads the stream, loads the snapshot and folds the tail, then offers a new
  snapshot. The whole bank of System runs between any two of them, and so do other readers.
 */
module SnapshotReads {
  import opened Domain
  import opened Replay
  import opened Ledger
  import opened Saga
  import opened System
  import opened Trails
  import opened Bookkeeping
  import opened Adjustments
  import opened AnyWorkers

  /** `read` is what the reader saw at its load, `account` what it returns. */
  datatype Reader =
    | Idle
    | Loaded(id: Id, read: seq<Event>)
    | Folded(id: Id, read: seq<Event>, account: Tally)

  datatype Readers = Readers(bank: Sys, readers: seq<Reader>, threshold: int)

  datatype Move =
    | Bank(act: Action)
    | Load(i: nat, id: Id)
    | Fold(i: nat)
    | Offer(i: nat)
    | GiveUp(i: nat)

  function Snap(s: Store, id: Id): Option<Snapshot> {
    if id in s.snapshots then Some(s.snapshots[id]) else None
  }

  /** `maybeSnapshot`. */
  function MaybeSnapshot(s: Store, id: Id, read: seq<Event>, account: Tally, threshold: int): Store
    requires read != []
  {
    if threshold <= 0 || |read| < threshold then s
    else SaveSnapshot(s, Snapshot(id, account.balance, account.reserved, account.Available(), read[|read| - 1].version))
  }

  ghost predicate Can(m: Readers, move: Move) {
    match move
    case Bank(act) => Enabled(m.bank, act)
    case Load(i, id) => i < |m.readers| && m.readers[i] == Idle && Stream(m.bank.store, id) != []
    case Fold(i) => i < |m.readers| && m.readers[i].Loaded?
    case Offer(i) => i < |m.readers| && m.readers[i].Folded? && m.readers[i].read != []
    case GiveUp(i) => i < |m.readers|
  }

  ghost function Moved(m: Readers, move: Move): Readers
    requires Can(m, move)
  {
    match move
    case Bank(act) => m.(bank := Step(m.bank, act))
    case Load(i, id) => m.(readers := m.readers[i := Loaded(id, Stream(m.bank.store, id))])
    case Fold(i) =>
      var r := m.readers[i];
      m.(readers := m.readers[i := Folded(r.id, r.read, ReplayFrom(r.id, Snap(m.bank.store, r.id), r.read))])
    case Offer(i) =>
      var r := m.readers[i];
      m.(bank := m.bank.(store := MaybeSnapshot(m.bank.store, r.id, r.read, r.account, m.threshold)),
         readers := m.readers[i := Idle])
    case GiveUp(i) => m.(readers := m.readers[i := Idle])
  }

  ghost predicate AllCan(m: Readers, moves: seq<Move>)
    decreases |moves|
  {
    moves == [] || (Can(m, moves[0]) && AllCan(Moved(m, moves[0]), moves[1..]))
  }

  ghost function AllMoved(m: Readers, moves: seq<Move>): Readers
    requires AllCan(m, moves)
    decreases |moves|
  {
    if moves == [] then m else AllMoved(Moved(m, moves[0]), moves[1..])
  }

  // ---- the invariant

  /** `account` is the replay of the first `k` events of the stream. */
  ghost predicate PrefixAt(s: Store, id: Id, account: Tally, k: nat) {
    k <= |Stream(s, id)| && account == ReplayOf(Stream(s, id)[..k])
  }

  ghost predicate SnapshotOk(s: Store, id: Id, snap: Snapshot) {
    && snap.aggregate == id && -1 <= snap.asOf
    && PrefixAt(s, id, Tally(snap.balance, snap.reserved), snap.asOf + 1)
    && snap.available == snap.balance - snap.reserved
  }

  ghost predicate SnapshotsOk(s: Store) {
    forall id {:trigger SnapshotOk(s, id, s.snapshots[id])} :: id in s.snapshots ==> SnapshotOk(s, id, s.snapshots[id])
  }

  /**
    A folded account covers `k` events. It is labelled with the length that was read, so it is mislabelled when `k` is
    larger; then the store already holds a snapshot that is at least as far.
   */
  ghost predicate FoldedOk(s: Store, id: Id, read: seq<Event>, account: Tally, k: nat) {
    && |read| <= k && PrefixAt(s, id, account, k)
    && (k == |read| || (id in s.snapshots && k <= s.snapshots[id].asOf + 1))
  }

  ghost predicate ReaderOk(s: Store, r: Reader) {
    match r
    case Idle => true
    case Loaded(id, read) => read != [] && read <= Stream(s, id)
    case Folded(id, read, account) =>
      && read != [] && read <= Stream(s, id)
      && exists k {:trigger FoldedOk(s, id, read, account, k)} :: FoldedOk(s, id, read, account, k)
  }

  ghost predicate Sound(m: Readers) {
    && Healthy(m.bank)
    && SnapshotsOk(m.bank.store)
    && (forall i :: 0 <= i < |m.readers| ==> ReaderOk(m.bank.store, m.readers[i]))
  }

  // ---- streams only grow

  lemma PrefixGrows(s: Store, s': Store, id: Id, account: Tally, k: nat)
    requires StreamsGrow(s.streams, s'.streams) && PrefixAt(s, id, account, k)
    ensures PrefixAt(s', id, account, k)
  {
    if id in s.streams {
      assert id in s'.streams;
      assert s'.streams[id][..k] == s.streams[id][..k];
    } else {
      assert Stream(s', id)[..0] == [];
    }
  }

  lemma SnapshotGrows(s: Store, s': Store, id: Id, snap: Snapshot)
    requires StreamsGrow(s.streams, s'.streams) && SnapshotOk(s, id, snap)
    ensures SnapshotOk(s', id, snap)
  {
    PrefixGrows(s, s', id, Tally(snap.balance, snap.reserved), snap.asOf + 1);
  }

  ghost predicate Further(s: Store, s': Store, id: Id) {
    id in s.snapshots ==> id in s'.snapshots && s.snapshots[id].asOf <= s'.snapshots[id].asOf
  }

  lemma ReaderGrows(s: Store, s': Store, r: Reader)
    requires ReaderOk(s, r) && StreamsGrow(s.streams, s'.streams)
    requires !r.Idle? ==> Further(s, s', r.id)
    ensures ReaderOk(s', r)
  {
    if !r.Idle? {
      assert r.id in s.streams ==> r.id in s'.streams;
      if r.Folded? {
        var k :| FoldedOk(s, r.id, r.read, r.account, k);
        PrefixGrows(s, s', r.id, r.account, k);
        assert FoldedOk(s', r.id, r.read, r.account, k);
      }
    }
  }

  lemma SaveKeepsBank(bank: Sys, snapshots: map<Id, Snapshot>)
    requires Healthy(bank)
    ensures Healthy(bank.(store := bank.store.(snapshots := snapshots)))
  {
    var s, s' := bank.store, bank.store.(snapshots := snapshots);
    SaveKeepsLedger(s, snapshots);
    GrowsSelf(s);
    forall w | 0 <= w < |bank.workers|
      ensures WorkerOk(s', bank.workers[w])
    {
      assert WorkerOk(s, bank.workers[w]);
      PcOkGrows(s, s', bank.workers[w].pc);
    }
  }

  lemma SaveKeepsLedger(s: Store, snapshots: map<Id, Snapshot>)
    requires Ledgered(s) && Adjusted(s)
    ensures Ledgered(s.(snapshots := snapshots)) && Adjusted(s.(snapshots := snapshots))
  {
    var s' := s.(snapshots := snapshots);
    forall t, a | t in s'.transfers && a in s'.streams
      ensures TrailAt(s', t, a)
    {
      assert TrailAt(s, t, a);
    }
    SaveKeepsTables(s, snapshots);
    forall a, j | a in s'.streams
      ensures Entries(s'.streams[a], j) == Entries(Stream(s, a), j)
    {
    }
    QuietKeeps(s, s');
  }

  lemma SaveKeepsTables(s: Store, snapshots: map<Id, Snapshot>)
    requires TablesOk(s)
    ensures TablesOk(s.(snapshots := snapshots))
  {
    TablesFrame(s, s.(snapshots := snapshots));
  }

  // ---- every move keeps it

  /** What a reader folds: the stored snapshot and its tail, or the whole of what it read. */
  lemma FoldCovers(s: Store, id: Id, read: seq<Event>) returns (k: nat)
    requires Ledgered(s) && SnapshotsOk(s) && ReaderOk(s, Loaded(id, read))
    ensures FoldedOk(s, id, read, ReplayFrom(id, Snap(s, id), read), k)
  {
    var full := Stream(s, id);
    assert read == full[..|read|];
    assert StreamOk(s.transfers.Keys, s.adjustments.Keys, id, full);
    k := |read|;
    if id in s.snapshots {
      var snap := s.snapshots[id];
      assert SnapshotOk(s, id, snap);
      assert forall i :: 0 <= i < |full| ==> EventOk(s.transfers.Keys, s.adjustments.Keys, id, i, full[i]);
      SnapshotPlusTail(full, snap.asOf + 1, |read|);
      if |read| < snap.asOf + 1 { k := snap.asOf + 1; }
    }
  }

  /** A snapshot that was folded past its label is refused, and any other one is exact. */
  lemma OfferIsExactOrRefused(s: Store, id: Id, read: seq<Event>, account: Tally, threshold: int, k: nat)
    requires Ledgered(s) && SnapshotsOk(s) && read != [] && read <= Stream(s, id) && FoldedOk(s, id, read, account, k)
    ensures var s' := MaybeSnapshot(s, id, read, account, threshold);
            && SnapshotsOk(s')
            && (k != |read| ==> s' == s)
            && (forall x :: Further(s, s', x))
  {
    var s' := MaybeSnapshot(s, id, read, account, threshold);
    var full := Stream(s, id);
    assert StreamOk(s.transfers.Keys, s.adjustments.Keys, id, full);
    var last := |read| - 1;
    assert EventOk(s.transfers.Keys, s.adjustments.Keys, id, last, full[last]) && read[last] == full[last];
    forall x | x in s'.snapshots
      ensures SnapshotOk(s', x, s'.snapshots[x])
    {
      if x in s.snapshots && s'.snapshots[x] == s.snapshots[x] {
        assert SnapshotOk(s, x, s.snapshots[x]);
      }
    }
  }

  lemma OfferKeeps(m: Readers, i: nat)
    requires Sound(m) && Can(m, Offer(i))
    ensures Sound(Moved(m, Offer(i)))
  {
    var s, s' := m.bank.store, Moved(m, Offer(i)).bank.store;
    var r := m.readers[i];
    assert ReaderOk(s, r);
    var k :| FoldedOk(s, r.id, r.read, r.account, k);
    OfferIsExactOrRefused(s, r.id, r.read, r.account, m.threshold, k);
    SaveKeepsBank(m.bank, s'.snapshots);
    assert s' == s.(snapshots := s'.snapshots);
    forall j | 0 <= j < |m.readers| && j != i
      ensures ReaderOk(s', m.readers[j])
    {
      assert ReaderOk(s, m.readers[j]);
      GrowsSelf(s);
      if !m.readers[j].Idle? { assert Further(s, s', m.readers[j].id); }
      ReaderGrows(s, s', m.readers[j]);
    }
  }

  lemma CallLeavesSnapshots(s: Store, pc: Pc)
    ensures Called(s, pc).snapshots == s.snapshots
  {
  }

  /** The bank itself never writes a snapshot. */
  lemma BankLeavesSnapshots(sys: Sys, act: Action)
    requires Enabled(sys, act)
    ensures Step(sys, act).store.snapshots == sys.store.snapshots
  {
    match act {
      case CallStore(w, answer, now) =>
        WorkCalls(sys.store, sys.workers[w].pc, answer, now);
        CallLeavesSnapshots(sys.store, sys.workers[w].pc);
      case RequestAdjustment(r) =>
        assert Step(sys, act).store == CreateAdjustment(sys.store, r).0;
      case _ =>
    }
  }

  lemma BankKeeps(m: Readers, act: Action)
    requires Sound(m) && Can(m, Bank(act))
    ensures Sound(Moved(m, Bank(act)))
  {
    var s, s' := m.bank.store, Step(m.bank, act).store;
    HealthyStep(m.bank, act);
    BankLeavesSnapshots(m.bank, act);
    forall id | id in s'.snapshots
      ensures SnapshotOk(s', id, s'.snapshots[id])
    {
      assert SnapshotOk(s, id, s.snapshots[id]);
      SnapshotGrows(s, s', id, s.snapshots[id]);
    }
    forall j | 0 <= j < |m.readers|
      ensures ReaderOk(s', m.readers[j])
    {
      ReaderGrows(s, s', m.readers[j]);
    }
  }

  lemma SoundMove(m: Readers, move: Move)
    requires Sound(m) && Can(m, move)
    ensures Sound(Moved(m, move))
  {
    match move {
      case Bank(act) => BankKeeps(m, act);
      case Load(i, id) =>
      case Fold(i) =>
        var r := m.readers[i];
        assert ReaderOk(m.bank.store, r);
        var k := FoldCovers(m.bank.store, r.id, r.read);
      case Offer(i) => OfferKeeps(m, i);
      case GiveUp(i) =>
    }
  }

  lemma {:induction false} SoundRun(m: Readers, moves: seq<Move>)
    requires Sound(m) && AllCan(m, moves)
    ensures Sound(AllMoved(m, moves))
    decreases |moves|
  {
    if moves != [] {
      SoundMove(m, moves[0]);
      SoundRun(Moved(m, moves[0]), moves[1..]);
    }
  }

  ghost predicate Quiescent(m: Readers) {
    Initial(m.bank) && forall i :: 0 <= i < |m.readers| ==> m.readers[i] == Idle
  }

  /** In every state that the bank and its readers can reach, a stored snapshot is the replay of what it claims. */
  lemma SnapshotsAreExact(m: Readers, moves: seq<Move>, id: Id)
    requires Quiescent(m) && AllCan(m, moves)
    requires id in AllMoved(m, moves).bank.store.snapshots
    ensures var s := AllMoved(m, moves).bank.store;
            var snap := s.snapshots[id];
            && snap.aggregate == id && 0 <= snap.asOf + 1 <= |Stream(s, id)|
            && Tally(snap.balance, snap.reserved) == ReplayOf(Stream(s, id)[..snap.asOf + 1])
  {
    HealthyStart(m.bank);
    SoundRun(m, moves);
    var s := AllMoved(m, moves).bank.store;
    assert SnapshotOk(s, id, s.snapshots[id]);
  }

  /**
    What a read returns is the replay of a prefix that is no shorter than the stream at its load and no longer than the
    stream at its look at the snapshot, whatever the bank and the other readers did in between.
   */
  lemma ReadsAreExact(m: Readers, before: seq<Move>, i: nat, id: Id, between: seq<Move>)
    requires Quiescent(m) && AllCan(m, before) && Can(AllMoved(m, before), Load(i, id))
    requires AllCan(Moved(AllMoved(m, before), Load(i, id)), between)
    requires var now := AllMoved(Moved(AllMoved(m, before), Load(i, id)), between);
             Can(now, Fold(i)) && now.readers[i] == Moved(AllMoved(m, before), Load(i, id)).readers[i]
    ensures var now := AllMoved(Moved(AllMoved(m, before), Load(i, id)), between);
            var account := Moved(now, Fold(i)).readers[i].account;
            exists k {:trigger PrefixAt(now.bank.store, id, account, k)} ::
              |Stream(AllMoved(m, before).bank.store, id)| <= k && PrefixAt(now.bank.store, id, account, k)
  {
    HealthyStart(m.bank);
    SoundRun(m, before);
    var loaded := Moved(AllMoved(m, before), Load(i, id));
    SoundMove(AllMoved(m, before), Load(i, id));
    SoundRun(loaded, between);
    var now := AllMoved(loaded, between);
    assert ReaderOk(now.bank.store, now.readers[i]);
    var read := Stream(AllMoved(m, before).bank.store, id);
    assert now.readers[i] == Loaded(id, read);
    var k := FoldCovers(now.bank.store, id, read);
    var account := Moved(now, Fold(i)).readers[i].account;
    assert |read| <= k && PrefixAt(now.bank.store, id, account, k);
  }
}
