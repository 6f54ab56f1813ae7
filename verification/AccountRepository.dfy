/** `repository/memory_repo.go` as it is called: one reader with nobody in between. */
module AccountRepository {
  import opened Domain
  import opened Replay
  import opened Ledger
  import opened Bookkeeping
  import opened MemoryStores
  import SnapshotReads

  /** The three store calls of a read in a row. */
  function Found(s: Store, id: Id, threshold: int): (Store, Result<Tally>) {
    var events := Stream(s, id);
    if events == [] then (s, Err(AccountNotFound))
    else
      var account := ReplayFrom(id, SnapshotReads.Snap(s, id), events);
      (SnapshotReads.MaybeSnapshot(s, id, events, account, threshold), Ok(account))
  }

  /** A read alone returns the full replay, and the snapshot it leaves behind is exact again. */
  lemma FoundIsTheReplay(s: Store, id: Id, threshold: int)
    requires Ledgered(s) && SnapshotReads.SnapshotsOk(s) && Stream(s, id) != []
    ensures Found(s, id, threshold).1 == Ok(TallyOf(s, id))
    ensures SnapshotReads.SnapshotsOk(Found(s, id, threshold).0)
  {
    var events := Stream(s, id);
    var k := SnapshotReads.FoldCovers(s, id, events);
    var account := ReplayFrom(id, SnapshotReads.Snap(s, id), events);
    assert SnapshotReads.PrefixAt(s, id, account, k) && events[..|events|] == events;
    SnapshotReads.OfferIsExactOrRefused(s, id, events, account, threshold, k);
  }

  /**
    At a threshold above zero, a read of a stream that is long enough leaves the snapshot of the whole stream, and any
    other read leaves the store as it was.
   */
  lemma ReadLeavesSnapshot(s: Store, id: Id, threshold: int)
    requires Ledgered(s) && SnapshotReads.SnapshotsOk(s) && Stream(s, id) != []
    ensures var n, t := |Stream(s, id)|, TallyOf(s, id);
            Found(s, id, threshold).0
            == if 0 < threshold <= n
               then
                 s.(snapshots :=
                      s.snapshots[id := Snapshot(id, t.balance, t.reserved, t.balance - t.reserved, n - 1)])
               else s
  {
    var n, t := |Stream(s, id)|, TallyOf(s, id);
    FoundIsTheReplay(s, id, threshold);
    assert StreamOk(s.transfers.Keys, s.adjustments.Keys, id, Stream(s, id));
    assert EventOk(s.transfers.Keys, s.adjustments.Keys, id, n - 1, Stream(s, id)[n - 1]);
    if id in s.snapshots && n - 1 <= s.snapshots[id].asOf {
      assert SnapshotReads.SnapshotOk(s, id, s.snapshots[id]);
      assert Stream(s, id)[..n] == Stream(s, id);
      assert s.snapshots[id] == Snapshot(id, t.balance, t.reserved, t.balance - t.reserved, n - 1);
      assert s.snapshots[id := s.snapshots[id]] == s.snapshots;
    }
  }

  class MemoryAccountRepository {
    const eventStore: MemoryStore
    const snapshotThreshold: int

    constructor (store: MemoryStore, snapshotThreshold: int)
      ensures eventStore == store && this.snapshotThreshold == snapshotThreshold
    {
      eventStore := store;
      this.snapshotThreshold := snapshotThreshold;
    }

    method FindByID(id: Id) returns (result: Result<Account>)
      modifies eventStore`snapshots
      ensures eventStore.State() == Found(old(eventStore.State()), id, snapshotThreshold).0
      ensures match Found(old(eventStore.State()), id, snapshotThreshold).1
              case Err(e) => result == Err(e)
              case Ok(t) =>
                result.Ok? && result.value.id == id && result.value.Value() == t
                && result.value.availableBalance == t.Available()
    {
      var events := eventStore.Load(id);
      if |events| == 0 {
        return Err(AccountNotFound);
      }
      var snap := FindSnapshot(id);
      var account := ReplayAccountFrom(id, snap, events);
      MaybeSnapshot(id, events, account);
      return Ok(account);
    }

    method FindSnapshot(id: Id) returns (snap: Option<Snapshot>)
      ensures snap == SnapshotReads.Snap(eventStore.State(), id)
    {
      var loaded := eventStore.LoadSnapshot(id);
      if loaded.Err? {
        return None;
      }
      return Some(loaded.value);
    }

    method MaybeSnapshot(id: Id, events: seq<Event>, account: Account)
      requires events != [] && account.availableBalance == account.Value().Available()
      modifies eventStore`snapshots
      ensures eventStore.State()
              == SnapshotReads.MaybeSnapshot(old(eventStore.State()), id, events, account.Value(), snapshotThreshold)
    {
      if snapshotThreshold <= 0 || |events| < snapshotThreshold {
        return;
      }
      eventStore.SaveSnapshot(Snapshot(id, account.balance, account.reservedBalance, account.availableBalance,
                                       events[|events| - 1].version));
    }
  }
}
