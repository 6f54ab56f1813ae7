/** What an account stream means: `domain/account.go`. */
module Replay {
  import opened Domain

  datatype Tally = Tally(balance: Money, reserved: Money) {
    function Available(): Money { balance - reserved }
  }

  /** The effect of one event. Opening sets the balance; it does not add to it. */
  function Apply(t: Tally, e: Event): Tally {
    match e
    case AccountOpened(_, _, b) => t.(balance := b)
    case MoneyCredited(_, _, m, _, _, _, _, _) => t.(balance := t.balance + m)
    case MoneyDebited(_, _, m, _, _, _, _, _) => t.(balance := t.balance - m)
    case FundsReserved(_, _, m, _) => t.(reserved := t.reserved + m)
    case ReservationCaptured(_, _, m, _) => t.(reserved := t.reserved - m)
    case ReservationReleased(_, _, m, _) => t.(reserved := t.reserved - m)
  }

  function ReplayOf(events: seq<Event>): Tally {
    if events == [] then Tally(0, 0)
    else Apply(ReplayOf(events[..|events| - 1]), events[|events| - 1])
  }

  /** Folds only the events whose version is beyond `cutoff`. */
  function ReplayAfter(start: Tally, events: seq<Event>, cutoff: int): Tally {
    if events == [] then start
    else
      var before := ReplayAfter(start, events[..|events| - 1], cutoff);
      var e := events[|events| - 1];
      if e.version <= cutoff then before else Apply(before, e)
  }

  function ReplayFrom(id: Id, snap: Option<Snapshot>, events: seq<Event>): Tally {
    if snap.Some? && snap.value.aggregate == id
    then ReplayAfter(Tally(snap.value.balance, snap.value.reserved), events, snap.value.asOf)
    else ReplayOf(events)
  }

  lemma ReplayAppend(events: seq<Event>, e: Event)
    ensures ReplayOf(events + [e]) == Apply(ReplayOf(events), e)
  {
    assert (events + [e])[..|events|] == events;
  }

  ghost predicate Numbered(events: seq<Event>) {
    forall i :: 0 <= i < |events| ==> events[i].version == i
  }

  /** A snapshot of any prefix plus the tail of any other prefix is the longer of the two prefixes. */
  lemma {:induction false} SnapshotPlusTail(full: seq<Event>, taken: nat, read: nat)
    requires Numbered(full)
    requires taken <= |full| && read <= |full|
    ensures ReplayAfter(ReplayOf(full[..taken]), full[..read], taken - 1)
            == ReplayOf(full[..if taken < read then read else taken])
  {
    if read > 0 {
      var n := read - 1;
      SnapshotPlusTail(full, taken, n);
      assert full[..read][..n] == full[..n];
      assert full[..read][n] == full[n];
    }
  }

  /** `*domain.Account`: the fields the fold updates in place. */
  class Account {
    const id: Id
    var balance: Money
    var reservedBalance: Money
    var availableBalance: Money

    ghost function Value(): Tally
      reads this
    {
      Tally(balance, reservedBalance)
    }

    constructor (id: Id, start: Tally)
      ensures this.id == id && Value() == start
    {
      this.id := id;
      balance, reservedBalance := start.balance, start.reserved;
      availableBalance := 0;
    }

    method Fold(e: Event)
      modifies this`balance, this`reservedBalance
      ensures Value() == Apply(old(Value()), e)
    {
      match e {
        case AccountOpened(_, _, b) => balance := b;
        case MoneyCredited(_, _, m, _, _, _, _, _) => balance := balance + m;
        case MoneyDebited(_, _, m, _, _, _, _, _) => balance := balance - m;
        case FundsReserved(_, _, m, _) => reservedBalance := reservedBalance + m;
        case ReservationCaptured(_, _, m, _) => reservedBalance := reservedBalance - m;
        case ReservationReleased(_, _, m, _) => reservedBalance := reservedBalance - m;
      }
    }
  }

  method ReplayAccountFrom(id: Id, snap: Option<Snapshot>, events: seq<Event>) returns (a: Account)
    ensures fresh(a) && a.id == id
    ensures a.Value() == ReplayFrom(id, snap, events)
    ensures a.availableBalance == a.Value().Available()
  {
    var i := 0;
    if snap.Some? && snap.value.aggregate == id {
      var start := Tally(snap.value.balance, snap.value.reserved);
      var cutoff := snap.value.asOf;
      a := new Account(id, start);
      while i < |events|
        invariant 0 <= i <= |events|
        invariant fresh(a) && a.id == id
        invariant a.Value() == ReplayAfter(start, events[..i], cutoff)
      {
        assert events[..i + 1][..i] == events[..i];
        if events[i].version > cutoff {
          a.Fold(events[i]);
        }
        i := i + 1;
      }
      assert events[..i] == events;
      a.availableBalance := a.balance - a.reservedBalance;
      return;
    }
    a := new Account(id, Tally(0, 0));
    while i < |events|
      invariant 0 <= i <= |events|
      invariant fresh(a) && a.id == id
      invariant a.Value() == ReplayOf(events[..i])
    {
      assert events[..i + 1][..i] == events[..i];
      a.Fold(events[i]);
      i := i + 1;
    }
    assert events[..i] == events;
    a.availableBalance := a.balance - a.reservedBalance;
  }

  method ReplayAccount(id: Id, events: seq<Event>) returns (a: Account)
    ensures fresh(a) && a.id == id
    ensures a.Value() == ReplayOf(events)
    ensures a.availableBalance == a.Value().Available()
  {
    a := ReplayAccountFrom(id, None, events);
  }
}
