/** The locks of `eventstore/postgres_store.go`: every transaction takes them in one order, so none waits for ever. */
module Locks {

  // ---- Go's order on strings

  /** `s < t`. */
  predicate Less(s: string, t: string) {
    t != "" && (s == "" || s[0] < t[0] || (s[0] == t[0] && Less(s[1..], t[1..])))
  }

  lemma {:induction false} LessIrreflexive(s: string)
    ensures !Less(s, s)
    decreases |s|
  {
    if s != "" { LessIrreflexive(s[1..]); }
  }

  lemma {:induction false} LessTransitive(s: string, t: string, u: string)
    requires Less(s, t) && Less(t, u)
    ensures Less(s, u)
    decreases |s|
  {
    if s != "" && s[0] == t[0] == u[0] { LessTransitive(s[1..], t[1..], u[1..]); }
  }

  lemma {:induction false} LessTotal(s: string, t: string)
    ensures s == t || Less(s, t) || Less(t, s)
    decreases |s|
  {
    if s != "" && t != "" && s[0] == t[0] {
      LessTotal(s[1..], t[1..]);
      assert s == [s[0]] + s[1..] && t == [t[0]] + t[1..];
    }
  }

  function MinString(a: string, b: string): string {
    if Less(a, b) then a else b
  }

  function MaxString(a: string, b: string): string {
    if Less(b, a) then a else b
  }

  /** The two are the arguments in ascending order, also when the arguments are equal. */
  lemma MinThenMax(a: string, b: string)
    ensures multiset{MinString(a, b), MaxString(a, b)} == multiset{a, b}
    ensures !Less(MaxString(a, b), MinString(a, b))
  {
    LessTotal(a, b);
    LessIrreflexive(a);
    if Less(a, b) && Less(b, a) { LessTransitive(a, b, a); }
  }

  // ---- what each transaction locks

  datatype Lock = AdjustmentRow(name: string) | Account(name: string) | HoldRow(name: string)

  datatype Transaction =
    | ReserveFunds(source: string)
    | PostLedger(source: string, destination: string)
    | FinishHold(source: string, transfer: string)
    | WithdrawFunds(account: string)
    | ApproveAdjustment(id: string, account: string, counterparty: string)
    | RejectAdjustment(id: string)

  function LocksOf(tx: Transaction): seq<Lock> {
    match tx
    case ReserveFunds(a) => [Account(a)]
    case PostLedger(a, b) => [Account(MinString(a, b)), Account(MaxString(a, b))]
    case FinishHold(a, t) => [Account(a), HoldRow(t)]
    case WithdrawFunds(a) => [Account(a)]
    case ApproveAdjustment(j, a, "") => [AdjustmentRow(j), Account(a)]
    case ApproveAdjustment(j, a, b) => [AdjustmentRow(j), Account(MinString(a, b)), Account(MaxString(a, b))]
    case RejectAdjustment(j) => [AdjustmentRow(j)]
  }

  function Kind(l: Lock): nat {
    match l
    case AdjustmentRow(_) => 0
    case Account(_) => 1
    case HoldRow(_) => 2
  }

  predicate Before(l: Lock, m: Lock) {
    Kind(l) < Kind(m) || (Kind(l) == Kind(m) && Less(l.name, m.name))
  }

  lemma BeforeTransitive(k: Lock, l: Lock, m: Lock)
    requires Before(k, l) && Before(l, m)
    ensures Before(k, m)
  {
    if Kind(k) == Kind(l) == Kind(m) { LessTransitive(k.name, l.name, m.name); }
  }

  lemma BeforeTotal(l: Lock, m: Lock)
    ensures l == m || Before(l, m) || Before(m, l)
  {
    LessTotal(l.name, m.name);
  }

  lemma BeforeIrreflexive(l: Lock)
    ensures !Before(l, l)
  {
    LessIrreflexive(l.name);
  }

  /** The adjustment row comes first and accounts come in ascending order; a lock may come twice. */
  lemma LocksAscend(tx: Transaction, i: nat, j: nat)
    requires i < j < |LocksOf(tx)|
    ensures !Before(LocksOf(tx)[j], LocksOf(tx)[i])
  {
    match tx {
      case PostLedger(a, b) => MinThenMax(a, b);
      case ApproveAdjustment(_, a, b) => MinThenMax(a, b);
      case _ =>
    }
  }

  // ---- running transactions

  /** A transaction that has taken the first `taken` of its locks and keeps them until it is over. */
  datatype Running = Running(tx: Transaction, taken: nat, over: bool)

  datatype Event = Start(tx: Transaction) | Take(i: nat) | End(i: nat)

  predicate Holds(r: Running, l: Lock)
    requires r.taken <= |LocksOf(r.tx)|
  {
    !r.over && l in LocksOf(r.tx)[..r.taken]
  }

  ghost predicate Exclusive(sys: seq<Running>) {
    && (forall i :: 0 <= i < |sys| ==> sys[i].taken <= |LocksOf(sys[i].tx)|)
    && (forall i, j, l {:trigger Holds(sys[i], l), Holds(sys[j], l)} ::
          0 <= i < j < |sys| ==> !(Holds(sys[i], l) && Holds(sys[j], l)))
  }

  predicate Unfinished(sys: seq<Running>, i: nat) {
    i < |sys| && !sys[i].over
  }

  predicate Waiting(sys: seq<Running>, i: nat) {
    Unfinished(sys, i) && sys[i].taken < |LocksOf(sys[i].tx)|
  }

  function Wanted(sys: seq<Running>, i: nat): Lock
    requires Waiting(sys, i)
  {
    LocksOf(sys[i].tx)[sys[i].taken]
  }

  /** No other transaction holds it; one that holds it already gets it again. */
  ghost predicate Free(sys: seq<Running>, i: nat, l: Lock)
    requires Exclusive(sys)
  {
    forall j :: 0 <= j < |sys| && j != i ==> !Holds(sys[j], l)
  }

  ghost predicate Can(sys: seq<Running>, e: Event)
    requires Exclusive(sys)
  {
    match e
    case Start(_) => true
    case Take(i) => Waiting(sys, i) && Free(sys, i, Wanted(sys, i))
    case End(i) => Unfinished(sys, i)
  }

  function Next(sys: seq<Running>, e: Event): seq<Running>
    requires e.Start? || e.i < |sys|
  {
    match e
    case Start(tx) => sys + [Running(tx, 0, false)]
    case Take(i) => sys[i := sys[i].(taken := sys[i].taken + 1)]
    case End(i) => sys[i := sys[i].(over := true)]
  }

  lemma HeldNext(sys: seq<Running>, e: Event, i: nat, l: Lock)
    requires Exclusive(sys) && Can(sys, e) && i < |Next(sys, e)|
    requires Next(sys, e)[i].taken <= |LocksOf(Next(sys, e)[i].tx)| && Holds(Next(sys, e)[i], l)
    ensures i < |sys| && (Holds(sys[i], l) || (e == Take(i) && l == Wanted(sys, i)))
  {
    if e == Take(i) {
      assert LocksOf(sys[i].tx)[..sys[i].taken + 1] == LocksOf(sys[i].tx)[..sys[i].taken] + [Wanted(sys, i)];
    }
  }

  lemma ExclusiveNext(sys: seq<Running>, e: Event)
    requires Exclusive(sys) && Can(sys, e)
    ensures Exclusive(Next(sys, e))
  {
    var sys' := Next(sys, e);
    forall i, j, l | 0 <= i < j < |sys'|
      ensures !(Holds(sys'[i], l) && Holds(sys'[j], l))
    {
      if Holds(sys'[i], l) { HeldNext(sys, e, i, l); }
      if Holds(sys'[j], l) { HeldNext(sys, e, j, l); }
    }
  }

  // ---- no deadlock

  /** `g` is waiting, and none of the waiting ones of the first `n` wants a later lock. */
  ghost predicate WantsTheLast(sys: seq<Running>, n: nat, g: nat)
    requires n <= |sys|
  {
    Waiting(sys, g) && forall i :: 0 <= i < n && Waiting(sys, i) ==> !Before(Wanted(sys, g), Wanted(sys, i))
  }

  /** Starting the search from any waiting `u`. */
  lemma {:induction false} SomeWantsTheLast(sys: seq<Running>, n: nat, u: nat) returns (g: nat)
    requires n <= |sys| && Waiting(sys, u)
    ensures WantsTheLast(sys, n, g)
  {
    if n == 0 {
      g := u;
    } else {
      var last := n - 1;
      g := SomeWantsTheLast(sys, last, u);
      if Waiting(sys, last) && Before(Wanted(sys, g), Wanted(sys, last)) {
        LaterStillLast(sys, last, g);
        g := last;
      }
    }
  }

  lemma LaterStillLast(sys: seq<Running>, last: nat, g: nat)
    requires last < |sys| && WantsTheLast(sys, last, g)
    requires Waiting(sys, last) && Before(Wanted(sys, g), Wanted(sys, last))
    ensures WantsTheLast(sys, last + 1, last)
  {
    BeforeIrreflexive(Wanted(sys, last));
    forall i | 0 <= i < last && Waiting(sys, i)
      ensures !Before(Wanted(sys, last), Wanted(sys, i))
    {
      if Before(Wanted(sys, last), Wanted(sys, i)) {
        BeforeTransitive(Wanted(sys, g), Wanted(sys, last), Wanted(sys, i));
      }
    }
  }

  /** Whoever holds the lock that is wanted last has all the locks it needs, or wants one it holds already. */
  lemma HolderCanMove(sys: seq<Running>, g: nat, j: nat)
    requires Exclusive(sys) && Waiting(sys, g) && j < |sys| && j != g && Holds(sys[j], Wanted(sys, g))
    requires Waiting(sys, j) ==> !Before(Wanted(sys, g), Wanted(sys, j))
    ensures Unfinished(sys, j) && (Waiting(sys, j) ==> Free(sys, j, Wanted(sys, j)))
  {
    var l := Wanted(sys, g);
    if Waiting(sys, j) {
      var k: nat :| k < sys[j].taken && LocksOf(sys[j].tx)[k] == l;
      LocksAscend(sys[j].tx, k, sys[j].taken);
      BeforeTotal(l, Wanted(sys, j));
      assert Wanted(sys, j) == l;
    }
  }

  /** As long as a transaction is not over, some transaction has all its locks or can take its next one. */
  lemma NoDeadlock(sys: seq<Running>)
    requires Exclusive(sys) && exists i :: 0 <= i < |sys| && Unfinished(sys, i)
    ensures exists i {:trigger Unfinished(sys, i)} ::
              0 <= i < |sys| && Unfinished(sys, i) && (Waiting(sys, i) ==> Can(sys, Take(i)))
  {
    var u: nat :| u < |sys| && Unfinished(sys, u);
    if Waiting(sys, u) {
      var g := SomeWantsTheLast(sys, |sys|, u);
      if !Free(sys, g, Wanted(sys, g)) {
        var j: nat :| j < |sys| && j != g && Holds(sys[j], Wanted(sys, g));
        HolderCanMove(sys, g, j);
      }
    }
  }

  ghost predicate Reachable(sys: seq<Running>, events: seq<Event>)
    requires Exclusive(sys)
    decreases |events|
  {
    events == [] ||
    (Can(sys, events[0]) && (ExclusiveNext(sys, events[0]); Reachable(Next(sys, events[0]), events[1..])))
  }

  ghost function Final(sys: seq<Running>, events: seq<Event>): seq<Running>
    requires Exclusive(sys) && Reachable(sys, events)
    decreases |events|
  {
    if events == [] then sys else (ExclusiveNext(sys, events[0]); Final(Next(sys, events[0]), events[1..]))
  }

  lemma {:induction false} StaysExclusive(sys: seq<Running>, events: seq<Event>)
    requires Exclusive(sys) && Reachable(sys, events)
    ensures Exclusive(Final(sys, events))
    decreases |events|
  {
    if events != [] {
      ExclusiveNext(sys, events[0]);
      StaysExclusive(Next(sys, events[0]), events[1..]);
    }
  }

  /** From the empty system on, however transactions start, take locks, commit or abort. */
  lemma NeverDeadlocked(events: seq<Event>, i: nat)
    requires Reachable([], events) && Unfinished(Final([], events), i)
    ensures Exclusive(Final([], events))
    ensures exists k {:trigger Unfinished(Final([], events), k)} ::
              0 <= k < |Final([], events)| && Unfinished(Final([], events), k)
              && (Waiting(Final([], events), k) ==> Can(Final([], events), Take(k)))
  {
    StaysExclusive([], events);
    NoDeadlock(Final([], events));
  }

  // ---- no interference

  /** The rows that a transaction changes, and the accounts whose streams it appends to. */
  ghost function Touches(tx: Transaction): set<Lock> {
    match tx
    case ReserveFunds(source) => {Account(source)}
    case PostLedger(source, destination) => {Account(source), Account(destination)}
    case FinishHold(source, transfer) => {HoldRow(transfer), Account(source)}
    case WithdrawFunds(account) => {Account(account)}
    case ApproveAdjustment(id, account, counterparty) =>
      {AdjustmentRow(id), Account(account)} + (if counterparty == "" then {} else {Account(counterparty)})
    case RejectAdjustment(id) => {AdjustmentRow(id)}
  }

  /** A transaction takes the locks of all it touches and no others. */
  lemma LocksWhatItTouches(tx: Transaction, l: Lock)
    ensures l in LocksOf(tx) <==> l in Touches(tx)
  {
    match tx {
      case PostLedger(a, b) => MinOrMax(a, b);
      case ApproveAdjustment(_, a, b) => MinOrMax(a, b);
      case _ =>
    }
  }

  lemma MinOrMax(a: string, b: string)
    ensures {MinString(a, b), MaxString(a, b)} == {a, b}
  {
    MinThenMax(a, b);
    var m := multiset{MinString(a, b), MaxString(a, b)};
    assert a in m && b in m && MinString(a, b) in multiset{a, b} && MaxString(a, b) in multiset{a, b};
  }

  /** It has all its locks and is not over. */
  ghost predicate Working(sys: seq<Running>, i: nat) {
    Unfinished(sys, i) && sys[i].taken == |LocksOf(sys[i].tx)|
  }

  /** However transactions start, take locks, commit or abort, no two at work touch the same account or row. */
  lemma NoTwoTouchTheSame(events: seq<Event>, i: nat, j: nat)
    requires Reachable([], events) && i != j && Working(Final([], events), i) && Working(Final([], events), j)
    ensures Touches(Final([], events)[i].tx) !! Touches(Final([], events)[j].tx)
  {
    StaysExclusive([], events);
    var sys := Final([], events);
    forall l | l in Touches(sys[i].tx)
      ensures l !in Touches(sys[j].tx)
    {
      AtWorkHolds(sys, i, l);
      HeldByOne(sys, i, j, l);
      if l in Touches(sys[j].tx) { AtWorkHolds(sys, j, l); }
    }
  }

  lemma HeldByOne(sys: seq<Running>, i: nat, j: nat, l: Lock)
    requires Exclusive(sys) && i < |sys| && j < |sys| && i != j && Holds(sys[i], l)
    ensures !Holds(sys[j], l)
  {
  }

  lemma AtWorkHolds(sys: seq<Running>, i: nat, l: Lock)
    requires Working(sys, i) && l in Touches(sys[i].tx)
    ensures Holds(sys[i], l)
  {
    LocksWhatItTouches(sys[i].tx, l);
    assert LocksOf(sys[i].tx)[..sys[i].taken] == LocksOf(sys[i].tx);
  }
}
