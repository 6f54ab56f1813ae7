/** The events of one transfer, or of one adjustment, inside an account stream. */
module Trails {
  import opened Domain
  import opened Replay
  import opened Ledger

  datatype Mark =
    | Held(amount: Money)
    | Charged(amount: Money)
    | Freed(amount: Money)
    | FeePaid(amount: Money)
    | Paid(amount: Money)
    | Received(amount: Money)

  function TransferTag(e: Event): Option<Id> {
    if e.AccountOpened? then None else e.transferId
  }

  function AdjustmentTag(e: Event): Option<Id> {
    if e.MoneyCredited? || e.MoneyDebited? then e.adjustmentId else None
  }

  function MarkOf(e: Event): Mark {
    match e
    case AccountOpened(_, _, b) => Received(b)
    case MoneyCredited(_, _, m, _, _, _, _, _) => Received(m)
    case MoneyDebited(_, _, m, _, purpose, _, _, _) => if purpose == FeeCharge then FeePaid(m) else Paid(m)
    case FundsReserved(_, _, m, _) => Held(m)
    case ReservationCaptured(_, _, m, _) => Charged(m)
    case ReservationReleased(_, _, m, _) => Freed(m)
  }

  /** The marks that transfer `t` left, in stream order. */
  function Marks(es: seq<Event>, t: Id): seq<Mark> {
    if es == [] then []
    else
      var e := es[|es| - 1];
      Marks(es[..|es| - 1], t) + (if TransferTag(e) == Some(t) then [MarkOf(e)] else [])
  }

  /** The marks that adjustment `j` left, in stream order. */
  function Entries(es: seq<Event>, j: Id): seq<Mark> {
    if es == [] then []
    else
      var e := es[|es| - 1];
      Entries(es[..|es| - 1], j) + (if AdjustmentTag(e) == Some(j) then [MarkOf(e)] else [])
  }

  lemma MarksAppend(es: seq<Event>, e: Event, t: Id)
    ensures Marks(es + [e], t) == Marks(es, t) + (if TransferTag(e) == Some(t) then [MarkOf(e)] else [])
  {
    assert (es + [e])[..|es|] == es;
  }

  lemma EntriesAppend(es: seq<Event>, e: Event, j: Id)
    ensures Entries(es + [e], j) == Entries(es, j) + (if AdjustmentTag(e) == Some(j) then [MarkOf(e)] else [])
  {
    assert (es + [e])[..|es|] == es;
  }

  lemma {:induction false} NoMarks(es: seq<Event>, t: Id)
    requires forall i :: 0 <= i < |es| ==> TransferTag(es[i]) != Some(t)
    ensures Marks(es, t) == []
  {
    if es != [] {
      NoMarks(es[..|es| - 1], t);
    }
  }

  lemma {:induction false} NoEntries(es: seq<Event>, j: Id)
    requires forall i :: 0 <= i < |es| ==> AdjustmentTag(es[i]) != Some(j)
    ensures Entries(es, j) == []
  {
    if es != [] {
      NoEntries(es[..|es| - 1], j);
    }
  }

  /** What the hold table says the hold events are. */
  function HoldMarks(r: Transfer, hold: Option<HoldState>): seq<Mark> {
    match hold
    case None => []
    case Some(OnHold) => [Held(Due(r))]
    case Some(Taken) => [Held(Due(r)), Charged(Due(r))]
    case Some(GivenBack) => [Held(Due(r)), Freed(Due(r))]
  }

  function LegMarks(r: Transfer): seq<Mark> {
    (if r.fee > 0 then [FeePaid(r.fee)] else []) + [Paid(r.amount)]
  }

  /** The debit block stands somewhere inside the hold events, in one piece. */
  function Weave(holds: seq<Mark>, legs: seq<Mark>, at: nat): seq<Mark>
    requires at <= |holds|
  {
    holds[..at] + legs + holds[at..]
  }

  ghost predicate Woven(marks: seq<Mark>, holds: seq<Mark>, legs: seq<Mark>) {
    exists at: nat :: at <= |holds| && marks == Weave(holds, legs, at)
  }

  lemma WovenExtends(marks: seq<Mark>, holds: seq<Mark>, legs: seq<Mark>, m: Mark)
    requires Woven(marks, holds, legs)
    ensures Woven(marks + [m], holds + [m], legs)
  {
    var at: nat :| at <= |holds| && marks == Weave(holds, legs, at);
    assert (holds + [m])[..at] == holds[..at];
    assert (holds + [m])[at..] == holds[at..] + [m];
    assert marks + [m] == Weave(holds + [m], legs, at);
  }

  /** The legs of a posting, read back. */
  lemma LegsRead(es: seq<Event>, r: Transfer, t: Id)
    requires 0 <= r.fee
    ensures var after := es + SourceLegs(r, |es|);
            && Marks(after, t) == Marks(es, t) + (if t == r.id then LegMarks(r) else [])
            && ReplayOf(after) == ReplayOf(es).(balance := ReplayOf(es).balance - Due(r))
  {
    if r.fee > 0 {
      var f, d := FeeEvent(r, |es|), DebitEvent(r, |es| + 1);
      assert es + SourceLegs(r, |es|) == es + [f] + [d];
      MarksAppend(es, f, t);
      MarksAppend(es + [f], d, t);
      ReplayAppend(es, f);
      ReplayAppend(es + [f], d);
    } else {
      MarksAppend(es, DebitEvent(r, |es|), t);
      ReplayAppend(es, DebitEvent(r, |es|));
    }
  }

  lemma LegsHaveNoEntries(es: seq<Event>, r: Transfer, j: Id)
    ensures Entries(es + SourceLegs(r, |es|), j) == Entries(es, j)
  {
    if r.fee > 0 {
      var f, d := FeeEvent(r, |es|), DebitEvent(r, |es| + 1);
      assert es + SourceLegs(r, |es|) == es + [f] + [d];
      EntriesAppend(es, f, j);
      EntriesAppend(es + [f], d, j);
    } else {
      EntriesAppend(es, DebitEvent(r, |es|), j);
    }
  }
}
