/**
  Solvency and failed transfers on the Postgres tables, where a transaction may collide, err or die. Any number of
  workers: exactly when a run is solvent. One worker: what must be lost for an account to be overdrawn or for a failed
  transfer to keep its funds on hold.
 */
module PostgresSafety {
  import opened Domain
  import opened Replay
  import opened Ledger
  import opened Saga
  import opened System
  import opened Bookkeeping
  import opened Adjustments
  import opened AnyWorkers
  import opened Solvency
  import opened SolventRuns
  import opened Postgres
  import opened PostgresTransactions
  import opened PostgresBank
  import opened PostgresMirror
  import opened ServedRuns
  import opened Progress
  import opened FailingRecovery

  // ---- the store that the tables stand for

  lemma RowsAreTheTable(table: Table, m: Streams, m': Streams, a: Id)
    requires Represents(table, m) && Represents(table, m')
    ensures Rows(m, a) == Rows(m', a)
  {
    assert forall i :: (a, i) in table <==> 0 <= i < |Rows(m, a)|;
    assert forall i :: (a, i) in table <==> 0 <= i < |Rows(m', a)|;
    assert (a, |Rows(m, a)|) !in table && (a, |Rows(m', a)|) !in table;
    forall i | 0 <= i < |Rows(m, a)|
      ensures i < |Rows(m', a)| && Rows(m, a)[i] == Rows(m', a)[i]
    {
      assert (a, i) in table;
    }
  }

  /** The tables stand for one store only. */
  lemma OneStore(pg: Pg, s: Store, s': Store)
    requires Simulates(pg, s) && Simulates(pg, s')
    ensures s == s'
  {
    forall a
      ensures a in s.streams <==> a in s'.streams
      ensures a in s.streams ==> s.streams[a] == s'.streams[a]
    {
      RowsAreTheTable(pg.events, s.streams, s'.streams, a);
    }
    assert s.streams == s'.streams;
  }

  ghost predicate SolventTables(pg: Pg) {
    exists s :: Simulates(pg, s) && Solvent(s)
  }

  lemma SolventTablesIs(pg: Pg, s: Store)
    requires Simulates(pg, s)
    ensures SolventTables(pg) <==> Solvent(s)
  {
    if SolventTables(pg) {
      var s' :| Simulates(pg, s') && Solvent(s');
      OneStore(pg, s, s');
    }
  }

  // ---- any number of workers

  /** A posting that commits although its funds are not on hold and the source, as read, does not cover it. */
  ghost predicate DeedOverpays(b: Bank, deed: Deed)
    requires Can(b, deed)
  {
    deed.Calls? &&
    var pc, seen := b.workers[deed.w].pc, b.seen[deed.w];
    && pc.Begin? && pc.r.step == ComplianceApproved && Transacted(b.pg, pc, seen).1 == Committed
    && StateOf(b.pg.rest.reservations, pc.r.id) != Some(OnHold)
    && ReplayOf(Read(seen, pc.r.source)).balance < Promised(b.pg.rest, pc.r.source) + Due(pc.r)
  }

  /** What a posting that commits has read of its source is all there is. */
  lemma CommittedReadsAll(b: Bank, sys: Sys, w: nat)
    requires Healthy(sys) && Stands(b, sys) && w < |b.workers|
    requires var pc := b.workers[w].pc;
             && pc.Begin? && pc.r.step == ComplianceApproved && {pc.r.source, pc.r.destination} <= b.seen[w].Keys
             && Transacted(b.pg, pc, b.seen[w]).1 == Committed
    ensures var r := b.workers[w].pc.r;
            Read(b.seen[w], r.source) == Stream(sys.store, r.source) && r.id !in sys.store.postings
  {
    var pc, seen := b.workers[w].pc, b.seen[w];
    var src := seen[pc.r.source];
    InsertRowsSimulates(b.pg, sys.store, pc.r.source, src, SourceLegs(pc.r, |src|), b.pg.rest);
  }

  lemma DeedOverpaysIs(b: Bank, sys: Sys, deed: Deed)
    requires Healthy(sys) && Stands(b, sys) && Can(b, deed)
    requires deed.Calls? && Failure(Transacted(b.pg, b.workers[deed.w].pc, b.seen[deed.w]).1).None?
    ensures DeedOverpays(b, deed) <==> Overpays(sys.store, sys.workers[deed.w].pc)
  {
    var pc := b.workers[deed.w].pc;
    if pc.Begin? && pc.r.step == ComplianceApproved && Transacted(b.pg, pc, b.seen[deed.w]).1 == Committed {
      CommittedReadsAll(b, sys, deed.w);
    }
  }

  /** The bank that the tables stand for after a deed: where it was, or one step further. */
  lemma NextStands(b: Bank, sys: Sys, deed: Deed) returns (sys': Sys)
    requires Healthy(sys) && Stands(b, sys) && Can(b, deed)
    ensures Healthy(sys') && Stands(Do(b, deed), sys')
    ensures match Acts(b, deed)
            case None => sys' == sys
            case Some(act) => Enabled(sys, act) && sys' == Step(sys, act)
  {
    DeedFollows(b, sys, deed);
    match Acts(b, deed) {
      case None => sys' := sys;
      case Some(act) =>
        HealthyStep(sys, act);
        sys' := Step(sys, act);
    }
  }

  lemma StepOverpays(b: Bank, sys: Sys, deed: Deed, act: Action)
    requires Healthy(sys) && Stands(b, sys) && Can(b, deed) && Acts(b, deed) == Some(act) && Enabled(sys, act)
    ensures Overspends(sys, act) <==> DeedOverpays(b, deed)
  {
    if act.CallStore? { DeedOverpaysIs(b, sys, deed); }
  }

  /** On the tables too: the next deed keeps the bank solvent if and only if it is no such posting. */
  lemma DeedSolventIff(b: Bank, sys: Sys, deed: Deed)
    requires Healthy(sys) && Stands(b, sys) && Solvent(sys.store) && Can(b, deed)
    ensures SolventTables(Do(b, deed).pg) <==> !DeedOverpays(b, deed)
  {
    var sys' := NextStands(b, sys, deed);
    SolventTablesIs(Do(b, deed).pg, sys'.store);
    match Acts(b, deed) {
      case None =>
      case Some(act) =>
        SolventStepIff(sys, act);
        StepOverpays(b, sys, deed, act);
    }
  }

  ghost predicate AlwaysSolventTables(b: Bank, deeds: seq<Deed>)
    requires AllCan(b, deeds)
    decreases |deeds|
  {
    SolventTables(b.pg) && (deeds != [] ==> AlwaysSolventTables(Do(b, deeds[0]), deeds[1..]))
  }

  ghost predicate NeverOverpays(b: Bank, deeds: seq<Deed>)
    requires AllCan(b, deeds)
    decreases |deeds|
  {
    deeds != [] ==> !DeedOverpays(b, deeds[0]) && NeverOverpays(Do(b, deeds[0]), deeds[1..])
  }

  lemma {:induction false} TablesSolventFromIff(b: Bank, sys: Sys, deeds: seq<Deed>)
    requires Healthy(sys) && Stands(b, sys) && Solvent(sys.store) && AllCan(b, deeds)
    ensures AlwaysSolventTables(b, deeds) <==> NeverOverpays(b, deeds)
    decreases |deeds|
  {
    SolventTablesIs(b.pg, sys.store);
    if deeds != [] {
      DeedSolventIff(b, sys, deeds[0]);
      var sys' := NextStands(b, sys, deeds[0]);
      var b' := Do(b, deeds[0]);
      SolventTablesIs(b'.pg, sys'.store);
      if Solvent(sys'.store) {
        TablesSolventFromIff(b', sys', deeds[1..]);
      } else {
        assert !AlwaysSolventTables(b', deeds[1..]);
      }
    }
  }

  lemma EmptyStands(b: Bank) returns (sys: Sys)
    requires EmptyBank(b)
    ensures Initial(sys) && sys.workers == b.workers && Healthy(sys) && Stands(b, sys) && Solvent(sys.store)
  {
    sys := Sys(EMPTY, b.workers, {}, [], Flows(0, 0, 0));
    HealthyStart(sys);
  }

  /**
    Any number of workers, transactions that interleave, collide, err and die: a run on the tables is solvent in all its
    states if and only if no posting commits that overpays by what it has itself read.
   */
  lemma TablesSolventIff(b: Bank, deeds: seq<Deed>)
    requires EmptyBank(b) && AllCan(b, deeds)
    ensures AlwaysSolventTables(b, deeds) <==> NeverOverpays(b, deeds)
  {
    var sys := EmptyStands(b);
    TablesSolventFromIff(b, sys, deeds);
  }

  // ---- one worker

  /** The worker's call leaves the tables as they were, because it collides, errs or dies. */
  predicate Loses(b: Bank, deed: Deed) {
    || deed.Dies? || deed.Fails?
    || (deed.Calls? && deed.w < |b.workers| && deed.w < |b.seen|
        && Transacted(b.pg, b.workers[deed.w].pc, b.seen[deed.w]).1 == Collided)
  }

  ghost predicate DeedStrands(b: Bank, deed: Deed)
    requires Can(b, deed)
  {
    && Loses(b, deed)
    && var pc := b.workers[deed.w].pc;
       pc.Update? && pc.u.status == Failed && StateOf(b.pg.rest.reservations, pc.r.id) == Some(GivenBack)
  }

  lemma StrandsIs(b: Bank, sys: Sys, deed: Deed)
    requires Stands(b, sys) && Can(b, deed) && Acts(b, deed).Some? && Enabled(sys, Acts(b, deed).value)
    ensures Strands(sys, Acts(b, deed).value) ==> DeedStrands(b, deed)
  {
  }

  ghost predicate NeverStrandsDeeds(b: Bank, deeds: seq<Deed>)
    requires AllCan(b, deeds)
    decreases |deeds|
  {
    deeds != [] ==> !DeedStrands(b, deeds[0]) && NeverStrandsDeeds(Do(b, deeds[0]), deeds[1..])
  }

  lemma UnstrandedDeed(b: Bank, sys: Sys, deed: Deed) returns (sys': Sys)
    requires Healthy(sys) && Stands(b, sys) && AllBacked(sys) && Can(b, deed) && !DeedStrands(b, deed)
    ensures Healthy(sys') && Stands(Do(b, deed), sys') && AllBacked(sys')
    ensures Solvent(sys.store) ==> Solvent(sys'.store)
  {
    sys' := NextStands(b, sys, deed);
    match Acts(b, deed) {
      case None =>
      case Some(act) =>
        StrandsIs(b, sys, deed);
        AllBackedStep(sys, act);
        if Solvent(sys.store) { SolventStepIff(sys, act); }
    }
  }

  lemma {:induction false} UnstrandedDeeds(b: Bank, sys: Sys, deeds: seq<Deed>)
    requires Healthy(sys) && Stands(b, sys) && Solvent(sys.store) && AllBacked(sys)
    requires AllCan(b, deeds) && NeverStrandsDeeds(b, deeds)
    ensures AlwaysSolventTables(b, deeds)
    decreases |deeds|
  {
    SolventTablesIs(b.pg, sys.store);
    if deeds != [] {
      var sys' := UnstrandedDeed(b, sys, deeds[0]);
      UnstrandedDeeds(Do(b, deeds[0]), sys', deeds[1..]);
    }
  }

  /**
    One worker, with any verdicts and with transactions that collide, err and die anywhere: as long as no failing update
    is lost after the funds were given back, the tables are solvent in every state.
   */
  lemma TablesSolventUnlessStranded(b: Bank, deeds: seq<Deed>)
    requires EmptyBank(b) && |b.workers| == 1 && AllCan(b, deeds) && NeverStrandsDeeds(b, deeds)
    ensures AlwaysSolventTables(b, deeds)
  {
    var sys := EmptyStands(b);
    AttentiveStart(sys);
    UnstrandedDeeds(b, sys, deeds);
  }

  // ---- failed transfers

  ghost predicate DeedSheds(b: Bank, deed: Deed)
    requires Can(b, deed)
  {
    Loses(b, deed) &&
    match b.workers[deed.w].pc
    case ReleaseThenFail(r, _) => !deed.Dies? && StateOf(b.pg.rest.reservations, r.id) == Some(OnHold)
    case Update(r, u, _) =>
      (r.step == Created || r.step == ComplianceApproved) && u.status == Pending && u.step != r.step
    case _ => false
  }

  lemma ShedsIs(b: Bank, sys: Sys, deed: Deed)
    requires Stands(b, sys) && Can(b, deed) && Acts(b, deed).Some? && Enabled(sys, Acts(b, deed).value)
    ensures Sheds(sys, Acts(b, deed).value) ==> DeedSheds(b, deed)
  {
  }

  ghost predicate NeverShedsDeeds(b: Bank, deeds: seq<Deed>)
    requires AllCan(b, deeds)
    decreases |deeds|
  {
    deeds != [] ==> !DeedSheds(b, deeds[0]) && NeverShedsDeeds(Do(b, deeds[0]), deeds[1..])
  }

  lemma {:induction false} CleanDeeds(b: Bank, sys: Sys, deeds: seq<Deed>) returns (sys': Sys)
    requires Healthy(sys) && Stands(b, sys) && AllClean(sys) && AllCan(b, deeds) && NeverShedsDeeds(b, deeds)
    ensures Stands(AllDone(b, deeds), sys') && AllClean(sys')
    decreases |deeds|
  {
    if deeds == [] {
      sys' := sys;
    } else {
      var next := CleanDeed(b, sys, deeds[0]);
      sys' := CleanDeeds(Do(b, deeds[0]), next, deeds[1..]);
    }
  }

  lemma CleanDeed(b: Bank, sys: Sys, deed: Deed) returns (sys': Sys)
    requires Healthy(sys) && Stands(b, sys) && AllClean(sys) && Can(b, deed) && !DeedSheds(b, deed)
    ensures Healthy(sys') && Stands(Do(b, deed), sys') && AllClean(sys')
  {
    sys' := NextStands(b, sys, deed);
    match Acts(b, deed) {
      case None =>
      case Some(act) =>
        ShedsIs(b, sys, deed);
        AllCleanStep(sys, act);
    }
  }

  /**
    One worker: as long as no release on the way to failing and no update of a new hold or posting is lost, a failed
    transfer was never posted and has nothing on hold.
   */
  lemma TablesFailClean(b: Bank, deeds: seq<Deed>, t: Id)
    requires EmptyBank(b) && |b.workers| == 1 && AllCan(b, deeds) && NeverShedsDeeds(b, deeds)
    requires var rest := AllDone(b, deeds).pg.rest; t in rest.transfers && rest.transfers[t].status == Failed
    ensures var rest := AllDone(b, deeds).pg.rest;
            t !in rest.postings && StateOf(rest.reservations, t) != Some(OnHold)
  {
    var sys := EmptyStands(b);
    AttentiveStart(sys);
    var sys' := CleanDeeds(b, sys, deeds);
    assert FailsClean(sys'.store, sys'.workers[0].pc, t);
  }

  /**
    The error of the release on the way to a failed record is dropped. The record fails in any case; the funds are given
    back if and only if no row has been inserted on the account since the release read it, and stay on hold otherwise.
   */
  lemma DroppedReleaseIff(pg: Pg, s: Store, r: Transfer, u: SagaUpdate, seen: Seen, answer: Answer, now: int)
    requires Simulates(pg, s) && SeenOk(s, ReleaseThenFail(r, u), seen) && HoldAccount(pg, r.id) <= seen.Keys
    requires StateOf(pg.rest.reservations, r.id) == Some(OnHold)
    requires r.id in pg.rest.transfers && pg.rest.transfers[r.id].status == Pending
    requires pg.rest.transfers[r.id].step == u.expected && u.status == Failed
    ensures var pc, account := ReleaseThenFail(r, u), pg.rest.reservations[r.id].account;
            var released, pc' := Transacted(pg, pc, seen).0, GoesOn(pg, pc, seen, answer, now);
            && pc' == Update(r, u, false)
            && var failed := Transacted(released, pc', map[]).0;
               && r.id in failed.rest.transfers && failed.rest.transfers[r.id].status == Failed
               && StateOf(failed.rest.reservations, r.id)
                  == Some(if Latest(pg, account, seen[account]) then GivenBack else OnHold)
  {
    var account := pg.rest.reservations[r.id].account;
    var loaded := seen[account];
    var h := pg.rest.reservations[r.id];
    InsertRowsSimulates(pg, s, account, loaded, [EndEvent(h, r.id, |loaded|, GivenBack)],
                        pg.rest.(reservations := pg.rest.reservations[r.id := h.(state := GivenBack)]));
    assert Rows(s.streams, account) == Stream(s, account);
    assert (account, |loaded|) in pg.events <==> |loaded| < |Stream(s, account)|;
  }

  /** And what a failed transfer has on hold it keeps, whatever is done to the tables from there on. */
  lemma TablesHoldForGood(b: Bank, deeds: seq<Deed>, more: seq<Deed>, t: Id)
    requires EmptyBank(b) && |b.workers| == 1 && AllCan(b, deeds) && AllCan(AllDone(b, deeds), more)
    requires var rest := AllDone(b, deeds).pg.rest;
             t in rest.transfers && rest.transfers[t].status == Failed && StateOf(rest.reservations, t) == Some(OnHold)
    ensures var rest := AllDone(AllDone(b, deeds), more).pg.rest;
            t in rest.transfers && rest.transfers[t].status == Failed && StateOf(rest.reservations, t) == Some(OnHold)
  {
    var sys := EmptyStands(b);
    var acts := RunFollows(b, sys, deeds);
    AttentiveStart(sys);
    AttentiveRun(sys, acts);
    var further := RunFollows(AllDone(b, deeds), After(sys, acts), more);
    HeldForGood(After(sys, acts), further, t);
  }

  // ---- recovery

  ghost predicate DeedSays(b: Bank, deed: Deed, verdicts: Id -> Answer)
    requires Can(b, deed)
  {
    deed.Calls? && b.workers[deed.w].pc.Begin? ==> deed.answer == verdicts(b.workers[deed.w].pc.r.id)
  }

  ghost predicate DeedsSay(b: Bank, deeds: seq<Deed>, verdicts: Id -> Answer)
    requires AllCan(b, deeds)
    decreases |deeds|
  {
    deeds != [] ==> DeedSays(b, deeds[0], verdicts) && DeedsSay(Do(b, deeds[0]), deeds[1..], verdicts)
  }

  lemma EnduringDeed(b: Bank, sys: Sys, deed: Deed, verdicts: Id -> Answer) returns (sys': Sys)
    requires Healthy(sys) && Stands(b, sys) && Enduring(sys, verdicts) && Can(b, deed) && DeedSays(b, deed, verdicts)
    ensures Healthy(sys') && Stands(Do(b, deed), sys') && Enduring(sys', verdicts)
  {
    sys' := NextStands(b, sys, deed);
    match Acts(b, deed) {
      case None =>
      case Some(act) =>
        assert Says(sys, act, verdicts);
        EnduringStep(sys, act, verdicts);
    }
  }

  lemma {:induction false} EnduringDeeds(b: Bank, sys: Sys, deeds: seq<Deed>, verdicts: Id -> Answer)
    returns (sys': Sys)
    requires Healthy(sys) && Stands(b, sys) && Enduring(sys, verdicts)
    requires AllCan(b, deeds) && DeedsSay(b, deeds, verdicts)
    ensures Healthy(sys') && Stands(AllDone(b, deeds), sys') && Enduring(sys', verdicts)
    decreases |deeds|
  {
    if deeds == [] {
      sys' := sys;
    } else {
      var next := EnduringDeed(b, sys, deeds[0], verdicts);
      sys' := EnduringDeeds(Do(b, deeds[0]), next, deeds[1..], verdicts);
    }
  }

  /**
    Recovery on the tables, under fixed verdicts, with one worker whose transactions collide, err and die anywhere: a
    pending transfer is finished by nine calls that go through, and with the trace that terms and verdict fix, if and
    only if it is not an approved one whose funds were given back.
   */
  lemma TablesRecoverIff(b: Bank, deeds: seq<Deed>, verdicts: Id -> Answer, t: Id, a: Id, calls: seq<(Answer, int)>)
    returns (s: Store)
    requires EmptyBank(b) && |b.workers| == 1 && AllCan(b, deeds) && DeedsSay(b, deeds, verdicts)
    requires var rest := AllDone(b, deeds).pg.rest; t in rest.transfers && rest.transfers[t].status == Pending
    requires AllSay(calls, verdicts(t)) && 9 <= |calls|
    ensures Simulates(AllDone(b, deeds).pg, s)
    ensures Recovered(ServeAll(s, t, calls), t, a, verdicts(t))
            <==> !(verdicts(t) == Approve && StateOf(s.reservations, t) == Some(GivenBack))
  {
    var sys := EmptyStands(b);
    AttentiveStart(sys);
    var sys' := EnduringDeeds(b, sys, deeds, verdicts);
    s := sys'.store;
    RecoversIff(s, t, a, calls, verdicts(t));
  }

  /** An idle worker can serve a record on the tables as often as it likes, as the calls do on the store. */
  lemma ServedOnTables(b: Bank, sys: Sys, t: Id, calls: seq<(Answer, int)>) returns (more: seq<Deed>)
    requires Healthy(sys) && Stands(b, sys) && Idle(sys)
    ensures AllCan(b, more) && Serves(more) && Simulates(AllDone(b, more).pg, ServeAll(sys.store, t, calls))
  {
    var acts := ServeAllIsARun(sys, t, calls);
    more := ServingIsMirrored(b, sys, acts);
  }

  lemma DeathLeavesIdle(b: Bank, sys: Sys) returns (dead: Sys)
    requires Healthy(sys) && Stands(b, sys) && |sys.workers| == 1
    ensures Can(b, Dies(0)) && Healthy(dead) && Stands(Do(b, Dies(0)), dead) && Idle(dead) && dead.store == sys.store
  {
    dead := NextStands(b, sys, Dies(0));
  }

  /**
    That is what a restart does: the worker dies, comes back and serves the record with the verdict, nine times, on the
    tables. Then they stand for a store in which the transfer has recovered.
   */
  lemma RestartRecovers(b: Bank, deeds: seq<Deed>, verdicts: Id -> Answer, t: Id, a: Id, calls: seq<(Answer, int)>)
    returns (more: seq<Deed>, s: Store)
    requires EmptyBank(b) && |b.workers| == 1 && AllCan(b, deeds) && DeedsSay(b, deeds, verdicts)
    requires var rest := AllDone(b, deeds).pg.rest;
             && t in rest.transfers && rest.transfers[t].status == Pending
             && !(verdicts(t) == Approve && StateOf(rest.reservations, t) == Some(GivenBack))
    requires AllSay(calls, verdicts(t)) && 9 <= |calls|
    ensures AllCan(b, deeds + [Dies(0)] + more) && Serves(more)
    ensures Simulates(AllDone(b, deeds + [Dies(0)] + more).pg, s) && Recovered(s, t, a, verdicts(t))
  {
    var sys := EmptyStands(b);
    AttentiveStart(sys);
    var cut := EnduringDeeds(b, sys, deeds, verdicts);
    var dead := DeathLeavesIdle(AllDone(b, deeds), cut);
    ThenDeed(b, deeds, Dies(0));
    more := ServedOnTables(AllDone(b, deeds + [Dies(0)]), dead, t, calls);
    DeedsInARow(b, deeds + [Dies(0)], more);
    RecoversIff(cut.store, t, a, calls, verdicts(t));
    s := ServeAll(cut.store, t, calls);
  }

  // ---- the indexes

  /** No two requests that stand share an index entry, and reversals of events are in the index. */
  ghost predicate IndexesHold(adjustments: map<Id, Adjustment>) {
    && (forall i, j {:trigger SameIndex(adjustments[i], adjustments[j])} ::
          i in adjustments && j in adjustments && i != j
          && adjustments[i].status != Declined && adjustments[j].status != Declined ==>
            !SameIndex(adjustments[i], adjustments[j]))
    && (forall i :: i in adjustments && adjustments[i].kind == Reversal && adjustments[i].originalTransfer.None? ==>
          adjustments[i].originalAccount != NO_ID && adjustments[i].originalSequence.Some?)
  }

  lemma ReviewKeepsIndexes(adjustments: map<Id, Adjustment>, j: Id, r: Adjustment)
    requires IndexesHold(adjustments) && j in adjustments && adjustments[j].status == Waiting
    requires r == adjustments[j].(status := r.status, reviewedBy := r.reviewedBy)
    ensures IndexesHold(adjustments[j := r])
  {
    var after := adjustments[j := r];
    forall i, k | i in after && k in after && i != k && after[i].status != Declined && after[k].status != Declined
      ensures !SameIndex(after[i], after[k])
    {
      assert !SameIndex(adjustments[i], adjustments[k]);
    }
  }

  lemma RequestKeepsIndexes(pg: Pg, r: Adjustment, loaded: seq<Event>)
    requires IndexesHold(pg.rest.adjustments) && NewRequest(r) && r.id !in pg.rest.adjustments
    ensures IndexesHold(InsertRequest(pg, r, loaded).0.rest.adjustments)
  {
    var after := InsertRequest(pg, r, loaded).0.rest.adjustments;
    if InsertRequest(pg, r, loaded).1 == Committed {
      var n := after[r.id];
      forall i | i in pg.rest.adjustments && pg.rest.adjustments[i].status != Declined
        ensures !SameIndex(after[i], n) && !SameIndex(n, after[i])
      {
        assert !SameIndex(pg.rest.adjustments[i], Prepared(pg.rest, r, loaded).value);
      }
      forall i, k | i in after && k in after && i != k && after[i].status != Declined && after[k].status != Declined
        ensures !SameIndex(after[i], after[k])
      {
        if i != r.id && k != r.id { assert !SameIndex(pg.rest.adjustments[i], pg.rest.adjustments[k]); }
      }
    }
  }

  lemma StepKeepsIndexes(sys: Sys, act: Action)
    requires Healthy(sys) && IndexesHold(sys.store.adjustments) && Enabled(sys, act) && !act.RequestAdjustment?
    ensures IndexesHold(Step(sys, act).store.adjustments)
  {
    var s := sys.store;
    match act {
      case AcceptAdjustment(j, admin) =>
        if ApproveAdjustment(s, j, admin).1.Ok? {
          ApproveChanges(s, j, admin);
          ReviewKeepsIndexes(s.adjustments, j, ApproveAdjustment(s, j, admin).0.adjustments[j]);
        }
      case DeclineAdjustment(j, admin) =>
        if RejectAdjustment(s, j, admin).1.Ok? {
          ReviewKeepsIndexes(s.adjustments, j, RejectAdjustment(s, j, admin).0.adjustments[j]);
        }
      case CallStore(w, answer, now) =>
        assert WorkerOk(s, sys.workers[w]);
        WorkCalls(s, sys.workers[w].pc, answer, now);
        QuietCall(s, sys.workers[w].pc);
      case _ =>
    }
  }

  lemma NextKeepsIndexes(b: Bank, sys: Sys, deed: Deed, sys': Sys)
    requires Healthy(sys) && Stands(b, sys) && IndexesHold(b.pg.rest.adjustments) && Can(b, deed)
    requires Stands(Do(b, deed), sys') && !deed.Requests?
    requires match Acts(b, deed)
             case None => sys' == sys
             case Some(act) => Enabled(sys, act) && !act.RequestAdjustment? && sys' == Step(sys, act)
    ensures IndexesHold(Do(b, deed).pg.rest.adjustments)
  {
    if Acts(b, deed).Some? { StepKeepsIndexes(sys, Acts(b, deed).value); }
  }

  lemma DeedKeepsIndexes(b: Bank, sys: Sys, deed: Deed) returns (sys': Sys)
    requires Healthy(sys) && Stands(b, sys) && IndexesHold(b.pg.rest.adjustments) && Can(b, deed)
    ensures Healthy(sys') && Stands(Do(b, deed), sys') && IndexesHold(Do(b, deed).pg.rest.adjustments)
  {
    sys' := NextStands(b, sys, deed);
    if deed.Requests? {
      RequestKeepsIndexes(b.pg, deed.request, deed.loaded);
    } else {
      NextKeepsIndexes(b, sys, deed, sys');
    }
  }

  lemma {:induction false} DeedsKeepIndexes(b: Bank, sys: Sys, deeds: seq<Deed>) returns (sys': Sys)
    requires Healthy(sys) && Stands(b, sys) && IndexesHold(b.pg.rest.adjustments) && AllCan(b, deeds)
    ensures Healthy(sys') && Stands(AllDone(b, deeds), sys') && IndexesHold(AllDone(b, deeds).pg.rest.adjustments)
    decreases |deeds|
  {
    if deeds == [] {
      sys' := sys;
    } else {
      var next := DeedKeepsIndexes(b, sys, deeds[0]);
      sys' := DeedsKeepIndexes(Do(b, deeds[0]), next, deeds[1..]);
    }
  }

  lemma IndexedIsNotApproved(adjustments: map<Id, Adjustment>, j: Id)
    requires IndexesHold(adjustments) && j in adjustments && adjustments[j].status == Waiting
    ensures !AlreadyApproved(adjustments, j, adjustments[j])
  {
    forall i | i in adjustments && i != j && adjustments[i].status == Accepted
      ensures !SameIndex(adjustments[i], adjustments[j])
    {
    }
  }

  /**
    In every run on the tables no two standing requests name the same transfer or the same event, of whatever kind, and
    so the check that an approval repeats never refuses one.
   */
  lemma RepeatedCheckNeverRefuses(b: Bank, deeds: seq<Deed>, j: Id)
    requires EmptyBank(b) && AllCan(b, deeds)
    ensures var adjustments := AllDone(b, deeds).pg.rest.adjustments;
            && IndexesHold(adjustments)
            && (j in adjustments && adjustments[j].status == Waiting ==>
                  !AlreadyApproved(adjustments, j, adjustments[j]))
  {
    var sys := EmptyStands(b);
    var sys' := DeedsKeepIndexes(b, sys, deeds);
    var adjustments := AllDone(b, deeds).pg.rest.adjustments;
    if j in adjustments && adjustments[j].status == Waiting { IndexedIsNotApproved(adjustments, j); }
  }
}
