/**
  `eventstore/postgres_store.go` as a table of events keyed by account and sequence.

  A transaction loads streams, decides, and inserts rows at the lengths it loaded; another client may insert in between,
  because a plain `Append` takes no account lock. The primary key is what keeps the two stores alike.
 */
module Postgres {
  import opened Domain
  import opened Ledger
  import opened Bookkeeping

  type Table = map<(Id, int), Event>

  // ---- the table and the streams it stands for

  function Rows(m: Streams, a: Id): seq<Event> {
    if a in m then m[a] else []
  }

  /** The table holds exactly the events of `m`, each under its position: no gap and nothing else. */
  ghost predicate Represents(table: Table, m: Streams) {
    && (forall a :: a in m ==> m[a] != [])
    && (forall a, i {:trigger (a, i) in table} :: (a, i) in table <==> 0 <= i < |Rows(m, a)|)
    && (forall a, i {:trigger table[(a, i)]} :: 0 <= i < |Rows(m, a)| ==> table[(a, i)] == Rows(m, a)[i])
  }

  /** `SELECT … WHERE aggregate_id = a ORDER BY sequence` returns `loaded`, from the rows at `keys`. */
  ghost predicate Selects(table: Table, a: Id, keys: seq<int>, loaded: seq<Event>) {
    && |keys| == |loaded|
    && (forall i, j :: 0 <= i < j < |keys| ==> keys[i] < keys[j])
    && (forall k {:trigger (a, k) in table} :: (a, k) in table <==> k in keys)
    && (forall i :: 0 <= i < |keys| ==> (a, keys[i]) in table && table[(a, keys[i])] == loaded[i])
  }

  lemma {:induction false} KeysAtLeast(keys: seq<int>, i: nat)
    requires forall i, j :: 0 <= i < j < |keys| ==> keys[i] < keys[j]
    requires forall k :: k in keys ==> 0 <= k
    requires i < |keys|
    ensures i <= keys[i]
  {
    assert keys[i] in keys;
    if i > 0 { KeysAtLeast(keys, i - 1); }
  }

  /** The ascending list of the numbers below `n` is the identity. */
  lemma {:induction false} KeysCount(keys: seq<int>, n: nat, i: nat)
    requires forall i, j :: 0 <= i < j < |keys| ==> keys[i] < keys[j]
    requires forall k :: k in keys <==> 0 <= k < n
    requires i < |keys|
    ensures keys[i] == i
  {
    KeysAtLeast(keys, i);
    assert keys[i] in keys;
    assert i in keys;
    var p: nat :| p < |keys| && keys[p] == i;
    KeysAtLeast(keys, p);
    if p < i { KeysCount(keys, n, p); }
  }

  /** On a gap-free table the query returns the stream. */
  lemma SelectIsTheStream(table: Table, m: Streams, a: Id, keys: seq<int>, loaded: seq<Event>)
    requires Represents(table, m) && Selects(table, a, keys, loaded)
    ensures loaded == Rows(m, a)
  {
    var n := |Rows(m, a)|;
    forall k ensures k in keys <==> 0 <= k < n {
      assert (a, k) in table <==> k in keys;
    }
    forall i | 0 <= i < |keys| ensures keys[i] == i && i < n {
      KeysCount(keys, n, i);
      assert keys[i] in keys;
    }
    if |keys| > 0 { assert keys[|keys| - 1] == |keys| - 1; }
    assert |keys| in keys <==> |keys| < n;
    forall i | 0 <= i < |keys| ensures loaded[i] == Rows(m, a)[i] {
      assert (a, keys[i]) in table;
    }
  }

  // ---- inserting

  /** `INSERT`: `None` is the duplicate key. */
  function Insert(table: Table, a: Id, i: int, e: Event): Option<Table> {
    if (a, i) in table then None else Some(table[(a, i) := e])
  }

  function InsertAll(table: Table, a: Id, from: int, es: seq<Event>): Option<Table> {
    if es == [] then Some(table)
    else
      var before := InsertAll(table, a, from, es[..|es| - 1]);
      if before.None? then None else Insert(before.value, a, from + |es| - 1, es[|es| - 1])
  }

  lemma InsertRepresents(table: Table, m: Streams, a: Id, e: Event)
    requires Represents(table, m)
    ensures Represents(table[(a, |Rows(m, a)|) := e], m[a := Rows(m, a) + [e]])
  {
  }

  lemma {:induction false} InsertAllAtTheEnd(table: Table, m: Streams, a: Id, es: seq<Event>)
    requires Represents(table, m) && es != []
    ensures InsertAll(table, a, |Rows(m, a)|, es).Some?
    ensures Represents(InsertAll(table, a, |Rows(m, a)|, es).value, m[a := Rows(m, a) + es])
  {
    var n, last := |es| - 1, es[|es| - 1];
    var stream := Rows(m, a);
    if n == 0 {
      assert es == [last];
      InsertRepresents(table, m, a, last);
    } else {
      InsertAllAtTheEnd(table, m, a, es[..n]);
      var before := InsertAll(table, a, |stream|, es[..n]).value;
      InsertRepresents(before, m[a := stream + es[..n]], a, last);
      assert stream + es[..n] + [last] == stream + es;
      assert m[a := stream + es[..n]][a := stream + es] == m[a := stream + es];
    }
  }

  lemma {:induction false} InsertAllKeeps(table: Table, a: Id, from: int, es: seq<Event>, key: (Id, int))
    requires InsertAll(table, a, from, es).Some? && key in table
    ensures key in InsertAll(table, a, from, es).value
  {
    if es != [] { InsertAllKeeps(table, a, from, es[..|es| - 1], key); }
  }

  /** Rows go in only where the stream ends: a loaded length that is out of date meets the primary key. */
  lemma {:induction false} InsertAllBeforeTheEnd(table: Table, m: Streams, a: Id, from: nat, es: seq<Event>)
    requires Represents(table, m) && es != [] && from < |Rows(m, a)|
    ensures InsertAll(table, a, from, es).None?
  {
    assert (a, from) in table;
    if |es| > 1 { InsertAllBeforeTheEnd(table, m, a, from, es[..|es| - 1]); }
  }

  // ---- Append

  /** `INSERT … ON CONFLICT DO NOTHING`; the row is stored under the expected version. */
  function PostgresAppend(table: Table, e: Event, expected: int): (Table, Result<()>) {
    if (e.aggregate, expected) in table then (table, Err(ConcurrencyConflict))
    else (table[(e.aggregate, expected) := e], Ok(()))
  }

  /**
    The two stores answer an append alike exactly when the expected version is no further than the stream; a version
    beyond it, which no load can give, is a conflict in memory and leaves a gap in the table.
   */
  lemma AppendsAgreeIff(table: Table, s: Store, e: Event, expected: int)
    requires Represents(table, s.streams)
    ensures PostgresAppend(table, e, expected).1 == Append(s, e, expected).1
            <==> 0 <= expected <= |Stream(s, e.aggregate)|
    ensures 0 <= expected <= |Stream(s, e.aggregate)| ==>
              Represents(PostgresAppend(table, e, expected).0, Append(s, e, expected).0.streams)
    ensures !(0 <= expected <= |Stream(s, e.aggregate)|) ==>
              forall m :: !Represents(PostgresAppend(table, e, expected).0, m)
  {
    var a, n := e.aggregate, |Stream(s, e.aggregate)|;
    assert Rows(s.streams, a) == Stream(s, a);
    assert (a, expected) in table <==> 0 <= expected < n;
    if expected == n {
      InsertRepresents(table, s.streams, a, e);
    } else if expected > n || expected < 0 {
      var table' := PostgresAppend(table, e, expected).0;
      assert (a, expected) in table' && (a, n) !in table;
      forall m ensures !Represents(table', m) {
        assert Represents(table', m) ==>
            && ((a, expected) in table' <==> 0 <= expected < |Rows(m, a)|)
            && ((a, n) in table' <==> 0 <= n < |Rows(m, a)|);
      }
    }
  }

  // ---- the statements

  /** The events table as the statements change it. */
  class EventTable {
    var rows: Table

    constructor ()
      ensures rows == map[]
    {
      rows := map[];
    }

    method Append(e: Event, expectedVersion: int) returns (result: Result<()>)
      modifies this
      ensures (rows, result) == PostgresAppend(old(rows), e, expectedVersion)
    {
      var affected := 0;
      if (e.aggregate, expectedVersion) !in rows {
        rows := rows[(e.aggregate, expectedVersion) := e];
        affected := 1;
      }
      if affected == 0 {
        return Err(ConcurrencyConflict);
      }
      return Ok(());
    }

    /** `loadEventsTx` on a table that stands for `m`. */
    method Load(a: Id, ghost m: Streams) returns (out: seq<Event>)
      requires Represents(rows, m)
      ensures out == Rows(m, a)
    {
      out := [];
      while (a, |out|) in rows
        invariant |out| <= |Rows(m, a)| && out == Rows(m, a)[..|out|]
        decreases |Rows(m, a)| - |out|
      {
        out := out + [rows[(a, |out|)]];
      }
    }

    /** The inserts of one transaction on one account; a duplicate key rolls all of them back. */
    method InsertEvents(a: Id, from: int, es: seq<Event>) returns (inserted: bool)
      modifies this
      ensures var after := InsertAll(old(rows), a, from, es);
              inserted == after.Some? && rows == if after.Some? then after.value else old(rows)
    {
      var before := rows;
      var i := 0;
      while i < |es|
        invariant 0 <= i <= |es|
        invariant InsertAll(before, a, from, es[..i]) == Some(rows)
      {
        assert es[..i + 1][..i] == es[..i];
        if (a, from + i) in rows {
          InsertAllFails(before, a, from, es, i + 1);
          rows := before;
          return false;
        }
        rows := rows[(a, from + i) := es[i]];
        i := i + 1;
      }
      assert es[..i] == es;
      return true;
    }
  }

  lemma {:induction false} InsertAllFails(table: Table, a: Id, from: int, es: seq<Event>, n: nat)
    requires n <= |es| && InsertAll(table, a, from, es[..n]).None?
    ensures InsertAll(table, a, from, es).None?
    decreases |es|
  {
    if n < |es| {
      assert es[..|es| - 1][..n] == es[..n];
      InsertAllFails(table, a, from, es[..|es| - 1], n);
    } else {
      assert es[..n] == es;
    }
  }
}
