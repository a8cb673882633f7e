// The row loop every processor shares: each row is classified by a pure
// function of its cells into an INSERT or a skip of some kind, the INSERTs
// are executed one by one, and per-kind counters are kept. An INSERT that
// raises is counted as the processor's `onFailure` kind.
module Ingest {
  import opened Cells
  import opened Sink

  /** Why a row was not stored: a blank or unreadable date, a bad number, or anything else (raised: the row's own `except` caught it); Silent rows are skipped without a counter. */
  datatype Kind = DateError | NumericError | OtherError(raised: bool) | Silent

  datatype Plan = Insert(r: TxnRow) | Skip(kind: Kind)

  datatype Tally = Tally(stored: nat, dateErrors: nat, numericErrors: nat, otherErrors: nat, problematic: nat, silent: nat)

  const NoRows := Tally(0, 0, 0, 0, 0, 0)

  /** Every row lands in exactly one of these. */
  function Total(t: Tally): nat
  {
    t.stored + t.dateErrors + t.numericErrors + t.otherErrors + t.silent
  }

  function Skipped(t: Tally, k: Kind): (u: Tally)
    ensures Total(u) == Total(t) + 1 && u.stored == t.stored
  {
    match k
    case DateError => t.(dateErrors := t.dateErrors + 1)
    case NumericError => t.(numericErrors := t.numericErrors + 1)
    case OtherError(raised) =>
      t.(otherErrors := t.otherErrors + 1, problematic := if raised then t.problematic + 1 else t.problematic)
    case Silent => t.(silent := t.silent + 1)
  }

  /** The counters after one more row with plan p. */
  function Step(t: Tally, p: Plan, accepts: TxnRow -> bool, onFailure: Kind): Tally
  {
    match p
    case Insert(r) => if accepts(r) then t.(stored := t.stored + 1) else Skipped(t, onFailure)
    case Skip(k) => Skipped(t, k)
  }

  /** The counters after the loop over rows. */
  function TallyOf(rows: seq<Row>, plan: Row -> Plan, accepts: TxnRow -> bool, onFailure: Kind): Tally
  {
    if rows == [] then NoRows
    else Step(TallyOf(rows[..|rows| - 1], plan, accepts, onFailure), plan(rows[|rows| - 1]), accepts, onFailure)
  }

  /** The INSERTs that went through, in row order. */
  function Inserted(rows: seq<Row>, plan: Row -> Plan, accepts: TxnRow -> bool): seq<TxnRow>
  {
    if rows == [] then []
    else
      var p := plan(rows[|rows| - 1]);
      Inserted(rows[..|rows| - 1], plan, accepts) + (if p.Insert? && accepts(p.r) then [p.r] else [])
  }

  /** Each row bumps exactly one counter, so the counters sum to the number of rows. */
  lemma {:induction false} TallyTotal(rows: seq<Row>, plan: Row -> Plan, accepts: TxnRow -> bool, onFailure: Kind)
    ensures Total(TallyOf(rows, plan, accepts, onFailure)) == |rows|
  {
    if rows != [] {
      TallyTotal(rows[..|rows| - 1], plan, accepts, onFailure);
    }
  }

  /** The stored counter counts exactly the INSERTs that went through. */
  lemma {:induction false} StoredIsInserted(rows: seq<Row>, plan: Row -> Plan, accepts: TxnRow -> bool, onFailure: Kind)
    ensures TallyOf(rows, plan, accepts, onFailure).stored == |Inserted(rows, plan, accepts)|
  {
    if rows != [] {
      StoredIsInserted(rows[..|rows| - 1], plan, accepts, onFailure);
    }
  }

  /** Rows counted as problematic are among the other errors. */
  lemma {:induction false} ProblematicAmongOther(rows: seq<Row>, plan: Row -> Plan, accepts: TxnRow -> bool, onFailure: Kind)
    ensures TallyOf(rows, plan, accepts, onFailure).problematic <= TallyOf(rows, plan, accepts, onFailure).otherErrors
  {
    if rows != [] {
      ProblematicAmongOther(rows[..|rows| - 1], plan, accepts, onFailure);
    }
  }

  /** Rows none of which is planned as an INSERT store nothing and leave nothing pending. */
  lemma {:induction false} NothingPlannedNothingStored(rows: seq<Row>, plan: Row -> Plan, accepts: TxnRow -> bool, onFailure: Kind)
    requires forall i :: 0 <= i < |rows| ==> plan(rows[i]).Skip?
    ensures TallyOf(rows, plan, accepts, onFailure).stored == 0 && Inserted(rows, plan, accepts) == []
  {
    if rows != [] {
      var init := rows[..|rows| - 1];
      assert forall i :: 0 <= i < |init| ==> init[i] == rows[i];
      NothingPlannedNothingStored(init, plan, accepts, onFailure);
    }
  }

  /** When no row's plan is a silent skip and a failed INSERT is counted, the silent counter stays at zero. */
  lemma {:induction false} NothingSilent(rows: seq<Row>, plan: Row -> Plan, accepts: TxnRow -> bool, onFailure: Kind)
    requires onFailure != Silent
    requires forall i :: 0 <= i < |rows| ==> plan(rows[i]) != Skip(Silent)
    ensures TallyOf(rows, plan, accepts, onFailure).silent == 0
  {
    if rows != [] {
      var init := rows[..|rows| - 1];
      assert forall i :: 0 <= i < |init| ==> init[i] == rows[i];
      NothingSilent(init, plan, accepts, onFailure);
      StepNotSilent(TallyOf(init, plan, accepts, onFailure), plan(rows[|rows| - 1]), accepts, onFailure);
    }
  }

  lemma StepNotSilent(t: Tally, p: Plan, accepts: TxnRow -> bool, onFailure: Kind)
    requires onFailure != Silent && p != Skip(Silent)
    ensures Step(t, p, accepts, onFailure).silent == t.silent
  {
  }

  /** The counters and the INSERTs after one more row. */
  lemma OneMoreRow(rows: seq<Row>, i: nat, plan: Row -> Plan, accepts: TxnRow -> bool, onFailure: Kind)
    requires i < |rows|
    ensures TallyOf(rows[..i + 1], plan, accepts, onFailure) == Step(TallyOf(rows[..i], plan, accepts, onFailure), plan(rows[i]), accepts, onFailure)
    ensures Inserted(rows[..i + 1], plan, accepts) == Inserted(rows[..i], plan, accepts)
      + (if plan(rows[i]).Insert? && accepts(plan(rows[i]).r) then [plan(rows[i]).r] else [])
  {
    assert rows[..i + 1][..i] == rows[..i];
  }

  /**
   * The loop: each row's plan is carried out against the live connection,
   * the counters follow TallyOf and the pending INSERTs grow by Inserted.
   */
  method StoreRows(conn: Connection, rows: seq<Row>, plan: Row -> Plan, onFailure: Kind) returns (t: Tally)
    requires conn.live
    modifies conn
    ensures t == TallyOf(rows, plan, conn.accepts, onFailure)
    ensures conn.pending == old(conn.pending) + Inserted(rows, plan, conn.accepts)
    ensures conn.committed == old(conn.committed) && conn.commits == old(conn.commits)
    ensures conn.rollbacks == old(conn.rollbacks) && conn.aggregations == old(conn.aggregations)
    ensures conn.closed == old(conn.closed)
  {
    t := NoRows;
    var i := 0;
    while i < |rows|
      invariant 0 <= i <= |rows|
      invariant t == TallyOf(rows[..i], plan, conn.accepts, onFailure)
      invariant conn.pending == old(conn.pending) + Inserted(rows[..i], plan, conn.accepts)
      invariant conn.committed == old(conn.committed) && conn.commits == old(conn.commits)
      invariant conn.rollbacks == old(conn.rollbacks) && conn.aggregations == old(conn.aggregations)
      invariant conn.closed == old(conn.closed)
    {
      OneMoreRow(rows, i, plan, conn.accepts, onFailure);
      match plan(rows[i]) {
        case Insert(r) =>
          var ok := conn.Execute(r);
          if ok {
            t := t.(stored := t.stored + 1);
          } else {
            t := Skipped(t, onFailure);
          }
        case Skip(k) =>
          t := Skipped(t, k);
      }
      i := i + 1;
    }
    assert rows[..i] == rows;
  }
}
