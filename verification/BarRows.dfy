/**
 * Rows of one date partition, in file order, and the per-symbol view every reader of the partition has.
 * A security code is an integer with the order of its string.
 */
module BarRows {
  import opened Common

  type Symbol = int

  /** A bar or a tick: `prices` are open/high/low/close or the single trade price. */
  datatype Row = Row(symbol: Symbol, ts: int, prices: seq<real>, volume: int)

  function RowsOf(rows: seq<Row>, s: Symbol): seq<Row> {
    if rows == [] then []
    else
      var rest := RowsOf(rows[..|rows| - 1], s);
      if rows[|rows| - 1].symbol == s then rest + [rows[|rows| - 1]] else rest
  }

  function Without(rows: seq<Row>, dropped: set<Symbol>): (kept: seq<Row>) {
    if rows == [] then []
    else
      var rest := Without(rows[..|rows| - 1], dropped);
      if rows[|rows| - 1].symbol in dropped then rest else rest + [rows[|rows| - 1]]
  }

  function Symbols(rows: seq<Row>): set<Symbol> {
    set r | r in rows :: r.symbol
  }

  lemma {:induction false} RowsOfConcat(a: seq<Row>, b: seq<Row>, s: Symbol)
    ensures RowsOf(a + b, s) == RowsOf(a, s) + RowsOf(b, s)
  {
    if b == [] {
      assert a + b == a;
    } else {
      assert (a + b)[..|a + b| - 1] == a + b[..|b| - 1];
      RowsOfConcat(a, b[..|b| - 1], s);
    }
  }

  lemma {:induction false} WithoutConcat(a: seq<Row>, b: seq<Row>, dropped: set<Symbol>)
    ensures Without(a + b, dropped) == Without(a, dropped) + Without(b, dropped)
  {
    if b == [] {
      assert a + b == a;
    } else {
      assert (a + b)[..|a + b| - 1] == a + b[..|b| - 1];
      WithoutConcat(a, b[..|b| - 1], dropped);
    }
  }

  lemma {:induction false} RowsOfWithout(rows: seq<Row>, dropped: set<Symbol>, s: Symbol)
    ensures RowsOf(Without(rows, dropped), s) == if s in dropped then [] else RowsOf(rows, s)
  {
    if rows != [] {
      var n := |rows| - 1;
      RowsOfWithout(rows[..n], dropped, s);
      if rows[n].symbol !in dropped {
        RowsOfConcat(Without(rows[..n], dropped), [rows[n]], s);
        assert [rows[n]][..0] == [];
      }
    }
  }

  lemma {:induction false} WithoutSymbols(rows: seq<Row>, dropped: set<Symbol>)
    ensures Symbols(Without(rows, dropped)) == Symbols(rows) - dropped
    ensures Without(rows, dropped) == [] ==> Symbols(rows) <= dropped
  {
    if rows != [] {
      var n := |rows| - 1;
      WithoutSymbols(rows[..n], dropped);
      assert rows == rows[..n] + [rows[n]];
      assert Symbols(rows) == Symbols(rows[..n]) + {rows[n].symbol};
      var rest := Without(rows[..n], dropped);
      assert Symbols(rest + [rows[n]]) == Symbols(rest) + {rows[n].symbol};
    }
  }

  lemma {:induction false} RowsOfAbsent(rows: seq<Row>, s: Symbol)
    ensures RowsOf(rows, s) == [] <==> s !in Symbols(rows)
  {
    if rows != [] {
      var n := |rows| - 1;
      RowsOfAbsent(rows[..n], s);
      assert rows == rows[..n] + [rows[n]];
      assert Symbols(rows) == Symbols(rows[..n]) + {rows[n].symbol};
    }
  }

  lemma {:induction false} RowsOfOnly(rows: seq<Row>, s: Symbol)
    requires Symbols(rows) <= {s}
    ensures RowsOf(rows, s) == rows
  {
    if rows != [] {
      var n := |rows| - 1;
      assert rows == rows[..n] + [rows[n]];
      assert rows[n].symbol in Symbols(rows);
      assert Symbols(rows[..n]) <= Symbols(rows);
      RowsOfOnly(rows[..n], s);
    }
  }

  // ---- Reconciling bars: one row per (symbol, time) slot --------------------------------------------------

  predicate SlotBefore(a: Row, b: Row) {
    a.symbol < b.symbol || (a.symbol == b.symbol && a.ts < b.ts)
  }

  predicate SameSlot(a: Row, b: Row) {
    a.symbol == b.symbol && a.ts == b.ts
  }

  predicate Sorted(rows: seq<Row>) {
    forall i, j | 0 <= i < j < |rows| :: SlotBefore(rows[i], rows[j])
  }

  predicate Contradictory(rows: seq<Row>) {
    exists a, b | a in rows && b in rows :: SameSlot(a, b) && a != b
  }

  function InsertBar(rows: seq<Row>, r: Row): seq<Row> {
    if rows == [] || SlotBefore(rows[|rows| - 1], r) then rows + [r]
    else if SameSlot(rows[|rows| - 1], r) then rows
    else InsertBar(rows[..|rows| - 1], r) + [rows[|rows| - 1]]
  }

  /** `_deduplicate_bars` on a frame without contradictory slots: collapse duplicates and sort by slot. */
  function Reconciled(rows: seq<Row>): seq<Row> {
    if rows == [] then [] else InsertBar(Reconciled(rows[..|rows| - 1]), rows[|rows| - 1])
  }

  lemma {:induction false} InsertBarSorted(rows: seq<Row>, r: Row)
    requires Sorted(rows) && forall x | x in rows && SameSlot(x, r) :: x == r
    ensures Sorted(InsertBar(rows, r))
    ensures forall x :: x in InsertBar(rows, r) <==> x in rows || x == r
  {
    if rows == [] || SlotBefore(rows[|rows| - 1], r) {
    } else if SameSlot(rows[|rows| - 1], r) {
      assert rows[|rows| - 1] in rows;
    } else {
      var n := |rows| - 1;
      assert rows == rows[..n] + [rows[n]];
      assert forall x :: x in rows[..n] ==> x in rows;
      InsertBarSorted(rows[..n], r);
      var inner := InsertBar(rows[..n], r);
      forall x | x in inner
        ensures SlotBefore(x, rows[n])
      {
        LastIsLast(rows, x);
      }
      AppendLast(inner, rows[n]);
    }
  }

  lemma AppendLast(rows: seq<Row>, last: Row)
    requires Sorted(rows) && forall x | x in rows :: SlotBefore(x, last)
    ensures Sorted(rows + [last])
    ensures forall x :: x in rows + [last] <==> x in rows || x == last
  {
    assert forall i | 0 <= i < |rows| :: rows[i] in rows;
  }

  /** One pass keeps every row, drops every repetition, and leaves the slots strictly ascending. */
  lemma {:induction false} ReconciledSorted(rows: seq<Row>)
    requires !Contradictory(rows)
    ensures Sorted(Reconciled(rows))
    ensures forall x :: x in Reconciled(rows) <==> x in rows
  {
    if rows != [] {
      var n := |rows| - 1;
      assert rows == rows[..n] + [rows[n]];
      assert forall x :: x in rows[..n] ==> x in rows;
      assert !Contradictory(rows[..n]);
      ReconciledSorted(rows[..n]);
      assert rows[n] in rows;
      InsertBarSorted(Reconciled(rows[..n]), rows[n]);
    }
  }

  lemma LastIsLast(a: seq<Row>, x: Row)
    requires Sorted(a) && a != []
    ensures x in a ==> x == a[|a| - 1] || SlotBefore(x, a[|a| - 1])
    ensures x in a[..|a| - 1] <==> x in a && x != a[|a| - 1]
  {
    assert a == a[..|a| - 1] + [a[|a| - 1]];
  }

  lemma SortedUnique(a: seq<Row>, b: seq<Row>)
    requires Sorted(a) && Sorted(b) && forall x :: x in a <==> x in b
    ensures a == b
  {
    IncreasingUnique(SlotBefore, a, b);
  }

  lemma {:induction false} RowsOfSorted(rows: seq<Row>, s: Symbol)
    requires Sorted(rows)
    ensures Sorted(RowsOf(rows, s))
    ensures forall x :: x in RowsOf(rows, s) <==> x in rows && x.symbol == s
  {
    RowsOfMembers(rows, s);
    if rows != [] {
      var n := |rows| - 1;
      RowsOfSorted(rows[..n], s);
      assert forall i | 0 <= i < |RowsOf(rows[..n], s)| :: RowsOf(rows[..n], s)[i] in rows[..n];
    }
  }

  lemma {:induction false} RowsOfMembers(rows: seq<Row>, s: Symbol)
    ensures forall x :: x in RowsOf(rows, s) <==> x in rows && x.symbol == s
  {
    if rows != [] {
      var n := |rows| - 1;
      RowsOfMembers(rows[..n], s);
      assert rows == rows[..n] + [rows[n]];
    }
  }

  /** Reconciling a frame reconciles each symbol on its own: symbols cannot disturb each other. */
  lemma ReconcileBySymbol(rows: seq<Row>, s: Symbol)
    requires !Contradictory(rows)
    ensures !Contradictory(RowsOf(rows, s))
    ensures RowsOf(Reconciled(rows), s) == Reconciled(RowsOf(rows, s))
  {
    RowsOfMembers(rows, s);
    assert !Contradictory(RowsOf(rows, s));
    ReconciledSorted(rows);
    RowsOfSorted(Reconciled(rows), s);
    ReconciledSorted(RowsOf(rows, s));
    SortedUnique(RowsOf(Reconciled(rows), s), Reconciled(RowsOf(rows, s)));
  }
}
