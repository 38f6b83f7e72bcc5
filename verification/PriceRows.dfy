/**
 * Rows of one symbol's price history and the two operations both price pipelines share: putting rows in
 * date order and multiplying each row by the product of the later factors. Prices are exact reals.
 */
module PriceRows {
  import opened Common

  type Date = int

  /** `closeRaw` is None where the stored panel never recorded an unadjusted close. */
  datatype Row = Row(
    date: Date, open: real, high: real, low: real, close: real, prevClose: real,
    closeRaw: Option<real>, volume: real)

  function Dates(rows: seq<Row>): set<Date> {
    set r | r in rows :: r.date
  }

  predicate Ordered(rows: seq<Row>) {
    forall i, j | 0 <= i < j < |rows| :: rows[i].date < rows[j].date
  }

  predicate AllAfter(rows: seq<Row>, added: seq<Row>) {
    forall i, j | 0 <= i < |rows| && 0 <= j < |added| :: rows[i].date < added[j].date
  }

  /** An unadjusted row as the exchange publishes it: validated positive close and base price. */
  predicate IsRaw(r: Row) {
    r.closeRaw == Some(r.close) && r.close > 0.0 && r.prevClose > 0.0
  }

  predicate AllRaw(rows: seq<Row>) {
    forall r | r in rows :: IsRaw(r)
  }

  // ---- Sorting by date, last row of a date wins ---------------------------------------------------

  function InsertRow(rows: seq<Row>, r: Row): seq<Row> {
    if rows == [] || rows[|rows| - 1].date < r.date then rows + [r]
    else if rows[|rows| - 1].date == r.date then rows[..|rows| - 1] + [r]
    else InsertRow(rows[..|rows| - 1], r) + [rows[|rows| - 1]]
  }

  function InsertAll(rows: seq<Row>, added: seq<Row>): seq<Row> {
    if added == [] then rows else InsertRow(InsertAll(rows, added[..|added| - 1]), added[|added| - 1])
  }

  /** Rows of one date are the same row. */
  predicate OneRowPerDate(rows: seq<Row>) {
    forall x, y | x in rows && y in rows && x.date == y.date :: x == y
  }

  lemma {:induction false} InsertRowMembers(rows: seq<Row>, r: Row)
    ensures forall x :: x in InsertRow(rows, r) ==> x == r || x in rows
    ensures r in InsertRow(rows, r)
    ensures forall x :: x in rows && x.date != r.date ==> x in InsertRow(rows, r)
  {
    if rows != [] {
      var n := |rows| - 1;
      assert rows == rows[..n] + [rows[n]];
      if rows[n].date > r.date {
        InsertRowMembers(rows[..n], r);
      }
    }
  }

  lemma InPrefix(a: seq<Row>, x: Row)
    requires Ordered(a) && a != []
    ensures x in a[..|a| - 1] <==> x in a && x != a[|a| - 1]
    ensures x in a ==> x == a[|a| - 1] || x.date < a[|a| - 1].date
  {
    assert a == a[..|a| - 1] + [a[|a| - 1]];
  }

  lemma OrderedNext(rows: seq<Row>, last: Row)
    requires Ordered(rows) && forall x | x in rows :: x.date < last.date
    ensures Ordered(rows + [last])
  {
    assert forall i | 0 <= i < |rows| :: rows[i] in rows;
  }

  lemma {:induction false} InsertRowOrdered(rows: seq<Row>, r: Row)
    requires Ordered(rows)
    ensures Ordered(InsertRow(rows, r))
    ensures forall x :: x in InsertRow(rows, r) ==> x == r || x in rows
    ensures r in InsertRow(rows, r)
    ensures forall x :: x in rows && x.date != r.date ==> x in InsertRow(rows, r)
  {
    InsertRowMembers(rows, r);
    if rows == [] {
      OrderedNext(rows, r);
    } else {
      var n := |rows| - 1;
      forall x | x in rows
        ensures x == rows[n] || (x in rows[..n] && x.date < rows[n].date)
      {
        InPrefix(rows, x);
      }
      forall x | x in rows[..n]
        ensures x.date < rows[n].date
      {
        InPrefix(rows, x);
      }
      if rows[n].date < r.date {
        OrderedNext(rows, r);
      } else if rows[n].date == r.date {
        OrderedNext(rows[..n], r);
      } else {
        InsertRowOrdered(rows[..n], r);
        OrderedNext(InsertRow(rows[..n], r), rows[n]);
      }
    }
  }

  lemma {:induction false} InsertAllOrdered(rows: seq<Row>, added: seq<Row>)
    requires Ordered(rows) && forall f | f in added :: f.date !in Dates(rows)
    ensures Ordered(InsertAll(rows, added))
    ensures forall x :: x in InsertAll(rows, added) ==> x in rows || x in added
    ensures forall x :: x in rows ==> x in InsertAll(rows, added)
    ensures OneRowPerDate(added) ==> forall x :: x in added ==> x in InsertAll(rows, added)
  {
    if added != [] {
      var n := |added| - 1;
      assert added == added[..n] + [added[n]];
      InsertAllOrdered(rows, added[..n]);
      InsertRowOrdered(InsertAll(rows, added[..n]), added[n]);
      assert added[n] in added;
      assert forall x | x in rows :: x.date in Dates(rows);
    }
  }

  /** Inserting after rows of earlier dates leaves those alone. */
  lemma {:induction false} InsertRowAfter(base: seq<Row>, rows: seq<Row>, r: Row)
    requires forall x | x in base :: x.date < r.date
    ensures InsertRow(base + rows, r) == base + InsertRow(rows, r)
  {
    if rows == [] {
      assert base + rows == base;
    } else {
      var n := |rows| - 1;
      assert (base + rows)[..|base + rows| - 1] == base + rows[..n];
      if rows[n].date > r.date {
        InsertRowAfter(base, rows[..n], r);
      }
    }
  }

  lemma {:induction false} InsertAllAfter(base: seq<Row>, added: seq<Row>)
    requires AllAfter(base, added)
    ensures InsertAll(base, added) == base + InsertAll([], added)
  {
    if added != [] {
      var n := |added| - 1;
      InsertAllAfter(base, added[..n]);
      InsertRowAfter(base, InsertAll([], added[..n]), added[n]);
    }
  }

  lemma OrderedUnique(a: seq<Row>, b: seq<Row>)
    requires Ordered(a) && Ordered(b) && forall x :: x in a <==> x in b
    ensures a == b
  {
    IncreasingUnique((x: Row, y: Row) => x.date < y.date, a, b);
  }

  // ---- A stable sort by date, repeated dates kept --------------------------------------------------

  function PlaceRow(rows: seq<Row>, r: Row): seq<Row> {
    if rows == [] || rows[|rows| - 1].date <= r.date then rows + [r]
    else PlaceRow(rows[..|rows| - 1], r) + [rows[|rows| - 1]]
  }

  function SortByDate(rows: seq<Row>): seq<Row> {
    if rows == [] then [] else PlaceRow(SortByDate(rows[..|rows| - 1]), rows[|rows| - 1])
  }

  function RowsOn(rows: seq<Row>, d: Date): seq<Row> {
    if rows == [] then []
    else RowsOn(rows[..|rows| - 1], d) + (if rows[|rows| - 1].date == d then [rows[|rows| - 1]] else [])
  }

  predicate InDateOrder(rows: seq<Row>) {
    forall i, j | 0 <= i < j < |rows| :: rows[i].date <= rows[j].date
  }

  lemma RowsOnNext(rows: seq<Row>, r: Row, d: Date)
    ensures RowsOn(rows + [r], d) == RowsOn(rows, d) + (if r.date == d then [r] else [])
  {
    assert (rows + [r])[..|rows|] == rows;
  }

  lemma {:induction false} PlaceRowAdds(rows: seq<Row>, r: Row)
    ensures multiset(PlaceRow(rows, r)) == multiset(rows) + multiset{r}
    ensures forall x :: x in PlaceRow(rows, r) <==> x in rows || x == r
  {
    if rows != [] && rows[|rows| - 1].date > r.date {
      PlaceRowAdds(rows[..|rows| - 1], r);
      assert rows == rows[..|rows| - 1] + [rows[|rows| - 1]];
    }
  }

  lemma InDateOrderNext(rows: seq<Row>, last: Row)
    requires InDateOrder(rows) && forall x | x in rows :: x.date <= last.date
    ensures InDateOrder(rows + [last])
  {
    assert forall i | 0 <= i < |rows| :: rows[i] in rows;
  }

  lemma {:induction false} PlaceRowKeepsOrder(rows: seq<Row>, r: Row)
    requires InDateOrder(rows)
    ensures InDateOrder(PlaceRow(rows, r))
  {
    if rows == [] {
    } else if rows[|rows| - 1].date <= r.date {
      assert forall x | x in rows :: x.date <= rows[|rows| - 1].date;
      InDateOrderNext(rows, r);
    } else {
      var before, last := rows[..|rows| - 1], rows[|rows| - 1];
      PlaceRowKeepsOrder(before, r);
      PlaceRowAdds(before, r);
      assert forall x | x in before :: x.date <= last.date;
      InDateOrderNext(PlaceRow(before, r), last);
    }
  }

  lemma {:induction false} PlaceRowIsStable(rows: seq<Row>, r: Row, d: Date)
    ensures RowsOn(PlaceRow(rows, r), d) == RowsOn(rows, d) + (if r.date == d then [r] else [])
  {
    if rows == [] || rows[|rows| - 1].date <= r.date {
      RowsOnNext(rows, r, d);
    } else {
      var before, last := rows[..|rows| - 1], rows[|rows| - 1];
      PlaceRowIsStable(before, r, d);
      RowsOnNext(PlaceRow(before, r), last, d);
    }
  }

  /** The sort is a permutation in date order that keeps the rows of one date in the order given. */
  lemma {:induction false} SortByDateIsStable(rows: seq<Row>, d: Date)
    ensures InDateOrder(SortByDate(rows)) && multiset(SortByDate(rows)) == multiset(rows)
    ensures RowsOn(SortByDate(rows), d) == RowsOn(rows, d)
  {
    if rows != [] {
      var n := |rows| - 1;
      assert rows == rows[..n] + [rows[n]];
      SortByDateIsStable(rows[..n], d);
      PlaceRowAdds(SortByDate(rows[..n]), rows[n]);
      PlaceRowKeepsOrder(SortByDate(rows[..n]), rows[n]);
      PlaceRowIsStable(SortByDate(rows[..n]), rows[n], d);
    }
  }

  lemma {:induction false} SortOfOrdered(rows: seq<Row>)
    requires Ordered(rows)
    ensures SortByDate(rows) == rows
  {
    if rows != [] {
      var n := |rows| - 1;
      SortOfOrdered(rows[..n]);
      assert rows == rows[..n] + [rows[n]];
    }
  }

  predicate IsLastOn(rows: seq<Row>, x: Row) {
    var same := RowsOn(rows, x.date);
    same != [] && x == same[|same| - 1]
  }

  /** Of the rows of one date the last one given is kept. */
  lemma {:induction false} LastOfDateIsKept(added: seq<Row>, x: Row)
    ensures Ordered(InsertAll([], added))
    ensures x in InsertAll([], added) <==> IsLastOn(added, x)
  {
    if added != [] {
      var n := |added| - 1;
      LastOfDateIsKept(added[..n], x);
      InsertRowReplaces(InsertAll([], added[..n]), added[n], x);
      LastOnNext(added[..n], added[n], x);
      assert added == added[..n] + [added[n]];
    }
  }

  lemma LastOnNext(rows: seq<Row>, r: Row, x: Row)
    ensures IsLastOn(rows + [r], x) <==> if r.date == x.date then x == r else IsLastOn(rows, x)
  {
    RowsOnNext(rows, r, x.date);
  }

  lemma InsertRowReplaces(rows: seq<Row>, r: Row, x: Row)
    requires Ordered(rows)
    ensures Ordered(InsertRow(rows, r))
    ensures x in InsertRow(rows, r) <==> if x.date == r.date then x == r else x in rows
  {
    InsertRowOrdered(rows, r);
    if x.date == r.date {
      OneOfDate(InsertRow(rows, r), r, x);
    }
  }

  lemma OneOfDate(rows: seq<Row>, a: Row, b: Row)
    requires Ordered(rows) && a in rows && a.date == b.date
    ensures b in rows <==> b == a
  {
  }

  // ---- Products of later factors --------------------------------------------------------------------

  function ProductFrom(f: seq<real>, lo: nat): real
    requires lo <= |f|
    decreases |f| - lo
  {
    if lo == |f| then 1.0 else f[lo] * ProductFrom(f, lo + 1)
  }

  lemma {:induction false} ProductOfConcat(f: seq<real>, g: seq<real>, lo: nat)
    requires lo <= |f|
    ensures ProductFrom(f + g, lo) == ProductFrom(f, lo) * ProductFrom(g, 0)
    decreases |f| - lo
  {
    if lo == |f| {
      ProductOfTail(f, g, 0);
    } else {
      ProductOfConcat(f, g, lo + 1);
      assert f[lo] * (ProductFrom(f, lo + 1) * ProductFrom(g, 0)) ==
          (f[lo] * ProductFrom(f, lo + 1)) * ProductFrom(g, 0);
    }
  }

  lemma {:induction false} ProductOfTail(f: seq<real>, g: seq<real>, k: nat)
    requires k <= |g|
    ensures ProductFrom(f + g, |f| + k) == ProductFrom(g, k)
    decreases |g| - k
  {
    if k < |g| {
      ProductOfTail(f, g, k + 1);
    }
  }

  lemma {:induction false} ProductOfOnes(f: seq<real>, lo: nat)
    requires lo <= |f| && forall i | lo <= i < |f| :: f[i] == 1.0
    ensures ProductFrom(f, lo) == 1.0
    decreases |f| - lo
  {
    if lo < |f| { ProductOfOnes(f, lo + 1); }
  }

  lemma {:induction false} ProductPositive(f: seq<real>, lo: nat)
    requires lo <= |f| && forall i | 0 <= i < |f| :: f[i] > 0.0
    ensures ProductFrom(f, lo) > 0.0
    decreases |f| - lo
  {
    if lo < |f| { ProductPositive(f, lo + 1); }
  }

  /** Volume and the unadjusted close are never scaled. */
  function ScaleRow(r: Row, x: real): Row {
    r.(open := r.open * x, high := r.high * x, low := r.low * x, close := r.close * x, prevClose := r.prevClose * x)
  }

  lemma ScaleTwice(r: Row, x: real, y: real)
    ensures ScaleRow(ScaleRow(r, x), y) == ScaleRow(r, x * y)
    ensures ScaleRow(r, 1.0) == r
  {
    TimesTwice(r.open, x, y);
    TimesTwice(r.high, x, y);
    TimesTwice(r.low, x, y);
    TimesTwice(r.close, x, y);
    TimesTwice(r.prevClose, x, y);
  }

  lemma TimesTwice(a: real, x: real, y: real)
    ensures a * x * y == a * (x * y)
  {
  }

  /** Every row times the product of the factors strictly after it. */
  function Adjusted(rows: seq<Row>, factors: seq<real>): seq<Row>
    requires |rows| == |factors|
  {
    seq(|rows|, i requires 0 <= i < |rows| => ScaleRow(rows[i], ProductFrom(factors, i + 1)))
  }

  lemma AdjustedShape(rows: seq<Row>, factors: seq<real>)
    requires |rows| == |factors|
    ensures |Adjusted(rows, factors)| == |rows|
    ensures forall i | 0 <= i < |rows| :: Adjusted(rows, factors)[i].date == rows[i].date
    ensures forall i | 0 <= i < |rows| :: Adjusted(rows, factors)[i].closeRaw == rows[i].closeRaw
  {
  }

  /**
   * The reverse cumulative product divided by each row's own factor: the product of the later factors. Where the
   * own factor is zero the source divides zero by zero; that undefined scale is None.
   */
  method ScaleColumn(factors: seq<real>) returns (scale: seq<Option<real>>)
    ensures |scale| == |factors|
    ensures forall i | 0 <= i < |factors| :: scale[i] == LaterScale(factors, i)
  {
    var rev := 1.0;
    scale := [];
    var i := |factors|;
    while i > 0
      invariant 0 <= i <= |factors|
      invariant rev == ProductFrom(factors, i)
      invariant |scale| == |factors| - i
      invariant forall k | i <= k < |factors| :: scale[k - i] == LaterScale(factors, k)
    {
      i := i - 1;
      ghost var before, later := scale, rev;
      assert later == ProductFrom(factors, i + 1);
      rev := rev * factors[i];
      var own := None;
      if factors[i] != 0.0 {
        own := Some(rev / factors[i]);
        DivideBack(later, factors[i], rev);
      }
      scale := [own] + scale;
      assert forall k | 0 < k < |scale| :: scale[k] == before[k - 1];
    }
  }

  function LaterScale(factors: seq<real>, i: nat): Option<real>
    requires i < |factors|
  {
    if factors[i] == 0.0 then None else Some(ProductFrom(factors, i + 1))
  }

  lemma DivideBack(x: real, f: real, y: real)
    requires f != 0.0 && y == x * f
    ensures y / f == x
  {
  }

  function Rescaled(r: Row, scale: Option<real>): Row {
    if scale.None? then r else ScaleRow(r, scale.value)
  }

  /** Assign the scaled price columns of every touched row; a row of undefined scale keeps no price and stays aside. */
  method ScaleInPlace(work: array<Row>, scale: seq<Option<real>>)
    requires work.Length == |scale|
    modifies work
    ensures forall i | 0 <= i < |scale| :: work[i] == Rescaled(old(work[i]), scale[i])
  {
    for i := 0 to work.Length
      invariant forall j | i <= j < work.Length :: work[j] == old(work[j])
      invariant forall j | 0 <= j < i :: work[j] == Rescaled(old(work[j]), scale[j])
    {
      if scale[i].Some? && scale[i] != Some(1.0) {
        work[i] := ScaleRow(work[i], scale[i].value);
      } else {
        RescaledByOne(work[i], scale[i]);
      }
    }
  }

  lemma RescaledByOne(r: Row, scale: Option<real>)
    requires scale.None? || scale == Some(1.0)
    ensures Rescaled(r, scale) == r
  {
    ScaleTwice(r, 1.0, 1.0);
  }
}
