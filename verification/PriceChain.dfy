/**
 * The back-adjusted price chain, computed two ways: `MergeGroup` retro-scales a stored panel each time tail
 * rows arrive (src/daily/price_ingest.py), `RebuildGroup` derives everything from the whole unadjusted
 * history in one batch (src/backfill/krx_panel_rebuild.py). A group is the rows of one symbol.
 */
module PriceChain {
  import opened Common
  import opened PriceRows

  const PRICE_EVENT_TOLERANCE := 0.5

  /** `p` is the trading day immediately before `d` in the calendar. */
  predicate IsPreviousDay(calendar: set<Date>, p: Date, d: Date) {
    p in calendar && p < d && forall c | c in calendar :: !(p < c < d)
  }

  predicate IsEvent(calendar: set<Date>, prior: Row, row: Row) {
    && IsPreviousDay(calendar, prior.date, row.date)
    && prior.close > 0.0
    && (row.prevClose - prior.close > PRICE_EVENT_TOLERANCE || prior.close - row.prevClose > PRICE_EVENT_TOLERANCE)
  }

  function Factor(calendar: set<Date>, rows: seq<Row>, added: set<Date>, i: nat): real
    requires i < |rows|
  {
    if i > 0 && rows[i].date in added && IsEvent(calendar, rows[i - 1], rows[i])
    then rows[i].prevClose / rows[i - 1].close
    else 1.0
  }

  function Factors(calendar: set<Date>, rows: seq<Row>, added: set<Date>): (f: seq<real>)
    ensures |f| == |rows|
  {
    seq(|rows|, i requires 0 <= i < |rows| => Factor(calendar, rows, added, i))
  }

  function FillRaw(r: Row): Row {
    if r.closeRaw.None? then r.(closeRaw := Some(r.close)) else r
  }

  function FillAll(rows: seq<Row>): seq<Row> {
    seq(|rows|, i requires 0 <= i < |rows| => FillRaw(rows[i]))
  }

  function MergedRows(stored: seq<Row>, added: seq<Row>): seq<Row> {
    InsertAll(FillAll(stored), FillAll(added))
  }

  function MergeGroup(calendar: set<Date>, stored: seq<Row>, added: seq<Row>): seq<Row> {
    var rows := MergedRows(stored, added);
    Adjusted(rows, Factors(calendar, rows, Dates(added)))
  }

  /** The unadjusted close of a raw row is its close. */
  function KeepRaw(rows: seq<Row>): seq<Row> {
    seq(|rows|, i requires 0 <= i < |rows| => rows[i].(closeRaw := Some(rows[i].close)))
  }

  function RawFrame(raw: seq<Row>): seq<Row> {
    KeepRaw(SortByDate(raw))
  }

  function RebuildGroup(calendar: set<Date>, raw: seq<Row>): seq<Row> {
    var rows := RawFrame(raw);
    Adjusted(rows, Factors(calendar, rows, Dates(rows)))
  }

  // ---- Shape of the merged frame ------------------------------------------------------------------------

  lemma SortedAfter(base: seq<Row>, added: seq<Row>)
    requires Ordered(base) && AllAfter(base, added)
    ensures Ordered(InsertAll([], added)) && forall x :: x in InsertAll([], added) ==> x in added
    ensures InsertAll(base, added) == base + InsertAll([], added)
  {
    InsertAllOrdered([], added);
    InsertAllAfter(base, added);
  }

  lemma SortedAlready(rows: seq<Row>)
    requires Ordered(rows)
    ensures InsertAll([], rows) == rows && RawFrame(rows) == KeepRaw(rows)
    ensures AllRaw(rows) ==> RawFrame(rows) == rows
  {
    InsertAllOrdered([], rows);
    OrderedUnique(InsertAll([], rows), rows);
    SortOfOrdered(rows);
    assert forall i | 0 <= i < |rows| :: rows[i] in rows;
  }

  /** Stored rows come first, still without an added date; the added rows follow in date order. */
  lemma MergedSplit(stored: seq<Row>, added: seq<Row>)
    requires Ordered(stored) && AllAfter(stored, added)
    ensures var rows := MergedRows(stored, added);
            && rows == FillAll(stored) + InsertAll([], FillAll(added))
            && (forall i | 0 <= i < |stored| :: rows[i].date !in Dates(added))
            && (forall i | |stored| <= i < |rows| :: rows[i].date in Dates(added) && rows[i] in FillAll(added))
  {
    assert forall i | 0 <= i < |added| :: FillAll(added)[i].date == added[i].date;
    assert forall i | 0 <= i < |stored| :: FillAll(stored)[i].date == stored[i].date;
    SortedAfter(FillAll(stored), FillAll(added));
    var sorted := InsertAll([], FillAll(added));
    forall i | 0 <= i < |sorted|
      ensures sorted[i].date in Dates(added)
    {
      assert sorted[i] in FillAll(added);
      var k :| 0 <= k < |added| && FillAll(added)[k] == sorted[i];
      assert added[k] in added;
    }
  }

  // ---- The frames as the source updates them -----------------------------------------------------------

  datatype PriceEvent = PriceEvent(date: Date, factor: real)

  /** Row `i` is the first day of a corporate action. */
  predicate IsEventRow(calendar: set<Date>, rows: seq<Row>, added: set<Date>, i: nat)
    requires i < |rows|
  {
    i > 0 && rows[i].date in added && IsEvent(calendar, rows[i - 1], rows[i])
  }

  function EventOn(rows: seq<Row>, i: nat): PriceEvent
    requires 0 < i < |rows| && rows[i - 1].close != 0.0
  {
    PriceEvent(rows[i].date, rows[i].prevClose / rows[i - 1].close)
  }

  /** A corporate action with a zero base price leaves its own row without a defined scale. */
  predicate Undefined(calendar: set<Date>, rows: seq<Row>, added: set<Date>, i: nat)
    requires i < |rows|
  {
    IsEventRow(calendar, rows, added, i) && rows[i].prevClose == 0.0
  }

  method FactorColumn(calendar: set<Date>, rows: seq<Row>, added: set<Date>)
    returns (factors: seq<real>, events: seq<PriceEvent>)
    ensures factors == Factors(calendar, rows, added)
    ensures forall e | e in events ::
              exists i: nat | i < |rows| :: IsEventRow(calendar, rows, added, i) && e == EventOn(rows, i)
    ensures forall i: nat | i < |rows| && IsEventRow(calendar, rows, added, i) :: EventOn(rows, i) in events
  {
    factors, events := [], [];
    for i := 0 to |rows|
      invariant |factors| == i && forall k | 0 <= k < i :: factors[k] == Factor(calendar, rows, added, k)
      invariant forall e | e in events ::
                  exists k: nat | k < |rows| :: IsEventRow(calendar, rows, added, k) && e == EventOn(rows, k)
      invariant forall k: nat | k < i && IsEventRow(calendar, rows, added, k) :: EventOn(rows, k) in events
    {
      if i > 0 && rows[i].date in added && IsEvent(calendar, rows[i - 1], rows[i]) {
        var factor := rows[i].prevClose / rows[i - 1].close;
        factors := factors + [factor];
        events := events + [PriceEvent(rows[i].date, factor)];
        assert IsEventRow(calendar, rows, added, i) && PriceEvent(rows[i].date, factor) == EventOn(rows, i);
      } else {
        factors := factors + [1.0];
      }
    }
  }

  lemma ZeroFactor(calendar: set<Date>, rows: seq<Row>, added: set<Date>, i: nat)
    requires i < |rows|
    ensures Factor(calendar, rows, added, i) == 0.0 <==> Undefined(calendar, rows, added, i)
  {
    if IsEventRow(calendar, rows, added, i) {
      QuotientIsZero(rows[i].prevClose, rows[i - 1].close);
    }
  }

  lemma QuotientIsZero(x: real, y: real)
    requires y > 0.0
    ensures x / y == 0.0 <==> x == 0.0
  {
    assert x / y * y == x;
  }

  /** The reverse cumulative product and the column assignments, on a working copy of the frame. */
  method AdjustFrame(calendar: set<Date>, rows: seq<Row>, added: set<Date>, factors: seq<real>)
    returns (out: seq<Row>, scale: seq<Option<real>>)
    requires factors == Factors(calendar, rows, added)
    ensures |out| == |scale| == |rows|
    ensures forall i | 0 <= i < |rows| ::
              if Undefined(calendar, rows, added, i) then scale[i].None?
              else scale[i] == Some(ProductFrom(factors, i + 1)) && out[i] == Adjusted(rows, factors)[i]
  {
    scale := ScaleColumn(factors);
    var work := new Row[|rows|](i requires 0 <= i < |rows| => rows[i]);
    assert work[..] == rows;
    ScaleInPlace(work, scale);
    out := work[..];
    forall i | 0 <= i < |rows|
      ensures factors[i] == 0.0 <==> Undefined(calendar, rows, added, i)
    {
      ZeroFactor(calendar, rows, added, i);
    }
  }

  /** What a row of the merge is, by whether its date was added. */
  lemma MaskAt(calendar: set<Date>, stored: seq<Row>, added: seq<Row>, i: nat)
    requires Ordered(stored) && AllAfter(stored, added) && i < |MergedRows(stored, added)|
    ensures var rows := MergedRows(stored, added);
            var factors := Factors(calendar, rows, Dates(added));
            if rows[i].date in Dates(added) then i >= |stored|
            else
              && i < |stored| && !Undefined(calendar, rows, Dates(added), i)
              && (ProductFrom(factors, i + 1) == 1.0 ==> Adjusted(rows, factors)[i] == FillRaw(stored[i]))
  {
    MergedSplit(stored, added);
    ScaleTwice(MergedRows(stored, added)[i], 1.0, 1.0);
  }

  /** `merge_and_adjust` on one symbol: merged rows, corporate-action events, the changed-row mask, and the scales. */
  method MergeAndAdjust(calendar: set<Date>, stored: seq<Row>, added: seq<Row>)
    returns (merged: seq<Row>, events: seq<PriceEvent>, changed: seq<bool>, scale: seq<Option<real>>)
    requires Ordered(stored) && AllAfter(stored, added)
    ensures |merged| == |changed| == |scale| == |MergeGroup(calendar, stored, added)|
    ensures forall i | 0 <= i < |merged| ::
              if Undefined(calendar, MergedRows(stored, added), Dates(added), i) then scale[i].None? && changed[i]
              else scale[i].Some? && merged[i] == MergeGroup(calendar, stored, added)[i]
    ensures forall i | 0 <= i < |merged| && !changed[i] ::
              i < |stored| && merged[i] == FillRaw(stored[i]) && (merged[i] == stored[i] <==> stored[i].closeRaw.Some?)
    ensures forall i | 0 <= i < |merged| && changed[i] :: i >= |stored| || (scale[i].Some? && scale[i] != Some(1.0))
    ensures forall e | e in events ::
              exists i: nat | i < |merged| ::
                IsEventRow(calendar, MergedRows(stored, added), Dates(added), i)
                && e == EventOn(MergedRows(stored, added), i)
    ensures forall i: nat | i < |merged| && IsEventRow(calendar, MergedRows(stored, added), Dates(added), i) ::
              EventOn(MergedRows(stored, added), i) in events
  {
    var rows := MergedRows(stored, added);
    var factors;
    factors, events := FactorColumn(calendar, rows, Dates(added));
    merged, scale := AdjustFrame(calendar, rows, Dates(added), factors);
    changed := seq(|rows|, i requires 0 <= i < |rows| => rows[i].date in Dates(added) || scale[i] != Some(1.0));
    forall i | 0 <= i < |rows|
      ensures if rows[i].date in Dates(added) then i >= |stored|
              else
                && i < |stored| && scale[i].Some?
                && (scale[i] == Some(1.0) ==> merged[i] == FillRaw(stored[i]))
    {
      MaskAt(calendar, stored, added, i);
    }
  }

  /** A row that is neither new nor rescaled, and so outside the changed mask, is rewritten all the same. */
  lemma RawFillOutsideTheMask()
    ensures var row := Row(1, 10.0, 10.0, 10.0, 10.0, 10.0, None, 5.0);
            && Ordered([row]) && AllAfter([row], []) && row.date !in Dates([])
            && ProductFrom(Factors({}, MergedRows([row], []), Dates([])), 1) == 1.0
            && MergeGroup({}, [row], []) == [row.(closeRaw := Some(10.0))]
  {
    var row := Row(1, 10.0, 10.0, 10.0, 10.0, 10.0, None, 5.0);
    assert MergedRows([row], []) == [FillRaw(row)];
    assert FillAll([]) == [];
    ScaleTwice(FillRaw(row), 1.0, 1.0);
  }

  /** `derive_adjusted_prices` on one symbol of the unadjusted history, and the scale of each row. */
  method DeriveAdjustedPrices(calendar: set<Date>, raw: seq<Row>) returns (out: seq<Row>, scale: seq<Option<real>>)
    ensures |out| == |scale| == |RebuildGroup(calendar, raw)|
    ensures forall i | 0 <= i < |out| ::
              if Undefined(calendar, RawFrame(raw), Dates(RawFrame(raw)), i) then scale[i].None?
              else scale[i].Some? && out[i] == RebuildGroup(calendar, raw)[i]
  {
    var rows := RawFrame(raw);
    var factors, _ := FactorColumn(calendar, rows, Dates(rows));
    out, scale := AdjustFrame(calendar, rows, Dates(rows), factors);
  }

  // ---- Incremental ingestion equals one batch rebuild -----------------------------------------------------

  predicate Agree(a: set<Date>, b: set<Date>, lo: Date, hi: Date) {
    forall d | lo <= d <= hi :: d in a <==> d in b
  }

  lemma FactorsOfAgreeing(a: set<Date>, b: set<Date>, rows: seq<Row>, added: set<Date>)
    requires Ordered(rows) && (rows != [] ==> Agree(a, b, rows[0].date, rows[|rows| - 1].date))
    ensures Factors(a, rows, added) == Factors(b, rows, added)
  {
    forall i | 0 < i < |rows|
      ensures IsPreviousDay(a, rows[i - 1].date, rows[i].date) <==> IsPreviousDay(b, rows[i - 1].date, rows[i].date)
    {
      assert rows[0].date <= rows[i - 1].date < rows[i].date <= rows[|rows| - 1].date;
    }
  }

  lemma FilledAlready(rows: seq<Row>)
    requires forall i | 0 <= i < |rows| :: rows[i].closeRaw.Some?
    ensures FillAll(rows) == rows
  {
  }

  function Ones(n: nat): (f: seq<real>)
    ensures |f| == n && forall i | 0 <= i < n :: f[i] == 1.0
  {
    seq(n, _ => 1.0)
  }

  /** The last stored row is never scaled, so the next base price is compared with an unadjusted close. */
  lemma LastRowIsUnscaled(calendar: set<Date>, raw: seq<Row>)
    requires Ordered(raw) && raw != []
    ensures |RebuildGroup(calendar, raw)| == |raw|
    ensures RebuildGroup(calendar, raw)[|raw| - 1] == raw[|raw| - 1].(closeRaw := Some(raw[|raw| - 1].close))
  {
    SortedAlready(raw);
    ScaleTwice(KeepRaw(raw)[|raw| - 1], 1.0, 1.0);
  }

  lemma SameFactor(calendar: set<Date>, rows: seq<Row>, added: set<Date>, i: nat, rows': seq<Row>, added': set<Date>,
      i': nat)
    requires i < |rows| && i' < |rows'| && (i == 0 <==> i' == 0)
    requires rows[i] == rows'[i'] && (rows[i].date in added <==> rows[i].date in added')
    requires i > 0 ==> rows[i - 1].close == rows'[i' - 1].close && rows[i - 1].date == rows'[i' - 1].date
    ensures Factor(calendar, rows, added, i) == Factor(calendar, rows', added', i')
  {
  }

  /** The factors of a prefix do not depend on what follows. */
  lemma PrefixFactors(calendar: set<Date>, a: seq<Row>, tail: seq<Row>)
    ensures Factors(calendar, a + tail, Dates(a + tail))[..|a|] == Factors(calendar, a, Dates(a))
  {
    var h := a + tail;
    forall i | 0 <= i < |a|
      ensures Factor(calendar, h, Dates(h), i) == Factor(calendar, a, Dates(a), i)
    {
      assert h[i] == a[i] && h[i] in h && a[i] in a;
      assert i > 0 ==> h[i - 1] == a[i - 1];
      SameFactor(calendar, h, Dates(h), i, a, Dates(a), i);
    }
  }

  /** After an unscaled last row the factors are 1 on the stored rows and the raw history's own on the tail. */
  lemma FactorsAfter(calendar: set<Date>, kept: seq<Row>, a: seq<Row>, tail: seq<Row>, added: set<Date>)
    requires |kept| == |a| && forall i | 0 <= i < |a| :: kept[i].date == a[i].date && a[i].date !in added
    requires forall i | 0 <= i < |tail| :: tail[i].date in added
    requires a != [] ==> kept[|a| - 1] == a[|a| - 1]
    ensures Factors(calendar, kept + tail, added) == Ones(|a|) + Factors(calendar, a + tail, Dates(a + tail))[|a|..]
  {
    var h, merged := a + tail, kept + tail;
    forall i | 0 <= i < |merged|
      ensures Factor(calendar, merged, added, i) == (Ones(|a|) + Factors(calendar, h, Dates(h))[|a|..])[i]
    {
      if i >= |a| {
        assert merged[i] == h[i] && h[i] in h;
        assert i > |a| ==> merged[i - 1] == h[i - 1];
        SameFactor(calendar, merged, added, i, h, Dates(h), i);
      }
    }
  }

  lemma RebuiltShape(calendar: set<Date>, a: seq<Row>)
    requires Ordered(a) && AllRaw(a)
    ensures |RebuildGroup(calendar, a)| == |a|
    ensures forall i | 0 <= i < |a| ::
              RebuildGroup(calendar, a)[i].date == a[i].date && RebuildGroup(calendar, a)[i].closeRaw == a[i].closeRaw
  {
    SortedAlready(a);
    AdjustedShape(a, Factors(calendar, a, Dates(a)));
  }

  /** The factors of a merge are 1 on stored rows and the rebuild's own on the tail. */
  lemma MergeFactors(calendar: set<Date>, a: seq<Row>, tail: seq<Row>, added: set<Date>)
    requires Ordered(a) && AllRaw(a)
    requires forall i | 0 <= i < |a| :: a[i].date !in added
    requires forall i | 0 <= i < |tail| :: tail[i].date in added
    ensures |RebuildGroup(calendar, a)| == |a|
    ensures var h := a + tail;
            Factors(calendar, RebuildGroup(calendar, a) + tail, added) ==
                Ones(|a|) + Factors(calendar, h, Dates(h))[|a|..]
  {
    RebuiltShape(calendar, a);
    if a != [] {
      LastRowIsUnscaled(calendar, a);
      assert IsRaw(a[|a| - 1]);
    }
    FactorsAfter(calendar, RebuildGroup(calendar, a), a, tail, added);
  }

  /** The halves of an ordered history are ordered, and rows taken from the second half come after the first. */
  lemma SplitHistory(a: seq<Row>, tail: seq<Row>, added: seq<Row>)
    requires Ordered(a + tail) && forall x :: x in added <==> x in tail
    ensures Ordered(a) && Ordered(tail) && AllAfter(a, added)
    ensures forall i | 0 <= i < |a| :: a[i].date !in Dates(added)
  {
    var h := a + tail;
    assert forall i | 0 <= i < |a| :: a[i] == h[i];
    assert forall i | 0 <= i < |tail| :: tail[i] == h[|a| + i];
    forall i, j | 0 <= i < |a| && 0 <= j < |added|
      ensures a[i].date < added[j].date
    {
      assert added[j] in tail;
      var k :| 0 <= k < |tail| && tail[k] == added[j];
      assert h[i].date < h[|a| + k].date;
    }
  }

  lemma MergedWithRebuilt(a: seq<Row>, adjusted: seq<Row>, tail: seq<Row>, added: seq<Row>)
    requires Ordered(a + tail) && AllRaw(a + tail)
    requires forall x :: x in added <==> x in tail
    requires |adjusted| == |a|
    requires forall i | 0 <= i < |a| :: adjusted[i].date == a[i].date && adjusted[i].closeRaw == a[i].closeRaw
    ensures MergedRows(adjusted, added) == adjusted + tail
  {
    SplitHistory(a, tail, added);
    assert forall i | 0 <= i < |a| :: a[i] in a + tail;
    FilledAlready(adjusted);
    assert forall i | 0 <= i < |added| :: added[i] in tail && IsRaw(added[i]);
    FilledAlready(added);
    SortedAfter(adjusted, added);
    assert OneRowPerDate(added) by {
      assert forall x, y | x in tail && y in tail && x.date == y.date :: x == y;
    }
    InsertAllOrdered([], added);
    OrderedUnique(InsertAll([], added), tail);
  }

  lemma ScaleInTwoSteps(r: Row, x: real, y: real, z: real)
    requires z == x * y
    ensures ScaleRow(ScaleRow(r, x), y) == ScaleRow(r, z)
  {
    ScaleTwice(r, x, y);
  }

  lemma AdjustedTwiceAt(a: seq<Row>, tail: seq<Row>, head: seq<real>, rest: seq<real>, i: nat)
    requires |head| == |a| && |rest| == |tail| && i < |a|
    ensures Adjusted(Adjusted(a, head) + tail, Ones(|a|) + rest)[i] == Adjusted(a + tail, head + rest)[i]
  {
    SameScale(a, head, rest, i);
    ScaleInTwoSteps(a[i], ProductFrom(head, i + 1), ProductFrom(Ones(|a|) + rest, i + 1),
        ProductFrom(head + rest, i + 1));
  }

  lemma AdjustedTwice(a: seq<Row>, tail: seq<Row>, head: seq<real>, rest: seq<real>)
    requires |head| == |a| && |rest| == |tail|
    ensures Adjusted(Adjusted(a, head) + tail, Ones(|a|) + rest) == Adjusted(a + tail, head + rest)
  {
    var left, right := Adjusted(Adjusted(a, head) + tail, Ones(|a|) + rest), Adjusted(a + tail, head + rest);
    forall i | 0 <= i < |left|
      ensures left[i] == right[i]
    {
      SameScale(a, head, rest, i);
      if i < |a| { AdjustedTwiceAt(a, tail, head, rest, i); }
    }
  }

  lemma FactorsOntoRebuilt(calendar: set<Date>, a: seq<Row>, tail: seq<Row>, added: seq<Row>)
    requires Ordered(a + tail) && AllRaw(a) && forall x :: x in added <==> x in tail
    ensures |RebuildGroup(calendar, a)| == |a|
    ensures Factors(calendar, RebuildGroup(calendar, a) + tail, Dates(added))
            == Ones(|a|) + Factors(calendar, a + tail, Dates(a + tail))[|a|..]
  {
    SplitHistory(a, tail, added);
    assert forall i | 0 <= i < |tail| :: tail[i] in added;
    MergeFactors(calendar, a, tail, Dates(added));
  }

  lemma MergeOntoRebuilt(calendar: set<Date>, a: seq<Row>, tail: seq<Row>, added: seq<Row>)
    requires Ordered(a + tail) && AllRaw(a + tail)
    requires forall x :: x in added <==> x in tail
    ensures |RebuildGroup(calendar, a)| == |a|
    ensures MergedRows(RebuildGroup(calendar, a), added) == RebuildGroup(calendar, a) + tail
  {
    SplitHistory(a, tail, added);
    assert forall x | x in a :: x in a + tail;
    RebuiltShape(calendar, a);
    MergedWithRebuilt(a, RebuildGroup(calendar, a), tail, added);
  }

  /** Ingesting tail rows on top of a rebuilt panel gives the rebuild of the longer history. */
  lemma MergeExtendsRebuild(calendar: set<Date>, a: seq<Row>, tail: seq<Row>, added: seq<Row>)
    requires Ordered(a + tail) && AllRaw(a + tail)
    requires forall x :: x in added <==> x in tail
    ensures MergeGroup(calendar, RebuildGroup(calendar, a), added) == RebuildGroup(calendar, a + tail)
  {
    var whole := Factors(calendar, a + tail, Dates(a + tail));
    var head, rest := whole[..|a|], whole[|a|..];
    assert head + rest == whole;
    assert forall x | x in a :: x in a + tail;
    MergeOntoRebuilt(calendar, a, tail, added);
    FactorsOntoRebuilt(calendar, a, tail, added);
    SplitHistory(a, tail, added);
    SortedAlready(a);
    SortedAlready(a + tail);
    PrefixFactors(calendar, a, tail);
    AdjustedTwice(a, tail, head, rest);
  }

  lemma SameScale(a: seq<Row>, head: seq<real>, rest: seq<real>, i: nat)
    requires |head| == |a| && i < |a| + |rest|
    ensures i < |a| ==> ProductFrom(Ones(|a|) + rest, i + 1) == ProductFrom(rest, 0)
                        && ProductFrom(head + rest, i + 1) == ProductFrom(head, i + 1) * ProductFrom(rest, 0)
    ensures i >= |a| ==> ProductFrom(Ones(|a|) + rest, i + 1) == ProductFrom(head + rest, i + 1)
  {
    if i < |a| {
      ProductOfConcat(Ones(|a|), rest, i + 1);
      ProductOfOnes(Ones(|a|), i + 1);
      ProductOfConcat(head, rest, i + 1);
    } else {
      ProductOfTail(Ones(|a|), rest, i + 1 - |a|);
      ProductOfTail(head, rest, i + 1 - |a|);
    }
  }

  // ---- Every way of splitting the history ------------------------------------------------------------------

  predicate IsLater(stored: seq<Row>, d: Date) {
    stored == [] || d > stored[|stored| - 1].date
  }

  /** `select_tail_rows`: keep the fetched rows strictly after the last stored one. */
  function SelectTail(stored: seq<Row>, fetched: seq<Row>): seq<Row> {
    if fetched == [] then []
    else
      var rest := SelectTail(stored, fetched[..|fetched| - 1]);
      var r := fetched[|fetched| - 1];
      if IsLater(stored, r.date) then rest + [r] else rest
  }

  /** The rows of a later date all survive, in the order fetched; no row of another date does. */
  lemma {:induction false} SelectTailKeeps(stored: seq<Row>, fetched: seq<Row>, d: Date)
    ensures RowsOn(SelectTail(stored, fetched), d) == if IsLater(stored, d) then RowsOn(fetched, d) else []
  {
    if fetched != [] {
      var n := |fetched| - 1;
      SelectTailKeeps(stored, fetched[..n], d);
      RowsOnNext(SelectTail(stored, fetched[..n]), fetched[n], d);
    }
  }

  lemma {:induction false} SelectTailMembers(stored: seq<Row>, fetched: seq<Row>)
    ensures forall x :: x in SelectTail(stored, fetched) <==> x in fetched && IsLater(stored, x.date)
  {
    if fetched != [] {
      var n := |fetched| - 1;
      SelectTailMembers(stored, fetched[..n]);
      assert fetched == fetched[..n] + [fetched[n]];
    }
  }

  function IngestGroup(calendar: set<Date>, stored: seq<Row>, fetched: seq<Row>): seq<Row> {
    MergeGroup(calendar, stored, SelectTail(stored, fetched))
  }

  /** One ingest run per fetched block, each with the trading calendar known at that time. */
  function IngestBlocks(calendars: seq<set<Date>>, blocks: seq<seq<Row>>): seq<Row>
    requires |calendars| == |blocks|
  {
    if blocks == [] then []
    else
      var n := |blocks| - 1;
      IngestGroup(calendars[n], IngestBlocks(calendars[..n], blocks[..n]), blocks[n])
  }

  /** The block brings the history from `done` rows to `next` rows; it may fetch old rows again, in any order. */
  predicate Brings(history: seq<Row>, block: seq<Row>, done: nat, next: nat) {
    && done <= next <= |history|
    && (forall x | x in block :: x in history[..next])
    && (forall x | x in history[done..next] :: x in block)
  }

  function StoredBefore(cuts: seq<nat>, k: nat): nat
    requires k <= |cuts|
  {
    if k == 0 then 0 else cuts[k - 1]
  }

  /** `cuts[k]` rows of the history are stored after block k. */
  predicate Splits(history: seq<Row>, blocks: seq<seq<Row>>, cuts: seq<nat>) {
    && |cuts| == |blocks|
    && forall k | 0 <= k < |blocks| :: Brings(history, blocks[k], StoredBefore(cuts, k), cuts[k])
  }

  /** Each run's calendar is the real one as far as the history it stores reaches. */
  predicate CalendarsAgree(calendars: seq<set<Date>>, calendar: set<Date>, history: seq<Row>, cuts: seq<nat>) {
    && |calendars| == |cuts|
    && forall k | 0 <= k < |cuts| :: cuts[k] <= |history|
         && (cuts[k] > 0 ==> Agree(calendars[k], calendar, history[0].date, history[cuts[k] - 1].date))
  }

  /** What is left of a block after dropping stored dates is exactly the next stretch of history. */
  lemma TailOfBlock(history: seq<Row>, stored: seq<Row>, block: seq<Row>, done: nat, next: nat)
    requires Ordered(history) && Brings(history, block, done, next)
    requires |stored| == done && (done > 0 ==> stored[done - 1].date == history[done - 1].date)
    ensures forall x :: x in SelectTail(stored, block) <==> x in history[done..next]
  {
    SelectTailMembers(stored, block);
    forall x
      ensures x in history[done..next] <==> x in history[..next] && (done == 0 || x.date > history[done - 1].date)
    {
      InStretch(history, done, next, x);
    }
  }

  lemma InStretch(history: seq<Row>, done: nat, next: nat, x: Row)
    requires Ordered(history) && done <= next <= |history|
    ensures x in history[done..next] <==> x in history[..next] && (done == 0 || x.date > history[done - 1].date)
  {
    if x in history[done..next] {
      var i :| done <= i < next && history[i] == x;
      assert history[..next][i] == x;
    }
    if x in history[..next] && (done == 0 || x.date > history[done - 1].date) {
      var i :| 0 <= i < next && history[i] == x;
      assert history[done..next][i - done] == x;
    }
  }

  lemma OneIngest(calendar: set<Date>, history: seq<Row>, block: seq<Row>, done: nat, next: nat)
    requires Ordered(history) && AllRaw(history) && Brings(history, block, done, next)
    ensures IngestGroup(calendar, RebuildGroup(calendar, history[..done]), block) ==
            RebuildGroup(calendar, history[..next])
  {
    var a, tail := history[..done], history[done..next];
    assert a + tail == history[..next];
    var stored := RebuildGroup(calendar, a);
    if a != [] { LastRowIsUnscaled(calendar, a); } else { SortedAlready(a); }
    TailOfBlock(history, stored, block, done, next);
    MergeExtendsRebuild(calendar, a, tail, SelectTail(stored, block));
  }

  lemma RebuildAgrees(a: set<Date>, b: set<Date>, rows: seq<Row>)
    requires Ordered(rows) && AllRaw(rows) && (rows != [] ==> Agree(a, b, rows[0].date, rows[|rows| - 1].date))
    ensures RebuildGroup(a, rows) == RebuildGroup(b, rows)
  {
    SortedAlready(rows);
    FactorsOfAgreeing(a, b, rows, Dates(rows));
  }

  lemma IngestAgrees(a: set<Date>, b: set<Date>, history: seq<Row>, block: seq<Row>, done: nat, next: nat)
    requires Ordered(history) && AllRaw(history) && Brings(history, block, done, next)
    requires next > 0 ==> Agree(a, b, history[0].date, history[next - 1].date)
    ensures IngestGroup(a, RebuildGroup(b, history[..done]), block) == RebuildGroup(b, history[..next])
  {
    if done > 0 { assert history[done - 1].date <= history[next - 1].date; }
    RebuildAgrees(a, b, history[..done]);
    RebuildAgrees(a, b, history[..next]);
    OneIngest(a, history, block, done, next);
  }

  lemma SplitsPrefix(calendars: seq<set<Date>>, calendar: set<Date>, history: seq<Row>, blocks: seq<seq<Row>>,
      cuts: seq<nat>)
    requires |blocks| > 1 && Splits(history, blocks, cuts) && CalendarsAgree(calendars, calendar, history, cuts)
    ensures var n := |blocks| - 1;
            Splits(history, blocks[..n], cuts[..n]) && CalendarsAgree(calendars[..n], calendar, history, cuts[..n])
  {
    var n := |blocks| - 1;
    forall k | 0 <= k < n
      ensures Brings(history, blocks[..n][k], StoredBefore(cuts[..n], k), cuts[..n][k])
    {
      assert Brings(history, blocks[k], StoredBefore(cuts, k), cuts[k]);
    }
  }

  lemma NothingToRebuild(calendar: set<Date>, history: seq<Row>)
    ensures RebuildGroup(calendar, history[..0]) == []
  {
  }

  lemma IngestBlocksNext(calendars: seq<set<Date>>, blocks: seq<seq<Row>>)
    requires |calendars| == |blocks| && blocks != []
    ensures var n := |blocks| - 1;
            IngestBlocks(calendars, blocks) ==
                IngestGroup(calendars[n], IngestBlocks(calendars[..n], blocks[..n]), blocks[n])
  {
  }

  lemma OneMoreBlock(calendars: seq<set<Date>>, calendar: set<Date>, history: seq<Row>, blocks: seq<seq<Row>>,
      done: nat, next: nat)
    requires Ordered(history) && AllRaw(history) && blocks != [] && |calendars| == |blocks|
    requires Brings(history, blocks[|blocks| - 1], done, next)
    requires next > 0 ==> Agree(calendars[|blocks| - 1], calendar, history[0].date, history[next - 1].date)
    requires IngestBlocks(calendars[..|blocks| - 1], blocks[..|blocks| - 1]) == RebuildGroup(calendar, history[..done])
    ensures IngestBlocks(calendars, blocks) == RebuildGroup(calendar, history[..next])
  {
    var n := |blocks| - 1;
    IngestBlocksNext(calendars, blocks);
    IngestAgrees(calendars[n], calendar, history, blocks[n], done, next);
  }

  /** Whatever the split into runs, overlapping or out of order within a run, the stored chain is the rebuilt one. */
  lemma {:induction false} AnySplitGivesTheRebuild(calendars: seq<set<Date>>, calendar: set<Date>, history: seq<Row>,
      blocks: seq<seq<Row>>, cuts: seq<nat>)
    requires Ordered(history) && AllRaw(history) && blocks != []
    requires Splits(history, blocks, cuts) && CalendarsAgree(calendars, calendar, history, cuts)
    ensures IngestBlocks(calendars, blocks) == RebuildGroup(calendar, history[..cuts[|cuts| - 1]])
  {
    var n := |blocks| - 1;
    if n > 0 {
      SplitsPrefix(calendars, calendar, history, blocks, cuts);
      AnySplitGivesTheRebuild(calendars[..n], calendar, history, blocks[..n], cuts[..n]);
    } else {
      NothingToRebuild(calendar, history);
    }
    OneMoreBlock(calendars, calendar, history, blocks, StoredBefore(cuts, n), cuts[n]);
  }

  // ---- Whole panels --------------------------------------------------------------------------------------------

  type Symbol = string

  type Panel = map<Symbol, seq<Row>>

  function Rows(panel: Panel, s: Symbol): seq<Row> {
    if s in panel then panel[s] else []
  }

  function IngestPanel(calendar: set<Date>, panel: Panel, fetched: Panel): Panel {
    map s | s in panel.Keys + fetched.Keys :: IngestGroup(calendar, Rows(panel, s), Rows(fetched, s))
  }

  function IngestRuns(calendars: seq<set<Date>>, runs: seq<Panel>): Panel
    requires |calendars| == |runs|
  {
    if runs == [] then map[]
    else
      var n := |runs| - 1;
      IngestPanel(calendars[n], IngestRuns(calendars[..n], runs[..n]), runs[n])
  }

  /** The rebuild's own calendar: every date on which any symbol has a row. */
  function TradingDates(raw: Panel): set<Date> {
    set s, r | s in raw && r in raw[s] :: r.date
  }

  function RebuildPanel(raw: Panel): Panel {
    map s | s in raw :: RebuildGroup(TradingDates(raw), raw[s])
  }

  function BlocksOf(runs: seq<Panel>, s: Symbol): (blocks: seq<seq<Row>>)
    ensures |blocks| == |runs|
  {
    seq(|runs|, k requires 0 <= k < |runs| => Rows(runs[k], s))
  }

  lemma {:induction false} RunsBySymbol(calendars: seq<set<Date>>, runs: seq<Panel>, s: Symbol)
    requires |calendars| == |runs|
    ensures Rows(IngestRuns(calendars, runs), s) == IngestBlocks(calendars, BlocksOf(runs, s))
  {
    if runs != [] {
      var n := |runs| - 1;
      RunsBySymbol(calendars[..n], runs[..n], s);
      assert BlocksOf(runs, s)[..n] == BlocksOf(runs[..n], s);
      var before := IngestRuns(calendars[..n], runs[..n]);
      if s !in before.Keys + runs[n].Keys {
        assert IngestGroup(calendars[n], [], []) == [];
      }
    }
  }

  /** The panel kept by nightly ingestion is the panel a rebuild from the whole raw history would write. */
  lemma IngestionEqualsRebuild(calendars: seq<set<Date>>, raw: Panel, runs: seq<Panel>, cuts: map<Symbol, seq<nat>>)
    requires runs != [] && |calendars| == |runs| && cuts.Keys == raw.Keys
    requires forall s | s in raw :: Ordered(raw[s]) && AllRaw(raw[s])
    requires forall s | s in raw :: Splits(raw[s], BlocksOf(runs, s), cuts[s]) && cuts[s][|runs| - 1] == |raw[s]|
    requires forall s | s in raw :: CalendarsAgree(calendars, TradingDates(raw), raw[s], cuts[s])
    ensures forall s | s in raw :: Rows(IngestRuns(calendars, runs), s) == Rows(RebuildPanel(raw), s)
  {
    forall s | s in raw
      ensures Rows(IngestRuns(calendars, runs), s) == Rows(RebuildPanel(raw), s)
    {
      OneSymbolEqualsRebuild(calendars, raw, runs, cuts[s], s);
    }
  }

  lemma OneSymbolEqualsRebuild(calendars: seq<set<Date>>, raw: Panel, runs: seq<Panel>, cuts: seq<nat>, s: Symbol)
    requires runs != [] && |calendars| == |runs| && s in raw && Ordered(raw[s]) && AllRaw(raw[s])
    requires Splits(raw[s], BlocksOf(runs, s), cuts) && cuts[|runs| - 1] == |raw[s]|
    requires CalendarsAgree(calendars, TradingDates(raw), raw[s], cuts)
    ensures Rows(IngestRuns(calendars, runs), s) == Rows(RebuildPanel(raw), s)
  {
    RunsBySymbol(calendars, runs, s);
    AnySplitGivesTheRebuild(calendars, TradingDates(raw), raw[s], BlocksOf(runs, s), cuts);
    assert raw[s][..|raw[s]|] == raw[s];
  }

  // ---- Continuity of the adjusted chain ---------------------------------------------------------------------

  /**
   * Across a corporate action the adjusted base price is the adjusted close before it and the adjusted
   * return is the raw close over the base; across any other pair of consecutive trading days the two differ
   * by at most the tolerance times the row's scale; a gap never changes the scale.
   */
  lemma AdjustedChainIsContinuous(calendar: set<Date>, rows: seq<Row>, added: set<Date>, i: nat)
    requires 0 < i < |rows| && rows[i].date in added
    requires forall k | 0 <= k < |rows| && rows[k].date in added :: rows[k].prevClose > 0.0
    ensures var f := Factors(calendar, rows, added);
            ProductFrom(f, i + 1) > 0.0
            && Continuous(calendar, rows[i - 1], rows[i], Adjusted(rows, f)[i - 1], Adjusted(rows, f)[i],
                ProductFrom(f, i + 1))
  {
    var f := Factors(calendar, rows, added);
    ScaleIsPositive(calendar, rows, added, i);
    ContinuousPair(calendar, rows[i - 1], rows[i], f[i], ProductFrom(f, i), ProductFrom(f, i + 1));
  }

  /** The claim about two neighbouring rows, before (`prior`, `row`) and after (`outPrior`, `out`) adjustment. */
  predicate Continuous(calendar: set<Date>, prior: Row, row: Row, outPrior: Row, out: Row, scale: real) {
    if IsEvent(calendar, prior, row) then
      && out.prevClose == outPrior.close && out.prevClose > 0.0 && row.prevClose > 0.0
      && out.close / out.prevClose == row.close / row.prevClose
    else
      && outPrior.close == prior.close * scale
      && (IsPreviousDay(calendar, prior.date, row.date) && prior.close > 0.0 ==>
            WithinTolerance(out.prevClose, outPrior.close, scale))
  }

  predicate WithinTolerance(x: real, y: real, scale: real) {
    -(PRICE_EVENT_TOLERANCE * scale) <= x - y <= PRICE_EVENT_TOLERANCE * scale
  }

  lemma EventPair(calendar: set<Date>, prior: Row, row: Row, factor: real, before: real, scale: real)
    requires IsEvent(calendar, prior, row) && factor == row.prevClose / prior.close
    requires row.prevClose > 0.0 && scale > 0.0 && before == factor * scale
    ensures Continuous(calendar, prior, row, ScaleRow(prior, before), ScaleRow(row, scale), scale)
  {
    ContinueEvent(prior.close, row.prevClose, row.close, factor, scale);
  }

  lemma QuietPair(calendar: set<Date>, prior: Row, row: Row, scale: real)
    requires !IsEvent(calendar, prior, row) && scale > 0.0
    ensures Continuous(calendar, prior, row, ScaleRow(prior, scale), ScaleRow(row, scale), scale)
  {
    if IsPreviousDay(calendar, prior.date, row.date) && prior.close > 0.0 {
      QuietRows(prior, row, scale);
    }
  }

  lemma QuietRows(prior: Row, row: Row, scale: real)
    requires scale > 0.0 && -PRICE_EVENT_TOLERANCE <= row.prevClose - prior.close <= PRICE_EVENT_TOLERANCE
    ensures WithinTolerance(ScaleRow(row, scale).prevClose, ScaleRow(prior, scale).close, scale)
  {
    ContinueQuiet(prior.close, row.prevClose, scale);
  }

  lemma ContinuousPair(calendar: set<Date>, prior: Row, row: Row, factor: real, before: real, scale: real)
    requires row.prevClose > 0.0 && scale > 0.0 && before == factor * scale
    requires factor == if IsEvent(calendar, prior, row) then row.prevClose / prior.close else 1.0
    ensures Continuous(calendar, prior, row, ScaleRow(prior, before), ScaleRow(row, scale), scale)
  {
    if IsEvent(calendar, prior, row) {
      EventPair(calendar, prior, row, factor, before, scale);
    } else {
      assert before == scale;
      QuietPair(calendar, prior, row, scale);
    }
  }

  lemma ScaleIsPositive(calendar: set<Date>, rows: seq<Row>, added: set<Date>, i: nat)
    requires 0 < i < |rows|
    requires forall k | 0 <= k < |rows| && rows[k].date in added :: rows[k].prevClose > 0.0
    ensures var f := Factors(calendar, rows, added);
            ProductFrom(f, i + 1) > 0.0 && ProductFrom(f, i) == f[i] * ProductFrom(f, i + 1)
  {
    var f := Factors(calendar, rows, added);
    forall k | 0 <= k < |rows|
      ensures f[k] > 0.0
    {
      FactorPositive(calendar, rows, added, k);
    }
    ProductPositive(f, i + 1);
  }

  lemma FactorPositive(calendar: set<Date>, rows: seq<Row>, added: set<Date>, k: nat)
    requires k < |rows| && (rows[k].date in added ==> rows[k].prevClose > 0.0)
    ensures Factor(calendar, rows, added, k) > 0.0
  {
  }

  lemma ContinueEvent(prior: real, base: real, close: real, factor: real, scale: real)
    requires prior > 0.0 && base > 0.0 && scale > 0.0 && factor == base / prior
    ensures prior * (factor * scale) == base * scale && base * scale > 0.0
    ensures close * scale / (base * scale) == close / base
  {
    assert prior * factor == base;
    assert prior * (factor * scale) == prior * factor * scale;
    var q := close / base;
    assert q * base == close;
    assert q * (base * scale) == close * scale;
  }

  lemma ContinueQuiet(prior: real, base: real, scale: real)
    requires scale > 0.0 && -PRICE_EVENT_TOLERANCE <= base - prior <= PRICE_EVENT_TOLERANCE
    ensures WithinTolerance(base * scale, prior * scale, scale)
  {
    assert (base - prior) * scale == base * scale - prior * scale;
    KeepsOrder(-PRICE_EVENT_TOLERANCE, base - prior, scale);
    KeepsOrder(base - prior, PRICE_EVENT_TOLERANCE, scale);
  }

  lemma KeepsOrder(x: real, y: real, scale: real)
    requires x <= y && scale > 0.0
    ensures x * scale <= y * scale
  {
  }
}
