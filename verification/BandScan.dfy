/**
 * Adaptive bisection of a capped ranking query (src/daily/universe_scan.py). The vendor answers at most 30 rows of a
 * closed band and has no continuation, so a full answer is split until every part is below the cap.
 */
module BandScan {
  import opened Common

  const ROW_CAP: nat := 30

  type Code = int

  /** One listed row; a blank code is None. `rate` is in basis points. */
  datatype Row = Row(code: Option<Code>, rate: real)

  datatype Answer = Failed | Rows(rows: seq<Row>)

  /** The vendor's answer to call number n for the band [a, b]. */
  type Vendor = (nat, int, int) -> Answer

  datatype ScanError = BudgetExhausted | VendorFailed | Saturated

  predicate InBand(r: Row, a: int, b: int) {
    a as real <= r.rate <= b as real
  }

  function Matches(market: seq<Row>, a: int, b: int): seq<Row> {
    if market == [] then []
    else
      Matches(market[..|market| - 1], a, b)
      + (if InBand(market[|market| - 1], a, b) then [market[|market| - 1]] else [])
  }

  /** A ranking over a fixed market: every match while they are below the cap, a full page otherwise, in any order. */
  ghost predicate IsRankingOf(vendor: Vendor, market: seq<Row>) {
    forall n, a, b :: vendor(n, a, b).Rows? ==>
                        if |Matches(market, a, b)| < ROW_CAP
                        then multiset(vendor(n, a, b).rows) == multiset(Matches(market, a, b))
                        else |vendor(n, a, b).rows| >= ROW_CAP
  }

  ghost predicate Answers(vendor: Vendor) {
    forall n, a, b :: vendor(n, a, b).Rows?
  }

  /** Calls that a band can cost: one, or two per grid step less one. */
  function Cost(a: int, b: int): (n: nat)
    ensures n >= 1 && (b - a >= 1 ==> n == 2 * (b - a) - 1)
  {
    if b - a <= 1 then 1 else 2 * (b - a) - 1
  }

  function StackCost(stack: seq<(int, int)>): nat {
    if stack == [] then 0 else StackCost(stack[..|stack| - 1]) + Cost(stack[|stack| - 1].0, stack[|stack| - 1].1)
  }

  /** No band that cannot be split any further is saturated. */
  predicate GridFits(market: seq<Row>, lo: int, hi: int) {
    if lo >= hi then |Matches(market, lo, hi)| < ROW_CAP
    else forall k | lo <= k < hi :: UnitFits(market, k)
  }

  predicate UnitFits(market: seq<Row>, k: int) {
    |Matches(market, k, k + 1)| < ROW_CAP
  }

  /** `found` is the coded part of the closed band: every code, and for each code a row that carries it. */
  ghost predicate IsBand(found: map<Code, Row>, market: seq<Row>, lo: int, hi: int) {
    && (forall r | r in market && InBand(r, lo, hi) && r.code.Some? :: r.code.value in found)
    && OnlyBand(found, market, lo, hi)
  }

  ghost predicate OnlyBand(found: map<Code, Row>, market: seq<Row>, lo: int, hi: int) {
    forall c | c in found :: found[c] in market && InBand(found[c], lo, hi) && found[c].code == Some(c)
  }

  lemma {:induction false} MatchesMembers(market: seq<Row>, a: int, b: int)
    ensures forall r :: r in Matches(market, a, b) <==> r in market && InBand(r, a, b)
  {
    if market != [] {
      MatchesMembers(market[..|market| - 1], a, b);
      assert market == market[..|market| - 1] + [market[|market| - 1]];
    }
  }

  lemma {:induction false} WiderBandMatchesMore(market: seq<Row>, a: int, b: int, c: int, d: int)
    requires c <= a && b <= d
    ensures |Matches(market, a, b)| <= |Matches(market, c, d)|
  {
    if market != [] {
      WiderBandMatchesMore(market[..|market| - 1], a, b, c, d);
    }
  }

  /** What is still to be done: every coded match and every grid step is settled or lies in a band on the stack. */
  ghost predicate Covers(stack: seq<(int, int)>, found: map<Code, Row>, market: seq<Row>, lo: int, hi: int) {
    && (forall i | 0 <= i < |stack| :: IsPart(stack[i], lo, hi))
    && CoversRows(stack, found, market, lo, hi)
    && CoversGrid(stack, market, lo, hi)
  }

  ghost predicate CoversRows(stack: seq<(int, int)>, found: map<Code, Row>, market: seq<Row>, lo: int, hi: int) {
    forall r | r in market && InBand(r, lo, hi) && r.code.Some? :: r.code.value in found || Awaits(stack, r)
  }

  predicate CoversGrid(stack: seq<(int, int)>, market: seq<Row>, lo: int, hi: int) {
    && (forall k | lo <= k < hi :: UnitFits(market, k) || AwaitsUnit(stack, k))
    && (lo >= hi && stack == [] ==> |Matches(market, lo, hi)| < ROW_CAP)
  }

  predicate IsPart(band: (int, int), lo: int, hi: int) {
    band == (lo, hi) || lo <= band.0 < band.1 <= hi
  }

  predicate Awaits(stack: seq<(int, int)>, r: Row) {
    exists i | 0 <= i < |stack| :: InBand(r, stack[i].0, stack[i].1)
  }

  predicate AwaitsUnit(stack: seq<(int, int)>, k: int) {
    exists i | 0 <= i < |stack| :: stack[i].0 <= k < stack[i].1
  }

  lemma SplitCovers(rest: seq<(int, int)>, a: int, b: int, found: map<Code, Row>, market: seq<Row>, lo: int, hi: int)
    requires Covers(rest + [(a, b)], found, market, lo, hi) && b - a > 1
    ensures Covers(rest + [((a + b) / 2, b), (a, (a + b) / 2)], found, market, lo, hi)
  {
    var stack, mid := rest + [(a, b)], (a + b) / 2;
    var split := rest + [(mid, b), (a, mid)];
    var n := |rest|;
    assert stack[n] == (a, b) && split[n] == (mid, b) && split[n + 1] == (a, mid);
    assert forall i | 0 <= i < n :: stack[i] == rest[i] && split[i] == rest[i];
    forall r: Row | Awaits(stack, r)
      ensures Awaits(split, r)
    {
      var i :| 0 <= i < |stack| && InBand(r, stack[i].0, stack[i].1);
      assert InBand(r, split[i].0, split[i].1) || InBand(r, split[n + 1].0, split[n + 1].1);
    }
    forall k | AwaitsUnit(stack, k)
      ensures AwaitsUnit(split, k)
    {
      var i :| 0 <= i < |stack| && stack[i].0 <= k < stack[i].1;
      assert split[i].0 <= k < split[i].1 || split[n + 1].0 <= k < split[n + 1].1;
    }
  }

  lemma LeafCoversGrid(rest: seq<(int, int)>, a: int, b: int, market: seq<Row>, lo: int, hi: int)
    requires CoversGrid(rest + [(a, b)], market, lo, hi) && |Matches(market, a, b)| < ROW_CAP && IsPart((a, b), lo, hi)
    ensures CoversGrid(rest, market, lo, hi)
  {
    var stack := rest + [(a, b)];
    forall k | lo <= k < hi && !UnitFits(market, k)
      ensures AwaitsUnit(rest, k)
    {
      var i :| 0 <= i < |stack| && stack[i].0 <= k < stack[i].1;
      if i == |rest| {
        WiderBandMatchesMore(market, k, k + 1, a, b);
      }
      assert rest[i] == stack[i];
    }
  }

  lemma LeafCoversRows(rest: seq<(int, int)>, a: int, b: int, found: map<Code, Row>, now: map<Code, Row>,
      market: seq<Row>, lo: int, hi: int)
    requires CoversRows(rest + [(a, b)], found, market, lo, hi) && found.Keys <= now.Keys
    requires forall r | r in market && InBand(r, a, b) && r.code.Some? :: r.code.value in now
    ensures CoversRows(rest, now, market, lo, hi)
  {
    var stack := rest + [(a, b)];
    forall r | r in market && InBand(r, lo, hi) && r.code.Some? && r.code.value !in now
      ensures Awaits(rest, r)
    {
      var i :| 0 <= i < |stack| && InBand(r, stack[i].0, stack[i].1);
      assert i < |rest| && rest[i] == stack[i];
    }
  }

  /** A band below the cap is done with: its rows are kept and its grid steps fit. */
  lemma LeafCovers(rest: seq<(int, int)>, a: int, b: int, found: map<Code, Row>, now: map<Code, Row>,
      market: seq<Row>, lo: int, hi: int)
    requires Covers(rest + [(a, b)], found, market, lo, hi) && |Matches(market, a, b)| < ROW_CAP
    requires OnlyBand(found, market, lo, hi)
    requires found.Keys <= now.Keys && forall r | r in Matches(market, a, b) && r.code.Some? :: r.code.value in now
    requires forall c | c in now ::
            (c in found && now[c] == found[c]) || (now[c] in Matches(market, a, b) && now[c].code == Some(c))
    ensures Covers(rest, now, market, lo, hi) && OnlyBand(now, market, lo, hi)
  {
    var stack := rest + [(a, b)];
    assert forall i | 0 <= i < |rest| :: stack[i] == rest[i];
    assert IsPart(stack[|rest|], lo, hi);
    MatchesMembers(market, a, b);
    LeafCoversGrid(rest, a, b, market, lo, hi);
    LeafCoversRows(rest, a, b, found, now, market, lo, hi);
  }

  lemma SaturatedLeaf(market: seq<Row>, band: (int, int), lo: int, hi: int)
    requires IsPart(band, lo, hi) && band.1 - band.0 <= 1 && |Matches(market, band.0, band.1)| >= ROW_CAP
    ensures !GridFits(market, lo, hi)
  {
    if lo < hi {
      assert !UnitFits(market, band.0);
    }
  }

  /** Keep the coded rows of one answer; a row of a boundary seen twice is absorbed by its code. */
  method KeepRows(found: map<Code, Row>, rows: seq<Row>) returns (now: map<Code, Row>)
    ensures found.Keys <= now.Keys
    ensures forall r | r in rows && r.code.Some? :: r.code.value in now
    ensures forall c | c in now :: (c in found && now[c] == found[c]) || (now[c] in rows && now[c].code == Some(c))
  {
    now := found;
    for i := 0 to |rows|
      invariant found.Keys <= now.Keys
      invariant forall j | 0 <= j < i && rows[j].code.Some? :: rows[j].code.value in now
      invariant forall c | c in now :: (c in found && now[c] == found[c]) || (now[c] in rows && now[c].code == Some(c))
    {
      if rows[i].code.Some? {
        now := now[rows[i].code.value := rows[i]];
      }
    }
  }

  lemma SplitCost(rest: seq<(int, int)>, a: int, b: int)
    requires b - a > 1
    ensures StackCost(rest + [((a + b) / 2, b), (a, (a + b) / 2)]) == StackCost(rest + [(a, b)]) - 1
  {
    var mid := (a + b) / 2;
    var split := rest + [(mid, b), (a, mid)];
    assert split[..|split| - 1] == rest + [(mid, b)];
    assert (rest + [(mid, b)])[..|rest|] == rest && (rest + [(a, b)])[..|rest|] == rest;
  }

  lemma SameRows(rows: seq<Row>, matches: seq<Row>)
    requires multiset(rows) == multiset(matches)
    ensures forall r :: r in rows <==> r in matches
  {
    forall r
      ensures r in rows <==> r in matches
    {
      assert r in rows <==> r in multiset(rows);
    }
  }

  lemma PageSize(rows: seq<Row>, matches: seq<Row>)
    ensures multiset(rows) == multiset(matches) ==> |rows| == |matches|
  {
    assert |multiset(rows)| == |rows| && |multiset(matches)| == |matches|;
  }

  /** `fetch_kis_band_ranking` over the grid band [lo, hi]. */
  method FetchBandRanking(lo: int, hi: int, maxCalls: nat, vendor: Vendor, ghost market: seq<Row>)
    returns (r: Result<map<Code, Row>, ScanError>, calls: nat)
    requires IsRankingOf(vendor, market)
    ensures calls <= Cost(lo, hi) && calls <= maxCalls
    ensures r.Ok? ==> IsBand(r.value, market, lo, hi) && GridFits(market, lo, hi)
    ensures r == Err(Saturated) ==> !GridFits(market, lo, hi)
    ensures r == Err(BudgetExhausted) ==> calls == maxCalls < Cost(lo, hi)
    ensures r == Err(VendorFailed) ==> !Answers(vendor)
    ensures Answers(vendor) && maxCalls >= Cost(lo, hi) ==> (r.Ok? <==> GridFits(market, lo, hi))
  {
    var found: map<Code, Row> := map[];
    calls := 0;
    var stack := [(lo, hi)];
    assert StackCost(stack) == Cost(lo, hi) by { assert stack[..0] == []; }
    while stack != []
      invariant Covers(stack, found, market, lo, hi) && OnlyBand(found, market, lo, hi)
      invariant calls + StackCost(stack) <= Cost(lo, hi) && calls <= maxCalls
      decreases StackCost(stack)
    {
      var (a, b) := stack[|stack| - 1];
      var rest := stack[..|stack| - 1];
      assert stack == rest + [(a, b)];
      assert IsPart((a, b), lo, hi);
      if calls >= maxCalls {
        return Err(BudgetExhausted), calls;
      }
      var answer := vendor(calls, a, b);
      calls := calls + 1;
      if answer.Failed? {
        return Err(VendorFailed), calls;
      }
      if |answer.rows| >= ROW_CAP {
        assert |Matches(market, a, b)| >= ROW_CAP by { PageSize(answer.rows, Matches(market, a, b)); }
        if b - a <= 1 {
          SaturatedLeaf(market, (a, b), lo, hi);
          return Err(Saturated), calls;
        }
        SplitCost(rest, a, b);
        SplitCovers(rest, a, b, found, market, lo, hi);
        stack := rest + [((a + b) / 2, b), (a, (a + b) / 2)];
      } else {
        assert |Matches(market, a, b)| < ROW_CAP;
        SameRows(answer.rows, Matches(market, a, b));
        var now := KeepRows(found, answer.rows);
        LeafCovers(rest, a, b, found, now, market, lo, hi);
        found := now;
        stack := rest;
      }
    }
    return Ok(found), calls;
  }
}
